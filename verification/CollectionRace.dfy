/**
 * Several workers importing into one collection at once. Each runs the collection check of
 * the writer, one HTTP request per step; any interleaving, any faults, points being written.
 */
module CollectionRace {
  import opened Util
  import opened VectorStore
  import opened VectorWriter

  /** Where a worker is between two requests of `_ensure_collection`. */
  datatype Pc = Probing | Creating | Rereading | Passed | Failed(error: WriteError)

  datatype Worker = Worker(size: nat, pc: Pc)
  datatype System = System(world: World, workers: seq<Worker>)

  /** One request of one worker, or a batch of points reaching the collection. */
  datatype Step = Act(worker: nat) | Put(items: seq<Item>)

  function Settle(outcome: Outcome): Pc {
    match outcome case Ok => Passed case Err(e) => Failed(e)
  }

  function Advance(env: Env, w: World, name: string, size: nat, pc: Pc): (World, Pc) {
    match pc
    case Probing =>
      var (next, info) := GetInfo(env, w, name);
      (next, if info == InfoErr(Some(404)) then Creating else Settle(CheckSize(info, size)))
    case Creating =>
      var (next, created) := SendCreate(env, w, name, size);
      (next, if created == Err(Http(Some(409))) then Rereading else Settle(created))
    case Rereading =>
      var (next, info) := GetInfo(env, w, name);
      (next, Settle(CheckSize(info, size)))
    case _ => (w, pc)
  }

  /** The steps are the writer's own: a worker left alone computes `_ensure_collection`. */
  lemma AloneIsEnsureCollection(env: Env, w: World, name: string, size: nat)
    ensures var (w1, p1) := Advance(env, w, name, size, Probing);
            var (w2, p2) := Advance(env, w1, name, size, p1);
            var (w3, p3) := Advance(env, w2, name, size, p2);
            var (done, outcome) := EnsureCollection(env, w, name, size);
            w3 == done && p3 == Settle(outcome)
  {
  }

  function Next(env: Env, name: string, s: System, step: Step): System {
    match step
    case Put(items) => s.(world := PutPoints(env, s.world, name, items).0)
    case Act(i) =>
      if i < |s.workers| then
        var (w, pc) := Advance(env, s.world, name, s.workers[i].size, s.workers[i].pc);
        System(w, s.workers[i := s.workers[i].(pc := pc)])
      else s
  }

  function Execute(env: Env, name: string, s: System, steps: seq<Step>): System
    decreases |steps|
  {
    if steps == [] then s else Execute(env, name, Next(env, name, s, steps[0]), steps[1..])
  }

  /** The size the server holds; None while the collection does not exist. */
  function ServerSize(s: System, name: string): Option<nat> {
    if name in s.world.store then s.world.store[name].size else None
  }

  predicate Exists(s: System, name: string) { name in s.world.store }

  /** The server reports the collection's size whenever it exists. */
  predicate Reported(s: System, name: string) {
    Exists(s, name) ==> s.world.store[name].size.Some?
  }

  /** Workers that passed see a collection of their own size. */
  ghost predicate Agreement(s: System, name: string) {
    && Reported(s, name)
    && forall i :: 0 <= i < |s.workers| && s.workers[i].pc.Passed? ==> ServerSize(s, name) == Some(s.workers[i].size)
  }

  function Creates(env: Env, name: string, s: System, steps: seq<Step>): nat
    decreases |steps|
  {
    if steps == [] then 0
    else
      var next := Next(env, name, s, steps[0]);
      (if Exists(next, name) && !Exists(s, name) then 1 else 0) + Creates(env, name, next, steps[1..])
  }

  lemma StepKeepsSize(env: Env, name: string, s: System, step: Step)
    requires Exists(s, name)
    ensures Exists(Next(env, name, s, step), name)
    ensures ServerSize(Next(env, name, s, step), name) == ServerSize(s, name)
  {
  }

  lemma StepKeepsAgreement(env: Env, name: string, s: System, step: Step)
    requires Agreement(s, name)
    ensures Agreement(Next(env, name, s, step), name)
  {
    var next := Next(env, name, s, step);
    if step.Act? && step.worker < |s.workers| {
      assert forall i :: 0 <= i < |s.workers| && i != step.worker ==> next.workers[i] == s.workers[i];
    }
  }

  /** Safety of every run: agreement is kept, and a size once set never changes. */
  lemma {:induction false} RunsAgree(env: Env, name: string, s: System, steps: seq<Step>)
    requires Agreement(s, name)
    ensures var last := Execute(env, name, s, steps);
            && Agreement(last, name)
            && |last.workers| == |s.workers|
            && (Exists(s, name) ==> Exists(last, name) && ServerSize(last, name) == ServerSize(s, name))
            && (forall i :: 0 <= i < |s.workers| ==> last.workers[i].size == s.workers[i].size)
            && (forall i :: 0 <= i < |s.workers| && s.workers[i].pc.Passed? ==> last.workers[i].pc.Passed?)
    decreases |steps|
  {
    hide Agreement;
    if steps != [] {
      var next := Next(env, name, s, steps[0]);
      StepKeepsAgreement(env, name, s, steps[0]);
      if Exists(s, name) { StepKeepsSize(env, name, s, steps[0]); }
      RunsAgree(env, name, next, steps[1..]);
    }
  }

  /** At most one create takes effect in any run, and none once the collection exists. */
  lemma {:induction false} AtMostOneCreate(env: Env, name: string, s: System, steps: seq<Step>)
    ensures Creates(env, name, s, steps) <= 1
    ensures Exists(s, name) ==> Creates(env, name, s, steps) == 0
    decreases |steps|
  {
    if steps != [] {
      var next := Next(env, name, s, steps[0]);
      if Exists(s, name) { StepKeepsSize(env, name, s, steps[0]); }
      AtMostOneCreate(env, name, next, steps[1..]);
    }
  }

  // ----- fault-free runs

  ghost predicate Quiet(env: Env) {
    forall n: nat :: env.fault(n) == Healthy
  }

  predicate Settled(pc: Pc) { pc.Passed? || pc.Failed? }

  /** Without faults a worker fails only against a collection of another size. */
  ghost predicate QuietInvariant(s: System, name: string) {
    && Agreement(s, name)
    && forall i :: 0 <= i < |s.workers| ==>
         match s.workers[i].pc
         case Failed(e) => e == SizeMismatch && Exists(s, name) && ServerSize(s, name) != Some(s.workers[i].size)
         case Rereading => Exists(s, name)
         case _ => true
  }

  lemma QuietStep(env: Env, name: string, s: System, step: Step)
    requires Quiet(env) && QuietInvariant(s, name)
    ensures QuietInvariant(Next(env, name, s, step), name)
  {
    StepKeepsAgreement(env, name, s, step);
    if Exists(s, name) { StepKeepsSize(env, name, s, step); }
    var next := Next(env, name, s, step);
    if step.Act? && step.worker < |s.workers| {
      assert forall i :: 0 <= i < |s.workers| && i != step.worker ==> next.workers[i] == s.workers[i];
    }
  }

  lemma {:induction false} QuietRun(env: Env, name: string, s: System, steps: seq<Step>)
    requires Quiet(env) && QuietInvariant(s, name)
    ensures QuietInvariant(Execute(env, name, s, steps), name)
    decreases |steps|
  {
    hide QuietInvariant, Next;
    if steps != [] {
      QuietStep(env, name, s, steps[0]);
      QuietRun(env, name, Next(env, name, s, steps[0]), steps[1..]);
    }
  }

  /**
   * When every worker of a fault-free run has settled, exactly those whose size the server
   * holds have passed; in particular workers of one common size all pass.
   */
  lemma SettledWorkers(env: Env, name: string, s: System, steps: seq<Step>)
    requires Quiet(env) && Reported(s, name)
    requires forall i :: 0 <= i < |s.workers| ==> s.workers[i].pc == Probing
    ensures var last := Execute(env, name, s, steps);
            (forall i :: 0 <= i < |last.workers| ==> Settled(last.workers[i].pc)) ==>
            (forall i :: 0 <= i < |last.workers| ==>
              (last.workers[i].pc == Passed <==> ServerSize(last, name) == Some(last.workers[i].size)))
    ensures var last := Execute(env, name, s, steps);
            !Exists(s, name)
            && (forall i :: 0 <= i < |last.workers| ==> Settled(last.workers[i].pc))
            && (forall i, j :: 0 <= i < j < |s.workers| ==> s.workers[i].size == s.workers[j].size) ==>
            (forall i :: 0 <= i < |last.workers| ==> last.workers[i].pc == Passed)
  {
    hide Next;
    QuietRun(env, name, s, steps);
    RunsAgree(env, name, s, steps);
    if !Exists(s, name) { CreatedByWorker(env, name, s, steps); }
  }

  /** A collection that appears during a run has the size of one of the workers. */
  lemma {:induction false} CreatedByWorker(env: Env, name: string, s: System, steps: seq<Step>)
    requires !Exists(s, name)
    ensures var last := Execute(env, name, s, steps);
            Exists(last, name) ==> exists i :: 0 <= i < |s.workers| && ServerSize(last, name) == Some(s.workers[i].size)
    decreases |steps|
  {
    if steps != [] {
      var next := Next(env, name, s, steps[0]);
      assert forall i :: 0 <= i < |s.workers| ==> next.workers[i].size == s.workers[i].size;
      if Exists(next, name) {
        assert steps[0].Act?;
        assert ServerSize(next, name) == Some(s.workers[steps[0].worker].size);
        SizeStays(env, name, next, steps[1..]);
      } else {
        CreatedByWorker(env, name, next, steps[1..]);
      }
    }
  }

  lemma {:induction false} SizeStays(env: Env, name: string, s: System, steps: seq<Step>)
    requires Exists(s, name)
    ensures ServerSize(Execute(env, name, s, steps), name) == ServerSize(s, name)
    decreases |steps|
  {
    if steps != [] {
      StepKeepsSize(env, name, s, steps[0]);
      SizeStays(env, name, Next(env, name, s, steps[0]), steps[1..]);
    }
  }

  // ----- every worker needs at most three requests

  function Remaining(pc: Pc): nat {
    match pc case Probing => 3 case Creating => 2 case Rereading => 1 case _ => 0
  }

  function Work(workers: seq<Worker>): nat {
    if workers == [] then 0 else Remaining(workers[0].pc) + Work(workers[1..])
  }

  lemma {:induction false} WorkUpdate(workers: seq<Worker>, i: nat, worker: Worker)
    requires i < |workers|
    ensures Work(workers[i := worker]) == Work(workers) - Remaining(workers[i].pc) + Remaining(worker.pc)
  {
    if i > 0 {
      WorkUpdate(workers[1..], i - 1, worker);
      assert workers[i := worker][1..] == workers[1..][i - 1 := worker];
    } else {
      assert workers[i := worker][1..] == workers[1..];
    }
  }

  /** Each request of an unsettled worker brings the whole system closer to settling. */
  lemma RequestsProgress(env: Env, name: string, s: System, i: nat)
    requires i < |s.workers| && !Settled(s.workers[i].pc)
    ensures Work(Next(env, name, s, Act(i)).workers) < Work(s.workers)
  {
    var (w, pc) := Advance(env, s.world, name, s.workers[i].size, s.workers[i].pc);
    WorkUpdate(s.workers, i, s.workers[i].(pc := pc));
  }
}
