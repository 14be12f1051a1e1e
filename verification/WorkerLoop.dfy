/**
 * The import worker: claim a job, advance it one stage per transaction, mark it failed when a stage
 * raises. Service calls are arbitrary: each hands the session some writes and then returns or raises.
 * A finite script holds what every call answers; where the script ends, the stop signal has come.
 */
module WorkerLoop {
  import opened Util

  datatype Job = Job(id: string, running: bool)

  /** `ImportServiceError`, or any other exception. */
  datatype Raised = ServiceError | OtherError

  /** One service call: the writes it made through the session, then a value or an exception. */
  datatype Call<!D, T> = Returns(writes: seq<D -> D>, value: T) | Raises(writes: seq<D -> D>, raised: Raised)

  datatype Outcome<T> = Done(value: T) | Threw(raised: Raised)

  /** One turn of the inner loop. */
  datatype Turn<!D> = Turn(
    heartbeat: Call<D, ()>, advance: Call<D, Job>, commits: bool,
    mark: Call<D, Job>, markCommits: bool)

  /** One turn of the outer loop. */
  datatype Round<!D> = Round(claim: Call<D, Option<Job>>, commits: bool, turns: seq<Turn<D>>)

  function Replay<D>(writes: seq<D -> D>, db: D): D
    decreases |writes|
  {
    if writes == [] then db else Replay(writes[1..], writes[0](db))
  }

  lemma {:induction false} ReplayAppend<D>(a: seq<D -> D>, b: seq<D -> D>, db: D)
    ensures Replay(a + b, db) == Replay(b, Replay(a, db))
    decreases |a|
  {
    if a == [] {
      assert a + b == b;
    } else {
      ReplayAppend(a[1..], b, a[0](db));
      assert (a + b)[1..] == a[1..] + b;
    }
  }

  // ----- sessions

  class Database<D> {
    var committed: D

    constructor (db: D)
      ensures committed == db
    {
      committed := db;
    }
  }

  /** A session gathers writes; only a commit that does not raise lets the database see them. */
  class Session<D> {
    const db: Database<D>
    var pending: seq<D -> D>
    var closed: bool

    constructor (db: Database<D>)
      ensures this.db == db && pending == [] && !closed
    {
      this.db, pending, closed := db, [], false;
    }

    method Execute(writes: seq<D -> D>)
      requires !closed
      modifies this`pending
      ensures pending == old(pending) + writes
    {
      pending := pending + writes;
    }

    method Commit(succeeds: bool)
      requires !closed
      modifies this`pending, db
      ensures db.committed == if succeeds then Replay(old(pending), old(db.committed)) else old(db.committed)
      ensures pending == if succeeds then [] else old(pending)
    {
      if succeeds {
        db.committed := Replay(pending, db.committed);
        pending := [];
      }
    }

    method Rollback()
      requires !closed
      modifies this`pending
      ensures pending == []
    {
      pending := [];
    }

    method Close()
      modifies this`closed
      ensures closed
    {
      closed := true;
    }
  }

  // ----- what a scope and a run amount to

  /** Two calls in one scope: the second runs only when the first returned. */
  function Both<D, A, B>(first: Call<D, A>, second: Call<D, B>): Call<D, B> {
    match first
    case Raises(writes, raised) => Raises(writes, raised)
    case Returns(writes, _) =>
      match second
      case Raises(more, raised) => Raises(writes + more, raised)
      case Returns(more, value) => Returns(writes + more, value)
  }

  /** How a `session_scope` around the call ends. */
  function Scoped<D, T>(call: Call<D, T>, commits: bool): Outcome<T> {
    if call.Raises? then Threw(call.raised) else if commits then Done(call.value) else Threw(OtherError)
  }

  /** What that scope adds to the database. */
  function ScopeWrites<D, T>(call: Call<D, T>, commits: bool): seq<D -> D> {
    if call.Returns? && commits then call.writes else []
  }

  datatype Act = Claimed(job: Option<Job>) | Advanced(given: Job, next: Job) | MarkedFailed(given: Job)

  /** One committed transaction. */
  datatype Entry<!D> = Entry(act: Act, writes: seq<D -> D>)

  function Writes<D>(log: seq<Entry<D>>): seq<D -> D> {
    if log == [] then [] else log[0].writes + Writes(log[1..])
  }

  lemma {:induction false} WritesAppend<D>(a: seq<Entry<D>>, b: seq<Entry<D>>)
    ensures Writes(a + b) == Writes(a) + Writes(b)
  {
    if a == [] {
      assert a + b == b;
    } else {
      WritesAppend(a[1..], b);
      assert (a + b)[1..] == a[1..] + b;
      assert Writes(a + b) == a[0].writes + (Writes(a[1..]) + Writes(b));
    }
  }

  function ClaimLog<D>(round: Round<D>): seq<Entry<D>> {
    var end := Scoped(round.claim, round.commits);
    if end.Done? then [Entry(Claimed(end.value), round.claim.writes)] else []
  }

  function Pair<D>(turn: Turn<D>): Call<D, Job> { Both(turn.heartbeat, turn.advance) }

  /** What one turn on a running job commits. */
  function TurnLog<D>(job: Job, turn: Turn<D>): seq<Entry<D>> {
    var end := Scoped(Pair(turn), turn.commits);
    if end.Done? then [Entry(Advanced(job, end.value), Pair(turn).writes)]
    else if end.raised == ServiceError && Scoped(turn.mark, turn.markCommits).Done?
    then [Entry(MarkedFailed(job), turn.mark.writes)]
    else []
  }

  /** The transactions the inner loop commits for a claimed job. */
  function TurnsLog<D>(job: Job, turns: seq<Turn<D>>): seq<Entry<D>>
    decreases |turns|
  {
    if !job.running || turns == [] then []
    else
      var end := Scoped(Pair(turns[0]), turns[0].commits);
      TurnLog(job, turns[0]) + if end.Done? then TurnsLog(end.value, turns[1..]) else []
  }

  /** The signal came while the job was still running, so the outer loop ends as well. */
  predicate StoppedIn<D>(job: Job, turns: seq<Turn<D>>)
    decreases |turns|
  {
    job.running &&
    (turns == [] ||
     var end := Scoped(Pair(turns[0]), turns[0].commits);
     end.Done? && StoppedIn(end.value, turns[1..]))
  }

  function ClaimedJob<D>(round: Round<D>): Option<Job> {
    var end := Scoped(round.claim, round.commits);
    if end.Done? then end.value else None
  }

  function RoundLog<D>(round: Round<D>): seq<Entry<D>> {
    var job := ClaimedJob(round);
    ClaimLog(round) + if job.Some? then TurnsLog(job.value, round.turns) else []
  }

  predicate RoundStops<D>(round: Round<D>) {
    ClaimedJob(round).Some? && StoppedIn(ClaimedJob(round).value, round.turns)
  }

  /** Every transaction the worker commits over a whole run, in order. */
  function RunLog<D>(rounds: seq<Round<D>>): seq<Entry<D>> {
    if rounds == [] then []
    else RoundLog(rounds[0]) + if RoundStops(rounds[0]) then [] else RunLog(rounds[1..])
  }

  // ----- the loop itself

  class Worker<D> {
    const db: Database<D>
    ghost var log: seq<Entry<D>>

    constructor (db: Database<D>)
      ensures this.db == db && log == []
    {
      this.db, log := db, [];
    }

    /** One service call in a scope of its own: claiming a job, or marking it failed. */
    method CallInScope<T>(call: Call<D, T>, commits: bool) returns (end: Outcome<T>)
      modifies db
      ensures end == Scoped(call, commits)
      ensures end == (if call.Raises? then Threw(call.raised) else if commits then Done(call.value) else Threw(OtherError))
      ensures db.committed == if call.Returns? && commits then Replay(call.writes, old(db.committed)) else old(db.committed)
      ensures db.committed == Replay(ScopeWrites(call, commits), old(db.committed))
    {
      var session := new Session(db);
      session.Execute(call.writes);
      assert session.pending == call.writes;
      ReplayNothing(db.committed);
      if call.Raises? {
        session.Rollback();
        end := Threw(call.raised);
      } else {
        session.Commit(commits);
        if commits {
          end := Done(call.value);
        } else {
          session.Rollback();
          end := Threw(OtherError);
        }
      }
      session.Close();
    }

    method HeartbeatAndAdvance(turn: Turn<D>) returns (end: Outcome<Job>)
      modifies db
      ensures end == Scoped(Pair(turn), turn.commits)
      ensures end.Done? <==> Advances(turn)
      ensures end.Done? ==> end.value == turn.advance.value
      ensures end == Threw(ServiceError) <==> RaisesImportError(turn)
      ensures db.committed
           == if Advances(turn) then Replay(turn.heartbeat.writes + turn.advance.writes, old(db.committed)) else old(db.committed)
      ensures db.committed == Replay(ScopeWrites(Pair(turn), turn.commits), old(db.committed))
    {
      var session := new Session(db);
      session.Execute(turn.heartbeat.writes);
      assert session.pending == turn.heartbeat.writes;
      ReplayNothing(db.committed);
      if turn.heartbeat.Raises? {
        session.Rollback();
        end := Threw(turn.heartbeat.raised);
      } else {
        session.Execute(turn.advance.writes);
        if turn.advance.Raises? {
          session.Rollback();
          end := Threw(turn.advance.raised);
        } else {
          session.Commit(turn.commits);
          if turn.commits {
            end := Done(turn.advance.value);
          } else {
            session.Rollback();
            end := Threw(OtherError);
          }
        }
      }
      session.Close();
    }

    /** The inner loop: advance until the job rests, a stage raises, or the signal comes. */
    method AdvanceJob(claimed: Job, turns: seq<Turn<D>>) returns (stop: bool)
      modifies this`log, db
      ensures stop == StoppedIn(claimed, turns)
      ensures log == old(log) + TurnsLog(claimed, turns)
      ensures db.committed == Replay(Writes(TurnsLog(claimed, turns)), old(db.committed))
    {
      hide *;
      var job, i := claimed, 0;
      ghost var mine: seq<Entry<D>> := [];
      ReplayNothing(db.committed);
      assert turns[i..] == turns;
      while i < |turns| && job.running
        invariant 0 <= i <= |turns|
        invariant log == old(log) + mine
        invariant TurnsLog(claimed, turns) == mine + TurnsLog(job, turns[i..])
        invariant StoppedIn(claimed, turns) == StoppedIn(job, turns[i..])
        invariant db.committed == Replay(Writes(mine), old(db.committed))
      {
        var turn := turns[i];
        assert turns[i..][0] == turn && turns[i..][1..] == turns[i + 1..];
        TurnsStep(job, turns[i..]);
        ghost var entries := TurnLog(job, turn);
        TurnWrites(job, turn, db.committed);
        WritesAppend(mine, entries);
        ReplayAppend(Writes(mine), Writes(entries), old(db.committed));
        var end := HeartbeatAndAdvance(turn);
        if end.Threw? {
          if end.raised == ServiceError {
            var marked := CallInScope(turn.mark, turn.markCommits);
          }
          log := log + entries;
          assert TurnsLog(claimed, turns) == mine + entries;
          return false;
        }
        log := log + entries;
        mine := mine + entries;
        job := end.value;
        i := i + 1;
      }
      TurnsRest(job, turns[i..]);
      assert TurnsLog(claimed, turns) == mine;
      stop := job.running;
    }

    /** One turn of the outer loop; whatever is raised ends the turn, not the loop. */
    method RunRound(round: Round<D>) returns (stop: bool)
      modifies this`log, db
      ensures stop == RoundStops(round)
      ensures log == old(log) + RoundLog(round)
      ensures db.committed == Replay(Writes(RoundLog(round)), old(db.committed))
    {
      hide *;
      RoundStep([round]);
      RoundWrites(round, db.committed);
      stop := false;
      var claim := CallInScope(round.claim, round.commits);
      log := log + ClaimLog(round);
      if claim.Done? && claim.value.Some? {
        stop := AdvanceJob(claim.value.value, round.turns);
      }
    }

    /** `main`: poll until the signal comes. */
    method Run(rounds: seq<Round<D>>)
      modifies this`log, db
      ensures log == old(log) + RunLog(rounds)
      ensures db.committed == Replay(Writes(RunLog(rounds)), old(db.committed))
    {
      hide *;
      var stop, i := false, 0;
      ghost var mine: seq<Entry<D>> := [];
      ReplayNothing(db.committed);
      assert rounds[i..] == rounds;
      while !stop && i < |rounds|
        invariant 0 <= i <= |rounds|
        invariant log == old(log) + mine
        invariant RunLog(rounds) == mine + (if stop then [] else RunLog(rounds[i..]))
        invariant db.committed == Replay(Writes(mine), old(db.committed))
        decreases |rounds| - i
      {
        assert rounds[i..][0] == rounds[i] && rounds[i..][1..] == rounds[i + 1..];
        RoundStep(rounds[i..]);
        ghost var entries := RoundLog(rounds[i]);
        ReplayAppend(Writes(mine), Writes(entries), old(db.committed));
        WritesAppend(mine, entries);
        stop := RunRound(rounds[i]);
        mine := mine + entries;
        i := i + 1;
      }
      RunEnds<D>();
      if !stop {
        assert rounds[i..] == [];
      }
      assert RunLog(rounds) == mine;
    }
  }

  lemma RunEnds<D>()
    ensures RunLog<D>([]) == []
  {
  }

  lemma RoundStep<D>(rounds: seq<Round<D>>)
    requires rounds != []
    ensures RunLog(rounds) == RoundLog(rounds[0]) + (if RoundStops(rounds[0]) then [] else RunLog(rounds[1..]))
    ensures var end, job := Scoped(rounds[0].claim, rounds[0].commits), ClaimedJob(rounds[0]);
            && (RoundStops(rounds[0]) <==> job.Some? && StoppedIn(job.value, rounds[0].turns))
            && (job == if end.Done? then end.value else None)
            && RoundLog(rounds[0]) == ClaimLog(rounds[0]) + (if job.Some? then TurnsLog(job.value, rounds[0].turns) else [])
  {
  }

  lemma RoundWrites<D>(round: Round<D>, db: D)
    ensures var job := ClaimedJob(round);
            var claimed := Replay(ScopeWrites(round.claim, round.commits), db);
            Replay(Writes(RoundLog(round)), db)
            == if job.Some? then Replay(Writes(TurnsLog(job.value, round.turns)), claimed) else claimed
  {
    hide TurnsLog;
    var job := ClaimedJob(round);
    var turns := if job.Some? then TurnsLog(job.value, round.turns) else [];
    assert Writes(ClaimLog(round)) == ScopeWrites(round.claim, round.commits);
    WritesAppend(ClaimLog(round), turns);
    ReplayAppend(Writes(ClaimLog(round)), Writes(turns), db);
    ReplayNothing(Replay(Writes(ClaimLog(round)), db));
  }

  lemma TurnsStep<D>(job: Job, turns: seq<Turn<D>>)
    requires job.running && turns != []
    ensures var end := Scoped(Pair(turns[0]), turns[0].commits);
            && TurnsLog(job, turns)
               == TurnLog(job, turns[0]) + (if end.Done? then TurnsLog(end.value, turns[1..]) else [])
            && StoppedIn(job, turns) == (end.Done? && StoppedIn(end.value, turns[1..]))
  {
  }

  lemma TurnsRest<D>(job: Job, turns: seq<Turn<D>>)
    requires !job.running || turns == []
    ensures TurnsLog(job, turns) == [] && StoppedIn(job, turns) == job.running
  {
  }

  lemma ReplayNothing<D>(db: D)
    ensures Replay([], db) == db
    ensures Writes<D>([]) == []
  {
  }

  /** Running a turn's two scopes one after the other adds exactly what its log says. */
  lemma TurnWrites<D>(job: Job, turn: Turn<D>, db: D)
    ensures var end := Scoped(Pair(turn), turn.commits);
            var once := Replay(ScopeWrites(Pair(turn), turn.commits), db);
            Replay(Writes(TurnLog(job, turn)), db)
            == if end.Threw? && end.raised == ServiceError
               then Replay(ScopeWrites(turn.mark, turn.markCommits), once) else once
  {
    hide Pair;
    var entries := TurnLog(job, turn);
    ReplayNothing(db);
    if entries != [] {
      assert Writes(entries) == entries[0].writes;
    }
  }

  // ----- the language of committed transactions

  /** The job a worker holds right after a transaction; marking failed lets go of it. */
  function Held(act: Act): Option<Job> {
    match act
    case Claimed(job) => job
    case Advanced(_, next) => Some(next)
    case MarkedFailed(_) => None
  }

  /** A transaction other than a claim works on the running job the transaction before it left held. */
  predicate Follows(before: Option<Act>, act: Act) {
    act.Claimed? || (act.given.running && before.Some? && Held(before.value) == Some(act.given))
  }

  predicate SpeaksAt<D>(log: seq<Entry<D>>, i: nat)
    requires i < |log|
  {
    Follows(if i == 0 then None else Some(log[i - 1].act), log[i].act)
  }

  predicate Speaks<D>(log: seq<Entry<D>>) {
    forall i :: 0 <= i < |log| ==> SpeaksAt(log, i)
  }

  lemma SpeaksPrefix<D>(log: seq<Entry<D>>, n: nat)
    requires Speaks(log) && n <= |log|
    ensures Speaks(log[..n])
  {
    forall i | 0 <= i < n ensures SpeaksAt(log[..n], i) {
      assert SpeaksAt(log, i);
    }
  }

  /** A log may be continued by one that starts with a claim. */
  lemma SpeaksAppend<D>(a: seq<Entry<D>>, b: seq<Entry<D>>)
    requires Speaks(a) && Speaks(b)
    ensures Speaks(a + b)
  {
    forall i | 0 <= i < |a + b| ensures SpeaksAt(a + b, i) {
      if i < |a| {
        assert SpeaksAt(a, i);
      } else {
        assert SpeaksAt(b, i - |a|) && SpeaksAt(b, 0);
      }
    }
  }

  /** The inner loop's log continues the entry that left the job held. */
  lemma {:induction false} TurnsSpeak<D>(first: Entry<D>, job: Job, turns: seq<Turn<D>>)
    requires Held(first.act) == Some(job)
    ensures var log := [first] + TurnsLog(job, turns);
            forall i :: 0 < i < |log| ==> SpeaksAt(log, i)
    decreases |turns|
  {
    var log := [first] + TurnsLog(job, turns);
    if !job.running || turns == [] {
      TurnsRest(job, turns);
    } else {
      TurnsStep(job, turns);
      var end := Scoped(Pair(turns[0]), turns[0].commits);
      if end.Done? {
        var next := Entry(Advanced(job, end.value), Pair(turns[0]).writes);
        TurnsSpeak(next, end.value, turns[1..]);
        var rest := [next] + TurnsLog(end.value, turns[1..]);
        assert log == [first] + rest;
        forall i | 0 < i < |log| ensures SpeaksAt(log, i) {
          if 1 < i {
            assert SpeaksAt(rest, i - 1);
          }
        }
      }
    }
  }

  lemma RoundSpeaks<D>(round: Round<D>)
    ensures Speaks(RoundLog(round))
  {
    var job, log := ClaimedJob(round), RoundLog(round);
    if job.Some? {
      TurnsSpeak(ClaimLog(round)[0], job.value, round.turns);
      hide TurnsLog;
      assert log == [ClaimLog(round)[0]] + TurnsLog(job.value, round.turns);
      assert SpeaksAt(log, 0);
    } else {
      assert forall i :: 0 <= i < |log| ==> log[i].act.Claimed? && SpeaksAt(log, i);
    }
  }

  lemma {:induction false} RunSpeaks<D>(rounds: seq<Round<D>>)
    ensures Speaks(RunLog(rounds))
  {
    if rounds != [] {
      RunSpeaks(rounds[1..]);
      RoundSpeaks(rounds[0]);
      SpeaksAppend(RoundLog(rounds[0]), if RoundStops(rounds[0]) then [] else RunLog(rounds[1..]));
    }
  }

  /** claim (advance)* fail? */
  ghost predicate IsWord<D>(word: seq<Entry<D>>) {
    && word != [] && word[0].act.Claimed? && Speaks(word)
    && (forall i :: 0 < i < |word| ==> !word[i].act.Claimed?)
    && (forall i :: 0 <= i < |word| - 1 ==> !word[i].act.MarkedFailed?)
  }

  /** The log cut before every claim. */
  function Words<D>(log: seq<Entry<D>>): seq<seq<Entry<D>>> {
    if log == [] then []
    else
      var words, last := Words(log[..|log| - 1]), log[|log| - 1];
      if last.act.Claimed? || words == [] then words + [[last]]
      else words[..|words| - 1] + [words[|words| - 1] + [last]]
  }

  lemma FlattenOne<T>(part: seq<T>)
    ensures Flatten([part]) == part
  {
    assert Flatten<T>([]) == [];
  }

  lemma Extended<T>(front: seq<seq<T>>, part: seq<T>)
    ensures Flatten(front + [part]) == Flatten(front) + part
  {
    hide Flatten;
    FlattenAppend(front, [part]);
    FlattenOne(part);
  }

  lemma LastPart<T>(parts: seq<seq<T>>, x: T)
    requires parts != []
    ensures var n := |parts| - 1;
            Flatten(parts[..n] + [parts[n] + [x]]) == Flatten(parts) + [x]
  {
    hide Flatten;
    var n := |parts| - 1;
    assert parts == parts[..n] + [parts[n]];
    Extended(parts[..n], parts[n]);
    Extended(parts[..n], parts[n] + [x]);
    ConcatAssociative(Flatten(parts[..n]), parts[n], [x]);
  }

  lemma {:induction false} SpeechIsWords<D>(log: seq<Entry<D>>)
    requires Speaks(log)
    ensures Flatten(Words(log)) == log
    ensures forall w :: w in Words(log) ==> IsWord(w)
  {
    if log != [] {
      var front, last := log[..|log| - 1], log[|log| - 1];
      SpeaksPrefix(log, |log| - 1);
      SpeechIsWords(front);
      assert log == front + [last] && SpeaksAt(log, |log| - 1);
      var words := Words(front);
      hide Flatten, Words, Speaks, IsWord;
      WordsStep(log);
      if last.act.Claimed? {
        FlattenAppend(words, [[last]]);
        OneClaim(last);
      } else {
        FlattenNothing<Entry<D>>();
        LastPart(words, last);
        WordIsInhabited(words[|words| - 1]);
        WordGrows(words[|words| - 1], last);
      }
    }
  }

  lemma FlattenNothing<T>()
    ensures Flatten<T>([]) == []
  {
  }

  lemma WordIsInhabited<D>(word: seq<Entry<D>>)
    requires IsWord(word)
    ensures word != []
  {
  }

  lemma OneClaim<D>(claim: Entry<D>)
    requires claim.act.Claimed?
    ensures Flatten([[claim]]) == [claim] && IsWord([claim])
  {
  }

  lemma WordsStep<D>(log: seq<Entry<D>>)
    requires log != []
    ensures var words, last := Words(log[..|log| - 1]), log[|log| - 1];
            Words(log) == if last.act.Claimed? || words == [] then words + [[last]]
                          else words[..|words| - 1] + [words[|words| - 1] + [last]]
  {
  }

  lemma WordGrows<D>(word: seq<Entry<D>>, last: Entry<D>)
    requires IsWord(word) && !last.act.Claimed? && Follows(Some(word[|word| - 1].act), last.act)
    ensures IsWord(word + [last])
  {
    var longer := word + [last];
    forall i | 0 <= i < |longer| ensures SpeaksAt(longer, i) {
      if i < |word| {
        assert SpeaksAt(word, i);
      }
    }
  }

  /** Every run: each claim opens a word, and every word is a claim, then advances, then at most one failure. */
  lemma RunIsWords<D>(rounds: seq<Round<D>>)
    ensures var words := Words(RunLog(rounds));
            Flatten(words) == RunLog(rounds) && forall w :: w in words ==> IsWord(w)
  {
    RunSpeaks(rounds);
    SpeechIsWords(RunLog(rounds));
  }

  // ----- the log said on the calls

  predicate Advances<D>(t: Turn<D>) { t.heartbeat.Returns? && t.advance.Returns? && t.commits }

  /** The heartbeat raised an import error, or returned and the advance raised one. */
  predicate RaisesImportError<D>(t: Turn<D>) {
    || (t.heartbeat.Raises? && t.heartbeat.raised == ServiceError)
    || (t.heartbeat.Returns? && t.advance.Raises? && t.advance.raised == ServiceError)
  }

  predicate MarkHolds<D>(t: Turn<D>) { t.mark.Returns? && t.markCommits }

  function AdvanceEntry<D>(job: Job, t: Turn<D>): Entry<D>
    requires Advances(t)
  {
    Entry(Advanced(job, t.advance.value), t.heartbeat.writes + t.advance.writes)
  }

  lemma OneTurn<D>(job: Job, t: Turn<D>, rest: seq<Turn<D>>)
    requires job.running
    ensures TurnsLog(job, [t] + rest)
         == if Advances(t) then [AdvanceEntry(job, t)] + TurnsLog(t.advance.value, rest)
            else if RaisesImportError(t) && MarkHolds(t) then [Entry(MarkedFailed(job), t.mark.writes)]
            else []
    ensures StoppedIn(job, [t] + rest) <==> Advances(t) && StoppedIn(t.advance.value, rest)
  {
    TurnsStep(job, [t] + rest);
    assert ([t] + rest)[0] == t && ([t] + rest)[1..] == rest;
  }

  /**
   * A turn that does not advance commits neither the advance's writes nor the heartbeat's: whatever both wrote,
   * only whether an import error was raised can be told from the log.
   */
  lemma RaiseLeavesNoTrace<D>(job: Job, a: Turn<D>, b: Turn<D>, rest: seq<Turn<D>>)
    requires a.mark == b.mark && a.markCommits == b.markCommits
    requires !Advances(a) && !Advances(b) && (RaisesImportError(a) <==> RaisesImportError(b))
    ensures TurnsLog(job, [a] + rest) == TurnsLog(job, [b] + rest)
    ensures forall e :: e in TurnsLog(job, [a] + rest) ==> e == Entry(MarkedFailed(job), a.mark.writes)
  {
    hide Advances, RaisesImportError, TurnsLog;
    if job.running {
      OneTurn(job, a, rest);
      OneTurn(job, b, rest);
    } else {
      TurnsRest(job, [a] + rest);
      TurnsRest(job, [b] + rest);
    }
  }

  /** What an entry stands for: one whole scope of the script, returned and committed. */
  ghost predicate Whole<D>(round: Round<D>, e: Entry<D>) {
    match e.act
    case Claimed(job) => round.commits && round.claim == Returns(e.writes, job)
    case Advanced(_, next) =>
      exists t :: t in round.turns && t.commits && t.heartbeat.Returns? && t.advance.Returns?
                  && t.advance.value == next && e.writes == t.heartbeat.writes + t.advance.writes
    case MarkedFailed(_) =>
      exists t :: t in round.turns && t.markCommits && t.mark.Returns? && e.writes == t.mark.writes
                  && RaisesImportError(t)
  }

  lemma {:induction false} TurnsWhole<D>(round: Round<D>, job: Job, turns: seq<Turn<D>>, e: Entry<D>)
    requires e in TurnsLog(job, turns) && forall t :: t in turns ==> t in round.turns
    ensures Whole(round, e)
    decreases |turns|
  {
    var t := turns[0];
    assert t in round.turns;
    var end := Scoped(Pair(t), t.commits);
    if e !in TurnLog(job, t) {
      TurnsWhole(round, end.value, turns[1..], e);
    }
  }

  /** Nothing but whole transactions ever reaches the database. */
  lemma {:induction false} RunIsWhole<D>(rounds: seq<Round<D>>, e: Entry<D>)
    requires e in RunLog(rounds)
    ensures exists r :: r in rounds && Whole(r, e)
  {
    var r := rounds[0];
    if e in RoundLog(r) {
      if e !in ClaimLog(r) {
        TurnsWhole(r, ClaimedJob(r).value, r.turns, e);
      }
      assert r in rounds && Whole(r, e);
    } else {
      RunIsWhole(rounds[1..], e);
      var later :| later in rounds[1..] && Whole(later, e);
      assert later in rounds;
    }
  }
}
