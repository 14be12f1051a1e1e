/** What a run of the import worker commits, said on its calls: which returned, which raised, which commits held. */
module WorkerLaws {
  import opened Util
  import opened WorkerLoop

  /** The job in hand before turn n, if all turns before it advanced. */
  function JobAt<D>(job: Job, turns: seq<Turn<D>>, n: nat): Job
    requires n <= |turns|
  {
    if n > 0 && Advances(turns[n - 1]) then turns[n - 1].advance.value else job
  }

  /** The first n turns all found a running job and advanced it, and no turn after them did. */
  ghost predicate AdvancesExactly<D>(job: Job, turns: seq<Turn<D>>, n: nat) {
    && n <= |turns| && (forall i :: 0 <= i < n ==> Advances(turns[i]) && JobAt(job, turns, i).running)
    && (n == |turns| || !JobAt(job, turns, n).running || !Advances(turns[n]))
  }

  function AdvanceEntries<D>(job: Job, turns: seq<Turn<D>>, n: nat): seq<Entry<D>>
    requires n <= |turns| && forall i :: 0 <= i < n ==> Advances(turns[i])
  {
    seq(n, i requires 0 <= i < n => AdvanceEntry(JobAt(job, turns, i), turns[i]))
  }

  /** The failure mark of a turn that raised an import error and whose mark returned and committed. */
  function FailureMark<D>(job: Job, t: Turn<D>): seq<Entry<D>> {
    if job.running && RaisesImportError(t) && MarkHolds(t) then [Entry(MarkedFailed(job), t.mark.writes)] else []
  }

  lemma LaterJobs<D>(job: Job, t: Turn<D>, next: Job, rest: seq<Turn<D>>, i: nat)
    requires Advances(t) && next == t.advance.value && i <= |rest|
    requires i > 0 ==> Advances(rest[i - 1])
    ensures JobAt(job, [t] + rest, i + 1) == JobAt(next, rest, i)
  {
  }

  lemma EntriesLater<D>(job: Job, t: Turn<D>, next: Job, rest: seq<Turn<D>>, n: nat)
    requires Advances(t) && next == t.advance.value && n <= |rest| && forall i :: 0 <= i < n ==> Advances(rest[i])
    ensures AdvanceEntries(job, [t] + rest, n + 1) == [AdvanceEntry(job, t)] + AdvanceEntries(next, rest, n)
  {
    hide Advances, JobAt;
    var turns := [t] + rest;
    var all, later := AdvanceEntries(job, turns, n + 1), AdvanceEntries(next, rest, n);
    forall i | 0 <= i < n + 1 ensures all[i] == ([AdvanceEntry(job, t)] + later)[i] {
      if i > 0 {
        LaterJobs(job, t, next, rest, i - 1);
      } else {
        FirstJob(job, turns);
      }
    }
  }

  lemma AdvancedTurns<D>(job: Job, turns: seq<Turn<D>>, n: nat)
    requires AdvancesExactly(job, turns, n)
    ensures n <= |turns| && forall i :: 0 <= i < n ==> Advances(turns[i])
  {
  }

  lemma FirstJob<D>(job: Job, turns: seq<Turn<D>>)
    ensures JobAt(job, turns, 0) == job
  {
  }

  lemma AdvancesLater<D>(job: Job, t: Turn<D>, next: Job, rest: seq<Turn<D>>, n: nat)
    requires job.running && Advances(t) && next == t.advance.value && AdvancesExactly(next, rest, n)
    ensures AdvancesExactly(job, [t] + rest, n + 1)
    ensures JobAt(job, [t] + rest, n + 1) == JobAt(next, rest, n)
  {
    hide Advances, JobAt;
    var turns := [t] + rest;
    LaterJobs(job, t, next, rest, n);
    FirstJob(job, turns);
    forall i | 0 <= i < n + 1 ensures Advances(turns[i]) && JobAt(job, turns, i).running {
      if i > 0 {
        LaterJobs(job, t, next, rest, i - 1);
      }
    }
  }

  /** Whatever ends the loop after the turns that advanced: a failure mark, or nothing. */
  function Ending<D>(job: Job, turns: seq<Turn<D>>, n: nat): seq<Entry<D>>
    requires n <= |turns|
  {
    if n < |turns| then FailureMark(JobAt(job, turns, n), turns[n]) else []
  }

  lemma EndingLater<D>(job: Job, t: Turn<D>, next: Job, rest: seq<Turn<D>>, n: nat)
    requires n <= |rest| && JobAt(job, [t] + rest, n + 1) == JobAt(next, rest, n)
    ensures Ending(job, [t] + rest, n + 1) == Ending(next, rest, n)
  {
    hide FailureMark, JobAt;
    assert n < |rest| ==> ([t] + rest)[n + 1] == rest[n];
  }

  /**
   * The whole inner loop, on the calls: one transaction for each turn that advanced, then a failure mark iff the
   * turn after them raised an import error and its mark returned and committed. A failed commit is no import error.
   */
  lemma {:induction false} TurnsLogIs<D>(job: Job, turns: seq<Turn<D>>) returns (n: nat)
    ensures AdvancesExactly(job, turns, n)
    ensures TurnsLog(job, turns) == AdvanceEntries(job, turns, n) + Ending(job, turns, n)
    ensures StoppedIn(job, turns) <==> n == |turns| && JobAt(job, turns, n).running
    decreases |turns|
  {
    hide TurnsLog, StoppedIn, AdvancesExactly, AdvanceEntries, Ending, JobAt, RaisesImportError, MarkHolds;
    n := 0;
    if job.running && turns != [] {
      var t, rest := turns[0], turns[1..];
      assert turns == [t] + rest;
      OneTurn(job, t, rest);
      if Advances(t) {
        var next := t.advance.value;
        var m := TurnsLogIs(next, rest);
        AdvancedTurns(next, rest, m);
        AdvancesLater(job, t, next, rest, m);
        EntriesLater(job, t, next, rest, m);
        EndingLater(job, t, next, rest, m);
        ConcatAssociative([AdvanceEntry(job, t)], AdvanceEntries(next, rest, m), Ending(next, rest, m));
        n := m + 1;
      } else {
        NoAdvance(job, turns);
      }
    } else {
      NothingToAdvance(job, turns);
    }
  }

  lemma NothingToAdvance<D>(job: Job, turns: seq<Turn<D>>)
    requires !job.running || turns == []
    ensures AdvancesExactly(job, turns, 0) && JobAt(job, turns, 0) == job
    ensures AdvanceEntries(job, turns, 0) == [] && Ending(job, turns, 0) == []
    ensures TurnsLog(job, turns) == [] && StoppedIn(job, turns) == job.running
    ensures turns != [] ==> !job.running
  {
    TurnsRest(job, turns);
  }

  lemma NoAdvance<D>(job: Job, turns: seq<Turn<D>>)
    requires turns != [] && job.running && !Advances(turns[0])
    ensures AdvancesExactly(job, turns, 0) && AdvanceEntries(job, turns, 0) == [] && JobAt(job, turns, 0) == job
    ensures Ending(job, turns, 0)
         == if RaisesImportError(turns[0]) && MarkHolds(turns[0]) then [Entry(MarkedFailed(job), turns[0].mark.writes)] else []
  {
  }

  lemma AdvancesExactlyOnce<D>(job: Job, turns: seq<Turn<D>>, m: nat, n: nat)
    requires AdvancesExactly(job, turns, m) && AdvancesExactly(job, turns, n)
    ensures m == n
  {
  }

  /** A claim counts iff it returned and committed, and only a claimed job is worked on. */
  lemma RoundLogIs<D>(round: Round<D>)
    ensures RoundLog(round)
         == if round.claim.Returns? && round.commits then
              [Entry(Claimed(round.claim.value), round.claim.writes)]
              + if round.claim.value.Some? then TurnsLog(round.claim.value.value, round.turns) else []
            else []
    ensures RoundStops(round) <==>
            round.claim.Returns? && round.commits && round.claim.value.Some?
            && StoppedIn(round.claim.value.value, round.turns)
  {
    hide TurnsLog, StoppedIn;
  }

  /** The run is its rounds one after another, up to the round the signal stopped. */
  lemma {:induction false} RunLogIs<D>(rounds: seq<Round<D>>) returns (n: nat)
    ensures n <= |rounds| && (n < |rounds| ==> n > 0 && RoundStops(rounds[n - 1]))
    ensures forall i :: 0 <= i < n - 1 ==> !RoundStops(rounds[i])
    ensures RunLog(rounds) == Flatten(seq(n, i requires 0 <= i < n => RoundLog(rounds[i])))
  {
    n := 0;
    if rounds != [] {
      hide RoundLog, RoundStops;
      n := 1;
      if !RoundStops(rounds[0]) {
        var m := RunLogIs(rounds[1..]);
        n := m + 1;
        var logs := seq(n, i requires 0 <= i < n => RoundLog(rounds[i]));
        assert logs[1..] == seq(m, i requires 0 <= i < m => RoundLog(rounds[1..][i]));
      } else {
        FlattenOne(RoundLog(rounds[0]));
        assert seq(1, i requires 0 <= i < 1 => RoundLog(rounds[i])) == [RoundLog(rounds[0])];
      }
    }
  }

  /** A database that fails at the commit of two calls that returned never leaves a failure mark. */
  lemma FailedCommitMarksNothing<D>(job: Job, t: Turn<D>, rest: seq<Turn<D>>)
    requires t.heartbeat.Returns? && t.advance.Returns? && !t.commits
    ensures TurnsLog(job, [t] + rest) == [] && !StoppedIn(job, [t] + rest)
  {
    if job.running {
      OneTurn(job, t, rest);
    } else {
      TurnsRest(job, [t] + rest);
    }
  }
}
