/**
 * The setup page: validate, then submit. Each handler is split at its awaits; P is the
 * request payload built from the form, and a signature is equal iff the payload is.
 */
module SetupGate {
  import opened Util

  datatype SetupStatus = SetupStatus(initialized: bool, recoveryAllowed: bool)

  datatype State<P> = State(
    payload: P,
    localOk: bool,
    status: Option<SetupStatus>,
    confirmed: bool,
    validating: bool,
    submitting: bool,
    result: Option<bool>,
    lastValidated: Option<P>,
    sent: Option<P>,
    accepted: set<P>,
    submitted: seq<P>)

  datatype Step<P> =
    | Edit(payload: P, localOk: bool)
    | Confirm(confirmed: bool)
    | StartValidation
    | ValidationReply(valid: bool)
    | ValidationError
    | RefreshAfterValidation(reply: Option<SetupStatus>)
    | StartSubmit
    | SubmitReply(ok: bool)
    | SubmitDone(refreshed: Option<SetupStatus>)
    | Reset(payload: P, localOk: bool)
    | Refresh(status: SetupStatus)

  /** `backendValidationFresh`. */
  predicate Fresh<P(==)>(s: State<P>) {
    s.result == Some(true) && s.lastValidated == Some(s.payload)
  }

  predicate Writable<P>(s: State<P>) {
    s.status.None? || !s.status.value.initialized || s.status.value.recoveryAllowed
  }

  predicate CanValidate<P>(s: State<P>) {
    !s.validating && !s.submitting && s.localOk && Writable(s)
  }

  predicate CanSubmit<P(==)>(s: State<P>) {
    !s.submitting && !s.validating && s.confirmed && Writable(s) && s.localOk && Fresh(s)
  }

  function Next<P(==)>(s: State<P>, step: Step<P>): State<P> {
    match step
    case Edit(p, ok) => s.(payload := p, localOk := ok)
    case Confirm(c) => s.(confirmed := c)
    case StartValidation => if CanValidate(s) then s.(validating := true, sent := Some(s.payload)) else s
    case ValidationReply(valid) =>
      if s.sent.None? then s
      else s.(
        result := Some(valid),
        lastValidated := if valid then Some(s.payload) else None,
        accepted := if valid then s.accepted + {s.sent.value} else s.accepted,
        sent := None)
    case ValidationError =>
      if s.sent.None? then s
      else s.(result := None, lastValidated := None, sent := None, validating := false)
    case RefreshAfterValidation(reply) =>
      if !s.validating || s.sent.Some? then s
      else if reply.Some? then s.(status := reply, validating := false)
      else s.(result := None, lastValidated := None, validating := false)
    case StartSubmit =>
      if CanSubmit(s) then s.(submitting := true, submitted := s.submitted + [s.payload]) else s
    case SubmitReply(ok) =>
      if !s.submitting then s else if ok then s.(confirmed := false) else s.(submitting := false)
    case SubmitDone(status) => s.(status := if status.Some? then status else s.status, submitting := false)
    case Reset(p, ok) =>
      s.(payload := p, localOk := ok, result := None, lastValidated := None, confirmed := false)
    case Refresh(status) => s.(status := Some(status))
  }

  function Execute<P(==)>(s: State<P>, steps: seq<Step<P>>): State<P>
    decreases |steps|
  {
    if steps == [] then s else Execute(Next(s, steps[0]), steps[1..])
  }

  /** The page as an object whose handlers update its fields. */
  class SetupFlow<P(==)> {
    var payload: P
    var localOk: bool
    var status: Option<SetupStatus>
    var confirmed: bool
    var validating: bool
    var submitting: bool
    var result: Option<bool>
    var lastValidated: Option<P>
    var sent: Option<P>
    ghost var accepted: set<P>
    ghost var submitted: seq<P>

    constructor (defaults: P, ok: bool)
      ensures View() == State(defaults, ok, None, false, false, false, None, None, None, {}, [])
    {
      payload, localOk, status, confirmed := defaults, ok, None, false;
      validating, submitting, result, lastValidated, sent := false, false, None, None, None;
      accepted, submitted := {}, [];
    }

    ghost function View(): State<P>
      reads this
    {
      State(payload, localOk, status, confirmed, validating, submitting, result, lastValidated, sent,
            accepted, submitted)
    }

    /** Up to the validation request: the payload sent is the one on screen at the click. */
    method RunValidation()
      modifies this
      ensures View() == Next(old(View()), StartValidation)
    {
      if validating || submitting || !localOk || (status.Some? && status.value.initialized && !status.value.recoveryAllowed) {
        return;
      }
      validating := true;
      sent := Some(payload);
    }

    /** The segment after the validation reply: the signature is taken now. */
    method OnValidated(valid: bool)
      modifies this
      ensures View() == Next(old(View()), ValidationReply(valid))
    {
      if sent.None? {
        return;
      }
      result := Some(valid);
      lastValidated := if valid then Some(payload) else None;
      if valid {
        accepted := accepted + {sent.value};
      }
      sent := None;
    }

    method OnValidationError()
      modifies this
      ensures View() == Next(old(View()), ValidationError)
    {
      if sent.Some? {
        result, lastValidated, sent, validating := None, None, None, false;
      }
    }

    method OnRefreshedAfterValidation(reply: Option<SetupStatus>)
      modifies this
      ensures View() == Next(old(View()), RefreshAfterValidation(reply))
    {
      if !validating || sent.Some? {
        return;
      }
      if reply.Some? {
        status := reply;
      } else {
        result, lastValidated := None, None;
      }
      validating := false;
    }

    method RunInitialization()
      modifies this
      ensures View() == Next(old(View()), StartSubmit)
    {
      var writable := status.None? || !status.value.initialized || status.value.recoveryAllowed;
      var isFresh := result == Some(true) && lastValidated == Some(payload);
      if !submitting && !validating && confirmed && writable && localOk && isFresh {
        submitting := true;
        submitted := submitted + [payload];
      }
    }

    method ResetForm(defaults: P, ok: bool)
      modifies this
      ensures View() == Next(old(View()), Step.Reset(defaults, ok))
    {
      payload, localOk := defaults, ok;
      result, lastValidated, confirmed := None, None, false;
    }
  }

  /** No step changes the payload between a validation request and its reply. */
  predicate Calm<P(==)>(s: State<P>, step: Step<P>) {
    s.sent.Some? ==> Next(s, step).payload == s.payload
  }

  predicate CalmRun<P(==)>(s: State<P>, steps: seq<Step<P>>)
    decreases |steps|
  {
    steps == [] || (Calm(s, steps[0]) && CalmRun(Next(s, steps[0]), steps[1..]))
  }

  predicate Sound<P(==)>(s: State<P>) {
    && (s.sent.Some? ==> s.sent == Some(s.payload) && s.validating)
    && (s.lastValidated.Some? ==> s.lastValidated.value in s.accepted)
    && forall p :: p in s.submitted ==> p in s.accepted
  }

  lemma CalmStepSound<P>(s: State<P>, step: Step<P>)
    requires Sound(s) && Calm(s, step)
    ensures Sound(Next(s, step))
  {
  }

  /**
   * In every run where the form rests while a validation is out, an open submit gate means
   * the backend accepted exactly the payload now built, and only such payloads were submitted.
   */
  lemma {:induction false} OpenGateIsAccepted<P>(s: State<P>, steps: seq<Step<P>>)
    requires Sound(s) && CalmRun(s, steps)
    ensures var last := Execute(s, steps);
            && (CanSubmit(last) ==> last.payload in last.accepted)
            && (forall p :: p in last.submitted ==> p in last.accepted)
    decreases |steps|
  {
    if steps != [] {
      CalmStepSound(s, steps[0]);
      OpenGateIsAccepted(Next(s, steps[0]), steps[1..]);
    }
  }

  /**
   * A positive reply always makes the current payload fresh. It was accepted iff it is the
   * payload that was sent, or one accepted before: the condition can be checked at the reply.
   */
  lemma ReplyAcceptsIffUnchanged<P>(s: State<P>)
    requires s.sent.Some?
    ensures var next := Next(s, ValidationReply(true));
            && Fresh(next)
            && (next.payload in next.accepted <==> s.sent == Some(s.payload) || s.payload in s.accepted)
  {
  }

  /** Every step but a positive reply leaves the gate closed or backed by an acceptance. */
  lemma FreshStaysAccepted<P>(s: State<P>, step: Step<P>)
    requires s.lastValidated.Some? ==> s.lastValidated.value in s.accepted
    requires !(step.ValidationReply? && step.valid && s.sent.Some?)
    ensures Fresh(Next(s, step)) ==> Next(s, step).payload in Next(s, step).accepted
  {
  }

  /** The hypothesis is needed: an edit while the request is out opens the gate on an unseen payload. */
  lemma EditInFlightOpensGate<P>(p: P, q: P)
    requires p != q
    ensures var start := State(p, true, None, true, false, false, None, None, None, {}, []);
            var steps := [StartValidation, Edit(q, true), ValidationReply(true),
                          RefreshAfterValidation(Some(SetupStatus(false, false))), StartSubmit];
            var last := Execute(start, steps);
            last.submitted == [q] && q !in last.accepted
  {
    var start := State(p, true, None, true, false, false, None, None, None, {}, []);
    var s1 := Next(start, StartValidation);
    var s2 := Next(s1, Edit(q, true));
    var s3 := Next(s2, ValidationReply(true));
    var s4 := Next(s3, RefreshAfterValidation(Some(SetupStatus(false, false))));
    var s5 := Next(s4, StartSubmit);
    var e1 := [StartSubmit];
    var e2 := [RefreshAfterValidation(Some(SetupStatus(false, false)))] + e1;
    var e3 := [ValidationReply(true)] + e2;
    var e4 := [Edit(q, true)] + e3;
    var e5 := [StartValidation] + e4;
    assert e1[1..] == [] && e2[1..] == e1 && e3[1..] == e2 && e4[1..] == e3 && e5[1..] == e4;
    assert Execute(s4, e1) == Execute(s5, []) == s5;
    assert Execute(s3, e2) == s5;
    assert Execute(s2, e3) == s5;
    assert Execute(s1, e4) == s5;
    assert Execute(start, e5) == s5;
    assert e5 == [StartValidation, Edit(q, true), ValidationReply(true),
                  RefreshAfterValidation(Some(SetupStatus(false, false))), StartSubmit];
  }

  /** Submitting sends the payload on screen exactly under these conditions, and changes nothing otherwise. */
  lemma SubmitsIff<P>(s: State<P>)
    ensures var next := Next(s, StartSubmit);
            if && !s.submitting && !s.validating && s.confirmed && s.localOk
               && s.result == Some(true) && s.lastValidated == Some(s.payload)
               && (s.status.Some? && s.status.value.initialized ==> s.status.value.recoveryAllowed)
            then next == s.(submitting := true, submitted := s.submitted + [s.payload])
            else next == s
  {
  }

  /** Until somebody ticks the confirmation nothing is submitted, whatever else happens. */
  lemma {:induction false} UnconfirmedNeverSubmits<P>(s: State<P>, steps: seq<Step<P>>)
    requires !s.confirmed && Confirm(true) !in steps
    ensures Execute(s, steps).submitted == s.submitted && !Execute(s, steps).confirmed
    decreases |steps|
  {
    if steps != [] {
      assert steps[0] != Confirm(true);
      UnconfirmedNeverSubmits(Next(s, steps[0]), steps[1..]);
    }
  }

  /** Nor while the form has local errors and is left alone: neither a validation nor a submission goes out. */
  lemma {:induction false} LocalErrorsHoldBack<P>(s: State<P>, steps: seq<Step<P>>)
    requires !s.localOk && s.sent.None? && forall step :: step in steps ==> !step.Edit? && !step.Reset?
    ensures Execute(s, steps).submitted == s.submitted && Execute(s, steps).sent.None?
    decreases |steps|
  {
    if steps != [] {
      assert steps[0] in steps;
      LocalErrorsHoldBack(Next(s, steps[0]), steps[1..]);
    }
  }

  /** Every status the step brings in is this one. */
  predicate Reports<P>(step: Step<P>, status: SetupStatus) {
    match step
    case Refresh(reported) => reported == status
    case RefreshAfterValidation(reply) => reply == None || reply == Some(status)
    case SubmitDone(refreshed) => refreshed == None || refreshed == Some(status)
    case _ => true
  }

  /** Nor on an initialized system without recovery, as long as its status says so. */
  lemma {:induction false} InitializedHoldsBack<P>(s: State<P>, steps: seq<Step<P>>, closed: SetupStatus)
    requires closed.initialized && !closed.recoveryAllowed && s.status == Some(closed) && s.sent.None?
    requires forall step :: step in steps ==> Reports(step, closed)
    ensures Execute(s, steps).submitted == s.submitted && Execute(s, steps).sent.None?
    decreases |steps|
  {
    if steps != [] {
      assert Reports(steps[0], closed);
      InitializedHoldsBack(Next(s, steps[0]), steps[1..], closed);
    }
  }

  /** Nor without a positive reply, from a page where none is recorded. */
  lemma {:induction false} UnvalidatedNeverSubmits<P>(s: State<P>, steps: seq<Step<P>>)
    requires s.lastValidated == None && ValidationReply(true) !in steps
    ensures Execute(s, steps).submitted == s.submitted && Execute(s, steps).lastValidated == None
    decreases |steps|
  {
    if steps != [] {
      assert steps[0] != ValidationReply(true);
      UnvalidatedNeverSubmits(Next(s, steps[0]), steps[1..]);
    }
  }

  /** Nor twice at once: while a submission is out no other follows. */
  lemma {:induction false} OneSubmissionAtATime<P>(s: State<P>, steps: seq<Step<P>>)
    requires s.submitting && forall step :: step in steps ==> step != SubmitReply(false) && !step.SubmitDone?
    ensures Execute(s, steps).submitted == s.submitted && Execute(s, steps).submitting
    decreases |steps|
  {
    if steps != [] {
      assert steps[0] in steps && forall step :: step in steps[1..] ==> step in steps;
      OneSubmissionAtATime(Next(s, steps[0]), steps[1..]);
    }
  }

  /** What takes the record of a positive reply back, and what takes the tick back. */
  lemma ClosingSteps<P>(s: State<P>, p: P, ok: bool)
    ensures s.sent.Some? ==> Next(s, ValidationReply(false)).lastValidated == None
    ensures s.sent.Some? ==> Next(s, ValidationReply(false)).result == Some(false)
    ensures s.sent.Some? ==> Next(s, ValidationError).lastValidated == None && !Next(s, ValidationError).validating
    ensures s.validating && s.sent.None? ==> Next(s, RefreshAfterValidation(None)).lastValidated == None
    ensures Next(s, Step.Reset(p, ok)).lastValidated == None && !Next(s, Step.Reset(p, ok)).confirmed
    ensures s.submitting ==> !Next(s, SubmitReply(true)).confirmed
  {
  }

  /** A report of a closed system shuts the page whichever request brings it, until another report comes. */
  lemma ReportCloses<P>(s: State<P>, step: Step<P>, steps: seq<Step<P>>, closed: SetupStatus)
    requires closed.initialized && !closed.recoveryAllowed && s.sent.None?
    requires || step == Refresh(closed) || step == SubmitDone(Some(closed))
             || (step == RefreshAfterValidation(Some(closed)) && s.validating)
    requires forall later :: later in steps ==> Reports(later, closed)
    ensures Execute(Next(s, step), steps).submitted == s.submitted && Execute(Next(s, step), steps).sent.None?
  {
    InitializedHoldsBack(Next(s, step), steps, closed);
  }
}
