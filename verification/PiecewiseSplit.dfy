/**
 * Splitting a text that arrives in pieces: keep the unfinished tail, dispatch the
 * finished parts. Generic in the separator and in what a part does when dispatched.
 */
module PiecewiseSplit {
  import opened Util
  import opened TextSplit

  /** Calls in order, and the error that ended them, if any. */
  datatype Trace<C, E> = Trace(calls: seq<C>, error: Option<E>)

  function Then<C, E>(first: Trace<C, E>, second: Trace<C, E>): Trace<C, E> {
    if first.error.Some? then first else Trace(first.calls + second.calls, second.error)
  }

  lemma ThenAssociative<C, E>(a: Trace<C, E>, b: Trace<C, E>, c: Trace<C, E>)
    ensures Then(Then(a, b), c) == Then(a, Then(b, c))
  {
    assert a.calls + b.calls + c.calls == a.calls + (b.calls + c.calls);
  }

  lemma ThenNothing<C, E>(trace: Trace<C, E>)
    ensures Then(Trace([], None), trace) == trace
  {
  }

  lemma ThenAfterCalls<C, E>(first: Trace<C, E>, second: Trace<C, E>)
    requires first.error == None
    ensures Then(first, second) == Trace(first.calls + second.calls, second.error)
  {
  }

  lemma ThenAfterError<C, E>(first: Trace<C, E>, second: Trace<C, E>)
    requires first.error.Some?
    ensures Then(first, second) == first
  {
  }

  /** Dispatching parts in order; the first error stops. */
  function FramesTrace<C, E>(dispatch: string -> Trace<C, E>, frames: seq<string>): Trace<C, E> {
    if frames == [] then Trace([], None) else Then(dispatch(frames[0]), FramesTrace(dispatch, frames[1..]))
  }

  lemma {:induction false} FramesTraceAppend<C, E>(dispatch: string -> Trace<C, E>, a: seq<string>, b: seq<string>)
    ensures FramesTrace(dispatch, a + b) == Then(FramesTrace(dispatch, a), FramesTrace(dispatch, b))
  {
    if a == [] {
      assert a + b == b;
      assert [] + FramesTrace(dispatch, b).calls == FramesTrace(dispatch, b).calls;
    } else {
      FramesTraceAppend(dispatch, a[1..], b);
      assert (a + b)[1..] == a[1..] + b;
      ThenAssociative(dispatch(a[0]), FramesTrace(dispatch, a[1..]), FramesTrace(dispatch, b));
    }
  }

  /** The complete parts of what has been read, and the tail kept in the buffer. */
  function Done(read: string, sep: string): seq<string> requires sep != "" { Init(Split(read, sep)) }
  function Tail(read: string, sep: string): string requires sep != "" { Last(Split(read, sep)) }

  lemma DoneResumes(read: string, piece: string, sep: string)
    requires sep != ""
    ensures Done(read + piece, sep) == Done(read, sep) + Done(Tail(read, sep) + piece, sep)
    ensures Tail(read + piece, sep) == Tail(Tail(read, sep) + piece, sep)
  {
    SplitResumes(read, piece, sep);
    var more := Split(Tail(read, sep) + piece, sep);
    assert Init(Done(read, sep) + more) == Done(read, sep) + Init(more);
  }

  /** The reader's loop as a function of the remaining pieces and the buffer. */
  function Streamed<C, E>(
    dispatch: string -> Trace<C, E>, pieces: seq<string>, buffer: string, flush: string, sep: string
  ): Trace<C, E>
    requires sep != ""
    decreases |pieces|
  {
    if pieces == [] then FramesTrace(dispatch, Done(buffer + flush + sep, sep))
    else
      var text := buffer + pieces[0];
      Then(FramesTrace(dispatch, Done(text, sep)), Streamed(dispatch, pieces[1..], Tail(text, sep), flush, sep))
  }

  /** The cutting is invisible: the piecewise trace is the trace of one split of the whole text. */
  lemma {:induction false} StreamedIsOneSplit<C, E>(
    dispatch: string -> Trace<C, E>, pieces: seq<string>, buffer: string, flush: string, sep: string
  )
    requires sep != ""
    ensures Streamed(dispatch, pieces, buffer, flush, sep)
         == FramesTrace(dispatch, Done(buffer + Flatten(pieces) + flush + sep, sep))
    decreases |pieces|
  {
    hide Split, Done, Tail, FramesTrace;
    if pieces == [] {
      assert buffer + Flatten(pieces) == buffer;
    } else {
      var text := buffer + pieces[0];
      var tail, later := Tail(text, sep), Flatten(pieces[1..]);
      var rest := later + flush + sep;
      StreamedIsOneSplit(dispatch, pieces[1..], tail, flush, sep);
      Regroup("", tail, later, flush, sep);
      Regroup(buffer, pieces[0], later, flush, sep);
      DoneResumes(text, rest, sep);
      FramesTraceAppend(dispatch, Done(text, sep), Done(tail + rest, sep));
    }
  }

  lemma Regroup(a: string, b: string, c: string, d: string, e: string)
    ensures a + (b + c) + d + e == (a + b) + (c + d + e)
    ensures a == "" ==> b + c + d + e == b + (c + d + e)
  {
  }

  lemma NextFrame<C, E>(dispatch: string -> Trace<C, E>, trace: Trace<C, E>, frames: seq<string>, i: nat)
    requires i < |frames|
    ensures Then(trace, FramesTrace(dispatch, frames[i..]))
         == Then(Then(trace, dispatch(frames[i])), FramesTrace(dispatch, frames[i + 1..]))
  {
    assert frames[i..][1..] == frames[i + 1..];
    ThenAssociative(trace, dispatch(frames[i]), FramesTrace(dispatch, frames[i + 1..]));
  }

  lemma StreamedEnd<C, E>(dispatch: string -> Trace<C, E>, buffer: string, flush: string, sep: string)
    requires sep != ""
    ensures Streamed(dispatch, [], buffer, flush, sep) == FramesTrace(dispatch, Done(buffer + flush + sep, sep))
  {
  }

  lemma NextPiece<C, E>(
    dispatch: string -> Trace<C, E>, trace: Trace<C, E>,
    pieces: seq<string>, i: nat, buffer: string, flush: string, sep: string
  )
    requires i < |pieces| && sep != ""
    ensures var text := buffer + pieces[i];
            Then(trace, Streamed(dispatch, pieces[i..], buffer, flush, sep))
            == Then(Then(trace, FramesTrace(dispatch, Done(text, sep))),
                    Streamed(dispatch, pieces[i + 1..], Tail(text, sep), flush, sep))
  {
    var text := buffer + pieces[i];
    assert pieces[i..][1..] == pieces[i + 1..];
    ThenAssociative(trace, FramesTrace(dispatch, Done(text, sep)),
      Streamed(dispatch, pieces[i + 1..], Tail(text, sep), flush, sep));
  }
}
