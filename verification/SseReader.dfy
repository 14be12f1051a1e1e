/**
 * The incremental reader of the browser client. Each method is the loop of the
 * source with its exceptions returned as values; the handler object is the `calls` log.
 */
module SseReader {
  import opened Util
  import opened JsonValue
  import opened TextSplit
  import opened PiecewiseSplit
  import opened SseEvents

  function Concat(pieces: seq<string>, flush: string): string {
    Flatten(pieces) + flush
  }

  class QueryStream {
    const parse: JsonParser
    var calls: seq<HandlerCall>

    constructor (parse: JsonParser)
      ensures this.parse == parse && calls == []
    {
      this.parse := parse;
      calls := [];
    }

    method DispatchEventFrame(frame: string) returns (error: Option<StreamError>)
      modifies this`calls
      ensures calls == old(calls) + FrameTrace(parse, frame).calls
      ensures error == FrameTrace(parse, frame).error
    {
      var name := "message";
      var dataLines: seq<string> := [];
      var lines := Split(frame, "\n");
      var i := 0;
      while i < |lines|
        invariant 0 <= i <= |lines|
        invariant ReadLines(lines[i..], FrameText(name, dataLines), JsSpace) == ReadLines(lines, EMPTY_FRAME, JsSpace)
      {
        var line := lines[i];
        assert lines[i..][0] == line && lines[i..][1..] == lines[i + 1..];
        if "event:" <= line {
          name := Trim(line[6..], JsSpace);
        } else if "data:" <= line {
          dataLines := dataLines + [TrimStart(line[5..], JsSpace)];
        }
        i := i + 1;
      }
      assert lines[i..] == [];
      var payload := ParseJson(parse, JoinData(dataLines));
      if payload.None? || !IsObject(payload.value) {
        assert FrameEvent(parse, frame) == None;
        return None;
      }
      var event := Event(name, payload.value);
      assert FrameEvent(parse, frame) == Some(event);
      RunOne(event);
      match React(event) {
        case Ignore => return None;
        case Throw(e) => return Some(e);
        case Call(c) =>
          calls := calls + [c];
          return None;
      }
    }

    method DispatchBufferedEvents(buffer: string) returns (tail: string, error: Option<StreamError>)
      modifies this`calls
      ensures tail == Tail(buffer, FRAME_END)
      ensures calls == old(calls) + FramesTrace(Dispatcher(parse), Done(buffer, FRAME_END)).calls
      ensures error == FramesTrace(Dispatcher(parse), Done(buffer, FRAME_END)).error
    {
      hide FrameTrace, Split;
      var parts := Split(buffer, FRAME_END);
      tail := Last(parts);
      parts := Init(parts);
      ghost var dispatch := Dispatcher(parse);
      ghost var trace := Trace([], None);
      var i := 0;
      while i < |parts|
        invariant 0 <= i <= |parts|
        invariant FramesTrace(dispatch, parts) == Then(trace, FramesTrace(dispatch, parts[i..]))
        invariant trace.error == None && calls == old(calls) + trace.calls
      {
        NextFrame(dispatch, trace, parts, i);
        error := DispatchEventFrame(parts[i]);
        trace := Then(trace, FrameTrace(parse, parts[i]));
        if error.Some? {
          return;
        }
        i := i + 1;
      }
      assert parts[i..] == [];
      error := None;
    }

    /** Any cutting of the text into pieces makes the calls, and the error, of one batch split. */
    method StreamQuery(pieces: seq<string>, flush: string) returns (error: Option<StreamError>)
      modifies this`calls
      ensures calls == old(calls) + Batch(parse, Concat(pieces, flush)).calls
      ensures error == Batch(parse, Concat(pieces, flush)).error
    {
      hide Then, FramesTrace, FrameTrace, Batch, Streamed, Done, Tail, Split, Init, Last, Concat, Flatten, Dispatcher, Run, Events, Frames;
      ghost var dispatch := Dispatcher(parse);
      ghost var trace := Trace([], None);
      StreamIsBatch(parse, pieces, flush);
      ghost var whole := Batch(parse, Concat(pieces, flush));
      var buffer := "";
      var i := 0;
      assert pieces[0..] == pieces;
      ThenNothing(whole);
      while i < |pieces|
        invariant 0 <= i <= |pieces|
        invariant whole == Then(trace, Streamed(dispatch, pieces[i..], buffer, flush, FRAME_END))
        invariant trace.error == None && calls == old(calls) + trace.calls
      {
        ghost var text := buffer + pieces[i];
        ghost var one := FramesTrace(dispatch, Done(text, FRAME_END));
        NextPiece(dispatch, trace, pieces, i, buffer, flush, FRAME_END);
        ThenAfterCalls(trace, one);
        buffer, error := DispatchBufferedEvents(buffer + pieces[i]);
        trace := Then(trace, one);
        if error.Some? {
          ThenAfterError(trace, Streamed(dispatch, pieces[i + 1..], buffer, flush, FRAME_END));
          return;
        }
        i := i + 1;
      }
      assert pieces[i..] == [];
      StreamedEnd(dispatch, buffer, flush, FRAME_END);
      buffer := buffer + flush;
      ThenAfterCalls(trace, FramesTrace(dispatch, Done(buffer + FRAME_END, FRAME_END)));
      var _, last := DispatchBufferedEvents(buffer + FRAME_END);
      error := last;
    }
  }

  /** The network's cutting is invisible: pieces make the trace of one batch split of the whole text. */
  lemma StreamIsBatch(parse: JsonParser, pieces: seq<string>, flush: string)
    ensures Streamed(Dispatcher(parse), pieces, "", flush, FRAME_END) == Batch(parse, Concat(pieces, flush))
  {
    hide Streamed, FramesTrace, Dispatcher, Done, Run, Events, Flatten;
    StreamedIsOneSplit(Dispatcher(parse), pieces, "", flush, FRAME_END);
    assert "" + Flatten(pieces) + flush + FRAME_END == Concat(pieces, flush) + FRAME_END;
    FramesRunEvents(parse, Frames(Concat(pieces, flush)));
    assert Frames(Concat(pieces, flush)) == Done(Concat(pieces, flush) + FRAME_END, FRAME_END);
  }

  /** Whatever the server encodes arrives as exactly those events, however the network cut it. */
  lemma EncodedStreamDispatches(parse: JsonParser, events: seq<Outgoing>, pieces: seq<string>, flush: string)
    requires forall e :: e in events ==> Encodable(parse, e)
    requires Concat(pieces, flush) == Encode(events)
    ensures Streamed(Dispatcher(parse), pieces, "", flush, FRAME_END) == Run(Sent(events))
  {
    StreamIsBatch(parse, pieces, flush);
    EncodedEventsReadBack(parse, events);
  }
}
