/**
 * The grammar of the query event stream: frames, event names, payload guards,
 * and the handler calls a sequence of frames stands for. Subset of section 9.2.6
 * of the WHATWG HTML standard: LF only, `event` and `data` fields only.
 */
module SseEvents {
  import opened Util
  import opened JsonValue
  import opened TextSplit
  import opened PiecewiseSplit

  const FRAME_END := "\n\n"

  /** `JSON.parse`; None when it throws. */
  type JsonParser = string -> Option<Json>

  datatype FrameText = FrameText(name: string, data: seq<string>)
  datatype Event = Event(name: string, payload: Json)

  datatype HandlerCall =
    | OnMetadata(metadata: Json)
    | OnToken(delta: string)
    | OnCitation(citation: Json)
    | OnDone(summary: Json)

  /** The thrown ApiRequestError: a malformed event, or a server-sent failure. */
  datatype StreamError =
    | InvalidEvent(name: string)
    | StreamFailed(payload: Option<Json>)

  datatype Reaction = Ignore | Call(call: HandlerCall) | Throw(error: StreamError)

  /** Handler calls in order, and the error that ended the stream, if any. */
  type StreamTrace = Trace<HandlerCall, StreamError>

  const EMPTY_FRAME := FrameText("message", [])

  function ReadLine(acc: FrameText, line: string, space: char -> bool): FrameText {
    if "event:" <= line then acc.(name := Trim(line[6..], space))
    else if "data:" <= line then acc.(data := acc.data + [TrimStart(line[5..], space)])
    else acc
  }

  function ReadLines(lines: seq<string>, acc: FrameText, space: char -> bool): FrameText {
    if lines == [] then acc else ReadLines(lines[1..], ReadLine(acc, lines[0], space), space)
  }

  function JoinData(data: seq<string>): string {
    if data == [] then "" else Join(data, "\n")
  }

  /** `parseJson`: null (None) for empty or unparsable text. */
  function ParseJson(parse: JsonParser, text: string): Option<Json> {
    if text == "" then None else parse(text)
  }

  /** `typeof value === "object"` and not null. */
  predicate IsObject(value: Json) {
    value.Obj? || value.Arr?
  }

  function PayloadEvent(parse: JsonParser, text: FrameText): Option<Event> {
    match ParseJson(parse, JoinData(text.data))
    case None => None
    case Some(payload) => if IsObject(payload) then Some(Event(text.name, payload)) else None
  }

  /** The event a frame carries; None for a frame the browser skips. */
  function FrameEvent(parse: JsonParser, frame: string): Option<Event> {
    PayloadEvent(parse, ReadLines(Split(frame, "\n"), EMPTY_FRAME, JsSpace))
  }

  predicate IsStr(v: Option<Json>) { v.Some? && v.value.Str? }
  predicate IsNum(v: Option<Json>) { v.Some? && v.value.Num? }
  predicate IsBool(v: Option<Json>) { v.Some? && v.value.Bool? }
  predicate IsNullableStr(v: Option<Json>) { v == Some(Null) || IsStr(v) }

  predicate IsConfidence(v: Option<Json>) {
    v == Some(Str("low")) || v == Some(Str("medium")) || v == Some(Str("high"))
  }

  predicate IsCount(v: Option<Json>) {
    IsNum(v) && v.value.n == v.value.n.Floor as real && v.value.n >= 0.0
  }

  predicate IsQueryScope(v: Option<Json>) {
    && v.Some?
    && (Field(v.value, "mode") == Some(Str("explicit"))
        || Field(v.value, "mode") == Some(Str("auto_all_accessible")))
    && IsCount(Field(v.value, "resolved_kb_count"))
  }

  predicate IsQueryStreamMetadata(v: Json) {
    && IsStr(Field(v, "debug_id"))
    && IsNullableStr(Field(v, "conversation_id"))
    && IsNullableStr(Field(v, "message_id"))
    && IsConfidence(Field(v, "confidence"))
    && IsBool(Field(v, "degraded"))
    && IsNullableStr(Field(v, "degrade_reason"))
    && IsQueryScope(Field(v, "query_scope"))
    && (Field(v, "streaming").None? || IsBool(Field(v, "streaming")))
  }

  predicate IsCitation(v: Json) {
    && IsStr(Field(v, "source_id"))
    && IsStr(Field(v, "doc_id"))
    && IsStr(Field(v, "document_version_id"))
    && IsStr(Field(v, "title"))
    && IsNum(Field(v, "page_start"))
    && IsNum(Field(v, "page_end"))
    && IsNum(Field(v, "score"))
  }

  predicate IsQueryStreamDone(v: Json) {
    && IsStr(Field(v, "debug_id"))
    && IsNullableStr(Field(v, "conversation_id"))
    && IsNullableStr(Field(v, "message_id"))
    && IsStr(Field(v, "answer"))
    && Field(v, "citations").Some?
    && Field(v, "citations").value.Arr?
    && (forall c :: c in Field(v, "citations").value.items ==> IsCitation(c))
    && IsConfidence(Field(v, "confidence"))
    && IsBool(Field(v, "degraded"))
    && IsNullableStr(Field(v, "degrade_reason"))
    && IsQueryScope(Field(v, "query_scope"))
  }

  /** What one event does: a handler call, an exception, or nothing for other names. */
  function React(event: Event): Reaction {
    var payload := event.payload;
    if event.name == "metadata" then
      if IsQueryStreamMetadata(payload) then Call(OnMetadata(payload)) else Throw(InvalidEvent("metadata"))
    else if event.name == "token" then
      if IsStr(Field(payload, "delta")) then Call(OnToken(Field(payload, "delta").value.s))
      else Throw(InvalidEvent("token"))
    else if event.name == "citation" then
      if IsCitation(payload) then Call(OnCitation(payload)) else Throw(InvalidEvent("citation"))
    else if event.name == "done" then
      if IsQueryStreamDone(payload) then Call(OnDone(payload)) else Throw(InvalidEvent("done"))
    else if event.name == "error" then
      Throw(StreamFailed(if Field(payload, "error_code").Some? then Some(payload) else None))
    else Ignore
  }

  function ToSeq<T>(o: Option<T>): seq<T> {
    if o.Some? then [o.value] else []
  }

  function Events(parse: JsonParser, frames: seq<string>): seq<Event> {
    if frames == [] then []
    else ToSeq(FrameEvent(parse, frames[0])) + Events(parse, frames[1..])
  }

  /** The handler calls of an event list; the first exception ends it. */
  function Run(events: seq<Event>): StreamTrace {
    if events == [] then Trace([], None)
    else
      match React(events[0])
      case Throw(e) => Trace([], Some(e))
      case Call(c) => var rest := Run(events[1..]); Trace([c] + rest.calls, rest.error)
      case Ignore => Run(events[1..])
  }

  /** What dispatching one frame does. */
  function FrameTrace(parse: JsonParser, frame: string): StreamTrace {
    Run(ToSeq(FrameEvent(parse, frame)))
  }

  function Dispatcher(parse: JsonParser): string -> StreamTrace {
    frame => FrameTrace(parse, frame)
  }

  /** Frames of a complete text: split once, drop the last part. */
  function Frames(text: string): seq<string> {
    Done(text + FRAME_END, FRAME_END)
  }

  /** The reference: one batch split of the whole text, then the events in order. */
  function Batch(parse: JsonParser, text: string): StreamTrace {
    Run(Events(parse, Frames(text)))
  }

  lemma {:induction false} EventsAppend(parse: JsonParser, a: seq<string>, b: seq<string>)
    ensures Events(parse, a + b) == Events(parse, a) + Events(parse, b)
  {
    hide FrameEvent, ToSeq;
    if a == [] {
      assert a + b == b;
    } else {
      EventsAppend(parse, a[1..], b);
      assert (a + b)[0] == a[0] && (a + b)[1..] == a[1..] + b;
      ConcatAssociative(ToSeq(FrameEvent(parse, a[0])), Events(parse, a[1..]), Events(parse, b));
    }
  }

  lemma {:induction false} RunAppend(a: seq<Event>, b: seq<Event>)
    ensures Run(a + b) == Then(Run(a), Run(b))
  {
    hide React;
    if a == [] {
      assert a + b == b;
    } else {
      RunAppend(a[1..], b);
      assert (a + b)[0] == a[0] && (a + b)[1..] == a[1..] + b;
      if React(a[0]).Call? {
        ConcatAssociative([React(a[0]).call], Run(a[1..]).calls, Run(b).calls);
      }
    }
  }

  lemma RunOne(e: Event)
    ensures Run([e]) == match React(e)
                        case Throw(error) => Trace([], Some(error))
                        case Call(c) => Trace([c], None)
                        case Ignore => Trace([], None)
  {
    hide React;
    assert [e][1..] == [];
  }

  /** Dispatching frames one by one is running the list of their events. */
  lemma {:induction false} FramesRunEvents(parse: JsonParser, frames: seq<string>)
    ensures FramesTrace(Dispatcher(parse), frames) == Run(Events(parse, frames))
  {
    hide FrameEvent;
    hide React;
    if frames != [] {
      FramesRunEvents(parse, frames[1..]);
      RunAppend(ToSeq(FrameEvent(parse, frames[0])), Events(parse, frames[1..]));
    }
  }

  lemma TailFrames(tail: string)
    requires !Contains(tail, FRAME_END)
    ensures tail == "" || Last(tail) != '\n' ==>
              Split(tail + FRAME_END, FRAME_END) == [tail, ""]
    ensures tail != "" && Last(tail) == '\n' ==>
              Split(tail + FRAME_END, FRAME_END) == [Init(tail), "\n"]
  {
    if tail != "" && Last(tail) == '\n' {
      var u := Init(tail);
      assert tail + FRAME_END == u + FRAME_END + "\n";
      assert tail == u + "\n";
      forall i: nat | i < |u| ensures !ContainsAt(u + FRAME_END, FRAME_END, i) {
        assert !ContainsAt(tail, FRAME_END, i);
        assert (u + FRAME_END)[i..i + 2] == tail[i..i + 2];
      }
      SplitFirstFrame(u, "\n", FRAME_END);
      assert Split("\n", FRAME_END) == ["\n"];
    } else {
      forall i: nat | i < |tail| ensures !ContainsAt(tail + FRAME_END, FRAME_END, i) {
        if i + 1 < |tail| {
          assert !ContainsAt(tail, FRAME_END, i);
          assert (tail + FRAME_END)[i..i + 2] == tail[i..i + 2];
        } else {
          assert (tail + FRAME_END)[i..i + 2][0] == tail[i] != '\n';
        }
      }
      SplitFirstFrame(tail, "", FRAME_END);
      assert tail + FRAME_END + "" == tail + FRAME_END;
      assert Split("", FRAME_END) == [""];
    }
  }

  /** The final flush loses at most one newline, and exactly when the text ends in an odd one. */
  lemma FlushDiscards(text: string)
    ensures var tail := Tail(text, FRAME_END);
            Tail(text + FRAME_END, FRAME_END) == if tail != "" && Last(tail) == '\n' then "\n" else ""
  {
    DoneResumes(text, FRAME_END, FRAME_END);
    LastHasNoSeparator(text, FRAME_END);
    TailFrames(Tail(text, FRAME_END));
  }

  function EventLine(name: string): string { "event: " + name }
  function DataLine(data: string): string { "data: " + data }
  function FrameBody(name: string, data: string): string { EventLine(name) + "\n" + DataLine(data) }

  /** `sse_event`: the server's encoder, on an already printed payload. */
  function EncodeEvent(name: string, data: string): string {
    FrameBody(name, data) + FRAME_END
  }

  datatype Outgoing = Outgoing(name: string, data: string, payload: Json)

  function Encode(events: seq<Outgoing>): string {
    if events == [] then "" else EncodeEvent(events[0].name, events[0].data) + Encode(events[1..])
  }

  function Sent(events: seq<Outgoing>): seq<Event> {
    seq(|events|, i requires 0 <= i < |events| => Event(events[i].name, events[i].payload))
  }

  /** A trimmed name and a printed object, neither with a raw line feed. */
  predicate Encodable(parse: JsonParser, e: Outgoing) {
    && '\n' !in e.name && Trim(e.name, JsSpace) == e.name
    && '\n' !in e.data && e.data != "" && !JsSpace(e.data[0])
    && parse(e.data) == Some(e.payload) && IsObject(e.payload)
  }

  lemma EncodedLines(parse: JsonParser, e: Outgoing)
    requires Encodable(parse, e)
    ensures Split(FrameBody(e.name, e.data), "\n") == [EventLine(e.name), DataLine(e.data)]
  {
    var l0, l1 := EventLine(e.name), DataLine(e.data);
    assert '\n' !in l0 && '\n' !in l1;
    forall i: nat | i < |l0| ensures !ContainsAt(l0 + "\n", "\n", i) {
      assert (l0 + "\n")[i..i + 1] == [l0[i]];
      assert l0[i] in l0;
    }
    SplitFirstFrame(l0, l1, "\n");
    forall i: nat | i <= |l1| ensures !ContainsAt(l1, "\n", i) {
      if i < |l1| {
        assert l1[i..i + 1] == [l1[i]];
        assert l1[i] in l1;
      }
    }
    SplitWithoutSeparator(l1, "\n");
  }

  lemma LeadingSpaceTrimmed(s: string, space: char -> bool)
    requires space(' ')
    ensures TrimStart(" " + s, space) == TrimStart(s, space)
  {
    assert (" " + s)[1..] == s;
  }

  lemma ReadsEventLine(acc: FrameText, name: string, space: char -> bool)
    requires space(' ') && Trim(name, space) == name
    ensures ReadLine(acc, EventLine(name), space) == acc.(name := name)
  {
    LeadingSpaceTrimmed(name, space);
    assert EventLine(name)[..6] == "event:";
    assert EventLine(name)[6..] == " " + name;
  }

  lemma ReadsDataLine(acc: FrameText, data: string, space: char -> bool)
    requires space(' ') && data != "" && !space(data[0])
    ensures ReadLine(acc, DataLine(data), space) == acc.(data := acc.data + [data])
  {
    LeadingSpaceTrimmed(data, space);
    assert DataLine(data)[..5] == "data:";
    assert DataLine(data)[5..] == " " + data;
    assert DataLine(data)[0] == 'd';
  }

  lemma ReadTwoLines(a: string, b: string, acc: FrameText, space: char -> bool)
    ensures ReadLines([a, b], acc, space) == ReadLine(ReadLine(acc, a, space), b, space)
  {
    var mid := ReadLine(acc, a, space);
    assert [a, b][1..] == [b];
    assert [b][1..] == [];
    assert ReadLines([b], mid, space) == ReadLine(mid, b, space);
  }

  /** Reading one encoded frame gives back its name and payload. */
  lemma ReadsEncodedFrame(parse: JsonParser, e: Outgoing)
    requires Encodable(parse, e)
    ensures FrameEvent(parse, FrameBody(e.name, e.data)) == Some(Event(e.name, e.payload))
  {
    EncodedLines(parse, e);
    ReadTwoLines(EventLine(e.name), DataLine(e.data), EMPTY_FRAME, JsSpace);
    ReadsEventLine(EMPTY_FRAME, e.name, JsSpace);
    ReadsDataLine(FrameText(e.name, []), e.data, JsSpace);
    assert [] + [e.data] == [e.data];
  }

  lemma TwoLinesHoldNoFrameEnd(l0: string, l1: string, i: nat)
    requires '\n' !in l0 && '\n' !in l1 && l1 != ""
    requires i <= |l0| + |l1|
    ensures !ContainsAt(l0 + "\n" + l1 + FRAME_END, FRAME_END, i)
  {
    var text := l0 + "\n" + l1 + FRAME_END;
    if i < |l0| {
      assert text[i] == l0[i];
    } else if i == |l0| {
      assert text[i + 1] == l1[0];
    } else {
      assert text[i] == l1[i - |l0| - 1];
    }
    assert text[i..i + 2] == [text[i], text[i + 1]];
    assert FRAME_END == ['\n', '\n'];
  }

  /** An encoded frame holds no frame end, not even across its own end. */
  lemma EncodedFrameEnds(parse: JsonParser, e: Outgoing, i: nat)
    requires Encodable(parse, e)
    requires i < |FrameBody(e.name, e.data)|
    ensures !ContainsAt(EncodeEvent(e.name, e.data), FRAME_END, i)
  {
    hide ContainsAt, IsObject, Trim, JsSpace;
    TwoLinesHoldNoFrameEnd(EventLine(e.name), DataLine(e.data), i);
  }

  lemma EmptyTextFrames(parse: JsonParser)
    ensures Frames("") == [""] && FrameEvent(parse, "") == None
  {
    assert FRAME_END[2..] == "";
    assert Split("", FRAME_END) == [""];
    assert Split(FRAME_END, FRAME_END) == ["", ""];
    assert "" + FRAME_END == FRAME_END;
    assert Split("", "\n") == [""];
    assert [""][1..] == [];
    assert ReadLine(EMPTY_FRAME, "", JsSpace) == EMPTY_FRAME;
    assert ReadLines([""], EMPTY_FRAME, JsSpace) == ReadLines([], EMPTY_FRAME, JsSpace);
  }

  lemma FirstEncodedFrame(parse: JsonParser, e: Outgoing, rest: string)
    requires Encodable(parse, e)
    ensures Frames(EncodeEvent(e.name, e.data) + rest) == [FrameBody(e.name, e.data)] + Frames(rest)
  {
    var body := FrameBody(e.name, e.data);
    forall i: nat | i < |body| ensures !ContainsAt(body + FRAME_END, FRAME_END, i) {
      EncodedFrameEnds(parse, e, i);
    }
    SplitFirstFrame(body, rest + FRAME_END, FRAME_END);
    assert EncodeEvent(e.name, e.data) + rest + FRAME_END == body + FRAME_END + (rest + FRAME_END);
    var more := Split(rest + FRAME_END, FRAME_END);
    assert Init([body] + more) == [body] + Init(more);
  }

  lemma EventsCons(parse: JsonParser, frame: string, frames: seq<string>)
    ensures Events(parse, [frame] + frames) == ToSeq(FrameEvent(parse, frame)) + Events(parse, frames)
  {
    hide FrameEvent, ToSeq;
    assert ([frame] + frames)[1..] == frames;
  }

  lemma NothingEncoded(parse: JsonParser)
    ensures Events(parse, Frames(Encode([]))) == Sent([])
  {
    EmptyTextFrames(parse);
    hide Frames;
    assert [""][1..] == [];
  }

  lemma SentCons(events: seq<Outgoing>)
    requires events != []
    ensures Sent(events) == [Event(events[0].name, events[0].payload)] + Sent(events[1..])
    ensures Encode(events) == EncodeEvent(events[0].name, events[0].data) + Encode(events[1..])
  {
  }

  /** Round trip: the encoded text reads back as exactly the events sent, in order. */
  lemma {:induction false} EncodedEventsReadBack(parse: JsonParser, events: seq<Outgoing>)
    requires forall e :: e in events ==> Encodable(parse, e)
    ensures Events(parse, Frames(Encode(events))) == Sent(events)
  {
    hide FrameEvent, FrameBody, Frames, Encodable, EncodeEvent, Events, Sent, Encode;
    if events == [] {
      NothingEncoded(parse);
    } else {
      var e, rest := events[0], Encode(events[1..]);
      EncodedEventsReadBack(parse, events[1..]);
      ReadsEncodedFrame(parse, e);
      FirstEncodedFrame(parse, e, rest);
      SentCons(events);
      EventsCons(parse, FrameBody(e.name, e.data), Frames(rest));
    }
  }
}
