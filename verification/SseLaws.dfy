/**
 * What a stream does to the handlers, said on the JSON fields of its payloads: which events call which
 * handler with what, which end the stream with which error, and which do nothing.
 */
module SseLaws {
  import opened Util
  import opened JsonValue
  import opened TextSplit
  import opened PiecewiseSplit
  import opened SseEvents
  import opened SseReader
  import opened SseBatch

  // ----- payloads, field by field

  predicate TextAt(p: Json, k: string) { p.Obj? && k in p.fields && p.fields[k].Str? }

  predicate TextOrNullAt(p: Json, k: string) { p.Obj? && k in p.fields && (p.fields[k].Str? || p.fields[k] == Null) }

  predicate NumberAt(p: Json, k: string) { p.Obj? && k in p.fields && p.fields[k].Num? }

  predicate FlagAt(p: Json, k: string) { p.Obj? && k in p.fields && p.fields[k].Bool? }

  predicate OneOfAt(p: Json, k: string, values: set<string>) { TextAt(p, k) && p.fields[k].s in values }

  predicate Is(x: real, n: nat) { x == n as real }

  ghost predicate ScopeAt(p: Json, k: string) {
    && p.Obj? && k in p.fields
    && OneOfAt(p.fields[k], "mode", {"explicit", "auto_all_accessible"})
    && NumberAt(p.fields[k], "resolved_kb_count")
    && exists n: nat :: Is(p.fields[k].fields["resolved_kb_count"].n, n)
  }

  ghost predicate AnswerHead(p: Json) {
    && TextAt(p, "debug_id") && TextOrNullAt(p, "conversation_id") && TextOrNullAt(p, "message_id")
    && OneOfAt(p, "confidence", {"low", "medium", "high"})
    && FlagAt(p, "degraded") && TextOrNullAt(p, "degrade_reason") && ScopeAt(p, "query_scope")
  }

  ghost predicate MetadataPayload(p: Json) {
    AnswerHead(p) && ("streaming" in p.fields ==> FlagAt(p, "streaming"))
  }

  predicate CitationPayload(p: Json) {
    && TextAt(p, "source_id") && TextAt(p, "doc_id") && TextAt(p, "document_version_id") && TextAt(p, "title")
    && NumberAt(p, "page_start") && NumberAt(p, "page_end") && NumberAt(p, "score")
  }

  ghost predicate DonePayload(p: Json) {
    && AnswerHead(p) && TextAt(p, "answer")
    && "citations" in p.fields && p.fields["citations"].Arr?
    && forall c :: c in p.fields["citations"].items ==> CitationPayload(c)
  }

  predicate TokenPayload(p: Json) { TextAt(p, "delta") }

  ghost predicate Proper(e: Event) {
    match e.name
    case "metadata" => MetadataPayload(e.payload)
    case "token" => TokenPayload(e.payload)
    case "citation" => CitationPayload(e.payload)
    case "done" => DonePayload(e.payload)
    case _ => false
  }

  const HANDLED := {"metadata", "token", "citation", "done"}

  // ----- what an event does

  /** The event makes this handler call. */
  ghost predicate Delivers(e: Event, call: HandlerCall) {
    || (e.name == "metadata" && MetadataPayload(e.payload) && call == OnMetadata(e.payload))
    || (e.name == "token" && TokenPayload(e.payload) && call == OnToken(e.payload.fields["delta"].s))
    || (e.name == "citation" && CitationPayload(e.payload) && call == OnCitation(e.payload))
    || (e.name == "done" && DonePayload(e.payload) && call == OnDone(e.payload))
  }

  /** The event ends the stream with this error. */
  ghost predicate Breaks(e: Event, error: StreamError) {
    || (e.name in HANDLED && !Proper(e) && error == InvalidEvent(e.name))
    || (e.name == "error" &&
        error == StreamFailed(if e.payload.Obj? && "error_code" in e.payload.fields then Some(e.payload) else None))
  }

  predicate Silent(e: Event) { e.name !in HANDLED && e.name != "error" }

  lemma WholeNumber(x: real)
    ensures (x == x.Floor as real && x >= 0.0) <==> exists n: nat :: Is(x, n)
  {
    if x == x.Floor as real && x >= 0.0 {
      assert x.Floor >= 0;
      var n: nat := x.Floor;
      assert Is(x, n);
    }
    if n: nat :| Is(x, n) {
      assert x.Floor == n;
    }
  }

  lemma ScopeFields(p: Json)
    ensures IsQueryScope(Field(p, "query_scope")) <==> ScopeAt(p, "query_scope")
  {
    if p.Obj? && "query_scope" in p.fields && NumberAt(p.fields["query_scope"], "resolved_kb_count") {
      WholeNumber(p.fields["query_scope"].fields["resolved_kb_count"].n);
    }
  }

  /** The guards of the source are these conditions on fields. */
  lemma GuardsAreFields(p: Json)
    ensures IsQueryStreamMetadata(p) <==> MetadataPayload(p)
    ensures IsCitation(p) <==> CitationPayload(p)
    ensures IsQueryStreamDone(p) <==> DonePayload(p)
    ensures IsStr(Field(p, "delta")) <==> TokenPayload(p)
  {
    ScopeFields(p);
    hide IsQueryScope, ScopeAt;
    CitationsAreFields(p);
    hide IsCitation, CitationPayload;
  }

  lemma CitationIsFields(p: Json)
    ensures IsCitation(p) <==> CitationPayload(p)
  {
  }

  lemma CitationsAreFields(p: Json)
    ensures IsCitation(p) <==> CitationPayload(p)
    ensures Field(p, "citations").Some? && Field(p, "citations").value.Arr? ==>
              forall c :: c in Field(p, "citations").value.items ==> (IsCitation(c) <==> CitationPayload(c))
  {
    CitationIsFields(p);
    forall c ensures IsCitation(c) <==> CitationPayload(c) { CitationIsFields(c); }
  }

  /** One event on its own: a call, an error, or nothing, and exactly one of the three. */
  lemma OneEvent(e: Event)
    ensures forall call :: Delivers(e, call) ==> React(e) == Call(call)
    ensures forall error :: Breaks(e, error) ==> React(e) == Throw(error)
    ensures Silent(e) ==> React(e) == Ignore
    ensures Silent(e) || (exists call :: Delivers(e, call)) || (exists error :: Breaks(e, error))
  {
    GuardsAreFields(e.payload);
    hide IsQueryStreamMetadata, MetadataPayload, IsCitation, CitationPayload, IsQueryStreamDone, DonePayload;
    var p := e.payload;
    if e.name in HANDLED && Proper(e) {
      var call := if e.name == "metadata" then OnMetadata(p) else if e.name == "token" then OnToken(p.fields["delta"].s)
                  else if e.name == "citation" then OnCitation(p) else OnDone(p);
      assert Delivers(e, call);
    } else if e.name in HANDLED {
      assert Breaks(e, InvalidEvent(e.name));
    } else if e.name == "error" {
      assert Breaks(e, StreamFailed(if p.Obj? && "error_code" in p.fields then Some(p) else None));
    }
  }

  // ----- what a list of events does

  /** Each event makes its one call, or none if nobody handles its name. */
  ghost predicate Answers(events: seq<Event>, calls: seq<seq<HandlerCall>>) {
    && |events| == |calls|
    && forall i :: 0 <= i < |events| ==>
         (|calls[i]| == 1 && Delivers(events[i], calls[i][0])) || (calls[i] == [] && Silent(events[i]))
  }

  lemma {:induction false} RunAnswers(events: seq<Event>, calls: seq<seq<HandlerCall>>)
    requires Answers(events, calls)
    ensures Run(events) == Trace(Flatten(calls), None)
  {
    hide React, Delivers;
    if events != [] {
      OneEvent(events[0]);
      RunAnswers(events[1..], calls[1..]);
      assert calls[0] == [] || calls[0] == [calls[0][0]];
    }
  }

  /** A broken event ends the run there, whatever would have followed. */
  lemma RunBreaks(events: seq<Event>, calls: seq<seq<HandlerCall>>, e: Event, error: StreamError, rest: seq<Event>)
    requires Answers(events, calls) && Breaks(e, error)
    ensures Run(events + ([e] + rest)) == Trace(Flatten(calls), Some(error))
  {
    hide React, Breaks, Delivers;
    RunAnswers(events, calls);
    RunAppend(events, [e] + rest);
    OneEvent(e);
    assert ([e] + rest)[0] == e;
    assert Run([e] + rest) == Trace([], Some(error));
    assert Flatten(calls) + [] == Flatten(calls);
  }

  // ----- what a stream does

  /** An encoded stream, cut anywhere, makes exactly the calls its events stand for. */
  lemma StreamAnswers(
    parse: JsonParser, events: seq<Outgoing>, calls: seq<seq<HandlerCall>>, pieces: seq<string>, flush: string
  )
    requires forall e :: e in events ==> Encodable(parse, e)
    requires Concat(pieces, flush) == Encode(events) && Answers(Sent(events), calls)
    ensures Batch(parse, Concat(pieces, flush)) == Trace(Flatten(calls), None)
  {
    hide Run, Events, Frames, Encode, Encodable;
    EncodedEventsReadBack(parse, events);
    RunAnswers(Sent(events), calls);
  }

  /** An encoded stream with a broken event makes the calls before it and ends with its error. */
  lemma StreamBreaks(
    parse: JsonParser, before: seq<Outgoing>, calls: seq<seq<HandlerCall>>, e: Outgoing, error: StreamError,
    after: seq<Outgoing>, pieces: seq<string>, flush: string
  )
    requires forall x :: x in before + ([e] + after) ==> Encodable(parse, x)
    requires Concat(pieces, flush) == Encode(before + ([e] + after)) && Answers(Sent(before), calls)
    requires Breaks(Event(e.name, e.payload), error)
    ensures Batch(parse, Concat(pieces, flush)) == Trace(Flatten(calls), Some(error))
  {
    hide Run, Events, Frames, Encode, Encodable, Breaks, Answers;
    EncodedEventsReadBack(parse, before + ([e] + after));
    assert Sent(before + ([e] + after)) == Sent(before) + ([Event(e.name, e.payload)] + Sent(after));
    RunBreaks(Sent(before), calls, Event(e.name, e.payload), error, Sent(after));
  }

  /** The streamed answer: the texts of the token events arrive one by one, in order, and nothing else. */
  lemma TokensArrive(parse: JsonParser, events: seq<Outgoing>, texts: seq<string>, pieces: seq<string>, flush: string)
    requires |events| == |texts| && forall e :: e in events ==> Encodable(parse, e)
    requires forall i :: 0 <= i < |events| ==>
      events[i].name == "token" && TextAt(events[i].payload, "delta") && events[i].payload.fields["delta"] == Str(texts[i])
    requires Concat(pieces, flush) == Encode(events)
    ensures Batch(parse, Concat(pieces, flush)).error == None
    ensures |Batch(parse, Concat(pieces, flush)).calls| == |texts|
    ensures forall i :: 0 <= i < |texts| ==> Batch(parse, Concat(pieces, flush)).calls[i] == OnToken(texts[i])
  {
    hide Batch, Encode, Encodable, Concat, Flatten, React, Run;
    var calls := seq(|texts|, i requires 0 <= i < |texts| => [OnToken(texts[i])]);
    assert Answers(Sent(events), calls);
    StreamAnswers(parse, events, calls, pieces, flush);
    FlattenSingles(calls);
  }

  lemma {:induction false} FlattenSingles<T>(parts: seq<seq<T>>)
    requires forall i :: 0 <= i < |parts| ==> |parts[i]| == 1
    ensures |Flatten(parts)| == |parts| && forall i :: 0 <= i < |parts| ==> Flatten(parts)[i] == parts[i][0]
  {
    if parts != [] {
      FlattenSingles(parts[1..]);
    }
  }

  // ----- frames of several lines

  lemma {:induction false} SplitOfJoin(parts: seq<string>)
    requires parts != [] && forall part :: part in parts ==> '\n' !in part
    ensures Split(Join(parts, "\n"), "\n") == parts
  {
    var first := parts[0];
    if |parts| == 1 {
      forall i: nat | i <= |first| ensures !ContainsAt(first, "\n", i) {
        if i < |first| {
          assert first[i..i + 1] == [first[i]] && first[i] in first;
        }
      }
      SplitWithoutSeparator(first, "\n");
    } else {
      SplitOfJoin(parts[1..]);
      forall i: nat | i < |first| ensures !ContainsAt(first + "\n", "\n", i) {
        assert (first + "\n")[i..i + 1] == [first[i]] && first[i] in first;
      }
      SplitFirstFrame(first, Join(parts[1..], "\n"), "\n");
      assert Join(parts, "\n") == first + "\n" + Join(parts[1..], "\n");
    }
  }

  function DataLines(data: seq<string>): seq<string> {
    seq(|data|, i requires 0 <= i < |data| => DataLine(data[i]))
  }

  lemma {:induction false} DataLinesRead(data: seq<string>, acc: FrameText, space: char -> bool)
    requires space(' ') && forall d :: d in data ==> d != "" && !space(d[0])
    ensures ReadLines(DataLines(data), acc, space) == acc.(data := acc.data + data)
  {
    hide DataLine, ReadLine;
    if data == [] {
      assert acc.data + [] == acc.data;
    } else {
      var next := acc.(data := acc.data + [data[0]]);
      assert data[0] in data && forall d :: d in data[1..] ==> d in data;
      ReadsDataLine(acc, data[0], space);
      DataLinesRead(data[1..], next, space);
      assert DataLines(data)[0] == DataLine(data[0]) && DataLines(data)[1..] == DataLines(data[1..]);
      assert acc.data + [data[0]] + data[1..] == acc.data + data;
    }
  }

  lemma MultiLineText(name: string, data: seq<string>)
    requires '\n' !in name && Trim(name, JsSpace) == name && data != []
    requires forall d :: d in data ==> d != "" && !JsSpace(d[0]) && '\n' !in d
    ensures ReadLines(Split(Join([EventLine(name)] + DataLines(data), "\n"), "\n"), EMPTY_FRAME, JsSpace)
            == FrameText(name, data)
  {
    var lines := [EventLine(name)] + DataLines(data);
    forall line | line in lines ensures '\n' !in line {
      if line != EventLine(name) {
        var i :| 0 <= i < |data| && line == DataLine(data[i]);
        assert data[i] in data;
      }
    }
    SplitOfJoin(lines);
    ReadsEventLine(EMPTY_FRAME, name, JsSpace);
    DataLinesRead(data, FrameText(name, []), JsSpace);
    assert lines[0] == EventLine(name) && lines[1..] == DataLines(data);
    assert [] + data == data;
  }

  /**
   * A frame of one event line and several data lines carries the data joined by newlines, if that parses to an
   * object or a list, and nothing otherwise.
   */
  lemma MultiLineFrame(parse: JsonParser, name: string, data: seq<string>)
    requires '\n' !in name && Trim(name, JsSpace) == name && data != []
    requires forall d :: d in data ==> d != "" && !JsSpace(d[0]) && '\n' !in d
    ensures var payload := parse(Join(data, "\n")); var frame := Join([EventLine(name)] + DataLines(data), "\n");
            FrameEvent(parse, frame)
            == if payload.Some? && (payload.value.Obj? || payload.value.Arr?) then Some(Event(name, payload.value)) else None
  {
    hide Split, Trim, JsSpace, ReadLines;
    MultiLineText(name, data);
    assert data[0] in data;
    assert Join(data, "\n") != "";
  }

  lemma {:induction false} ReadLinesAppend(a: seq<string>, b: seq<string>, acc: FrameText, space: char -> bool)
    ensures ReadLines(a + b, acc, space) == ReadLines(b, ReadLines(a, acc, space), space)
  {
    hide ReadLine;
    if a == [] {
      assert a + b == b;
    } else {
      assert (a + b)[0] == a[0] && (a + b)[1..] == a[1..] + b;
      ReadLinesAppend(a[1..], b, ReadLine(acc, a[0], space), space);
    }
  }

  /** A comment, an id or any line that is neither an event nor a data line changes nothing, wherever it stands. */
  lemma OtherLinesIgnored(parse: JsonParser, before: seq<string>, line: string, after: seq<string>)
    requires before + after != [] && forall l :: l in before + [line] + after ==> '\n' !in l
    requires !("event:" <= line) && !("data:" <= line)
    ensures FrameEvent(parse, Join(before + [line] + after, "\n")) == FrameEvent(parse, Join(before + after, "\n"))
  {
    hide Split, JsSpace, PayloadEvent;
    SplitOfJoin(before + [line] + after);
    assert forall l :: l in before + after ==> l in before + [line] + after;
    SplitOfJoin(before + after);
    ReadLinesAppend(before + [line], after, EMPTY_FRAME, JsSpace);
    ReadLinesAppend(before, [line], EMPTY_FRAME, JsSpace);
    ReadLinesAppend(before, after, EMPTY_FRAME, JsSpace);
    assert ReadLines([line], ReadLines(before, EMPTY_FRAME, JsSpace), JsSpace) == ReadLines(before, EMPTY_FRAME, JsSpace) by {
      assert [line][1..] == [];
    }
  }

  /** The batch parser reports every such frame: parsed data, the raw text where it does not parse, or none at all. */
  lemma PyFrameReports(parse: JsonParser, name: string, data: seq<string>)
    requires Trim(name, PySpace) == name && forall d :: d in data ==> d != "" && !PySpace(d[0])
    ensures var text := ReadLines([EventLine(name)] + DataLines(data), EMPTY_FRAME, PySpace);
            text.name == name
            && PayloadData(parse, text.data)
               == if data == [] then NoData
                  else if parse(Join(data, "\n")).Some? then Parsed(parse(Join(data, "\n")).value)
                  else Raw(Join(data, "\n"))
  {
    var lines := [EventLine(name)] + DataLines(data);
    ReadsEventLine(EMPTY_FRAME, name, PySpace);
    DataLinesRead(data, FrameText(name, []), PySpace);
    assert lines[0] == EventLine(name) && lines[1..] == DataLines(data);
    assert [] + data == data;
  }
}
