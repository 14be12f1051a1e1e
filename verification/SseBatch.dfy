/**
 * The batch parser of the smoke tool, and where it agrees with the browser reader.
 * Python's `strip` and `splitlines` know other characters than JavaScript's `trim`
 * and `split("\n")`; on plain text the two parsers see the same objects.
 */
module SseBatch {
  import opened Util
  import opened JsonValue
  import opened TextSplit
  import opened PiecewiseSplit
  import opened SseEvents

  /** Python's `str.isspace`, as `strip` removes it. */
  predicate PySpace(c: char) {
    c in "\t\n\r \U{000B}\U{000C}\U{001C}\U{001D}\U{001E}\U{001F}\U{0085}\U{00A0}\U{1680}\U{2028}\U{2029}\U{202F}\U{205F}\U{3000}"
    || '\U{2000}' <= c <= '\U{200A}'
  }

  /** Characters both languages treat alike: same white space, and no line boundary but LF. */
  predicate PlainChar(c: char) {
    JsSpace(c) == PySpace(c) && (PyLineBreak(c) ==> c == '\n')
  }

  ghost predicate Plain(text: string) {
    forall c :: c in text ==> PlainChar(c)
  }

  datatype PyData = NoData | Parsed(payload: Json) | Raw(text: string)
  datatype PyEvent = PyEvent(name: string, data: PyData)

  predicate Blank(frame: string) { Trim(frame, PySpace) == "" }

  function PayloadData(parse: JsonParser, data: seq<string>): PyData {
    if data == [] then NoData
    else
      match parse(JoinData(data))
      case Some(payload) => Parsed(payload)
      case None => Raw(JoinData(data))
  }

  function PyFrameEvent(parse: JsonParser, frame: string): PyEvent {
    var text := ReadLines(PyLines(frame), EMPTY_FRAME, PySpace);
    PyEvent(text.name, PayloadData(parse, text.data))
  }

  function PyEvents(parse: JsonParser, frames: seq<string>): seq<PyEvent> {
    if frames == [] then []
    else (if Blank(frames[0]) then [] else [PyFrameEvent(parse, frames[0])]) + PyEvents(parse, frames[1..])
  }

  /** `_parse_sse_events`. */
  method ParseSseEvents(parse: JsonParser, text: string) returns (events: seq<PyEvent>)
    ensures events == PyEvents(parse, Split(text, FRAME_END))
  {
    hide Split, PyLines, Blank, PayloadData, PyEvents, Trim, TrimStart;
    events := [];
    var frames := Split(text, FRAME_END);
    var i := 0;
    while i < |frames|
      invariant 0 <= i <= |frames|
      invariant events + PyEvents(parse, frames[i..]) == PyEvents(parse, frames)
    {
      NextPyFrame(parse, frames, i, events);
      if Blank(frames[i]) {
        i := i + 1;
        continue;
      }
      var name := "message";
      var dataLines: seq<string> := [];
      var lines := PyLines(frames[i]);
      var k := 0;
      while k < |lines|
        invariant 0 <= k <= |lines|
        invariant ReadLines(lines[k..], FrameText(name, dataLines), PySpace) == ReadLines(lines, EMPTY_FRAME, PySpace)
      {
        var line := lines[k];
        assert lines[k..][0] == line && lines[k..][1..] == lines[k + 1..];
        if "event:" <= line {
          name := Trim(line[6..], PySpace);
        } else if "data:" <= line {
          dataLines := dataLines + [TrimStart(line[5..], PySpace)];
        }
        k := k + 1;
      }
      assert lines[k..] == [];
      var event := PyEvent(name, PayloadData(parse, dataLines));
      assert event == PyFrameEvent(parse, frames[i]);
      events := events + [event];
      i := i + 1;
    }
    NoMorePyFrames(parse, frames, events);
  }

  lemma NextPyFrame(parse: JsonParser, frames: seq<string>, i: nat, events: seq<PyEvent>)
    requires i < |frames|
    ensures events + PyEvents(parse, frames[i..])
         == (if Blank(frames[i]) then events else events + [PyFrameEvent(parse, frames[i])])
            + PyEvents(parse, frames[i + 1..])
  {
    hide PyFrameEvent, Blank;
    assert frames[i..][1..] == frames[i + 1..];
  }

  lemma NoMorePyFrames(parse: JsonParser, frames: seq<string>, events: seq<PyEvent>)
    ensures events + PyEvents(parse, frames[|frames|..]) == events
  {
  }

  /** The object payloads among the Python events, as browser events. */
  function ObjectEvent(e: PyEvent): seq<Event> {
    if e.data.Parsed? && IsObject(e.data.payload) then [Event(e.name, e.data.payload)] else []
  }

  function ObjectEvents(events: seq<PyEvent>): seq<Event> {
    if events == [] then [] else ObjectEvent(events[0]) + ObjectEvents(events[1..])
  }

  lemma {:induction false} ObjectEventsAppend(a: seq<PyEvent>, b: seq<PyEvent>)
    ensures ObjectEvents(a + b) == ObjectEvents(a) + ObjectEvents(b)
  {
    if a == [] {
      assert a + b == b;
    } else {
      ObjectEventsAppend(a[1..], b);
      assert (a + b)[1..] == a[1..] + b;
      ConcatAssociative(ObjectEvent(a[0]), ObjectEvents(a[1..]), ObjectEvents(b));
    }
  }

  lemma {:induction false} TrimStartSame(s: string, p: char -> bool, q: char -> bool)
    requires forall c :: c in s ==> p(c) == q(c)
    ensures TrimStart(s, p) == TrimStart(s, q)
    ensures forall c :: c in TrimStart(s, p) ==> c in s
  {
    if s != "" && p(s[0]) {
      assert s == [s[0]] + s[1..];
      TrimStartSame(s[1..], p, q);
    }
  }

  lemma {:induction false} TrimEndSame(s: string, p: char -> bool, q: char -> bool)
    requires forall c :: c in s ==> p(c) == q(c)
    ensures TrimEnd(s, p) == TrimEnd(s, q)
  {
    if s != "" && p(s[|s| - 1]) {
      assert s == s[..|s| - 1] + [s[|s| - 1]];
      TrimEndSame(s[..|s| - 1], p, q);
    }
  }

  /** On lines of plain characters both trimmings read the same fields. */
  lemma {:induction false} ReadLinesSame(lines: seq<string>, acc: FrameText)
    requires forall line :: line in lines ==> Plain(line)
    ensures ReadLines(lines, acc, JsSpace) == ReadLines(lines, acc, PySpace)
  {
    hide JsSpace, PySpace;
    if lines != [] {
      var line := lines[0];
      assert Plain(line);
      if "event:" <= line {
        assert forall c :: c in line[6..] ==> c in line;
        TrimStartSame(line[6..], JsSpace, PySpace);
        TrimEndSame(TrimStart(line[6..], JsSpace), JsSpace, PySpace);
      } else if "data:" <= line {
        assert forall c :: c in line[5..] ==> c in line;
        TrimStartSame(line[5..], JsSpace, PySpace);
      }
      ReadLinesSame(lines[1..], ReadLine(acc, line, JsSpace));
    }
  }

  lemma {:induction false} EmptyLineReads(lines: seq<string>, acc: FrameText, space: char -> bool)
    ensures ReadLines(lines + [""], acc, space) == ReadLines(lines, acc, space)
  {
    if lines == [] {
      assert [] + [""] == [""] && [""][1..] == [];
      assert ReadLine(acc, "", space) == acc;
      assert ReadLines([""], acc, space) == ReadLines([], acc, space);
    } else {
      assert (lines + [""])[1..] == lines[1..] + [""];
      EmptyLineReads(lines[1..], ReadLine(acc, lines[0], space), space);
    }
  }

  /** A split only hands out characters of the text. */
  lemma {:induction false} SplitKeepsChars(text: string, sep: string)
    requires sep != ""
    ensures forall part, c :: part in Split(text, sep) && c in part ==> c in text
    decreases |text|
  {
    if |text| < |sep| {
    } else if sep <= text {
      SplitKeepsChars(text[|sep|..], sep);
      forall part, c | part in Split(text, sep) && c in part ensures c in text {
        assert part in Split(text[|sep|..], sep);
        assert c in text[|sep|..];
      }
    } else {
      SplitKeepsChars(text[1..], sep);
      var rest := Split(text[1..], sep);
      var parts := Prepend(text[0], rest);
      forall part, c | part in parts && c in part ensures c in text {
        assert parts == [parts[0]] + parts[1..] && rest == [rest[0]] + rest[1..];
        if c != text[0] {
          assert exists p :: p in rest && c in p by {
            if part in rest[1..] { assert part in rest; } else { assert c in rest[0] && rest[0] in rest; }
          }
          assert c in text[1..];
        }
      }
    }
  }

  lemma PlainParts(text: string, sep: string)
    requires sep != "" && Plain(text)
    ensures forall part :: part in Split(text, sep) ==> Plain(part)
  {
    SplitKeepsChars(text, sep);
  }

  /** Line by line, both parsers read the same fields of a plain frame. */
  lemma PlainFrameReads(frame: string)
    requires Plain(frame)
    ensures ReadLines(Split(frame, "\n"), EMPTY_FRAME, JsSpace) == ReadLines(PyLines(frame), EMPTY_FRAME, PySpace)
  {
    hide Split, PyLines, ReadLines, JsSpace, PySpace;
    PlainParts(frame, "\n");
    PyLinesAgree(frame);
    ReadLinesSame(Split(frame, "\n"), EMPTY_FRAME);
    EmptyLineReads(PyLines(frame), EMPTY_FRAME, PySpace);
  }

  lemma {:induction false} BlankIsAllSpace(s: string)
    requires Blank(s)
    ensures forall c :: c in s ==> PySpace(c)
  {
    hide PySpace;
    if s != "" {
      if PySpace(s[0]) {
        BlankIsAllSpace(s[1..]);
        assert s == [s[0]] + s[1..];
      } else {
        TrimEndKeepsSolid(s, PySpace);
      }
    }
  }

  lemma {:induction false} TrimEndKeepsSolid(s: string, space: char -> bool)
    requires s != "" && !space(s[0])
    ensures TrimEnd(s, space) != ""
  {
    if |s| > 1 && space(s[|s| - 1]) {
      TrimEndKeepsSolid(s[..|s| - 1], space);
    }
  }

  ghost predicate AllSpace(line: string) {
    forall c :: c in line ==> PySpace(c)
  }

  lemma {:induction false} SpaceLinesCarryNothing(lines: seq<string>, acc: FrameText)
    requires forall line :: line in lines ==> AllSpace(line)
    ensures ReadLines(lines, acc, JsSpace) == acc
  {
    if lines != [] {
      var line := lines[0];
      assert AllSpace(line);
      if line != "" {
        assert line[0] in line;
        assert PySpace(line[0]);
        assert !PySpace('e') && !PySpace('d');
      }
      SpaceLinesCarryNothing(lines[1..], acc);
    }
  }

  lemma BlankFrameReadsNothing(frame: string)
    requires Blank(frame)
    ensures ReadLines(Split(frame, "\n"), EMPTY_FRAME, JsSpace) == EMPTY_FRAME
  {
    hide Split, PySpace, JsSpace;
    BlankIsAllSpace(frame);
    SplitKeepsChars(frame, "\n");
    assert forall line :: line in Split(frame, "\n") ==> AllSpace(line);
    SpaceLinesCarryNothing(Split(frame, "\n"), EMPTY_FRAME);
  }

  /** A frame Python skips as blank carries no browser event either. */
  lemma BlankFrameIsSkipped(parse: JsonParser, frame: string)
    requires Blank(frame)
    ensures FrameEvent(parse, frame) == None
  {
    hide Split, PySpace, JsSpace, ReadLines;
    BlankFrameReadsNothing(frame);
  }

  // ----- what each reader extracts, before any JSON is parsed

  /** An event name and its joined data. */
  type Reading = (string, string)

  function ReadingOf(text: FrameText): seq<Reading> {
    if JoinData(text.data) == "" then [] else [(text.name, JoinData(text.data))]
  }

  function BrowserReading(frame: string): seq<Reading> {
    ReadingOf(ReadLines(Split(frame, "\n"), EMPTY_FRAME, JsSpace))
  }

  function PyReading(frame: string): seq<Reading> {
    if Blank(frame) then [] else ReadingOf(ReadLines(PyLines(frame), EMPTY_FRAME, PySpace))
  }

  function BrowserReadings(frames: seq<string>): seq<Reading> {
    if frames == [] then [] else BrowserReading(frames[0]) + BrowserReadings(frames[1..])
  }

  function PyReadings(frames: seq<string>): seq<Reading> {
    if frames == [] then [] else PyReading(frames[0]) + PyReadings(frames[1..])
  }

  function DecodeReading(parse: JsonParser, r: Reading): seq<Event> {
    match parse(r.1)
    case None => []
    case Some(payload) => if IsObject(payload) then [Event(r.0, payload)] else []
  }

  function Decoded(parse: JsonParser, readings: seq<Reading>): seq<Event> {
    if readings == [] then [] else DecodeReading(parse, readings[0]) + Decoded(parse, readings[1..])
  }

  lemma {:induction false} DecodedAppend(parse: JsonParser, a: seq<Reading>, b: seq<Reading>)
    ensures Decoded(parse, a + b) == Decoded(parse, a) + Decoded(parse, b)
  {
    hide DecodeReading;
    if a == [] {
      assert a + b == b;
    } else {
      DecodedAppend(parse, a[1..], b);
      assert (a + b)[0] == a[0] && (a + b)[1..] == a[1..] + b;
      ConcatAssociative(DecodeReading(parse, a[0]), Decoded(parse, a[1..]), Decoded(parse, b));
    }
  }

  lemma DecodedOne(parse: JsonParser, text: FrameText)
    ensures Decoded(parse, ReadingOf(text)) == ToSeq(PayloadEvent(parse, text))
    ensures parse("") == None ==>
              ObjectEvents([PyEvent(text.name, PayloadData(parse, text.data))]) == Decoded(parse, ReadingOf(text))
  {
    var event := PyEvent(text.name, PayloadData(parse, text.data));
    assert [event][1..] == [] && ObjectEvents([event]) == ObjectEvent(event) + [];
    var readings := ReadingOf(text);
    if readings != [] {
      assert readings[1..] == [] && Decoded(parse, readings) == DecodeReading(parse, readings[0]) + [];
    }
  }

  /** The browser's events are its readings, decoded. */
  lemma {:induction false} BrowserDecodes(parse: JsonParser, frames: seq<string>)
    ensures Events(parse, frames) == Decoded(parse, BrowserReadings(frames))
  {
    if frames != [] {
      BrowserDecodes(parse, frames[1..]);
      DecodedOne(parse, ReadLines(Split(frames[0], "\n"), EMPTY_FRAME, JsSpace));
      hide ReadLines, Split, PayloadEvent, ReadingOf, Decoded;
      DecodedAppend(parse, BrowserReading(frames[0]), BrowserReadings(frames[1..]));
    }
  }

  /** The batch parser's objects are its readings, decoded. */
  lemma {:induction false} PyDecodes(parse: JsonParser, frames: seq<string>)
    requires parse("") == None
    ensures ObjectEvents(PyEvents(parse, frames)) == Decoded(parse, PyReadings(frames))
  {
    if frames != [] {
      var f := frames[0];
      PyDecodes(parse, frames[1..]);
      DecodedOne(parse, ReadLines(PyLines(f), EMPTY_FRAME, PySpace));
      var head := if Blank(f) then [] else [PyFrameEvent(parse, f)];
      assert ObjectEvents(head) == Decoded(parse, PyReading(f)) by {
        assert ObjectEvents([]) == [] && Decoded(parse, []) == [];
      }
      hide ReadLines, PyLines, Blank, PyFrameEvent, PyReading, ObjectEvents, Decoded;
      ObjectEventsAppend(head, PyEvents(parse, frames[1..]));
      DecodedAppend(parse, PyReading(f), PyReadings(frames[1..]));
    }
  }

  /** A parser that gives every text a payload of its own. */
  function Wrap(): JsonParser {
    (text: string) => if text == "" then None else Some(Arr([Str(text)]))
  }

  ghost predicate Filled(readings: seq<Reading>) {
    forall i :: 0 <= i < |readings| ==> readings[i].1 != ""
  }

  lemma {:induction false} ReadingsFilled(frames: seq<string>)
    ensures Filled(BrowserReadings(frames)) && Filled(PyReadings(frames))
  {
    hide ReadLines, PyLines, Split, Blank;
    if frames != [] {
      ReadingsFilled(frames[1..]);
    }
  }

  lemma {:induction false} WrapKeepsReadings(a: seq<Reading>, b: seq<Reading>)
    requires Filled(a) && Filled(b) && Decoded(Wrap(), a) == Decoded(Wrap(), b)
    ensures a == b
    decreases |a|
  {
    WrapDecodes(a);
    WrapDecodes(b);
    hide Decoded;
    assert |a| == |b|;
    forall i | 0 <= i < |a| ensures a[i] == b[i] {
      var x, y := Decoded(Wrap(), a)[i], Decoded(Wrap(), b)[i];
      assert x == y && x.payload.items[0] == y.payload.items[0];
    }
  }

  lemma {:induction false} WrapDecodes(a: seq<Reading>)
    requires Filled(a)
    ensures |Decoded(Wrap(), a)| == |a|
    ensures forall i :: 0 <= i < |a| ==> Decoded(Wrap(), a)[i] == Event(a[i].0, Arr([Str(a[i].1)]))
  {
    if a != [] {
      WrapDecodes(a[1..]);
    }
  }

  /**
   * Exactly when the two readers agree on a text, whatever its JSON: when they extract the same names
   * and data from its frames.
   */
  lemma ParsersAgreeIff(text: string)
    ensures (forall parse: JsonParser :: parse("") == None ==>
               Events(parse, Frames(text)) == ObjectEvents(PyEvents(parse, Split(text, FRAME_END))))
       <==> BrowserReadings(Split(text, FRAME_END)) == PyReadings(Split(text, FRAME_END))
  {
    hide Split, Frames, Events, PyEvents, BrowserReadings, PyReadings, Decoded;
    var frames := Split(text, FRAME_END);
    forall parse: JsonParser | parse("") == None
      ensures Events(parse, Frames(text)) == Decoded(parse, BrowserReadings(frames))
      ensures ObjectEvents(PyEvents(parse, frames)) == Decoded(parse, PyReadings(frames))
    {
      SameFramesButFlush(parse, text);
      BrowserDecodes(parse, frames);
      PyDecodes(parse, frames);
    }
    if Decoded(Wrap(), BrowserReadings(frames)) == Decoded(Wrap(), PyReadings(frames)) {
      ReadingsFilled(frames);
      WrapKeepsReadings(BrowserReadings(frames), PyReadings(frames));
    }
    assert Wrap()("") == None;
  }

  lemma PlainReading(frame: string)
    requires Plain(frame)
    ensures BrowserReading(frame) == PyReading(frame)
  {
    hide Split, PyLines, PySpace, JsSpace, Trim;
    if Blank(frame) {
      BlankFrameReadsNothing(frame);
    } else {
      PlainFrameReads(frame);
    }
  }

  lemma {:induction false} PlainReadings(frames: seq<string>)
    requires forall f :: f in frames ==> Plain(f)
    ensures BrowserReadings(frames) == PyReadings(frames)
  {
    hide BrowserReading, PyReading;
    if frames != [] {
      PlainReading(frames[0]);
      PlainReadings(frames[1..]);
    }
  }

  /** The newline a final flush absorbs changes no event. */
  lemma TrailingNewlineReads(parse: JsonParser, frame: string)
    ensures FrameEvent(parse, frame + "\n") == FrameEvent(parse, frame)
  {
    hide ReadLines, PayloadEvent;
    SplitResumes(frame, "\n", "\n");
    var parts := Split(frame, "\n");
    var tail := Last(parts);
    LastHasNoSeparator(frame, "\n");
    forall i: nat | i < |tail| ensures !ContainsAt(tail + "\n", "\n", i) {
      assert !ContainsAt(tail, "\n", i);
      assert (tail + "\n")[i..i + 1] == tail[i..i + 1];
    }
    SplitFirstFrame(tail, "", "\n");
    assert tail + "\n" + "" == tail + "\n";
    assert Split("", "\n") == [""];
    assert [tail] + [""] == [tail, ""];
    assert parts == Init(parts) + [tail];
    assert Split(frame + "\n", "\n") == parts + [""];
    EmptyLineReads(parts, EMPTY_FRAME, JsSpace);
  }

  /** The browser's frames and Python's frames carry the same events. */
  lemma SameFramesButFlush(parse: JsonParser, text: string)
    ensures Events(parse, Frames(text)) == Events(parse, Split(text, FRAME_END))
  {
    hide FrameEvent;
    hide Split;
    var done, tail := Done(text, FRAME_END), Tail(text, FRAME_END);
    assert Split(text, FRAME_END) == done + [tail];
    DoneResumes(text, FRAME_END, FRAME_END);
    LastHasNoSeparator(text, FRAME_END);
    TailFrames(tail);
    var last := if tail != "" && Last(tail) == '\n' then Init(tail) else tail;
    assert Done(tail + FRAME_END, FRAME_END) == [last];
    assert Events(parse, [last]) == Events(parse, [tail]) by {
      if last != tail {
        assert tail == last + "\n";
        TrailingNewlineReads(parse, last);
      }
      assert [last][1..] == [] && [tail][1..] == [];
    }
    EventsAppend(parse, done, [last]);
    EventsAppend(parse, done, [tail]);
  }

  /**
   * In particular, on every plain text, however ill-formed, the browser dispatches exactly the
   * (name, object) pairs that the batch parser reports, in the same order.
   */
  lemma ParsersAgree(parse: JsonParser, text: string)
    requires Plain(text) && parse("") == None
    ensures Events(parse, Frames(text)) == ObjectEvents(PyEvents(parse, Split(text, FRAME_END)))
  {
    hide Split, Events, PyEvents, Frames, BrowserReadings, PyReadings;
    PlainParts(text, FRAME_END);
    PlainReadings(Split(text, FRAME_END));
    ParsersAgreeIff(text);
  }

  /** A name and a printed payload that Python's line split and strip leave alone, too. */
  predicate Portable(e: Outgoing) {
    && (forall c :: c in e.name || c in e.data ==> !PyLineBreak(c))
    && Trim(e.name, PySpace) == e.name && e.data != "" && !PySpace(e.data[0])
  }

  function PySent(events: seq<Outgoing>): seq<PyEvent> {
    if events == [] then [] else [PyEvent(events[0].name, Parsed(events[0].payload))] + PySent(events[1..])
  }

  lemma PyEncodedLines(parse: JsonParser, e: Outgoing)
    requires Encodable(parse, e) && Portable(e)
    ensures PyLines(FrameBody(e.name, e.data)) == [EventLine(e.name), DataLine(e.data)]
  {
    var body, l0, l1 := FrameBody(e.name, e.data), EventLine(e.name), DataLine(e.data);
    EncodedLines(parse, e);
    hide PyLines, Split;
    forall c | c in body && PyLineBreak(c) ensures c == '\n' {
      assert c in l0 || c in "\n" || c in l1;
    }
    PyLinesAgree(body);
    hide PyLineBreak, FrameBody, Encodable, Portable;
    assert [l0, l1][1] == l1 != "";
    assert [l0, l1] != PyLines(body) + [""] by {
      var longer := PyLines(body) + [""];
      assert longer[|longer| - 1] == "";
    }
  }

  lemma SolidIsNotBlank(frame: string)
    requires frame != "" && !PySpace(frame[0])
    ensures !Blank(frame)
  {
    TrimEndKeepsSolid(frame, PySpace);
  }

  lemma PyReadsEncodedFrame(parse: JsonParser, e: Outgoing)
    requires Encodable(parse, e) && Portable(e)
    ensures var body := FrameBody(e.name, e.data);
            !Blank(body) && PyFrameEvent(parse, body) == PyEvent(e.name, Parsed(e.payload))
  {
    var body := FrameBody(e.name, e.data);
    assert body[0] == 'e';
    SolidIsNotBlank(body);
    PyEncodedLines(parse, e);
    hide PyLines, Blank;
    ReadTwoLines(EventLine(e.name), DataLine(e.data), EMPTY_FRAME, PySpace);
    ReadsEventLine(EMPTY_FRAME, e.name, PySpace);
    ReadsDataLine(FrameText(e.name, []), e.data, PySpace);
    hide ReadLine, EventLine, DataLine, FrameBody;
    assert [] + [e.data] == [e.data];
  }

  /** The batch parser, too, reports exactly the events the server encoded, in order. */
  lemma {:induction false} EncodedEventsReadByBatch(parse: JsonParser, events: seq<Outgoing>)
    requires forall e :: e in events ==> Encodable(parse, e) && Portable(e)
    ensures PyEvents(parse, Split(Encode(events), FRAME_END)) == PySent(events)
  {
    if events == [] {
      assert Split("", FRAME_END) == [""] && [""][1..] == [];
    } else {
      var e, rest := events[0], Encode(events[1..]);
      var body := FrameBody(e.name, e.data);
      EncodedEventsReadByBatch(parse, events[1..]);
      PyReadsEncodedFrame(parse, e);
      hide Split, Blank, PyFrameEvent;
      forall i: nat | i < |body| ensures !ContainsAt(body + FRAME_END, FRAME_END, i) {
        EncodedFrameEnds(parse, e, i);
      }
      SplitFirstFrame(body, rest, FRAME_END);
      assert Encode(events) == body + FRAME_END + rest;
      assert ([body] + Split(rest, FRAME_END))[1..] == Split(rest, FRAME_END);
    }
  }

  /**
   * Plainness is needed: a byte order mark before the payload is white space to JavaScript
   * only, so the browser dispatches an event that Python reports as raw text.
   */
  lemma ByteOrderMarkBreaksAgreement(parse: JsonParser)
    requires parse("[]") == Some(Arr([])) && parse("\U{FEFF}[]") == None && parse("") == None
    ensures var text := "data:\U{FEFF}[]";
            && Events(parse, Frames(text)) == [Event("message", Arr([]))]
            && ObjectEvents(PyEvents(parse, Split(text, FRAME_END))) == []
  {
    hide Split, PyLines, Frames, JsSpace, PySpace;
    var text, marked := "data:\U{FEFF}[]", "\U{FEFF}[]";
    SingleLine(text);
    PyLinesAgree(text);
    assert PyLines(text) == [text];
    SameFramesButFlush(parse, text);
    assert text[..5] == "data:" && text[5..] == marked && text[0] == 'd';
    assert marked[1..] == "[]" && marked[0] == '\U{FEFF}';
    Spaces();
    assert TrimStart(marked, JsSpace) == TrimStart("[]", JsSpace) == "[]";
    assert TrimStart(marked, PySpace) == marked;
    ReadOneLine(text, EMPTY_FRAME, JsSpace);
    ReadOneLine(text, EMPTY_FRAME, PySpace);
    assert [] + ["[]"] == ["[]"] && [] + [marked] == [marked];
    assert FrameEvent(parse, text) == Some(Event("message", Arr([])));
    assert PyFrameEvent(parse, text).data == Raw(marked);
    assert [text][1..] == [];
    assert Events(parse, [text]) == ToSeq(FrameEvent(parse, text)) + [];
    var head := if Blank(text) then [] else [PyFrameEvent(parse, text)];
    assert PyEvents(parse, [text]) == head + [];
    assert ObjectEvents(head) == [];
  }

  lemma Spaces()
    ensures JsSpace('\U{FEFF}') && !PySpace('\U{FEFF}') && !JsSpace('[')
  {
  }

  lemma SingleLine(text: string)
    requires text == "data:\U{FEFF}[]"
    ensures Split(text, FRAME_END) == [text] && Split(text, "\n") == [text]
    ensures forall c :: c in text ==> !PyLineBreak(c)
  {
    hide Split;
    assert forall c :: c in text <==> c in ['d', 'a', 't', 'a', ':', '\U{FEFF}', '[', ']'];
    assert '\n' !in text;
    NoNewlineNoSplit(text);
  }

  lemma NoNewlineNoSplit(text: string)
    requires '\n' !in text
    ensures Split(text, FRAME_END) == [text] && Split(text, "\n") == [text]
  {
    hide Split;
    forall i: nat | i <= |text| ensures !ContainsAt(text, FRAME_END, i) && !ContainsAt(text, "\n", i) {
      if i < |text| {
        assert text[i] in text;
        assert text[i..i + 1] == [text[i]];
        if i + 2 <= |text| { assert text[i..i + 2][0] == text[i]; }
      }
    }
    SplitWithoutSeparator(text, FRAME_END);
    SplitWithoutSeparator(text, "\n");
  }

  lemma ReadOneLine(line: string, acc: FrameText, space: char -> bool)
    ensures ReadLines([line], acc, space) == ReadLine(acc, line, space)
  {
    assert [line][1..] == [];
  }

  /** Python's white space on ASCII text: the browser's, and the four separator characters. */
  lemma OrdinaryPySpace(c: char)
    requires c < '\U{0080}'
    ensures PySpace(c) <==> JsSpace(c) || '\U{001C}' <= c <= '\U{001F}'
  {
  }

  /** The batch parser reports one event for every frame with a character other than white space, data or not. */
  lemma {:induction false} ReportsSolidFrames(parse: JsonParser, frames: seq<string>) returns (solid: seq<string>)
    ensures solid == Filter(frames, HasSolid())
    ensures |PyEvents(parse, frames)| == |solid|
    ensures forall i :: 0 <= i < |solid| ==> PyEvents(parse, frames)[i] == PyFrameEvent(parse, solid[i])
  {
    hide PyFrameEvent, Trim;
    solid := [];
    if frames != [] {
      TrimsToNothing(frames[0], PySpace);
      var rest := ReportsSolidFrames(parse, frames[1..]);
      solid := (if HasSolid()(frames[0]) then [frames[0]] else []) + rest;
    }
  }

  ghost function HasSolid(): string -> bool {
    (frame: string) => exists i :: 0 <= i < |frame| && !PySpace(frame[i])
  }
}
