/** The chat event stream on the wire: the server's frame printer and the browser's
    incremental parser (a subset of section 9.2.6 of the WHATWG HTML Living Standard). */
module Sse {
  import opened Wrappers
  import opened Strings

  /* The main results: what the client yields depends only on the concatenation of the
     chunks, never on where they are cut; printing and parsing is the identity on the events
     of the protocol; and a connection lost at any character yields a prefix of them. */

  /** A JSON value as far as the client looks at it. */
  datatype Value = Text(s: string) | Number(n: int) | Nested(json: string)

  type Record = map<string, Value>

  /** `JSON.parse` on the data of a frame; `None` where it throws. */
  type Parser = string -> Option<Record>

  /** One event as the server sends it: its name and the text of `json.dumps(data)`. */
  datatype Frame = Frame(name: string, data: string)

  function EventLine(f: Frame): string {
    "event: " + f.name
  }

  function DataLine(f: Frame): string {
    "data: " + f.data
  }

  function Print(f: Frame): string {
    EventLine(f) + "\n" + DataLine(f) + "\n\n"
  }

  function PrintAll(fs: seq<Frame>): string {
    if fs == [] then "" else Print(fs[0]) + PrintAll(fs[1..])
  }

  // ----- cutting the buffer at blank lines

  /** `buffer.indexOf('\n\n')` */
  function FindSeparator(s: string): Option<nat> {
    if |s| < 2 then None
    else if s[0] == '\n' && s[1] == '\n' then Some(0)
    else match FindSeparator(s[1..]) case None => None case Some(i) => Some(i + 1)
  }

  lemma {:induction false} SeparatorInBounds(s: string)
    ensures var i := FindSeparator(s); i.Some? ==> i.value + 2 <= |s|
  {
    if |s| >= 2 { SeparatorInBounds(s[1..]); }
  }

  /** The complete frames of a buffer, and what is left. */
  datatype Cuts = Cuts(frames: seq<string>, rest: string)

  function Cut(s: string): Cuts
    decreases |s|
  {
    SeparatorInBounds(s);
    match FindSeparator(s)
    case None => Cuts([], s)
    case Some(i) =>
      var more := Cut(s[i + 2..]);
      Cuts([s[..i]] + more.frames, more.rest)
  }

  lemma {:induction false} FirstSeparatorStays(a: string, b: string)
    requires FindSeparator(a).Some?
    ensures FindSeparator(a + b) == FindSeparator(a)
  {
    assert (a + b)[0] == a[0] && (a + b)[1] == a[1];
    if !(a[0] == '\n' && a[1] == '\n') {
      assert (a + b)[1..] == a[1..] + b;
      FirstSeparatorStays(a[1..], b);
    }
  }

  /** Cutting early loses nothing: what is left of `a` is cut again together with `b`, also
      when a separator straddles the boundary. */
  lemma {:induction false} CutInTwo(a: string, b: string)
    ensures Cut(a + b).frames == Cut(a).frames + Cut(Cut(a).rest + b).frames
    ensures Cut(a + b).rest == Cut(Cut(a).rest + b).rest
    decreases |a|
  {
    hide FindSeparator;
    match FindSeparator(a) {
      case None =>
      case Some(i) =>
        SeparatorInBounds(a);
        FirstSeparatorStays(a, b);
        assert (a + b)[i + 2..] == a[i + 2..] + b && (a + b)[..i] == a[..i];
        CutInTwo(a[i + 2..], b);
        Associative([a[..i]], Cut(a[i + 2..]).frames, Cut(Cut(a).rest + b).frames);
    }
  }

  // ----- one frame

  /** `raw.split('\n')` */
  function Lines(s: string): (lines: seq<string>)
    ensures lines != []
  {
    if s == "" then [""]
    else if s[0] == '\n' then [""] + Lines(s[1..])
    else
      var more := Lines(s[1..]);
      [[s[0]] + more[0]] + more[1..]
  }

  /** The characters that `trim` removes. */
  predicate IsSpace(c: char) {
    c == '\t' || c == '\n' || c == '\U{0B}' || c == '\U{0C}' || c == '\r' || c == ' ' || c == '\U{A0}' ||
    c == '\U{1680}' || '\U{2000}' <= c <= '\U{200A}' || c == '\U{2028}' || c == '\U{2029}' ||
    c == '\U{202F}' || c == '\U{205F}' || c == '\U{3000}' || c == '\U{FEFF}'
  }

  function Trim(s: string): string
    decreases |s|
  {
    if s != "" && IsSpace(s[0]) then Trim(s[1..])
    else if s != "" && IsSpace(s[|s| - 1]) then Trim(s[..|s| - 1])
    else s
  }

  /** The event name (the last one wins) and the data lines joined without a separator. */
  function Collect(lines: seq<string>, soFar: Frame): Frame
    decreases lines
  {
    if lines == [] then soFar
    else Collect(lines[1..], Field(lines[0], soFar))
  }

  function Field(line: string, soFar: Frame): Frame {
    if "event: " <= line then soFar.(name := Trim(line[7..]))
    else if "data: " <= line then soFar.(data := soFar.data + line[6..])
    else soFar
  }

  const EVENTS := {"token", "specialist_consultation_started", "specialist_consultation_complete",
                   "specialist_consultation_error", "done", "error"}

  /** `{ type: name, ...parsed }` */
  function Typed(name: string, parsed: Record): Record {
    map["type" := Text(name)] + parsed
  }

  function ToEvent(f: Frame, parse: Parser): Option<Record> {
    if f.name == "" || f.data == "" then None
    else match parse(f.data)
      case None => None
      case Some(parsed) => if f.name in EVENTS then Some(Typed(f.name, parsed)) else None
  }

  function Parsed(raw: string, parse: Parser): Option<Record> {
    ToEvent(Collect(Lines(raw), Frame("", "")), parse)
  }

  method ParseSSEEvent(raw: string, parse: Parser) returns (event: Option<Record>)
    ensures event == Parsed(raw, parse)
  {
    var eventName, data := "", "";
    var lines := Lines(raw);
    for i := 0 to |lines|
      invariant Collect(lines, Frame("", "")) == Collect(lines[i..], Frame(eventName, data))
    {
      var line := lines[i];
      if "event: " <= line {
        eventName := Trim(line[7..]);
      } else if "data: " <= line {
        data := data + line[6..];
      }
    }
    if eventName == "" || data == "" {
      return None;
    }
    match parse(data) {
      case None => return None;
      case Some(parsed) => return if eventName in EVENTS then Some(Typed(eventName, parsed)) else None;
    }
  }

  // ----- the client's read loop

  function Optional(event: Option<Record>): seq<Record> {
    match event case None => [] case Some(e) => [e]
  }

  function Decode(frames: seq<string>, parse: Parser): seq<Record> {
    if frames == [] then [] else Optional(Parsed(frames[0], parse)) + Decode(frames[1..], parse)
  }

  /** What is yielded when the stream ends with `rest` still in the buffer. */
  function Trailing(rest: string, parse: Parser): seq<Record> {
    if Trim(rest) == "" then [] else Optional(Parsed(rest, parse))
  }

  /** The whole client as a function of the received text. */
  function Received(text: string, parse: Parser): seq<Record> {
    Decode(Cut(text).frames, parse) + Trailing(Cut(text).rest, parse)
  }

  function Flatten(chunks: seq<string>): string {
    if chunks == [] then "" else Flatten(chunks[..|chunks| - 1]) + chunks[|chunks| - 1]
  }

  lemma {:induction false} DecodeAppend(a: seq<string>, b: seq<string>, parse: Parser)
    ensures Decode(a + b, parse) == Decode(a, parse) + Decode(b, parse)
  {
    if a == [] {
      assert a + b == b;
    } else {
      assert (a + b)[0] == a[0] && (a + b)[1..] == a[1..] + b;
      DecodeAppend(a[1..], b, parse);
    }
  }

  /** The inner loop: parse every complete frame in the buffer, keep what is left. */
  method Drain(received: string, parse: Parser) returns (events: seq<Record>, buffer: string)
    ensures events == Decode(Cut(received).frames, parse) && buffer == Cut(received).rest
  {
    hide FindSeparator;
    buffer := received;
    events := [];
    var separatorIndex := FindSeparator(buffer);
    while separatorIndex.Some?
      invariant separatorIndex == FindSeparator(buffer)
      invariant Cut(buffer).rest == Cut(received).rest
      invariant events + Decode(Cut(buffer).frames, parse) == Decode(Cut(received).frames, parse)
      decreases |buffer|
    {
      SeparatorInBounds(buffer);
      var rawEvent := buffer[..separatorIndex.value];
      ghost var frames := Cut(buffer).frames;
      buffer := buffer[separatorIndex.value + 2..];
      assert frames[0] == rawEvent && frames[1..] == Cut(buffer).frames;
      var event := ParseSSEEvent(rawEvent, parse);
      Associative(events, Optional(event), Decode(Cut(buffer).frames, parse));
      events := events + Optional(event);
      separatorIndex := FindSeparator(buffer);
    }
  }

  /** The events are a function of the concatenated text: the chunking cannot be observed. */
  method StreamChatMessage(chunks: seq<string>, parse: Parser) returns (events: seq<Record>)
    ensures events == Received(Flatten(chunks), parse)
  {
    hide Cut, Decode;
    var buffer := "";
    events := [];
    NothingReceived(parse);
    for i := 0 to |chunks|
      invariant events == Decode(Cut(Flatten(chunks[..i])).frames, parse)
      invariant buffer == Cut(Flatten(chunks[..i])).rest
    {
      ghost var text := Flatten(chunks[..i]);
      assert chunks[..i + 1][..i] == chunks[..i];
      CutInTwo(text, chunks[i]);
      DecodeAppend(Cut(text).frames, Cut(buffer + chunks[i]).frames, parse);
      var more, rest := Drain(buffer + chunks[i], parse);
      events := events + more;
      buffer := rest;
    }
    assert chunks[..|chunks|] == chunks;
    if Trim(buffer) != "" {
      var trailing := ParseSSEEvent(buffer, parse);
      events := events + Optional(trailing);
    }
  }

  lemma NothingReceived(parse: Parser)
    ensures Cut("") == Cuts([], "") && Decode([], parse) == []
  {
  }

  // ----- round trip

  predicate Lacks(s: string, c: char) {
    c !in s
  }

  /** What the server prints: a protocol event whose data is one line of JSON text. */
  ghost predicate Sendable(f: Frame, parse: Parser) {
    f.name in EVENTS && f.data != "" && Lacks(f.data, '\n') && parse(f.data).Some?
  }

  ghost predicate AllSendable(fs: seq<Frame>, parse: Parser) {
    forall f | f in fs :: Sendable(f, parse)
  }

  predicate CleanName(name: string) {
    name != "" && Lacks(name, '\n') && Trim(name) == name
  }

  lemma NothingToTrim(s: string)
    requires s != "" && !IsSpace(s[0]) && !IsSpace(s[|s| - 1])
    ensures Trim(s) == s
  {
  }

  lemma NamesAreClean(name: string)
    requires name in EVENTS
    ensures CleanName(name)
  {
    hide Trim;
    NothingToTrim(name);
    if name == "token" {
    } else if name == "specialist_consultation_started" {
    } else if name == "specialist_consultation_complete" {
    } else if name == "specialist_consultation_error" {
    } else if name == "done" {
    } else {
      assert name == "error";
    }
  }

  lemma {:induction false} OneLine(s: string)
    requires Lacks(s, '\n')
    ensures Lines(s) == [s]
  {
    if s != "" {
      OneLine(s[1..]);
      assert s == [s[0]] + s[1..];
    }
  }

  lemma {:induction false} LineThenMore(s: string, more: string)
    requires Lacks(s, '\n')
    ensures Lines(s + "\n" + more) == [s] + Lines(more)
  {
    if s == "" {
      assert (s + "\n" + more)[1..] == more;
    } else {
      LineThenMore(s[1..], more);
      assert (s + "\n" + more)[1..] == s[1..] + "\n" + more;
      assert s == [s[0]] + s[1..];
    }
  }

  lemma LacksAppend(a: string, b: string, c: char)
    requires Lacks(a, c) && Lacks(b, c)
    ensures Lacks(a + b, c)
  {
  }

  lemma {:induction false} NoSeparatorWithin(a: string, b: string)
    requires Lacks(a, '\n') && Lacks(b, '\n')
    requires b != ""
    ensures FindSeparator(a + "\n" + b) == None
    ensures FindSeparator(a + "\n" + (b + "\n\n")) == Some(|a| + 1 + |b|)
  {
    var s, t := a + "\n" + b, a + "\n" + (b + "\n\n");
    if a == "" {
      assert s[1..] == b && t[1..] == b + "\n\n";
      assert s[1] == b[0] && t[1] == b[0];
      SeparatorAfterLine(b);
    } else {
      assert s[1..] == a[1..] + "\n" + b && t[1..] == a[1..] + "\n" + (b + "\n\n");
      NoSeparatorWithin(a[1..], b);
    }
  }

  lemma {:induction false} SeparatorAfterLine(b: string)
    requires Lacks(b, '\n')
    ensures FindSeparator(b) == None && FindSeparator(b + "\n") == None
    ensures FindSeparator(b + "\n\n") == Some(|b|)
  {
    if b != "" {
      SeparatorAfterLine(b[1..]);
      assert (b + "\n")[1..] == b[1..] + "\n" && (b + "\n\n")[1..] == b[1..] + "\n\n";
    }
  }

  predicate NamesEvent(lines: seq<string>, k: int) {
    0 <= k < |lines| && "event: " <= lines[k]
  }

  /** What the data lines hold, in order; a line that names the event is none. */
  function DataOf(lines: seq<string>): string {
    if lines == [] then ""
    else (if "data: " <= lines[0] then lines[0][6..] else "") + DataOf(lines[1..])
  }

  /** Whatever the lines: the last one that names the event decides, blanks around the name are
      dropped, and the data is that of all data lines; other lines are ignored. */
  lemma {:induction false} LinesTell(lines: seq<string>, soFar: Frame)
    ensures Collect(lines, soFar).data == soFar.data + DataOf(lines)
    ensures forall k | NamesEvent(lines, k) && (forall j | k < j < |lines| :: !NamesEvent(lines, j)) ::
              Collect(lines, soFar).name == Trim(lines[k][7..])
    ensures (forall k | 0 <= k < |lines| :: !NamesEvent(lines, k)) ==> Collect(lines, soFar).name == soFar.name
    decreases lines
  {
    hide Trim;
    if lines != [] {
      var rest, first := lines[1..], Field(lines[0], soFar);
      LinesTell(rest, first);
      FieldTells(lines[0], soFar);
      hide Field;
      assert NamesEvent(lines, 0) <==> "event: " <= lines[0];
      assert forall k | 0 < k < |lines| :: lines[k] == rest[k - 1];
      assert forall k | 0 < k < |lines| :: NamesEvent(lines, k) <==> NamesEvent(rest, k - 1);
      assert forall k | 0 <= k < |rest| :: NamesEvent(rest, k) <==> NamesEvent(lines, k + 1);
    }
  }

  lemma FieldTells(line: string, soFar: Frame)
    ensures Field(line, soFar).data == soFar.data + if "data: " <= line then line[6..] else ""
    ensures Field(line, soFar).name == if "event: " <= line then Trim(line[7..]) else soFar.name
  {
    hide Trim;
    assert "event: " <= line ==> line[0] == 'e';
    assert "data: " <= line ==> line[0] == 'd';
  }

  /** The event a printed frame stands for. */
  function EventOf(f: Frame, parse: Parser): Record {
    match parse(f.data) case Some(parsed) => Typed(f.name, parsed) case None => map[]
  }

  /** It is the data under the name that was sent: every member of the data, and as "type" the
      name, unless the data brings its own. */
  lemma EventTells(f: Frame, parse: Parser)
    requires Sendable(f, parse)
    ensures var data, event := parse(f.data).value, EventOf(f, parse);
            event.Keys == data.Keys + {"type"} && (forall k | k in data :: event[k] == data[k]) &&
            ("type" !in data ==> event["type"] == Text(f.name))
  {
  }

  /** Neither line of a printed frame holds a newline, and neither is empty. */
  lemma LinesAreClean(f: Frame, parse: Parser)
    requires Sendable(f, parse)
    ensures Lacks(EventLine(f), '\n') && Lacks(DataLine(f), '\n') && DataLine(f) != "" && EventLine(f) != ""
    ensures EventLine(f)[7..] == f.name && DataLine(f)[6..] == f.data && Trim(f.name) == f.name
    ensures "event: " <= EventLine(f) && "data: " <= DataLine(f) && !("event: " <= DataLine(f))
  {
    NamesAreClean(f.name);
    LacksAppend("event: ", f.name, '\n');
    LacksAppend("data: ", f.data, '\n');
    assert DataLine(f)[0] == 'd';
  }

  /** What an event line followed by `line` amounts to. */
  lemma TwoLinesCollected(f: Frame, line: string, parse: Parser)
    requires Sendable(f, parse)
    ensures Collect([EventLine(f), line], Frame("", "")) == Field(line, Frame(f.name, ""))
  {
    LinesAreClean(f, parse);
    var lines := [EventLine(f), line];
    assert lines[1..] == [line] && lines[1..][1..] == [];
    assert Field(EventLine(f), Frame("", "")) == Frame(f.name, "");
    assert Collect(lines[1..], Frame(f.name, "")) == Collect([], Field(line, Frame(f.name, "")));
  }

  lemma EventLineThen(f: Frame, line: string, parse: Parser)
    requires Sendable(f, parse) && Lacks(line, '\n')
    ensures Parsed(EventLine(f) + "\n" + line, parse) == ToEvent(Field(line, Frame(f.name, "")), parse)
  {
    LinesAreClean(f, parse);
    LineThenMore(EventLine(f), line);
    OneLine(line);
    TwoLinesCollected(f, line, parse);
    hide Collect, Lines, ToEvent, Field, EventLine, DataLine;
    assert [EventLine(f)] + [line] == [EventLine(f), line];
  }

  /** A frame's two lines are parsed back to its event. */
  lemma FrameParses(f: Frame, parse: Parser)
    requires Sendable(f, parse)
    ensures Parsed(EventLine(f) + "\n" + DataLine(f), parse) == Some(EventOf(f, parse))
  {
    hide Parsed, EventLine, DataLine, Trim, Typed;
    LinesAreClean(f, parse);
    EventLineThen(f, DataLine(f), parse);
    assert "" + f.data == f.data;
    assert f.name != "";
  }

  lemma PrintCuts(f: Frame, parse: Parser, more: string)
    requires Sendable(f, parse)
    ensures Cut(Print(f) + more).frames == [EventLine(f) + "\n" + DataLine(f)] + Cut(more).frames
    ensures Cut(Print(f) + more).rest == Cut(more).rest
  {
    LinesAreClean(f, parse);
    FirstCut(EventLine(f), DataLine(f));
    CutInTwo(Print(f), more);
    assert "" + more == more;
  }

  lemma FirstCut(a: string, b: string)
    requires Lacks(a, '\n') && Lacks(b, '\n') && b != ""
    ensures Cut(a + "\n" + b + "\n\n") == Cuts([a + "\n" + b], "")
  {
    NoSeparatorWithin(a, b);
    hide FindSeparator;
    var s := a + "\n" + b + "\n\n";
    assert s == a + "\n" + (b + "\n\n");
    var i := |a| + 1 + |b|;
    assert s[..i] == a + "\n" + b && s[i + 2..] == "";
    assert FindSeparator("") == None by { SeparatorAfterLine(""); }
    assert Cut("") == Cuts([], "");
  }

  function Sent(fs: seq<Frame>, parse: Parser): seq<Record> {
    seq(|fs|, i requires 0 <= i < |fs| => EventOf(fs[i], parse))
  }

  lemma SentFirst(fs: seq<Frame>, parse: Parser)
    requires fs != [] && AllSendable(fs, parse)
    ensures Sendable(fs[0], parse) && AllSendable(fs[1..], parse)
    ensures Sent(fs, parse) == [EventOf(fs[0], parse)] + Sent(fs[1..], parse)
  {
    assert fs[0] in fs;
  }

  lemma {:induction false} PrintedStream(fs: seq<Frame>, parse: Parser, more: string)
    requires AllSendable(fs, parse)
    ensures Decode(Cut(PrintAll(fs) + more).frames, parse) == Sent(fs, parse) + Decode(Cut(more).frames, parse)
    ensures Cut(PrintAll(fs) + more).rest == Cut(more).rest
  {
    hide Cut, Print, AllSendable;
    if fs == [] {
      assert PrintAll(fs) + more == more;
    } else {
      SentFirst(fs, parse);
      PrintedStream(fs[1..], parse, more);
      var tail := PrintAll(fs[1..]) + more;
      Associative(Print(fs[0]), PrintAll(fs[1..]), more);
      PrintCuts(fs[0], parse, tail);
      FrameParses(fs[0], parse);
      hide Parsed, Sent;
      var body := EventLine(fs[0]) + "\n" + DataLine(fs[0]);
      DecodeFirst(body, Cut(tail).frames, parse);
      Associative([EventOf(fs[0], parse)], Sent(fs[1..], parse), Decode(Cut(more).frames, parse));
    }
  }

  lemma DecodeFirst(raw: string, frames: seq<string>, parse: Parser)
    ensures Decode([raw] + frames, parse) == Optional(Parsed(raw, parse)) + Decode(frames, parse)
  {
    assert ([raw] + frames)[1..] == frames;
  }

  /** For any list of events and any cutting of the printed bytes into chunks, the client
      yields exactly those events, in order. */
  lemma RoundTrip(fs: seq<Frame>, chunks: seq<string>, parse: Parser)
    requires AllSendable(fs, parse) && Flatten(chunks) == PrintAll(fs)
    ensures Received(Flatten(chunks), parse) == Sent(fs, parse)
  {
    PrintedStream(fs, parse, "");
    assert PrintAll(fs) + "" == PrintAll(fs);
    NothingReceived(parse);
  }

  // ----- a connection lost half-way

  /** No JSON object text parses when its end is missing. */
  ghost predicate NeedsItsEnd(f: Frame, parse: Parser) {
    forall k | 0 <= k < |f.data| :: parse(f.data[..k]) == None
  }

  /** The client yields nothing for the cut-off frame, or its whole event. */
  ghost predicate AllOrNothing(text: string, f: Frame, parse: Parser)
    requires Sendable(f, parse)
  {
    FindSeparator(text) == None &&
    (Trailing(text, parse) == [] || Trailing(text, parse) == [EventOf(f, parse)])
  }

  lemma LacksPrefix(s: string, k: nat)
    requires Lacks(s, '\n') && k <= |s|
    ensures Lacks(s[..k], '\n')
  {
  }

  /** A partial frame yields nothing, or, when only newlines are missing, its whole event. */
  lemma PartialFrame(f: Frame, parse: Parser, k: nat)
    requires Sendable(f, parse) && NeedsItsEnd(f, parse) && k < |Print(f)|
    ensures AllOrNothing(Print(f)[..k], f, parse)
  {
    var a, b, t := EventLine(f), DataLine(f), Print(f)[..k];
    if k <= |a| {
      assert t == a[..k];
      WithinFirstLine(f, k, parse);
    } else if k <= |a| + 1 + |b| {
      assert t == a + "\n" + b[..k - |a| - 1];
      WithinSecondLine(f, k - |a| - 1, parse);
    } else {
      assert t == a + "\n" + (b + "\n");
      OnlyLastNewlineMissing(f, parse);
    }
  }

  lemma WithinFirstLine(f: Frame, k: nat, parse: Parser)
    requires Sendable(f, parse) && k <= |EventLine(f)|
    ensures AllOrNothing(EventLine(f)[..k], f, parse)
  {
    LinesAreClean(f, parse);
    var t := EventLine(f)[..k];
    LacksPrefix(EventLine(f), k);
    SeparatorAfterLine(t);
    OneLine(t);
    if t != "" { assert t[0] == 'e'; }
    OneLineCollected(t);
    hide Collect, Lines;
  }

  lemma OneLineCollected(t: string)
    ensures Collect([t], Frame("", "")) == Field(t, Frame("", ""))
  {
    var one := [t];
    assert one[1..] == [];
    assert Collect(one, Frame("", "")) == Collect(one[1..], Field(t, Frame("", "")));
  }

  lemma WithinSecondLine(f: Frame, j: nat, parse: Parser)
    requires Sendable(f, parse) && NeedsItsEnd(f, parse) && j <= |DataLine(f)|
    ensures AllOrNothing(EventLine(f) + "\n" + DataLine(f)[..j], f, parse)
  {
    LinesAreClean(f, parse);
    var a, part := EventLine(f), DataLine(f)[..j];
    LacksPrefix(DataLine(f), j);
    if j == 0 {
      assert a + "\n" + part == a + "\n";
      SeparatorAfterLine(a);
    } else {
      NoSeparatorWithin(a, part);
    }
    EventLineThen(f, part, parse);
    PartOfDataLine(f, j, parse);
    hide Parsed, FindSeparator, Trim, EventLine, DataLine, Field, ToEvent;
  }

  lemma PartOfDataLine(f: Frame, j: nat, parse: Parser)
    requires Sendable(f, parse) && NeedsItsEnd(f, parse) && j <= |DataLine(f)|
    ensures ToEvent(Field(DataLine(f)[..j], Frame(f.name, "")), parse) in {None, Some(EventOf(f, parse))}
  {
    var part := DataLine(f)[..j];
    if j > 0 { assert part[0] == 'd'; }
    if j >= 6 {
      assert part[6..] == f.data[..j - 6];
      assert "" + f.data[..j - 6] == f.data[..j - 6];
      assert f.data[..|f.data|] == f.data;
    }
  }

  lemma OnlyLastNewlineMissing(f: Frame, parse: Parser)
    requires Sendable(f, parse)
    ensures var text := EventLine(f) + "\n" + (DataLine(f) + "\n");
            AllOrNothing(text, f, parse) && Parsed(text, parse) == Some(EventOf(f, parse))
  {
    LinesAreClean(f, parse);
    var a, b := EventLine(f), DataLine(f);
    NoSeparatorBeforeLast(a, b);
    LineThenMore(a, b + "\n");
    assert b + "\n" == b + "\n" + "";
    LineThenMore(b, "");
    OneLine("");
    ThreeLinesCollected(f, parse);
    assert [a] + ([b] + [""]) == [a, b, ""];
    hide Collect, Lines, FindSeparator, Trim, EventLine, DataLine;
  }

  lemma ThreeLinesCollected(f: Frame, parse: Parser)
    requires Sendable(f, parse)
    ensures Collect([EventLine(f), DataLine(f), ""], Frame("", "")) == f
  {
    LinesAreClean(f, parse);
    var a, b := EventLine(f), DataLine(f);
    hide EventLine, DataLine, Lacks, Trim;
    var lines := [a, b, ""];
    assert lines[1..] == [b, ""] && lines[1..][1..] == [""] && lines[1..][1..][1..] == [];
    assert "" + f.data == f.data;
    assert Field(b, Frame(f.name, "")) == f && Field("", f) == f;
    assert Collect(lines[1..][1..], f) == Collect([], f) == f;
    assert Collect(lines[1..], Frame(f.name, "")) == f;
  }

  lemma {:induction false} NoSeparatorBeforeLast(a: string, b: string)
    requires Lacks(a, '\n') && Lacks(b, '\n') && b != ""
    ensures FindSeparator(a + "\n" + (b + "\n")) == None
  {
    var s := a + "\n" + (b + "\n");
    if a == "" {
      assert s[1..] == b + "\n" && s[1] == b[0];
      SeparatorAfterLine(b);
    } else {
      assert s[1..] == a[1..] + "\n" + (b + "\n");
      NoSeparatorBeforeLast(a[1..], b);
    }
  }

  /** Losing the connection anywhere yields a prefix of the events sent: nothing is garbled,
      reordered or invented. */
  lemma {:induction false} LostConnection(fs: seq<Frame>, parse: Parser, k: nat)
    requires AllSendable(fs, parse) && forall f | f in fs :: NeedsItsEnd(f, parse)
    requires k <= |PrintAll(fs)|
    ensures Received(PrintAll(fs)[..k], parse) <= Sent(fs, parse)
  {
    if fs == [] {
      NothingReceived(parse);
      assert PrintAll(fs)[..k] == "";
    } else {
      var f, rest := fs[0], PrintAll(fs[1..]);
      SentFirst(fs, parse);
      if k < |Print(f)| {
        assert PrintAll(fs)[..k] == Print(f)[..k];
        PartialFrame(f, parse, k);
        assert Cut(Print(f)[..k]) == Cuts([], Print(f)[..k]);
      } else {
        var j := k - |Print(f)|;
        assert PrintAll(fs)[..k] == Print(f) + rest[..j];
        LostConnection(fs[1..], parse, j);
        FirstEventReceived(f, rest[..j], parse);
      }
    }
  }

  /** A stream that ends without its last one or two newlines loses nothing. */
  lemma {:induction false} UnterminatedStream(fs: seq<Frame>, f: Frame, parse: Parser, k: nat)
    requires AllSendable(fs, parse) && Sendable(f, parse) && |Print(f)| - 2 <= k < |Print(f)|
    ensures Received(PrintAll(fs) + Print(f)[..k], parse) == Sent(fs, parse) + [EventOf(f, parse)]
  {
    hide Print, PrintAll, Sent, EventOf;
    PrintedStream(fs, parse, Print(f)[..k]);
    UnterminatedFrame(f, parse, k);
  }

  lemma UnterminatedFrame(f: Frame, parse: Parser, k: nat)
    requires Sendable(f, parse) && |Print(f)| - 2 <= k < |Print(f)|
    ensures Received(Print(f)[..k], parse) == [EventOf(f, parse)]
  {
    LinesAreClean(f, parse);
    var a, b, text := EventLine(f), DataLine(f), Print(f)[..k];
    NeverBlank(text);
    if k == |Print(f)| - 2 {
      assert text == a + "\n" + b;
      NoSeparatorWithin(a, b);
      FrameParses(f, parse);
    } else {
      assert text == a + "\n" + (b + "\n");
      OnlyLastNewlineMissing(f, parse);
    }
    hide EventLine, DataLine, Trim, FindSeparator, Parsed, EventOf;
    assert Received(text, parse) == [] + Trailing(text, parse);
  }

  lemma {:induction false} NeverBlank(s: string)
    requires s != "" && !IsSpace(s[0])
    ensures Trim(s) != ""
    decreases |s|
  {
    if IsSpace(s[|s| - 1]) {
      NeverBlank(s[..|s| - 1]);
    }
  }

  lemma FirstEventReceived(f: Frame, more: string, parse: Parser)
    requires Sendable(f, parse)
    ensures Received(Print(f) + more, parse) == [EventOf(f, parse)] + Received(more, parse)
  {
    PrintCuts(f, parse, more);
    FrameParses(f, parse);
    DecodeFirst(EventLine(f) + "\n" + DataLine(f), Cut(more).frames, parse);
  }
}
