/**
 * Server-sent events on the wire: how the server frames a body, and the client's incremental parser over a
 * growing buffer. Text is a sequence of characters; section 9.2.6 of the WHATWG HTML standard.
 */
module SseFraming {
  import opened Wrappers
  import Text
  import Utf8

  // ---- Writing ----

  /** The lines of a body, between any of CRLF, CR and LF; always at least one. */
  function Lines(body: string): (r: seq<string>)
    ensures r != []
    ensures forall i :: 0 <= i < |r| ==> OneLiner(r[i])
    decreases |body|
  {
    if body == "" then [""]
    else if |body| >= 2 && body[0] == '\r' && body[1] == '\n' then [""] + Lines(body[2..])
    else if body[0] == '\r' || body[0] == '\n' then [""] + Lines(body[1..])
    else
      var rest := Lines(body[1..]);
      [[body[0]] + rest[0]] + rest[1..]
  }

  function DataLines(lines: seq<string>): string {
    if lines == [] then "" else "data:" + lines[0] + "\n" + DataLines(lines[1..])
  }

  /** One data event as the server writes it. */
  function FrameData(body: string): string {
    "event: data\n" + DataLines(Lines(body)) + "\n"
  }

  function FrameControl(json: string): string {
    "event: control\n" + "data:" + json + "\n\n"
  }

  method WriteDataEvent(body: string) returns (text: string)
    ensures text == FrameData(body)
  {
    var lines := Lines(body);
    text := "event: data\n";
    for i := 0 to |lines|
      invariant text == "event: data\n" + DataLines(lines[..i])
    {
      DataLinesSnoc(lines, i);
      assert "event: data\n" + DataLines(lines[..i]) + ("data:" + lines[i] + "\n")
        == "event: data\n" + (DataLines(lines[..i]) + ("data:" + lines[i] + "\n"));
      text := text + ("data:" + lines[i] + "\n");
    }
    assert lines[..|lines|] == lines;
    text := text + "\n";
  }

  lemma {:induction false} DataLinesSnoc(lines: seq<string>, i: nat)
    requires i < |lines|
    ensures DataLines(lines[..i + 1]) == DataLines(lines[..i]) + ("data:" + lines[i] + "\n")
  {
    if i == 0 {
      assert lines[..1][1..] == [] && lines[..0] == [];
    } else {
      assert lines[..i + 1][1..] == lines[1..][..i] && lines[..i][1..] == lines[1..][..i - 1];
      DataLinesSnoc(lines[1..], i - 1);
      var first := "data:" + lines[0] + "\n";
      assert first + (DataLines(lines[1..][..i - 1]) + ("data:" + lines[i] + "\n"))
        == (first + DataLines(lines[1..][..i - 1])) + ("data:" + lines[i] + "\n");
    }
  }

  // ---- Parsing ----

  datatype ControlInfo = ControlInfo(next: string, cursor: Option<string>, upToDate: bool)

  /** The JSON and base64 libraries, as functions that may fail. */
  datatype Config = Config(base64: bool, decode: string -> Option<string>, parseControl: string -> Option<ControlInfo>)

  datatype Parser = Parser(
    buffer: string,
    pending: seq<string>,
    eventType: Option<string>,
    offset: string,
    cursor: Option<string>,
    upToDate: bool)

  datatype Outcome =
    | Chunk(data: string, nextOffset: string, upToDate: bool, cursor: Option<string>)
    | ParseError

  /** The position of the first line feed, or the length of the text. */
  function FindNewline(s: string): (i: nat)
    ensures i <= |s| && (i < |s| ==> s[i] == '\n')
    ensures forall j :: 0 <= j < i ==> s[j] != '\n'
  {
    if s == "" || s[0] == '\n' then 0 else FindNewline(s[1..]) + 1
  }

  lemma {:induction false} FoundAt(s: string, i: nat)
    requires i < |s| && s[i] == '\n' && forall j :: 0 <= j < i ==> s[j] != '\n'
    ensures FindNewline(s) == i
  {
  }

  function TrimEndCr(s: string): string {
    if s != "" && s[|s| - 1] == '\r' then TrimEndCr(s[..|s| - 1]) else s
  }

  predicate IsSpace(c: char) {
    c == ' ' || '\t' <= c <= '\r'
  }

  function TrimStart(s: string): string {
    if s != "" && IsSpace(s[0]) then TrimStart(s[1..]) else s
  }

  /** Exactly one leading space goes. */
  function StripOne(s: string): string {
    if s != "" && s[0] == ' ' then s[1..] else s
  }

  function JoinLines(lines: seq<string>): string {
    if lines == [] then "" else if |lines| == 1 then lines[0] else lines[0] + "\n" + JoinLines(lines[1..])
  }

  function WithoutBreaks(s: string): string {
    if s == "" then ""
    else if s[0] == '\n' || s[0] == '\r' then WithoutBreaks(s[1..]) else [s[0]] + WithoutBreaks(s[1..])
  }

  /** The payload of a data event. */
  function Payload(cfg: Config, data: string): Option<string> {
    if !cfg.base64 then Some(data)
    else
      var cleaned := WithoutBreaks(data);
      if cleaned == "" then Some("") else if |cleaned| % 4 != 0 then None else cfg.decode(cleaned)
  }

  function DispatchData(cfg: Config, p: Parser, data: string): (Parser, Option<Outcome>) {
    match Payload(cfg, data)
    case None => (p, Some(ParseError))
    case Some(payload) => (p, Some(Chunk(payload, p.offset, p.upToDate, p.cursor)))
  }

  /** A control event updates the position; only one that says up-to-date is reported, as an empty chunk. */
  function DispatchControl(cfg: Config, p: Parser, data: string): (Parser, Option<Outcome>) {
    if TrimStart(data) == "" then (p, Some(ParseError))
    else
      match cfg.parseControl(data)
      case None => (p, Some(ParseError))
      case Some(info) =>
        var p' := p.(offset := info.next, cursor := if info.cursor.Some? then info.cursor else p.cursor,
                     upToDate := info.upToDate);
        (p', if info.upToDate then Some(Chunk("", p'.offset, true, p'.cursor)) else None)
  }

  datatype Field = Blank | EventField(kind: string) | DataField(value: string) | Ignored

  function Classify(line: string): Field {
    if line == "" then Blank
    else if Text.StartsWith(line, "event:") then EventField(TrimStart(line[6..]))
    else if Text.StartsWith(line, "data:") then DataField(StripOne(line[5..]))
    else Ignored
  }

  function Dispatched(cfg: Config, p: Parser): (Parser, Option<Outcome>) {
    if p.pending == [] then (p, None)
    else
      var data, kind := JoinLines(p.pending), p.eventType;
      var cleared := p.(pending := [], eventType := None);
      if kind == Some("control") then DispatchControl(cfg, cleared, data)
      else if kind == None || kind == Some("data") || kind == Some("message") then DispatchData(cfg, cleared, data)
      else (cleared, None)
  }

  /** One line: a field, or the empty line that dispatches the event. */
  function ApplyField(cfg: Config, p: Parser, field: Field): (Parser, Option<Outcome>) {
    match field
    case Blank => Dispatched(cfg, p)
    case EventField(kind) => (p.(eventType := Some(kind)), None)
    case DataField(value) => (p.(pending := p.pending + [value]), None)
    case Ignored => (p, None)
  }

  /** The first complete line, without carriage returns at its end, and the text after it. */
  function TakeLine(s: string): (r: Option<(string, string)>)
    ensures r.Some? ==> |r.value.1| < |s|
    ensures r.None? <==> '\n' !in s
  {
    var i := FindNewline(s);
    if i == |s| then None else Some((TrimEndCr(s[..i]), s[i + 1..]))
  }

  /** Works through complete lines until one has an outcome; none means more text is needed. */
  function NextChunk(cfg: Config, p: Parser): (r: (Parser, Option<Outcome>))
    ensures r.1.Some? ==> |r.0.buffer| < |p.buffer|
    ensures r.1.None? ==> '\n' !in r.0.buffer
    decreases |p.buffer|
  {
    var taken := TakeLine(p.buffer);
    if taken.None? then (p, None)
    else
      var r := ApplyField(cfg, p.(buffer := taken.value.1), Classify(taken.value.0));
      if r.1.Some? then r else NextChunk(cfg, r.0)
  }

  /** Everything that the text received so far yields. */
  function Drain(cfg: Config, p: Parser): (Parser, seq<Outcome>)
    decreases |p.buffer|
  {
    var r := NextChunk(cfg, p);
    if r.1.None? then (r.0, []) else After([r.1.value], Drain(cfg, r.0))
  }

  function After(first: seq<Outcome>, r: (Parser, seq<Outcome>)): (Parser, seq<Outcome>) {
    (r.0, first + r.1)
  }

  function Push(p: Parser, text: string): Parser {
    p.(buffer := p.buffer + text)
  }

  /** The parser as an object over a growing buffer. */
  class SseReader {
    const cfg: Config
    var buffer: string
    var pendingData: seq<string>
    var currentEventType: Option<string>
    var offset: string
    var cursor: Option<string>
    var upToDate: bool

    ghost function State(): Parser
      reads this
    {
      Parser(buffer, pendingData, currentEventType, offset, cursor, upToDate)
    }

    constructor (config: Config, start: string)
      ensures cfg == config && State() == Parser("", [], None, start, None, false)
    {
      cfg := config;
      buffer, pendingData, currentEventType := "", [], None;
      offset, cursor, upToDate := start, None, false;
    }

    method PushText(text: string)
      modifies this`buffer
      ensures State() == Push(old(State()), text)
    {
      buffer := buffer + text;
    }

    /** The next chunk or error in the buffered text, or none when more text is needed. */
    method NextSseChunk() returns (outcome: Option<Outcome>)
      modifies this
      ensures (State(), outcome) == NextChunk(cfg, old(State()))
    {
      ghost var all := NextChunk(cfg, State());
      while true
        invariant NextChunk(cfg, State()) == all
        decreases |buffer|
      {
        var newlinePos := FindNewline(buffer);
        if newlinePos == |buffer| { return None; }
        var line := TrimEndCr(buffer[..newlinePos]);
        buffer := buffer[newlinePos + 1..];
        outcome := HandleLine(line);
        if outcome.Some? { return; }
      }
    }

    method HandleLine(line: string) returns (outcome: Option<Outcome>)
      modifies this`pendingData, this`currentEventType, this`offset, this`cursor, this`upToDate
      ensures (State(), outcome) == ApplyField(cfg, old(State()), Classify(line))
    {
      if line == "" {
        if |pendingData| > 0 { outcome := Dispatch(); } else { outcome := None; }
        return;
      }
      if Text.StartsWith(line, "event:") {
        currentEventType := Some(TrimStart(line[6..]));
      } else if Text.StartsWith(line, "data:") {
        pendingData := pendingData + [StripOne(line[5..])];
      }
      return None;
    }

    /** Hands over the pending event. */
    method Dispatch() returns (outcome: Option<Outcome>)
      requires pendingData != []
      modifies this`pendingData, this`currentEventType, this`offset, this`cursor, this`upToDate
      ensures (State(), outcome) == Dispatched(cfg, old(State()))
    {
      var data, kind := JoinLines(pendingData), currentEventType;
      currentEventType, pendingData := None, [];
      if kind == Some("control") {
        if TrimStart(data) == "" { return Some(ParseError); }
        var info := cfg.parseControl(data);
        if info.None? { return Some(ParseError); }
        offset := info.value.next;
        if info.value.cursor.Some? { cursor := info.value.cursor; }
        upToDate := info.value.upToDate;
        if upToDate { return Some(Chunk("", offset, true, cursor)); }
        return None;
      }
      if kind == None || kind == Some("data") || kind == Some("message") {
        var payload := Payload(cfg, data);
        if payload.None? { return Some(ParseError); }
        return Some(Chunk(payload.value, offset, upToDate, cursor));
      }
      return None;
    }
  }

  // ---- Chunk independence ----

  /** A complete line stays the first line when text follows. */
  lemma {:induction false} TakeLineEarly(a: string, b: string)
    requires TakeLine(a).Some?
    ensures TakeLine(a + b) == Some((TakeLine(a).value.0, TakeLine(a).value.1 + b))
  {
    var i := FindNewline(a);
    FoundAt(a + b, i);
    assert (a + b)[..i] == a[..i] && (a + b)[i + 1..] == a[i + 1..] + b;
  }

  lemma {:induction false} FieldIgnoresBuffer(cfg: Config, p: Parser, field: Field, more: string)
    ensures var r := ApplyField(cfg, p, field);
      && ApplyField(cfg, Push(p, more), field) == (Push(r.0, more), r.1)
      && r.0.buffer == p.buffer
  {
  }

  /** Text that comes later does not change what earlier text yields. */
  lemma {:induction false} NextChunkEarly(cfg: Config, p: Parser, more: string)
    ensures var r := NextChunk(cfg, p);
      NextChunk(cfg, Push(p, more)) ==
        if r.1.Some? then (Push(r.0, more), r.1) else NextChunk(cfg, Push(r.0, more))
    decreases |p.buffer|
  {
    var taken := TakeLine(p.buffer);
    if taken.Some? {
      TakeLineEarly(p.buffer, more);
      var rest := p.(buffer := taken.value.1);
      FieldIgnoresBuffer(cfg, rest, Classify(taken.value.0), more);
      var r := ApplyField(cfg, rest, Classify(taken.value.0));
      assert Push(p, more).(buffer := taken.value.1 + more) == Push(rest, more);
      if r.1.None? { NextChunkEarly(cfg, r.0, more); }
    }
  }

  lemma {:induction false} DrainStep(cfg: Config, p: Parser)
    ensures var r := NextChunk(cfg, p);
      Drain(cfg, p) == if r.1.None? then (r.0, []) else After([r.1.value], Drain(cfg, r.0))
  {
  }

  lemma {:induction false} SameNext(cfg: Config, p: Parser, q: Parser)
    requires NextChunk(cfg, p) == NextChunk(cfg, q)
    ensures Drain(cfg, p) == Drain(cfg, q)
  {
    DrainStep(cfg, p);
    DrainStep(cfg, q);
  }

  lemma {:induction false} DrainOn(cfg: Config, p: Parser, q: Parser, next: (Parser, Option<Outcome>),
                                   next': (Parser, Option<Outcome>), later: (Parser, seq<Outcome>),
                                   last: (Parser, seq<Outcome>))
    requires NextChunk(cfg, p) == next && NextChunk(cfg, q) == next' && next.1.Some? && next'.1 == next.1
    requires Drain(cfg, next.0) == later && Drain(cfg, next'.0) == After(later.1, last)
    ensures Drain(cfg, q) == After(Drain(cfg, p).1, last) && Drain(cfg, p).0 == later.0
  {
    DrainStep(cfg, p);
    DrainStep(cfg, q);
    AfterTwice([next.1.value], later.1, last);
  }

  lemma {:induction false} DrainEarly(cfg: Config, p: Parser, more: string)
    ensures Drain(cfg, Push(p, more)) == After(Drain(cfg, p).1, Drain(cfg, Push(Drain(cfg, p).0, more)))
    decreases |p.buffer|
  {
    NextChunkEarly(cfg, p, more);
    var r := NextChunk(cfg, p);
    if r.1.Some? {
      DrainEarly(cfg, r.0, more);
      var later := Drain(cfg, r.0);
      DrainOn(cfg, p, Push(p, more), r, NextChunk(cfg, Push(p, more)), later, Drain(cfg, Push(later.0, more)));
    } else {
      DrainStep(cfg, p);
      SameNext(cfg, Push(p, more), Push(r.0, more));
      NothingBefore(Drain(cfg, Push(r.0, more)));
    }
  }

  lemma {:induction false} NothingBefore(r: (Parser, seq<Outcome>))
    ensures After([], r) == r
  {
    assert [] + r.1 == r.1;
  }

  lemma {:induction false} AfterTwice(a: seq<Outcome>, b: seq<Outcome>, r: (Parser, seq<Outcome>))
    ensures After(a, After(b, r)) == After(a + b, r)
  {
    assert a + (b + r.1) == (a + b) + r.1;
  }

  /** What the client gets when these pieces of text arrive. */
  function Receive(cfg: Config, p: Parser, pieces: seq<string>): (Parser, seq<Outcome>)
    decreases pieces
  {
    if pieces == [] then (p, [])
    else
      var r := Drain(cfg, Push(p, pieces[0]));
      After(r.1, Receive(cfg, r.0, pieces[1..]))
  }

  /** Once the pieces are text, the client's chunks do not depend on where one ends and the next begins. */
  lemma {:induction false} CutsDoNotMatter(cfg: Config, p: Parser, pieces: seq<string>)
    requires '\n' !in p.buffer
    ensures Receive(cfg, p, pieces) == Drain(cfg, Push(p, Utf8.Concat(pieces)))
    decreases pieces
  {
    if pieces == [] {
      assert p.buffer + "" == p.buffer;
      NothingToDrain(cfg, p);
    } else {
      var rest := Utf8.Concat(pieces[1..]);
      assert p.buffer + (pieces[0] + rest) == (p.buffer + pieces[0]) + rest;
      var p1 := Push(p, pieces[0]);
      DrainEarly(cfg, p1, rest);
      DrainedBuffer(cfg, p1);
      CutsDoNotMatter(cfg, Drain(cfg, p1).0, pieces[1..]);
    }
  }

  lemma {:induction false} NothingToDrain(cfg: Config, p: Parser)
    requires '\n' !in p.buffer
    ensures Drain(cfg, p) == (p, [])
  {
    assert TakeLine(p.buffer).None?;
  }

  lemma {:induction false} DrainedBuffer(cfg: Config, p: Parser)
    ensures '\n' !in Drain(cfg, p).0.buffer
    decreases |p.buffer|
  {
    var r := NextChunk(cfg, p);
    if r.1.Some? { DrainedBuffer(cfg, r.0); }
  }

  // ---- Round trip ----

  predicate OneLiner(s: string) {
    '\n' !in s && '\r' !in s
  }

  lemma {:induction false} TakeLineAt(line: string, rest: string)
    requires OneLiner(line)
    ensures TakeLine(line + "\n" + rest) == Some((line, rest))
  {
    var text := line + "\n" + rest;
    forall j | 0 <= j < |line| ensures text[j] != '\n' {
      assert text[j] == line[j] && line[j] in line;
    }
    FoundAt(text, |line|);
    assert text[..|line|] == line && text[|line| + 1..] == rest;
    if line != "" { assert line[|line| - 1] in line; }
  }

  /** One line of text at the front of the buffer. */
  lemma {:induction false} LineAtFront(cfg: Config, p: Parser, line: string, rest: string)
    requires OneLiner(line)
    ensures NextChunk(cfg, p.(buffer := line + "\n" + rest)) ==
      (var r := ApplyField(cfg, p.(buffer := rest), Classify(line));
       if r.1.Some? then r else NextChunk(cfg, r.0))
  {
    TakeLineAt(line, rest);
  }

  lemma {:induction false} DataLine(value: string)
    requires OneLiner(value)
    ensures OneLiner("data:" + value) && Classify("data:" + value) == DataField(StripOne(value))
  {
    var line := "data:" + value;
    assert line[0] == 'd' && line[..5] == "data:" && line[5..] == value;
    assert |line| >= 6 ==> line[..6][0] == 'd';
    assert "event:"[0] == 'e';
  }

  lemma {:induction false} EventLines()
    ensures OneLiner("event: data") && Classify("event: data") == EventField("data")
    ensures OneLiner("event: control") && Classify("event: control") == EventField("control")
  {
    var data, control := "event: data", "event: control";
    assert data[..6] == "event:" && data[6..] == " data";
    assert control[..6] == "event:" && control[6..] == " control";
    assert " data"[1..] == "data" && " control"[1..] == "control";
    assert TrimStart("data") == "data" && TrimStart("control") == "control";
  }

  function Stripped(lines: seq<string>): (r: seq<string>)
    ensures |r| == |lines|
  {
    if lines == [] then [] else [StripOne(lines[0])] + Stripped(lines[1..])
  }

  lemma {:induction false} OneDataLine(cfg: Config, p: Parser, lines: seq<string>, rest: string)
    requires lines != [] && OneLiner(lines[0])
    ensures NextChunk(cfg, p.(buffer := DataLines(lines) + rest)) ==
      NextChunk(cfg, p.(buffer := DataLines(lines[1..]) + rest, pending := p.pending + [StripOne(lines[0])]))
  {
    var line, more := "data:" + lines[0], DataLines(lines[1..]) + rest;
    assert DataLines(lines) + rest == line + "\n" + more;
    DataLine(lines[0]);
    LineAtFront(cfg, p, line, more);
  }

  function Piled(p: Parser, lines: seq<string>, buffer: string): Parser {
    p.(buffer := buffer, pending := p.pending + Stripped(lines))
  }

  lemma {:induction false} PiledFront(p: Parser, lines: seq<string>, buffer: string)
    requires lines != []
    ensures Piled(p.(pending := p.pending + [StripOne(lines[0])]), lines[1..], buffer) == Piled(p, lines, buffer)
  {
    assert p.pending + [StripOne(lines[0])] + Stripped(lines[1..]) == p.pending + Stripped(lines);
  }

  /** The data lines of an event pile up, each losing one leading space, and dispatch nothing on the way. */
  lemma {:induction false} DataLinesPile(cfg: Config, p: Parser, lines: seq<string>, rest: string)
    requires forall i :: 0 <= i < |lines| ==> OneLiner(lines[i])
    ensures NextChunk(cfg, p.(buffer := DataLines(lines) + rest)) == NextChunk(cfg, Piled(p, lines, rest))
    decreases lines
  {
    if lines == [] {
      assert DataLines(lines) + rest == rest && p.pending + [] == p.pending;
      assert Piled(p, lines, rest) == p.(buffer := rest);
    } else {
      OneDataLine(cfg, p, lines, rest);
      PiledFront(p, lines, rest);
      DataLinesPile(cfg, p.(pending := p.pending + [StripOne(lines[0])]), lines[1..], rest);
    }
  }

  /** Dispatching what has piled up. */
  lemma {:induction false} BlankDispatches(cfg: Config, p: Parser, rest: string)
    ensures NextChunk(cfg, p.(buffer := "\n" + rest)) ==
      (var r := Dispatched(cfg, p.(buffer := rest));
       if r.1.Some? then r else NextChunk(cfg, r.0))
  {
    assert "" + "\n" + rest == "\n" + rest;
    LineAtFront(cfg, p, "", rest);
  }

  /** An event of the given kind with the given data lines, dispatched. */
  lemma {:induction false} EventParses(cfg: Config, p: Parser, head: string, kind: string, lines: seq<string>,
                                       rest: string)
    requires Between(p) && OneLiner(head) && Classify(head) == EventField(kind)
    requires forall i :: 0 <= i < |lines| ==> OneLiner(lines[i])
    ensures NextChunk(cfg, p.(buffer := head + "\n" + (DataLines(lines) + ("\n" + rest)))) ==
      (var r := Dispatched(cfg, p.(buffer := rest, pending := Stripped(lines), eventType := Some(kind)));
       if r.1.Some? then r else NextChunk(cfg, r.0))
  {
    var tail := "\n" + rest;
    LineAtFront(cfg, p, head, DataLines(lines) + tail);
    var p1 := p.(eventType := Some(kind));
    DataLinesPile(cfg, p1, lines, tail);
    assert p1.pending + Stripped(lines) == Stripped(lines);
    BlankDispatches(cfg, p1.(pending := Stripped(lines)), rest);
  }

  /** A parser between two events. */
  predicate Between(p: Parser) {
    p.pending == [] && p.eventType == None
  }

  /**
   * The event the server writes for any body whatever parses back as one data event, never fewer and never
   * more, whose data are the body's lines, each without one leading space.
   */
  lemma {:induction false} DataEventParses(cfg: Config, p: Parser, body: string, rest: string)
    requires Between(p)
    ensures NextChunk(cfg, p.(buffer := FrameData(body) + rest)) ==
      DispatchData(cfg, p.(buffer := rest), JoinLines(Stripped(Lines(body))))
  {
    var lines := Lines(body);
    assert FrameData(body) + rest == "event: data" + "\n" + (DataLines(lines) + ("\n" + rest));
    EventLines();
    EventParses(cfg, p, "event: data", "data", lines, rest);
    assert p.(buffer := rest, pending := [], eventType := None) == p.(buffer := rest);
  }

  /** The body with every line terminator a line feed. */
  function Normalised(body: string): string {
    if body == "" then ""
    else if |body| >= 2 && body[0] == '\r' && body[1] == '\n' then "\n" + Normalised(body[2..])
    else if body[0] == '\r' then "\n" + Normalised(body[1..])
    else [body[0]] + Normalised(body[1..])
  }

  lemma {:induction false} JoinEmpty(lines: seq<string>)
    requires lines != []
    ensures JoinLines([""] + lines) == "\n" + JoinLines(lines)
  {
    assert ([""] + lines)[1..] == lines;
    assert "" + "\n" + JoinLines(lines) == "\n" + JoinLines(lines);
  }

  lemma {:induction false} LinesJoin(body: string)
    ensures JoinLines(Lines(body)) == Normalised(body)
    decreases |body|
  {
    if body != "" {
      if |body| >= 2 && body[0] == '\r' && body[1] == '\n' {
        LinesJoin(body[2..]);
        JoinEmpty(Lines(body[2..]));
      } else if body[0] == '\r' || body[0] == '\n' {
        LinesJoin(body[1..]);
        JoinEmpty(Lines(body[1..]));
      } else {
        LinesJoin(body[1..]);
        FirstLineGrows(body[0], Lines(body[1..]));
      }
    }
  }

  lemma {:induction false} FirstLineGrows(c: char, lines: seq<string>)
    requires lines != []
    ensures JoinLines([[c] + lines[0]] + lines[1..]) == [c] + JoinLines(lines)
  {
    var grown := [[c] + lines[0]] + lines[1..];
    assert grown[1..] == lines[1..];
    if |lines| > 1 {
      assert [c] + lines[0] + "\n" + JoinLines(lines[1..]) == [c] + (lines[0] + "\n" + JoinLines(lines[1..]));
    }
  }

  predicate NoLeadingSpace(lines: seq<string>) {
    forall i :: 0 <= i < |lines| ==> lines[i] == "" || lines[i][0] != ' '
  }

  lemma {:induction false} StrippedLength(lines: seq<string>)
    ensures |JoinLines(Stripped(lines))| <= |JoinLines(lines)|
    ensures |JoinLines(Stripped(lines))| == |JoinLines(lines)| <==> NoLeadingSpace(lines)
    ensures NoLeadingSpace(lines) ==> Stripped(lines) == lines
  {
    if lines != [] {
      StrippedLength(lines[1..]);
      assert Stripped(lines)[1..] == Stripped(lines[1..]);
      assert forall i :: 0 <= i < |lines[1..]| ==> lines[1..][i] == lines[i + 1];
      assert forall i :: 0 < i < |lines| ==> lines[i] == lines[1..][i - 1];
      if NoLeadingSpace(lines) { assert lines == [lines[0]] + lines[1..]; }
    }
  }

  /**
   * Round trip: the text data of an event is the body with its line terminators made line feeds, exactly when no
   * line of the body begins with a space. The server adds no space after the colon, and the client strips one.
   */
  lemma {:induction false} TextRoundTrip(cfg: Config, p: Parser, body: string, rest: string)
    requires Between(p) && !cfg.base64
    ensures NextChunk(cfg, p.(buffer := FrameData(body) + rest)) ==
        (p.(buffer := rest), Some(Chunk(Normalised(body), p.offset, p.upToDate, p.cursor)))
      <==> NoLeadingSpace(Lines(body))
  {
    DataEventParses(cfg, p, body, rest);
    LinesJoin(body);
    StrippedLength(Lines(body));
  }

  /** A base64 body is one line without spaces or breaks, and decodes back to the bytes that were encoded. */
  lemma {:induction false} Base64RoundTrip(cfg: Config, p: Parser, encoded: string, bytes: string, rest: string)
    requires Between(p) && cfg.base64
    requires OneLiner(encoded) && ' ' !in encoded
    requires encoded != "" && |encoded| % 4 == 0 && cfg.decode(encoded) == Some(bytes)
    ensures NextChunk(cfg, p.(buffer := FrameData(encoded) + rest)) ==
      (p.(buffer := rest), Some(Chunk(bytes, p.offset, p.upToDate, p.cursor)))
  {
    DataEventParses(cfg, p, encoded, rest);
    OneLine(encoded);
    NoBreaks(encoded);
    assert encoded[0] in encoded;
    assert Stripped([encoded]) == [encoded] by { assert [encoded][1..] == []; }
  }

  /** A base64 body of a wrong length, or one that does not decode, is an error, and nothing of it is handed over. */
  lemma {:induction false} Base64Refused(cfg: Config, p: Parser, encoded: string, rest: string)
    requires Between(p) && cfg.base64 && OneLiner(encoded) && encoded != "" && encoded[0] != ' '
    requires |encoded| % 4 != 0 || cfg.decode(encoded) == None
    ensures NextChunk(cfg, p.(buffer := FrameData(encoded) + rest)) == (p.(buffer := rest), Some(ParseError))
  {
    DataEventParses(cfg, p, encoded, rest);
    OneLine(encoded);
    NoBreaks(encoded);
    assert Stripped([encoded]) == [encoded] by { assert [encoded][1..] == []; }
  }

  lemma {:induction false} OneLine(s: string)
    requires OneLiner(s)
    ensures Lines(s) == [s]
  {
    if s != "" {
      assert s[0] in s && OneLiner(s[1..]);
      OneLine(s[1..]);
      assert [s[0]] + s[1..] == s && [s[1..]][1..] == [];
    }
  }

  lemma {:induction false} NoBreaks(s: string)
    requires OneLiner(s)
    ensures WithoutBreaks(s) == s
  {
    if s != "" {
      assert s[0] in s;
      NoBreaks(s[1..]);
    }
  }

  /** A control event, whose JSON is one line, moves the client to the position it names. */
  lemma {:induction false} ControlParses(cfg: Config, p: Parser, json: string, rest: string)
    requires Between(p) && OneLiner(json) && (json == "" || json[0] != ' ')
    ensures NextChunk(cfg, p.(buffer := FrameControl(json) + rest)) ==
      (var r := DispatchControl(cfg, p.(buffer := rest), json);
       if r.1.Some? then r else NextChunk(cfg, r.0))
  {
    assert [json][1..] == [] && DataLines([json]) == "data:" + json + "\n";
    assert FrameControl(json) + rest == "event: control" + "\n" + (DataLines([json]) + ("\n" + rest));
    EventLines();
    EventParses(cfg, p, "event: control", "control", [json], rest);
    assert Stripped([json]) == [json];
    assert p.(buffer := rest, pending := [], eventType := None) == p.(buffer := rest);
  }

  /** A control event without JSON, or with JSON that cannot be read, is an error and moves the client nowhere. */
  lemma {:induction false} ControlRefused(cfg: Config, p: Parser, json: string, rest: string)
    requires Between(p) && OneLiner(json) && (json == "" || json[0] != ' ')
    requires json == "" || cfg.parseControl(json) == None
    ensures NextChunk(cfg, p.(buffer := FrameControl(json) + rest)) == (p.(buffer := rest), Some(ParseError))
  {
    ControlParses(cfg, p, json, rest);
  }

  /** A comment, as any line that is no field, changes nothing. */
  lemma {:induction false} CommentIgnored(cfg: Config, p: Parser, line: string, rest: string)
    requires OneLiner(line) && line != "" && line[0] == ':'
    ensures NextChunk(cfg, p.(buffer := line + "\n" + rest)) == NextChunk(cfg, p.(buffer := rest))
  {
    CommentLine(line);
    LineAtFront(cfg, p, line, rest);
  }

  lemma {:induction false} CommentLine(line: string)
    requires line != "" && line[0] == ':'
    ensures Classify(line) == Ignored
  {
    assert |line| >= 6 ==> line[..6][0] == ':';
    assert |line| >= 5 ==> line[..5][0] == ':';
  }

  /** An event of any other kind is dropped; one called a message is a data event. */
  lemma {:induction false} OtherKinds(cfg: Config, p: Parser, head: string, kind: string, lines: seq<string>,
                                      rest: string)
    requires Between(p) && OneLiner(head) && Classify(head) == EventField(kind) && kind != "data" && kind != "control"
    requires lines != [] && forall i :: 0 <= i < |lines| ==> OneLiner(lines[i])
    ensures NextChunk(cfg, p.(buffer := head + "\n" + (DataLines(lines) + ("\n" + rest)))) ==
      if kind == "message" then DispatchData(cfg, p.(buffer := rest), JoinLines(Stripped(lines)))
      else NextChunk(cfg, p.(buffer := rest))
  {
    EventParses(cfg, p, head, kind, lines, rest);
    assert p.(buffer := rest, pending := [], eventType := None) == p.(buffer := rest);
  }
}
