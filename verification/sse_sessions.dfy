/**
 * A live connection from end to end: the events the server sends, as text in pieces, and what the client makes of it.
 */
module SseSessions {
  import opened Wrappers
  import opened Offsets
  import opened OffsetText
  import opened StoreTypes
  import opened SseFraming
  import opened SseDelivery
  import opened SseClosing
  import Resuming
  import StreamStore
  import Utf8

  /** How the server turns messages into the body of a data event, and a position into the JSON of a control event. */
  datatype Writer = Writer(body: seq<Message> -> string, control: (Offset, bool, bool) -> string)

  function EventText(w: Writer, e: SseEvent): string {
    match e
    case Data(ms) => FrameData(w.body(ms))
    case Control(next, closed, upToDate) => FrameControl(w.control(next, closed, upToDate))
  }

  function SessionText(w: Writer, events: seq<SseEvent>): string {
    if events == [] then "" else EventText(w, events[0]) + SessionText(w, events[1..])
  }

  /** What the client makes of a body that survives the way: text without leading spaces, or base64 that decodes. */
  function Arrives(cfg: Config, body: string): Option<string> {
    if !cfg.base64 then if NoLeadingSpace(Lines(body)) then Some(Normalised(body)) else None
    else if OneLiner(body) && ' ' !in body && body != "" && |body| % 4 == 0 then cfg.decode(body)
    else None
  }

  /** The client reads the control's JSON as it was meant, and the body survives. */
  predicate Understood(cfg: Config, w: Writer, e: SseEvent) {
    match e
    case Data(ms) => Arrives(cfg, w.body(ms)).Some?
    case Control(next, closed, upToDate) =>
      var json := w.control(next, closed, upToDate);
      && OneLiner(json) && json != "" && !IsSpace(json[0])
      && cfg.parseControl(json).Some?
      && cfg.parseControl(json).value.next == String(next) && cfg.parseControl(json).value.upToDate == upToDate
  }

  predicate AllUnderstood(cfg: Config, w: Writer, events: seq<SseEvent>) {
    forall i :: 0 <= i < |events| ==> Understood(cfg, w, events[i])
  }

  /** Where the client stands. */
  datatype Place = Place(offset: string, cursor: Option<string>, upToDate: bool)

  function PlaceOf(p: Parser): Place {
    Place(p.offset, p.cursor, p.upToDate)
  }

  function Moved(p: Parser, at: Place): Parser {
    p.(offset := at.offset, cursor := at.cursor, upToDate := at.upToDate)
  }

  /** A control event moves the client to the position that it names. */
  function PlaceAfter(cfg: Config, w: Writer, at: Place, e: SseEvent): Place
    requires Understood(cfg, w, e)
  {
    match e
    case Data(_) => at
    case Control(next, closed, upToDate) =>
      var cursor := cfg.parseControl(w.control(next, closed, upToDate)).value.cursor;
      Place(String(next), if cursor.Some? then cursor else at.cursor, upToDate)
  }

  /** A data event is handed over with the place before it; a control event only where it says up-to-date. */
  function ChunksOf(cfg: Config, w: Writer, at: Place, e: SseEvent): seq<SseFraming.Outcome>
    requires Understood(cfg, w, e)
  {
    match e
    case Data(ms) => [Chunk(Arrives(cfg, w.body(ms)).value, at.offset, at.upToDate, at.cursor)]
    case Control(_, _, upToDate) =>
      var after := PlaceAfter(cfg, w, at, e);
      if upToDate then [Chunk("", after.offset, true, after.cursor)] else []
  }

  /** What a client at this place gets out of a session, event by event. */
  function SessionChunks(cfg: Config, w: Writer, at: Place, events: seq<SseEvent>): (Place, seq<SseFraming.Outcome>)
    requires AllUnderstood(cfg, w, events)
    decreases events
  {
    if events == [] then (at, [])
    else
      assert Understood(cfg, w, events[0]);
      var rest := SessionChunks(cfg, w, PlaceAfter(cfg, w, at, events[0]), events[1..]);
      (rest.0, ChunksOf(cfg, w, at, events[0]) + rest.1)
  }

  lemma {:induction false} BodyArrives(cfg: Config, p: Parser, body: string, rest: string)
    requires Between(p) && Arrives(cfg, body).Some?
    ensures NextChunk(cfg, p.(buffer := FrameData(body) + rest)) ==
      (p.(buffer := rest), Some(Chunk(Arrives(cfg, body).value, p.offset, p.upToDate, p.cursor)))
  {
    if cfg.base64 {
      Base64RoundTrip(cfg, p, body, Arrives(cfg, body).value, rest);
    } else {
      TextRoundTrip(cfg, p, body, rest);
    }
  }

  lemma {:induction false} OneEvent(cfg: Config, w: Writer, p: Parser, e: SseEvent, rest: string)
    requires Between(p) && Understood(cfg, w, e)
    ensures var at := PlaceOf(p);
      Drain(cfg, p.(buffer := EventText(w, e) + rest)) ==
        SseFraming.After(ChunksOf(cfg, w, at, e),
                         Drain(cfg, Moved(p, PlaceAfter(cfg, w, at, e)).(buffer := rest)))
  {
    var q, next := p.(buffer := EventText(w, e) + rest), Moved(p, PlaceAfter(cfg, w, PlaceOf(p), e)).(buffer := rest);
    match e {
      case Data(ms) =>
        BodyArrives(cfg, p, w.body(ms), rest);
        DrainStep(cfg, q);
      case Control(to, closed, upToDate) =>
        ControlParses(cfg, p, w.control(to, closed, upToDate), rest);
        DrainStep(cfg, q);
        if !upToDate {
          SameNext(cfg, q, next);
          NothingBefore(Drain(cfg, next));
        }
    }
  }

  lemma {:induction false} SessionDrained(cfg: Config, w: Writer, p: Parser, events: seq<SseEvent>)
    requires Between(p) && p.buffer == "" && AllUnderstood(cfg, w, events)
    ensures var r := SessionChunks(cfg, w, PlaceOf(p), events);
      Drain(cfg, p.(buffer := SessionText(w, events))) == (Moved(p, r.0), r.1)
    decreases events
  {
    if events == [] {
      NothingToDrain(cfg, p);
    } else {
      assert Understood(cfg, w, events[0]) && AllUnderstood(cfg, w, events[1..]);
      var at := PlaceAfter(cfg, w, PlaceOf(p), events[0]);
      OneEvent(cfg, w, p, events[0], SessionText(w, events[1..]));
      SessionDrained(cfg, w, Moved(p, at), events[1..]);
    }
  }

  /**
   * The text of a session, in whatever pieces it arrives, gives the client each event's data, in order, and leaves it
   * between two events at the place the control events led to.
   */
  lemma {:induction false} SessionReceived(cfg: Config, w: Writer, p: Parser, events: seq<SseEvent>,
                                           pieces: seq<string>)
    requires Between(p) && p.buffer == "" && AllUnderstood(cfg, w, events)
    requires Utf8.Concat(pieces) == SessionText(w, events)
    ensures var r := SessionChunks(cfg, w, PlaceOf(p), events);
      Receive(cfg, p, pieces) == (Moved(p, r.0), r.1)
  {
    CutsDoNotMatter(cfg, p, pieces);
    assert p.buffer + Utf8.Concat(pieces) == Utf8.Concat(pieces);
    SessionDrained(cfg, w, p, events);
  }

  /** A session that begins with data gives the client a chunk of them first, at the place where it stood. */
  lemma {:induction false} FirstChunk(cfg: Config, w: Writer, p: Parser, events: seq<SseEvent>, pieces: seq<string>,
                                      ms: seq<Message>)
    requires Between(p) && p.buffer == "" && AllUnderstood(cfg, w, events) && events != [] && events[0] == Data(ms)
    requires Utf8.Concat(pieces) == SessionText(w, events)
    ensures var chunks := Receive(cfg, p, pieces).1;
      && chunks != [] && Arrives(cfg, w.body(ms)).Some?
      && chunks[0] == Chunk(Arrives(cfg, w.body(ms)).value, p.offset, p.upToDate, p.cursor)
  {
    SessionReceived(cfg, w, p, events, pieces);
    assert Understood(cfg, w, events[0]);
  }

  // ---- Where a connection leaves the client ----

  /** The last control event names `o`, and nothing comes after it. */
  predicate EndsAt(events: seq<SseEvent>, o: Offset) {
    events != [] && events[|events| - 1].Control? && events[|events| - 1].next == o
  }

  lemma {:induction false} PlaceAtEnd(cfg: Config, w: Writer, at: Place, events: seq<SseEvent>, o: Offset)
    requires AllUnderstood(cfg, w, events) && EndsAt(events, o)
    ensures SessionChunks(cfg, w, at, events).0.offset == String(o)
    decreases events
  {
    assert Understood(cfg, w, events[0]) && AllUnderstood(cfg, w, events[1..]);
    if |events| > 1 { PlaceAtEnd(cfg, w, PlaceAfter(cfg, w, at, events[0]), events[1..], o); }
  }

  /** Every event that follows data, or comes on a connection that has sent something, leaves off where the data do. */
  lemma {:induction false} DeliveryEnds(path: string, start: Offset, current: Offset, sent: bool, turns: seq<Turn>)
    requires Readable(turns) && (!sent ==> current == start)
    ensures var events := Deliver(path, start, current, sent, turns).0;
      && (DataOf(events) != [] ==> EndsAt(events, Resuming.Next(DataOf(events), current)))
      && (sent && events != [] ==> EndsAt(events, Resuming.Next(DataOf(events), current)))
    decreases turns
  {
    if turns != [] && Finds(path, turns[0]) {
      TurnEnds(path, start, current, sent, turns[0]);
      var r := Turned(path, start, current, sent, turns[0]);
      if r.end.None? {
        DeliveryEnds(path, start, r.current, true, turns[1..]);
        var more := Deliver(path, start, r.current, true, turns[1..]).0;
        DataConcat(r.events, more);
        NextOf(DataOf(r.events), DataOf(more), current);
        if more == [] { assert r.events + more == r.events; }
      }
    } else if turns != [] {
      TurnFails(path, start, current, sent, turns[0]);
    }
  }

  lemma {:induction false} TurnEnds(path: string, start: Offset, current: Offset, sent: bool, t: Turn)
    requires StreamStore.Ordered(t.read.streams) && Finds(path, t) && (!sent ==> current == start)
    ensures var r := Turned(path, start, current, sent, t);
      && r.current == Resuming.Next(DataOf(r.events), current)
      && (DataOf(r.events) != [] || (sent && r.events != []) ==> EndsAt(r.events, r.current))
      && (r.end.None? && !sent ==> r.events != [])
  {
    TurnSends(path, start, current, sent, t);
    TurnData(path, start, current, sent, t);
  }

  /**
   * After a whole connection that delivered anything, in whatever pieces its text arrived, the client stands at the
   * offset of the last message it was given, as text: there it can go on with the next connection.
   */
  lemma {:induction false} ClientStands(cfg: Config, w: Writer, p: Parser, path: string, start: Offset,
                                        turns: seq<Turn>, events: seq<SseEvent>, pieces: seq<string>)
    requires Between(p) && p.buffer == "" && Readable(turns) && events == Deliver(path, start, start, false, turns).0
    requires AllUnderstood(cfg, w, events) && Utf8.Concat(pieces) == SessionText(w, events) && DataOf(events) != []
    ensures Receive(cfg, p, pieces).0.offset == String(DataOf(events)[|DataOf(events)| - 1].offset)
  {
    DeliveryEnds(path, start, start, false, turns);
    SessionEnds(cfg, w, p, events, pieces, Resuming.Next(DataOf(events), start));
  }

  lemma {:induction false} SessionEnds(cfg: Config, w: Writer, p: Parser, events: seq<SseEvent>, pieces: seq<string>,
                                       o: Offset)
    requires Between(p) && p.buffer == "" && AllUnderstood(cfg, w, events) && EndsAt(events, o)
    requires Utf8.Concat(pieces) == SessionText(w, events)
    ensures Receive(cfg, p, pieces).0.offset == String(o)
  {
    SessionReceived(cfg, w, p, events, pieces);
    PlaceAtEnd(cfg, w, PlaceOf(p), events, o);
  }
}
