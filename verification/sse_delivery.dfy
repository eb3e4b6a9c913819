/**
 * The live delivery loop: on each turn it reads the stream, then looks up its metadata, with anything at all
 * happening to the store before, between and after the two.
 */
module SseDelivery {
  import opened Wrappers
  import opened Offsets
  import opened StoreTypes
  import opened StreamStore
  import opened StoreInvariant
  import opened ForkReading
  import opened Resuming
  import opened Logs

  datatype SseEvent =
    | Data(messages: seq<Message>)
    | Control(next: Offset, closed: bool, upToDate: bool)

  /** Why the loop ended: the client or a timer, the end of the stream, a failed read, or a nil metadata pointer. */
  datatype End = Disconnected | StreamEnded | Failed(error: Error) | Panicked

  /** What one turn sees: the store when it reads, and the store when it looks up the metadata. */
  datatype Turn = Turn(read: State, expiredAtRead: set<string>, meta: State, expiredAtGet: set<string>)

  ghost predicate Readable(turns: seq<Turn>) {
    forall i :: 0 <= i < |turns| ==> Ordered(turns[i].read.streams)
  }

  /** The metadata an outside caller gets to see. */
  function Get(s: State, path: string, expired: set<string>): Result<Metadata, Error> {
    if path !in s.streams then Err(NotFound)
    else if s.streams[path].meta.softDeleted then Err(StreamSoftDeleted)
    else if path in expired then Err(NotFound)
    else Ok(s.streams[path].meta)
  }

  /** What one turn makes of a read that returned `ms`. */
  datatype Reaction = Reaction(events: seq<SseEvent>, current: Offset, end: Option<End>)

  function React(ms: seq<Message>, upToDate: bool, meta: Result<Metadata, Error>, start: Offset, current: Offset,
                 sent: bool)
    : Reaction
  {
    var closed := meta.Ok? && meta.value.closed;
    if ms != [] then
      var next := ms[|ms| - 1].offset;
      if closed && next == meta.value.currentOffset
      then Reaction([Data(ms), Control(next, true, false)], next, Some(StreamEnded))
      else Reaction([Data(ms), Control(next, false, upToDate)], next, None)
    else if !sent then
      if meta.Err? then Reaction([], current, Some(Panicked))
      else
        var tail := meta.value.currentOffset;
        if closed && start == tail then Reaction([Control(tail, true, false)], current, Some(StreamEnded))
        else Reaction([Control(tail, false, true)], current, None)
    else if closed && current == meta.value.currentOffset then
      Reaction([Control(current, true, false)], current, Some(StreamEnded))
    else Reaction([], current, None)
  }

  /** One turn: a read, a look at the metadata, and what follows from the two. */
  function Turned(path: string, start: Offset, current: Offset, sent: bool, t: Turn): Reaction
    requires Ordered(t.read.streams)
  {
    var read := Read(t.read, path, current, t.expiredAtRead);
    if read.Err? then Reaction([], current, Some(Failed(read.error)))
    else React(read.value.0, read.value.1, Get(t.meta, path, t.expiredAtGet), start, current, sent)
  }

  function Before(events: seq<SseEvent>, rest: (seq<SseEvent>, End)): (seq<SseEvent>, End) {
    (events + rest.0, rest.1)
  }

  /** The events a connection sends from position `current` on, and how it ends. */
  function Deliver(path: string, start: Offset, current: Offset, sent: bool, turns: seq<Turn>): (seq<SseEvent>, End)
    requires Readable(turns)
    decreases turns
  {
    if turns == [] then ([], Disconnected)
    else
      var r := Turned(path, start, current, sent, turns[0]);
      if r.end.Some? then (r.events, r.end.value)
      else Before(r.events, Deliver(path, start, r.current, sent || r.events != [], turns[1..]))
  }

  /** One turn: read, look up the metadata, send what there is to send. */
  method TakeTurn(path: string, offset: Offset, currentOffset: Offset, sentInitialControl: bool, t: Turn)
    returns (events: seq<SseEvent>, next: Offset, end: Option<End>)
    requires Ordered(t.read.streams)
    ensures Reaction(events, next, end) == Turned(path, offset, currentOffset, sentInitialControl, t)
  {
    events, next, end := [], currentOffset, None;
    var read := Read(t.read, path, currentOffset, t.expiredAtRead);
    if read.Err? { return events, next, Some(Failed(read.error)); }
    var messages, upToDate := read.value.0, read.value.1;
    var currentMeta := Get(t.meta, path, t.expiredAtGet);
    var streamIsClosed := currentMeta.Ok? && currentMeta.value.closed;
    if |messages| > 0 {
      next := messages[|messages| - 1].offset;
      var clientAtTail := currentMeta.Ok? && next == currentMeta.value.currentOffset;
      if streamIsClosed && clientAtTail {
        events, end := [Data(messages), Control(next, true, false)], Some(StreamEnded);
      } else {
        events := [Data(messages), Control(next, false, upToDate)];
      }
    } else if !sentInitialControl {
      if currentMeta.Err? { return events, next, Some(Panicked); }
      var clientAtTail := offset == currentMeta.value.currentOffset;
      if streamIsClosed && clientAtTail {
        events, end := [Control(currentMeta.value.currentOffset, true, false)], Some(StreamEnded);
      } else {
        events := [Control(currentMeta.value.currentOffset, false, true)];
      }
    } else if streamIsClosed {
      var clientAtTail := currentOffset == currentMeta.value.currentOffset;
      if clientAtTail { events, end := [Control(currentOffset, true, false)], Some(StreamEnded); }
    }
  }

  /** A whole connection: a look at the stream, and then the loop. */
  function Connect(path: string, offset: Offset, open: State, expired: set<string>,
                   turns: seq<Turn>): (seq<SseEvent>, End)
    requires Readable(turns)
  {
    var meta := Get(open, path, expired);
    if meta.Err? then ([], Failed(meta.error)) else Deliver(path, offset, offset, false, turns)
  }

  /** The connection, over the turns it gets before the client goes away. */
  method HandleSse(path: string, offset: Offset, open: State, expired: set<string>, turns: seq<Turn>)
    returns (events: seq<SseEvent>, end: End)
    requires Readable(turns)
    ensures (events, end) == Connect(path, offset, open, expired, turns)
  {
    events := [];
    var meta := Get(open, path, expired);
    if meta.Err? { return events, Failed(meta.error); }
    var currentOffset, sentInitialControl := offset, false;
    ghost var all := Deliver(path, offset, offset, false, turns);
    assert turns[0..] == turns && [] + all.0 == all.0;
    for i := 0 to |turns|
      invariant all == Before(events, Deliver(path, offset, currentOffset, sentInitialControl, turns[i..]))
    {
      TurnStep(path, offset, currentOffset, sentInitialControl, turns, i, events);
      var sent, next, stop := TakeTurn(path, offset, currentOffset, sentInitialControl, turns[i]);
      events := events + sent;
      if stop.Some? { return events, stop.value; }
      currentOffset, sentInitialControl := next, sentInitialControl || |sent| > 0;
    }
    assert turns[|turns|..] == [] && events + [] == events;
    end := Disconnected;
  }

  /** One turn of the loop, as an equation between what is sent and what is still to be sent. */
  lemma {:induction false} TurnStep(path: string, start: Offset, current: Offset, sent: bool, turns: seq<Turn>, i: nat,
                                    events: seq<SseEvent>)
    requires Readable(turns) && i < |turns|
    ensures var r := Turned(path, start, current, sent, turns[i]);
      Before(events, Deliver(path, start, current, sent, turns[i..])) ==
        if r.end.Some? then (events + r.events, r.end.value)
        else Before(events + r.events, Deliver(path, start, r.current, sent || r.events != [], turns[i + 1..]))
  {
    assert turns[i..][0] == turns[i] && turns[i..][1..] == turns[i + 1..];
    var r := Turned(path, start, current, sent, turns[i]);
    if r.end.None? {
      var more := Deliver(path, start, r.current, sent || r.events != [], turns[i + 1..]).0;
      assert (events + r.events) + more == events + (r.events + more);
    }
  }

  // ---- What a connection delivers ----

  /** The messages of the data events, in the order they were sent. */
  function DataOf(events: seq<SseEvent>): seq<Message> {
    if events == [] then []
    else (if events[0].Data? then events[0].messages else []) + DataOf(events[1..])
  }

  lemma {:induction false} DataConcat(a: seq<SseEvent>, b: seq<SseEvent>)
    ensures DataOf(a + b) == DataOf(a) + DataOf(b)
  {
    if a == [] {
      assert a + b == b;
    } else {
      assert (a + b)[1..] == a[1..] + b;
      DataConcat(a[1..], b);
    }
  }

  /** One generation of the stream lives through the turns in order, up to the state `final`. */
  ghost predicate Lived(z: Kind, turns: seq<Turn>, final: State, path: string)
    decreases turns
  {
    && Inv(z, final) && Ordered(final.streams) && path in final.streams
    && (turns != [] ==>
      var t := turns[0];
      && Later(z, t.read, t.meta) && SameGeneration(t.read, t.meta, path)
      && Later(z, t.meta, final) && SameGeneration(t.meta, final, path)
      && Lived(z, turns[1..], final, path))
  }

  lemma {:induction false} LivedReadable(z: Kind, turns: seq<Turn>, final: State, path: string)
    requires Lived(z, turns, final, path)
    ensures Readable(turns)
    decreases turns
  {
    if turns != [] {
      LivedReadable(z, turns[1..], final, path);
      assert forall i :: 0 < i < |turns| ==> turns[i] == turns[1..][i - 1];
    }
  }

  lemma {:induction false} ReadIsLater(z: Kind, t: Turn, final: State, path: string)
    requires Later(z, t.read, t.meta) && Later(z, t.meta, final)
    ensures Later(z, t.read, final)
  {
    forall q | q in t.read.streams ensures t.read.streams[q].created < t.read.clock {
      assert StreamOk(z, t.read, q);
    }
    KeepsTransitive(t.read, t.meta, final);
  }

  /** At the tail of a closed stream nothing more will ever come. */
  lemma {:induction false} NothingAfterClosedTail(z: Kind, s: State, final: State, path: string)
    requires Later(z, s, final) && SameGeneration(s, final, path) && s.streams[path].meta.closed
    ensures View(final.streams, path, s.streams[path].meta.currentOffset) == []
    ensures s.streams[path].meta.currentOffset.readSeq == 0
  {
    SourceKept(z, s, final, path);
    assert StreamOk(z, s, path) && StreamOk(z, final, path);
    var a, b := s.streams[path], final.streams[path];
    ChainedBounds(z, a.meta.forkOffset, a.messages, a.meta.currentOffset);
    ChainedBounds(z, b.meta.forkOffset, b.messages, b.meta.currentOffset);
    AfterNone(b.messages, a.meta.currentOffset);
  }

  /**
   * The data events of a connection are, in order and once each, the messages past the starting offset up to
   * where the connection stands; and when it says the stream is closed, they are all the messages there will
   * ever be, a final append made together with the close included.
   */
  lemma {:induction false} Delivers(z: Kind, path: string, start: Offset, current: Offset, sent: bool, turns: seq<Turn>,
                                    final: State) returns (next: Offset)
    requires Lived(z, turns, final, path) && Readable(turns)
    requires current.readSeq == 0 && start.readSeq == 0 && (!sent ==> current == start)
    ensures var (events, end) := Deliver(path, start, current, sent, turns);
      && View(final.streams, path, current) == DataOf(events) + View(final.streams, path, next)
      && next == Next(DataOf(events), current)
      && (end == StreamEnded ==> View(final.streams, path, next) == [])
      && (end == StreamEnded <==> EndsClosed(events))
    decreases turns
  {
    next := current;
    if turns == [] {
      assert View(final.streams, path, current) == [] + View(final.streams, path, current);
      return;
    }
    var r := Turned(path, start, current, sent, turns[0]);
    next := r.current;
    OneTurn(z, turns, final, path);
    TurnDelivers(z, path, start, current, sent, turns[0], final);
    if r.end.None? {
      var sent' := sent || r.events != [];
      next := Delivers(z, path, start, r.current, sent', turns[1..], final);
      Continues(r.events, Deliver(path, start, r.current, sent', turns[1..]).0, View(final.streams, path, current),
                View(final.streams, path, r.current), View(final.streams, path, next), current, r.current, next);
    }
  }

  /** What two batches of events deliver, one after the other. */
  lemma {:induction false} Continues(a: seq<SseEvent>, b: seq<SseEvent>, all: seq<Message>, rest: seq<Message>,
                                     left: seq<Message>, current: Offset, mid: Offset, next: Offset)
    requires all == DataOf(a) + rest && mid == Next(DataOf(a), current)
    requires rest == DataOf(b) + left && next == Next(DataOf(b), mid)
    ensures all == DataOf(a + b) + left && next == Next(DataOf(a + b), current)
    ensures EndsClosed(a + b) == if b == [] then EndsClosed(a) else EndsClosed(b)
  {
    DataConcat(a, b);
    JoinParts(DataOf(a), DataOf(b), left, current);
    LastEvent(a, b);
  }

  lemma {:induction false} OneTurn(z: Kind, turns: seq<Turn>, final: State, path: string)
    requires Lived(z, turns, final, path) && turns != []
    ensures Lived(z, [turns[0]], final, path)
  {
    assert [turns[0]][1..] == [];
  }

  lemma {:induction false} JoinParts(a: seq<Message>, b: seq<Message>, c: seq<Message>, o: Offset)
    ensures a + (b + c) == (a + b) + c
    ensures Next(a + b, o) == Next(b, Next(a, o))
  {
    if b == [] { assert a + b == a; }
  }

  /** What a turn reads is what comes next in every later state. */
  lemma {:induction false} ReadDelivers(z: Kind, path: string, current: Offset, t: Turn, final: State)
    requires Lived(z, [t], final, path) && current.readSeq == 0
    ensures var read := Read(t.read, path, current, t.expiredAtRead);
      read.Ok? ==>
        (var ms := read.value.0;
         && View(final.streams, path, current) == ms + View(final.streams, path, Next(ms, current))
         && Next(ms, current).readSeq == 0)
  {
    ReadIsLater(z, t, final, path);
    Resume(z, t.read, final, path, current);
  }

  /** One turn sends what its read returned, and ends the stream only when nothing is left. */
  lemma {:induction false} TurnDelivers(z: Kind, path: string, start: Offset, current: Offset, sent: bool, t: Turn,
                                        final: State)
    requires Lived(z, [t], final, path)
    requires current.readSeq == 0 && start.readSeq == 0 && (!sent ==> current == start)
    ensures var r := Turned(path, start, current, sent, t);
      && View(final.streams, path, current) == DataOf(r.events) + View(final.streams, path, r.current)
      && r.current == Next(DataOf(r.events), current) && r.current.readSeq == 0
      && (r.end == Some(StreamEnded) ==> View(final.streams, path, r.current) == [])
      && (r.end == Some(StreamEnded) <==> EndsClosed(r.events))
      && (r.end.None? && !sent ==> r.events != [])
  {
    var read := Read(t.read, path, current, t.expiredAtRead);
    NothingRead(View(final.streams, path, current));
    if read.Ok? {
      var ms, meta := read.value.0, Get(t.meta, path, t.expiredAtGet);
      ReadDelivers(z, path, current, t, final);
      ReactData(ms, read.value.1, meta, start, current, sent);
      EndsAtTail(ms, read.value.1, meta, start, current, sent);
      if React(ms, read.value.1, meta, start, current, sent).end == Some(StreamEnded) {
        NothingAfterClosedTail(z, t.meta, final, path);
      }
    }
  }

  lemma {:induction false} NothingRead(view: seq<Message>)
    ensures view == DataOf([]) + view
  {
  }

  /** The stream is only ever ended at the tail of a closed stream. */
  lemma {:induction false} EndsAtTail(ms: seq<Message>, upToDate: bool, meta: Result<Metadata, Error>, start: Offset,
                                      current: Offset, sent: bool)
    requires !sent ==> current == start
    ensures var r := React(ms, upToDate, meta, start, current, sent);
      r.end == Some(StreamEnded) ==> meta.Ok? && meta.value.closed && r.current == meta.value.currentOffset
  {
  }

  /** The last event says that the stream is closed. */
  predicate EndsClosed(events: seq<SseEvent>) {
    events != [] && events[|events| - 1].Control? && events[|events| - 1].closed
  }

  lemma {:induction false} ReactData(ms: seq<Message>, upToDate: bool, meta: Result<Metadata, Error>, start: Offset,
                                     current: Offset, sent: bool)
    ensures var r := React(ms, upToDate, meta, start, current, sent);
      && DataOf(r.events) == ms
      && r.current == Next(ms, current)
      && (r.end == Some(StreamEnded) <==> EndsClosed(r.events))
      && (!sent && r.events == [] ==> r.end.Some?)
  {
    var r := React(ms, upToDate, meta, start, current, sent);
    if |r.events| == 2 {
      assert r.events[1..] == [r.events[1]] && DataOf([r.events[1]]) == DataOf([r.events[1]][1..]);
      assert ms + [] == ms;
    } else if |r.events| == 1 {
      assert r.events[1..] == [];
    }
  }

  lemma {:induction false} LastEvent(a: seq<SseEvent>, b: seq<SseEvent>)
    ensures b != [] ==> (a + b)[|a + b| - 1] == b[|b| - 1]
    ensures b == [] ==> a + b == a
  {
  }

  /** Closing is final: with the closing control event, the client has everything past its starting offset. */
  lemma {:induction false} CloseIsFinal(z: Kind, path: string, offset: Offset, turns: seq<Turn>, final: State)
    requires Lived(z, turns, final, path) && Readable(turns) && offset.readSeq == 0
    requires Deliver(path, offset, offset, false, turns).1 == StreamEnded
    ensures DataOf(Deliver(path, offset, offset, false, turns).0) == View(final.streams, path, offset)
  {
    var next := Delivers(z, path, offset, offset, false, turns, final);
  }

  // ---- A connection that begins without data ----

  /** What a reader gets in the end is what there was up to an earlier tail, and what came after it. */
  lemma {:induction false} FirstThenLater(z: Kind, path: string, offset: Offset, s: State, final: State)
    requires Later(z, s, final) && SameGeneration(s, final, path) && Inv(z, final) && Ordered(final.streams)
    requires offset.readSeq == 0 && offset.byteOffset <= s.streams[path].meta.currentOffset.byteOffset
    ensures View(final.streams, path, offset) ==
      View(s.streams, path, offset) + View(final.streams, path, s.streams[path].meta.currentOffset)
  {
    var tail := s.streams[path].meta.currentOffset;
    assert StreamOk(z, s, path);
    ChainedBounds(z, s.streams[path].meta.forkOffset, s.streams[path].messages, tail);
    ViewSplit(z, final, path, offset, tail);
    CappedViewStable(z, s, final, path, offset, tail);
    ViewBounds(z, s, path, offset);
    UpToAll(View(s.streams, path, offset), tail);
  }

  lemma {:induction false} NothingYet(z: Kind, path: string, offset: Offset, s: State, s': State)
    requires Later(z, s, s') && SameGeneration(s, s', path) && View(s.streams, path, offset) == []
    requires s'.streams[path].meta.currentOffset == s.streams[path].meta.currentOffset
    ensures View(s'.streams, path, offset) == []
  {
    var tail := s.streams[path].meta.currentOffset;
    TailPlain(z, s, path);
    CappedViewStable(z, s, s', path, offset, tail);
    ViewBounds(z, s', path, offset);
    UpToAll(View(s'.streams, path, offset), tail);
  }

  lemma {:induction false} TailPlain(z: Kind, s: State, path: string)
    requires Inv(z, s) && path in s.streams
    ensures s.streams[path].meta.currentOffset.readSeq == 0
  {
    var st := s.streams[path];
    assert StreamOk(z, s, path);
    ChainedBounds(z, st.meta.forkOffset, st.messages, st.meta.currentOffset);
  }

  lemma {:induction false} SomethingMoved(z: Kind, a: Stream, b: Stream, offset: Offset)
    requires LogOk(z, a) && LogOk(z, b) && Grown(a, b) && a.meta.currentOffset != b.meta.currentOffset
    requires offset.byteOffset < b.meta.currentOffset.byteOffset
    ensures After(b.messages, offset) != []
  {
    TailsGrow(z, a, b);
    if b.messages == a.messages { SameEnd(z, a, b); }
    ChainedBounds(z, b.meta.forkOffset, b.messages, b.meta.currentOffset);
    LastIsAfter(b.messages, offset);
  }

  /** When a read up to the tail returned nothing, there is something to read later exactly when the tail moved. */
  lemma {:induction false} NothingUnlessMoved(z: Kind, path: string, offset: Offset, s: State, s': State)
    requires Later(z, s, s') && SameGeneration(s, s', path) && View(s.streams, path, offset) == []
    requires offset.readSeq == 0 && offset.byteOffset <= s.streams[path].meta.currentOffset.byteOffset
    ensures View(s'.streams, path, offset) == [] <==>
      s'.streams[path].meta.currentOffset == s.streams[path].meta.currentOffset
  {
    if s'.streams[path].meta.currentOffset == s.streams[path].meta.currentOffset {
      NothingYet(z, path, offset, s, s');
    } else {
      TailsGrowLater(z, s, s', path);
      TailPlain(z, s, path);
      TailPlain(z, s', path);
      assert StreamOk(z, s, path) && StreamOk(z, s', path) && Descends(s, s', path);
      SomethingMoved(z, s.streams[path], s'.streams[path], offset);
    }
  }

  lemma {:induction false} SameEnd(z: Kind, a: Stream, b: Stream)
    requires LogOk(z, a) && LogOk(z, b) && a.meta.forkOffset == b.meta.forkOffset && a.messages == b.messages
    ensures a.meta.currentOffset == b.meta.currentOffset
  {
    ChainedIsFrame(z, a.meta.forkOffset, a.messages, a.meta.currentOffset);
    ChainedIsFrame(z, b.meta.forkOffset, b.messages, b.meta.currentOffset);
  }

  lemma {:induction false} OneAfter(m: Message, o: Offset)
    requires o.byteOffset < m.offset.byteOffset
    ensures After([m], o) == [m]
  {
    assert [m][1..] == [];
    assert After([m], o) == [m] + After([], o);
  }

  lemma {:induction false} LastIsAfter(ms: seq<Message>, o: Offset)
    requires ms != [] && o.byteOffset < ms[|ms| - 1].offset.byteOffset
    ensures After(ms, o) != []
  {
    var n := |ms| - 1;
    assert ms == ms[..n] + [ms[n]];
    AfterConcat(ms[..n], [ms[n]], o);
    OneAfter(ms[n], o);
  }

  /** Every message that reading from `o` returns, reading from `next` returns as well. */
  predicate MissesNothing(m: Streams, path: string, o: Offset, next: Offset)
    requires Ordered(m) && path in m
  {
    forall i :: 0 <= i < |View(m, path, o)| ==> View(m, path, o)[i] in View(m, path, next)
  }

  /** Resuming from a later tail misses exactly what there was to read up to it. */
  lemma {:induction false} MissedUpToTail(z: Kind, path: string, offset: Offset, s: State, final: State)
    requires Later(z, s, final) && SameGeneration(s, final, path) && Inv(z, final) && Ordered(final.streams)
    requires offset.readSeq == 0 && offset.byteOffset <= s.streams[path].meta.currentOffset.byteOffset
    ensures MissesNothing(final.streams, path, offset, s.streams[path].meta.currentOffset) <==>
      View(s.streams, path, offset) == []
  {
    var tail := s.streams[path].meta.currentOffset;
    var first, later := View(s.streams, path, offset), View(final.streams, path, tail);
    FirstThenLater(z, path, offset, s, final);
    if first != [] {
      ViewBounds(z, s, path, offset);
      ViewBounds(z, final, path, tail);
      assert (first + later)[0] == first[0] && first[0] !in later;
    }
  }

  /** Resuming from an earlier offset misses nothing. */
  lemma {:induction false} NothingMissedBefore(z: Kind, path: string, offset: Offset, next: Offset, final: State)
    requires Inv(z, final) && Ordered(final.streams) && path in final.streams
    requires offset.readSeq == next.readSeq == 0 && next.byteOffset <= offset.byteOffset
    ensures MissesNothing(final.streams, path, offset, next)
  {
    ViewSplit(z, final, path, next, offset);
    var all, late := View(final.streams, path, next), View(final.streams, path, offset);
    var early := UpTo(all, offset);
    assert all == early + late;
    forall i | 0 <= i < |late| ensures late[i] in all {
      assert all[|early| + i] == late[i];
    }
  }

  /**
   * A connection whose first event is a control event, without data: a client that resumes from the offset it names
   * misses nothing, however the log goes on, exactly when the tail did not move between the two looks of the turn, or
   * did not move past the offset the client asked for.
   */
  lemma {:induction false} InitialControlExact(z: Kind, path: string, offset: Offset, turns: seq<Turn>, final: State)
    requires Lived(z, turns, final, path) && Readable(turns) && turns != [] && offset.readSeq == 0
    requires var events := Deliver(path, offset, offset, false, turns).0; events != [] && events[0].Control?
    ensures var t, first := turns[0], Deliver(path, offset, offset, false, turns).0[0];
      var tail := t.meta.streams[path].meta.currentOffset;
      MissesNothing(final.streams, path, offset, first.next) <==>
        t.read.streams[path].meta.currentOffset == tail || tail.byteOffset <= offset.byteOffset
  {
    var t := turns[0];
    FirstControl(path, offset, turns);
    TailsGrowLater(z, t.read, t.meta, path);
    TailPlain(z, t.meta, path);
    if t.meta.streams[path].meta.currentOffset.byteOffset <= offset.byteOffset {
      NothingMissedBefore(z, path, offset, t.meta.streams[path].meta.currentOffset, final);
    } else {
      MovedPast(z, path, offset, t.read, t.meta);
      MissedUpToTail(z, path, offset, t.meta, final);
    }
  }

  /** When a read returned nothing, and the tail lies past the offset later on, something came exactly if it moved. */
  lemma {:induction false} MovedPast(z: Kind, path: string, offset: Offset, s: State, s': State)
    requires Later(z, s, s') && SameGeneration(s, s', path) && View(s.streams, path, offset) == []
    requires offset.readSeq == 0 && offset.byteOffset < s'.streams[path].meta.currentOffset.byteOffset
    ensures View(s'.streams, path, offset) == [] <==>
      s'.streams[path].meta.currentOffset == s.streams[path].meta.currentOffset
  {
    if s'.streams[path].meta.currentOffset == s.streams[path].meta.currentOffset {
      NothingYet(z, path, offset, s, s');
    } else {
      assert StreamOk(z, s, path) && StreamOk(z, s', path) && Descends(s, s', path);
      SomethingMoved(z, s.streams[path], s'.streams[path], offset);
    }
  }

  lemma {:induction false} TailsGrowLater(z: Kind, s: State, s': State, path: string)
    requires Later(z, s, s') && SameGeneration(s, s', path)
    ensures s.streams[path].meta.currentOffset.byteOffset <= s'.streams[path].meta.currentOffset.byteOffset
  {
    assert StreamOk(z, s, path) && StreamOk(z, s', path) && Descends(s, s', path);
    TailsGrow(z, s.streams[path], s'.streams[path]);
  }

  /** Such an event comes from the first turn: nothing was read, and it names the tail of the second look. */
  lemma {:induction false} FirstControl(path: string, offset: Offset, turns: seq<Turn>)
    requires Readable(turns) && turns != []
    requires var events := Deliver(path, offset, offset, false, turns).0; events != [] && events[0].Control?
    ensures var t := turns[0];
      && path in t.read.streams && View(t.read.streams, path, offset) == []
      && path in t.meta.streams
      && Deliver(path, offset, offset, false, turns).0[0].next == t.meta.streams[path].meta.currentOffset
  {
  }

  /**
   * The failing turn: the reader is at the tail, and a message arrives between the two looks. The only event sent
   * names the new tail, past the message, which a client that resumes from there never gets.
   */
  lemma {:induction false} MessageBetweenLooks(z: Kind, s: State, path: string, body: Body, opts: AppendOptions)
    requires Inv(z, s) && Ordered(s.streams) && path in s.streams && !s.streams[path].meta.softDeleted
    requires Append(z, s, path, body, opts, {}).0.streams[path].meta.currentOffset != s.streams[path].meta.currentOffset
    ensures var s' := Append(z, s, path, body, opts, {}).0;
      var tail, tail' := s.streams[path].meta.currentOffset, s'.streams[path].meta.currentOffset;
      && Ordered(s'.streams)
      && Deliver(path, tail, tail, false, [Turn(s, {}, s', {})]).0 == [Control(tail', false, true)]
      && View(s'.streams, path, tail) != [] && View(s'.streams, path, tail') == []
  {
    var s' := Append(z, s, path, body, opts, {}).0;
    var tail, tail' := s.streams[path].meta.currentOffset, s'.streams[path].meta.currentOffset;
    AppendOk(z, s, path, body, opts, {});
    GraphOrdered(s'.streams);
    AppendedLive(z, s, path, body, opts);
    AtTail(z, s, path);
    AtTail(z, s', path);
    NothingUnlessMoved(z, path, tail, s, s');
    var t := Turn(s, {}, s', {});
    assert Turned(path, tail, tail, false, t) == Reaction([Control(tail', false, true)], tail, None);
    assert [t][1..] == [] && [Control(tail', false, true)] + [] == [Control(tail', false, true)];
  }

  lemma {:induction false} AppendedLive(z: Kind, s: State, path: string, body: Body, opts: AppendOptions)
    requires Inv(z, s) && Ordered(s.streams) && path in s.streams && !s.streams[path].meta.softDeleted
    requires Append(z, s, path, body, opts, {}).0.streams[path].meta.currentOffset != s.streams[path].meta.currentOffset
    ensures var s' := Append(z, s, path, body, opts, {}).0;
      Later(z, s, s') && SameGeneration(s, s', path) && !s'.streams[path].meta.softDeleted
  {
    AppendOk(z, s, path, body, opts, {});
    AppendedSame(z, s, path, body, opts);
    GraphOrdered(Append(z, s, path, body, opts, {}).0.streams);
  }

  lemma {:induction false} AppendedSame(z: Kind, s: State, path: string, body: Body, opts: AppendOptions)
    requires path in s.streams
    ensures var s' := Append(z, s, path, body, opts, {}).0;
      && path in s'.streams && s'.streams[path].created == s.streams[path].created
      && s'.streams[path].meta.softDeleted == s.streams[path].meta.softDeleted
  {
  }

  lemma {:induction false} AtTail(z: Kind, s: State, path: string)
    requires Inv(z, s) && Ordered(s.streams) && path in s.streams
    ensures View(s.streams, path, s.streams[path].meta.currentOffset) == []
    ensures s.streams[path].meta.currentOffset.readSeq == 0
  {
    var st := s.streams[path];
    assert StreamOk(z, s, path);
    ChainedBounds(z, st.meta.forkOffset, st.messages, st.meta.currentOffset);
    AfterNone(st.messages, st.meta.currentOffset);
  }

  // ---- The nil metadata pointer ----

  lemma {:induction false} NoPanicOnceSent(path: string, start: Offset, current: Offset, turns: seq<Turn>)
    requires Readable(turns)
    ensures Deliver(path, start, current, true, turns).1 != Panicked
    decreases turns
  {
    if turns != [] {
      var r := Turned(path, start, current, true, turns[0]);
      if r.end.None? { NoPanicOnceSent(path, start, r.current, turns[1..]); }
    }
  }

  /** The loop dereferences a nil pointer exactly when its first read finds nothing and the stream is then gone. */
  lemma {:induction false} PanicsExactly(path: string, offset: Offset, turns: seq<Turn>)
    requires Readable(turns)
    ensures Deliver(path, offset, offset, false, turns).1 == Panicked <==>
      turns != [] &&
      (var t := turns[0];
       var read := Read(t.read, path, offset, t.expiredAtRead);
       read.Ok? && read.value.0 == [] && Get(t.meta, path, t.expiredAtGet).Err?)
  {
    if turns != [] {
      var r := Turned(path, offset, offset, false, turns[0]);
      if r.end.None? { NoPanicOnceSent(path, offset, r.current, turns[1..]); }
    }
  }
}
