/** When a live connection says that the stream is closed, in terms of what its turns find in the store. */
module SseClosing {
  import opened Wrappers
  import opened Offsets
  import opened StoreTypes
  import opened StreamStore
  import opened Resuming
  import opened SseDelivery

  // ---- What a turn finds ----

  /** The read of the turn succeeds. */
  predicate Finds(path: string, t: Turn) {
    path in t.read.streams && path !in t.expiredAtRead && !t.read.streams[path].meta.softDeleted
  }

  /** The look at the metadata succeeds. */
  predicate Looks(path: string, t: Turn) {
    path in t.meta.streams && path !in t.expiredAtGet && !t.meta.streams[path].meta.softDeleted
  }

  /** The look at the metadata succeeds, and sees a stream that is closed at `o`. */
  predicate LooksClosed(path: string, t: Turn, o: Offset) {
    Looks(path, t) && t.meta.streams[path].meta.closed && t.meta.streams[path].meta.currentOffset == o
  }

  /** The messages that successive turns read, each from where the one before it ended. */
  ghost function Received(path: string, from: Offset, turns: seq<Turn>): seq<Message>
    requires Readable(turns)
    decreases turns
  {
    if turns == [] || !Finds(path, turns[0]) then []
    else
      var ms := View(turns[0].read.streams, path, from);
      ms + Received(path, Next(ms, from), turns[1..])
  }

  /** At the first turn of a connection there is nothing to read, and no metadata to be seen. */
  ghost predicate Startles(path: string, from: Offset, turns: seq<Turn>)
    requires Readable(turns)
  {
    turns != [] && Finds(path, turns[0]) && View(turns[0].read.streams, path, from) == [] && !Looks(path, turns[0])
  }

  /**
   * All reads up to turn `k` succeed, and turn `k` sees the stream closed at the offset of the last message delivered
   * by then, or at the starting offset if there was none. Before anything was sent, the first turn must not fail.
   */
  ghost predicate ClosingTurn(path: string, from: Offset, sent: bool, turns: seq<Turn>, k: int)
    requires Readable(turns)
  {
    && 0 <= k < |turns|
    && (forall i :: 0 <= i <= k ==> Finds(path, turns[i]))
    && LooksClosed(path, turns[k], Next(Received(path, from, turns[..k + 1]), from))
    && (k > 0 && !sent ==> !Startles(path, from, turns))
  }

  // ---- One turn ----

  /** What a turn sends and whether it ends the connection, by what it finds. */
  lemma {:induction false} TurnSends(path: string, start: Offset, current: Offset, sent: bool, t: Turn)
    requires Ordered(t.read.streams) && Finds(path, t) && (!sent ==> current == start)
    ensures var ms := View(t.read.streams, path, current);
      var stand, r := Next(ms, current), Turned(path, start, current, sent, t);
      var closing := LooksClosed(path, t, stand);
      && r.current == stand
      && r.events == (if ms == [] then [] else [Data(ms)]) + (
           if closing then [Control(stand, true, false)]
           else if ms != [] then [Control(stand, false, stand == t.read.streams[path].meta.currentOffset)]
           else if !sent && Looks(path, t) then [Control(t.meta.streams[path].meta.currentOffset, false, true)]
           else [])
      && r.end == (if closing then Some(StreamEnded)
                   else if ms == [] && !sent && !Looks(path, t) then Some(Panicked) else None)
  {
  }

  lemma {:induction false} TurnFails(path: string, start: Offset, current: Offset, sent: bool, t: Turn)
    requires Ordered(t.read.streams) && !Finds(path, t)
    ensures Turned(path, start, current, sent, t) == Reaction([], current, Some(Failed(NotFound)))
  {
  }

  // ---- The end of a connection ----

  /** After a turn that goes on, the closing turns are those of the rest. */
  lemma {:induction false} ClosingLater(path: string, from: Offset, sent: bool, turns: seq<Turn>, k: int)
    requires Readable(turns) && turns != [] && Finds(path, turns[0]) && k > 0
    requires sent || !Startles(path, from, turns)
    ensures Readable(turns[1..])
    ensures ClosingTurn(path, from, sent, turns, k) <==>
      ClosingTurn(path, Next(View(turns[0].read.streams, path, from), from), true, turns[1..], k - 1)
    ensures k < |turns| ==>
      Received(path, from, turns[..k + 1]) == View(turns[0].read.streams, path, from) +
        Received(path, Next(View(turns[0].read.streams, path, from), from), turns[1..][..k])
  {
    var ms := View(turns[0].read.streams, path, from);
    var next := Next(ms, from);
    assert forall i :: 0 <= i < |turns| - 1 ==> turns[1..][i] == turns[i + 1];
    if k < |turns| {
      assert turns[..k + 1][1..] == turns[1..][..k];
      NextOf(ms, Received(path, next, turns[1..][..k]), from);
      assert (forall i :: 0 <= i <= k ==> Finds(path, turns[i])) <==>
        (forall i :: 0 <= i <= k - 1 ==> Finds(path, turns[1..][i])) by {
        assert forall i :: 0 < i <= k ==> turns[i] == turns[1..][i - 1];
      }
    }
  }

  lemma {:induction false} NextOf(a: seq<Message>, b: seq<Message>, o: Offset)
    ensures Next(a + b, o) == Next(b, Next(a, o))
  {
    if b == [] { assert a + b == a; }
  }

  lemma {:induction false} FirstCloses(path: string, from: Offset, sent: bool, turns: seq<Turn>)
    requires Readable(turns) && turns != [] && Finds(path, turns[0])
    ensures Received(path, from, turns[..1]) == View(turns[0].read.streams, path, from)
    ensures ClosingTurn(path, from, sent, turns, 0) <==>
      LooksClosed(path, turns[0], Next(View(turns[0].read.streams, path, from), from))
  {
    var ms := View(turns[0].read.streams, path, from);
    assert turns[..1][1..] == [] && ms + [] == ms;
  }

  lemma {:induction false} CloseAnnouncedFrom(path: string, start: Offset, current: Offset, sent: bool,
                                              turns: seq<Turn>)
    requires Readable(turns) && (!sent ==> current == start)
    ensures Deliver(path, start, current, sent, turns).1 == StreamEnded <==>
      exists k :: ClosingTurn(path, current, sent, turns, k)
    decreases turns
  {
    if turns != [] && Finds(path, turns[0]) {
      TurnSends(path, start, current, sent, turns[0]);
      FirstCloses(path, current, sent, turns);
      var r := Turned(path, start, current, sent, turns[0]);
      if r.end.None? {
        CloseAnnouncedFrom(path, start, r.current, true, turns[1..]);
        forall k | k != 0 ensures ClosingTurn(path, current, sent, turns, k) <==>
          ClosingTurn(path, r.current, true, turns[1..], k - 1)
        {
          if k > 0 { ClosingLater(path, current, sent, turns, k); }
        }
        if Deliver(path, start, current, sent, turns).1 == StreamEnded {
          var k :| ClosingTurn(path, r.current, true, turns[1..], k);
          assert ClosingTurn(path, current, sent, turns, k + 1);
        }
      }
    } else if turns != [] {
      TurnFails(path, start, current, sent, turns[0]);
    }
  }

  /**
   * A connection ends with the closure of the stream exactly when the stream is there at first, and there is a turn up
   * to which all reads succeed and which sees the stream closed at the offset of the last message delivered by then,
   * unless the first turn panics before. Without the stream it sends nothing.
   */
  lemma {:induction false} CloseAnnounced(path: string, start: Offset, open: State, expired: set<string>,
                                          turns: seq<Turn>)
    requires Readable(turns)
    ensures var there := path in open.streams && !open.streams[path].meta.softDeleted && path !in expired;
      && (Connect(path, start, open, expired, turns).1 == StreamEnded <==>
        there && (exists k :: ClosingTurn(path, start, false, turns, k)))
      && Connect(path, start, open, expired, turns) ==
        if there then Deliver(path, start, start, false, turns)
        else if path in open.streams && open.streams[path].meta.softDeleted then ([], Failed(StreamSoftDeleted))
        else ([], Failed(NotFound))
  {
    CloseAnnouncedFrom(path, start, start, false, turns);
  }

  /**
   * Turn `k` closes: the events sent by then carry what the turns read, and the last of them says that the stream is
   * closed at the place where that ends.
   */
  ghost predicate Announced(path: string, from: Offset, sent: bool, turns: seq<Turn>, k: int, events: seq<SseEvent>)
    requires Readable(turns)
  {
    && ClosingTurn(path, from, sent, turns, k)
    && DataOf(events) == Received(path, from, turns[..k + 1])
    && events != [] && events[|events| - 1] == Control(Next(DataOf(events), from), true, false)
  }

  /** A connection that ends with the closure has announced it. */
  lemma {:induction false} ClosingEvent(path: string, start: Offset, current: Offset, sent: bool, turns: seq<Turn>)
    returns (k: nat)
    requires Readable(turns) && (!sent ==> current == start)
    requires Deliver(path, start, current, sent, turns).1 == StreamEnded
    ensures Announced(path, current, sent, turns, k, Deliver(path, start, current, sent, turns).0)
    decreases turns
  {
    EndsByTurn(path, start, current, sent, turns);
    var r := Turned(path, start, current, sent, turns[0]);
    if r.end.Some? {
      k := 0;
      LastTurn(path, start, current, sent, turns);
    } else {
      var j := ClosingEvent(path, start, r.current, true, turns[1..]);
      k := j + 1;
      LaterTurn(path, start, current, sent, turns, j, Deliver(path, start, r.current, true, turns[1..]).0);
    }
  }

  /** A connection that ends with the closure does so in its first turn, or goes on as one that has sent something. */
  lemma {:induction false} EndsByTurn(path: string, start: Offset, current: Offset, sent: bool, turns: seq<Turn>)
    requires Readable(turns) && (!sent ==> current == start)
    requires Deliver(path, start, current, sent, turns).1 == StreamEnded
    ensures turns != [] && Finds(path, turns[0]) && Readable(turns[1..])
    ensures var r := Turned(path, start, current, sent, turns[0]);
      if r.end.Some? then r.end == Some(StreamEnded) && Deliver(path, start, current, sent, turns).0 == r.events
      else
        var rest := Deliver(path, start, r.current, true, turns[1..]);
        rest.1 == StreamEnded && Deliver(path, start, current, sent, turns).0 == r.events + rest.0
  {
    if !Finds(path, turns[0]) { TurnFails(path, start, current, sent, turns[0]); }
    TurnSends(path, start, current, sent, turns[0]);
  }

  /** A closing turn after one that goes on. */
  lemma {:induction false} LaterTurn(path: string, start: Offset, current: Offset, sent: bool, turns: seq<Turn>, j: nat,
                                     more: seq<SseEvent>)
    requires Readable(turns) && turns != [] && Finds(path, turns[0]) && (!sent ==> current == start)
    requires Turned(path, start, current, sent, turns[0]).end.None? && Readable(turns[1..])
    requires Announced(path, Turned(path, start, current, sent, turns[0]).current, true, turns[1..], j, more)
    ensures Announced(path, current, sent, turns, j + 1, Turned(path, start, current, sent, turns[0]).events + more)
  {
    TurnData(path, start, current, sent, turns[0]);
    TurnGoesOn(path, start, current, sent, turns[0]);
    ClosingLater(path, current, sent, turns, j + 1);
    MoreEvents(Turned(path, start, current, sent, turns[0]).events, more, current);
  }

  lemma {:induction false} MoreEvents(events: seq<SseEvent>, more: seq<SseEvent>, from: Offset)
    ensures DataOf(events + more) == DataOf(events) + DataOf(more)
    ensures Next(DataOf(events + more), from) == Next(DataOf(more), Next(DataOf(events), from))
    ensures more != [] ==> (events + more)[|events + more| - 1] == more[|more| - 1]
  {
    DataConcat(events, more);
    NextOf(DataOf(events), DataOf(more), from);
  }

  /** The turn that ends a connection with the closure. */
  lemma {:induction false} LastTurn(path: string, start: Offset, current: Offset, sent: bool, turns: seq<Turn>)
    requires Readable(turns) && turns != [] && Finds(path, turns[0]) && (!sent ==> current == start)
    requires Turned(path, start, current, sent, turns[0]).end == Some(StreamEnded)
    ensures Announced(path, current, sent, turns, 0, Turned(path, start, current, sent, turns[0]).events)
  {
    TurnSends(path, start, current, sent, turns[0]);
    TurnData(path, start, current, sent, turns[0]);
    FirstCloses(path, current, sent, turns);
  }

  /** A turn that does not end the connection is none that startles. */
  lemma {:induction false} TurnGoesOn(path: string, start: Offset, current: Offset, sent: bool, t: Turn)
    requires Ordered(t.read.streams) && Finds(path, t) && (!sent ==> current == start)
    requires Turned(path, start, current, sent, t).end.None?
    ensures sent || !(View(t.read.streams, path, current) == [] && !Looks(path, t))
  {
    TurnSends(path, start, current, sent, t);
  }

  /** What the data events of a turn carry is what the turn read, and the reader moves on past it. */
  lemma {:induction false} TurnData(path: string, start: Offset, current: Offset, sent: bool, t: Turn)
    requires Ordered(t.read.streams) && Finds(path, t) && (!sent ==> current == start)
    ensures var ms, r := View(t.read.streams, path, current), Turned(path, start, current, sent, t);
      && DataOf(r.events) == ms
      && r.current == Next(ms, current)
  {
    TurnSends(path, start, current, sent, t);
    SentData(View(t.read.streams, path, current), Turned(path, start, current, sent, t).events);
  }

  lemma {:induction false} SentData(ms: seq<Message>, events: seq<SseEvent>)
    requires ms == [] ==> NoData(events)
    requires ms != [] ==> events != [] && events[0] == Data(ms) && NoData(events[1..])
    ensures DataOf(events) == ms
  {
    if ms == [] {
      NoDataOf(events);
    } else {
      NoDataOf(events[1..]);
      assert ms + [] == ms;
    }
  }

  predicate NoData(events: seq<SseEvent>) {
    forall i :: 0 <= i < |events| ==> events[i].Control?
  }

  lemma {:induction false} NoDataOf(events: seq<SseEvent>)
    requires NoData(events)
    ensures DataOf(events) == []
  {
    if events != [] { NoDataOf(events[1..]); }
  }

  /** A connection that neither ends with a closure nor panics goes on until a read fails, or the client goes away. */
  lemma {:induction false} OtherEnds(path: string, start: Offset, current: Offset, sent: bool, turns: seq<Turn>)
    requires Readable(turns) && (!sent ==> current == start)
    requires !Deliver(path, start, current, sent, turns).1.StreamEnded?
    requires !Deliver(path, start, current, sent, turns).1.Panicked?
    ensures Deliver(path, start, current, sent, turns).1 ==
      if forall i :: 0 <= i < |turns| ==> Finds(path, turns[i]) then Disconnected else Failed(NotFound)
    decreases turns
  {
    if turns != [] && Finds(path, turns[0]) {
      TurnSends(path, start, current, sent, turns[0]);
      OtherEnds(path, start, Turned(path, start, current, sent, turns[0]).current, true, turns[1..]);
      assert forall i :: 0 < i < |turns| ==> turns[i] == turns[1..][i - 1];
      assert forall i :: 0 <= i < |turns| - 1 ==> turns[1..][i] == turns[i + 1];
    } else if turns != [] {
      TurnFails(path, start, current, sent, turns[0]);
    }
  }
}
