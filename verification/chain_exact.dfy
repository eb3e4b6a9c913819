/** Exactly when the bytes read from an offset are the messages past it, for every offset and every chain of forks. */
module ChainExact {
  import opened Wrappers
  import opened Offsets
  import opened StoreTypes
  import opened StreamStore
  import opened Logs
  import opened StoreInvariant
  import opened FileLayouts
  import opened ChainReads
  import ForkGraph
  import Segments

  /** The read from `o` gives the messages past it. */
  ghost predicate Right(m: Streams, p: string, o: Offset)
    requires Ordered(m) && AllFit(m) && p in m
  {
    ChainRead(m, p, o) == Ok(View(m, p, o))
  }

  /**
   * An offset in a message that a fork point cuts off: what its source should have read from there, and what it did
   * read, both lie past that fork point and do not show.
   */
  ghost predicate CutOff(m: Streams, p: string, o: Offset)
    requires Ordered(m) && AllFit(m) && p in m
    decreases m[p].created
  {
    var meta := m[p].meta;
    assert Younger(m, p);
    && meta.forkedFrom != "" && LessThan(o, meta.forkOffset) && meta.forkedFrom in m
    && (CutOff(m, meta.forkedFrom, o) || NothingShows(m, meta.forkedFrom, o, meta.forkOffset))
  }

  ghost predicate NothingShows(m: Streams, p: string, o: Offset, cap: Offset)
    requires Ordered(m) && AllFit(m) && p in m
  {
    var r := ChainRead(m, p, o);
    r.Ok? && UpTo(r.value, cap) == [] && UpTo(View(m, p, o), cap) == []
  }

  lemma {:induction false} InsideLog(s: State, p: string, o: Offset)
    requires Inv(FILE, s) && Ordered(s.streams) && p in s.streams && o.readSeq == 0 && !Boundary(s.streams, p, o)
    ensures o.byteOffset <= s.streams[p].meta.currentOffset.byteOffset
  {
    assert StreamOk(FILE, s, p);
    var st := s.streams[p];
    ChainedBounds(FILE, st.meta.forkOffset, st.messages, st.meta.currentOffset);
  }

  // ---- A stream's own messages ----

  /** Reading its own messages right from an offset not below the fork point takes a boundary. */
  lemma {:induction false} OwnRight(s: State, p: string, o: Offset)
    requires Inv(FILE, s) && Ordered(s.streams) && AllFit(s.streams) && p in s.streams && o.readSeq == 0
    requires s.streams[p].meta.forkedFrom == "" || !LessThan(o, s.streams[p].meta.forkOffset)
    ensures Right(s.streams, p, o) <==> Boundary(s.streams, p, o)
    ensures !Boundary(s.streams, p, o) ==> OwnStarts(s, p, o)
  {
    assert StreamOk(FILE, s, p);
    if Boundary(s.streams, p, o) {
      ChainAtBoundary(s, p, o);
    } else {
      InsideLog(s, p, o);
      ChainLies(s, p, o);
      LogStraddled(s.streams[p], o);
      assert View(s.streams, p, o) == After(s.streams[p].messages, o);
    }
  }

  /** The first message past `o` begins before it, and no message read does. */
  ghost predicate OwnStarts(s: State, p: string, o: Offset)
    requires Ordered(s.streams) && AllFit(s.streams) && p in s.streams
  {
    var r, view := ChainRead(s.streams, p, o), View(s.streams, p, o);
    && view == After(s.streams[p].messages, o) != [] && Start(view[0]) < o.byteOffset
    && (r.Ok? ==> forall i :: 0 <= i < |r.value| ==> o.byteOffset <= Start(r.value[i]))
  }

  lemma {:induction false} FirstOfLog(st: Stream, o: Offset, cap: Offset)
    requires LogOk(FILE, st) && UpTo(After(st.messages, o), cap) != []
    ensures UpTo(After(st.messages, o), cap)[0] == After(st.messages, o)[0]
  {
    var late := After(st.messages, o);
    LateSorted(FILE, st.meta.forkOffset, st.messages, st.meta.currentOffset, o);
    if !LessThanOrEqual(late[0].offset, cap) {
      forall i | 0 <= i < |late| ensures !LessThanOrEqual(late[i].offset, cap) {
        if i > 0 { assert Past(late[0].offset, late[i]); }
      }
      UpToNone(late, cap);
    }
  }

  /** A message of a log past `from`, of the same read sequence. */
  predicate Past(from: Offset, m: Message) {
    m.offset.readSeq == from.readSeq && from.byteOffset < m.offset.byteOffset
  }

  /** What lies past an offset in a log lies past its start, and begins with its lowest message. */
  lemma {:induction false} LateSorted(z: Kind, from: Offset, ms: seq<Message>, end: Offset, o: Offset)
    requires Chained(z, from, ms, end)
    ensures forall i :: 0 <= i < |After(ms, o)| ==> Past(from, After(ms, o)[i])
    ensures forall i :: 0 < i < |After(ms, o)| ==> Past(After(ms, o)[0].offset, After(ms, o)[i])
    decreases ms
  {
    if ms != [] {
      ChainedBounds(z, from, ms, end);
      LateSorted(z, ms[0].offset, ms[1..], end, o);
      var rest := After(ms[1..], o);
      forall j | 0 <= j < |rest| ensures Past(ms[0].offset, rest[j]) && Past(from, rest[j]) {
        assert Past(ms[0].offset, After(ms[1..], o)[j]);
      }
      FrontLate(from, ms[0], rest, ms[0].offset.byteOffset > o.byteOffset);
    }
  }

  lemma {:induction false} FrontLate(from: Offset, m: Message, rest: seq<Message>, late: bool)
    requires Past(from, m)
    requires forall j :: 0 <= j < |rest| ==> Past(m.offset, rest[j]) && Past(from, rest[j])
    requires forall j :: 0 < j < |rest| ==> Past(rest[0].offset, rest[j])
    ensures var all := (if late then [m] else []) + rest;
      && (forall i :: 0 <= i < |all| ==> Past(from, all[i]))
      && (forall i :: 0 < i < |all| ==> Past(all[0].offset, all[i]))
  {
  }

  /** What shows of the own messages below a cap, when it is right and not nothing, was read from a boundary. */
  lemma {:induction false} OwnShows(s: State, p: string, o: Offset, cap: Offset)
    requires Inv(FILE, s) && Ordered(s.streams) && AllFit(s.streams) && p in s.streams && o.readSeq == 0
    requires s.streams[p].meta.forkedFrom == "" || !LessThan(o, s.streams[p].meta.forkOffset)
    requires Shows(s.streams, p, o, cap)
    ensures Right(s.streams, p, o)
  {
    OwnRight(s, p, o);
    if !Boundary(s.streams, p, o) {
      assert StreamOk(FILE, s, p);
      FirstOfLog(s.streams[p], o, cap);
      var r := ChainRead(s.streams, p, o).value;
      var j := UpToSource(r, cap, 0);
    }
  }

  /** Below a cap, the read gives something, and that rightly. */
  ghost predicate Shows(m: Streams, p: string, o: Offset, cap: Offset)
    requires Ordered(m) && AllFit(m) && p in m
  {
    var r := ChainRead(m, p, o);
    r.Ok? && UpTo(r.value, cap) == UpTo(View(m, p, o), cap) != []
  }

  // ---- Chains ----

  /** Below its fork point, a fork reads what its source does up to there, and then all of its own messages. */
  lemma {:induction false} ForkParts(s: State, p: string, o: Offset)
    requires Inv(FILE, s) && Ordered(s.streams) && AllFit(s.streams) && p in s.streams && o.readSeq == 0
    requires s.streams[p].meta.forkedFrom != "" && LessThan(o, s.streams[p].meta.forkOffset)
    ensures var meta, own := s.streams[p].meta, After(s.streams[p].messages, o);
      && meta.forkedFrom in s.streams && s.streams[meta.forkedFrom].created < s.streams[p].created
      && meta.forkOffset.readSeq == 0
      && View(s.streams, p, o) == UpTo(View(s.streams, meta.forkedFrom, o), meta.forkOffset) + own
      && ChainRead(s.streams, p, o) == match ChainRead(s.streams, meta.forkedFrom, o)
           case Err(e) => Err(e)
           case Ok(ms) => Ok(UpTo(ms, meta.forkOffset) + own)
    ensures OwnPast(s.streams[p], o)
  {
    var st := s.streams[p];
    assert StreamOk(FILE, s, p) && ForkGraph.LinkOk(s.streams, p) && Younger(s.streams, p);
    OwnAtBoundary(st, SegmentOf(s.streams, p), o);
    LateSorted(FILE, st.meta.forkOffset, st.messages, st.meta.currentOffset, o);
  }

  /** A stream's own messages end past its fork point. */
  predicate OwnPast(st: Stream, o: Offset) {
    forall i :: 0 <= i < |After(st.messages, o)| ==> Past(st.meta.forkOffset, After(st.messages, o)[i])
  }

  /** Capping what a fork reads: below its fork point only the source shows, above it all of the inherited part. */
  lemma {:induction false} CapFork(ms: seq<Message>, own: seq<Message>, fork: Offset, cap: Offset)
    requires forall i :: 0 <= i < |own| ==> Past(fork, own[i])
    ensures LessThanOrEqual(cap, fork) ==> UpTo(UpTo(ms, fork) + own, cap) == UpTo(ms, cap)
    ensures LessThanOrEqual(fork, cap) ==> UpTo(UpTo(ms, fork) + own, cap) == UpTo(ms, fork) + UpTo(own, cap)
  {
    UpToConcat(UpTo(ms, fork), own, cap);
    if LessThanOrEqual(cap, fork) {
      UpToTwice(ms, fork, cap);
      forall i | 0 <= i < |own| ensures !LessThanOrEqual(own[i].offset, cap) {
        assert Past(fork, own[i]);
      }
      UpToNone(own, cap);
    } else {
      CappedUnder(ms, fork, cap);
    }
    if cap == fork { CappedUnder(ms, fork, cap); }
  }

  lemma {:induction false} CappedUnder(ms: seq<Message>, fork: Offset, cap: Offset)
    requires LessThanOrEqual(fork, cap)
    ensures UpTo(UpTo(ms, fork), cap) == UpTo(ms, fork)
  {
    var low := UpTo(ms, fork);
    forall i | 0 <= i < |low| ensures LessThanOrEqual(low[i].offset, cap) {
      var j := UpToSource(ms, fork, i);
    }
    UpToAll(low, cap);
  }

  lemma {:induction false} SameFront(a: seq<Message>, b: seq<Message>, rest: seq<Message>)
    requires a + rest == b + rest
    ensures a == b
  {
    assert |a| == |b|;
    assert a == (a + rest)[..|a|] && b == (b + rest)[..|b|];
  }

  /** If a read shows something below a cap, and that rightly, the whole read is right. */
  lemma {:induction false} ShowsRight(s: State, p: string, o: Offset, cap: Offset)
    requires Inv(FILE, s) && Ordered(s.streams) && AllFit(s.streams) && p in s.streams
    requires o.readSeq == cap.readSeq == 0 && Shows(s.streams, p, o, cap)
    ensures Right(s.streams, p, o)
    decreases s.streams[p].created
  {
    var st := s.streams[p];
    var fork, source := st.meta.forkOffset, st.meta.forkedFrom;
    if source == "" || !LessThan(o, fork) {
      OwnShows(s, p, o, cap);
    } else {
      ForkParts(s, p, o);
      var own := After(st.messages, o);
      var r, view := ChainRead(s.streams, source, o), View(s.streams, source, o);
      CapFork(r.value, own, fork, cap);
      CapFork(view, own, fork, cap);
      if LessThanOrEqual(cap, fork) {
        ShowsRight(s, source, o, cap);
      } else {
        SameFront(UpTo(r.value, fork), UpTo(view, fork), UpTo(own, cap));
        if UpTo(view, fork) != [] { ShowsRight(s, source, o, fork); }
      }
    }
  }

  /** A fork reads right exactly when what it inherits does. */
  lemma {:induction false} ForkRight(s: State, p: string, o: Offset)
    requires Inv(FILE, s) && Ordered(s.streams) && AllFit(s.streams) && p in s.streams && o.readSeq == 0
    requires s.streams[p].meta.forkedFrom != "" && LessThan(o, s.streams[p].meta.forkOffset)
    ensures var fork, source := s.streams[p].meta.forkOffset, s.streams[p].meta.forkedFrom;
      && fork.readSeq == 0 && source in s.streams && s.streams[source].created < s.streams[p].created
      && var r := ChainRead(s.streams, source, o);
         Right(s.streams, p, o) <==> r.Ok? && UpTo(r.value, fork) == UpTo(View(s.streams, source, o), fork)
  {
    ForkParts(s, p, o);
    var st := s.streams[p];
    var own, fork := After(st.messages, o), st.meta.forkOffset;
    var r, view := ChainRead(s.streams, st.meta.forkedFrom, o), View(s.streams, st.meta.forkedFrom, o);
    if Right(s.streams, p, o) { SameFront(UpTo(r.value, fork), UpTo(view, fork), own); }
  }

  /** Offsets of read sequence 0. */
  lemma {:induction false} PlainExact(s: State, p: string, o: Offset)
    requires Inv(FILE, s) && Ordered(s.streams) && AllFit(s.streams) && p in s.streams && o.readSeq == 0
    ensures Right(s.streams, p, o) <==> Boundary(s.streams, p, o) || CutOff(s.streams, p, o)
    decreases s.streams[p].created
  {
    var fork, source := s.streams[p].meta.forkOffset, s.streams[p].meta.forkedFrom;
    if source == "" || !LessThan(o, fork) {
      OwnRight(s, p, o);
    } else {
      ForkRight(s, p, o);
      PlainExact(s, source, o);
      if Right(s.streams, p, o) && UpTo(View(s.streams, source, o), fork) != [] { ShowsRight(s, source, o, fork); }
    }
  }

  // ---- Later read sequences ----

  lemma {:induction false} SegmentSeq(bytes: Bytes, at: Offset)
    ensures var r := SegmentAt(bytes, at);
      r.Ok? && r.value != [] ==> r.value[0].offset.readSeq == at.readSeq
    ensures at.byteOffset >= |bytes| ==> SegmentAt(bytes, at) == Ok([])
  {
    var rest := Segments.From(bytes, at.byteOffset);
    ReadAllLies(rest, at);
    var ms := Segments.ReadAll(rest, at).0;
    if ms != [] { assert Lies(ms[0], at.readSeq, at.byteOffset, at.byteOffset + |rest|); }
  }

  lemma {:induction false} ShiftSeq(ms: seq<Message>, distance: nat)
    ensures |Shift(ms, distance)| == |ms|
    ensures ms != [] ==> Shift(ms, distance)[0].offset.readSeq == ms[0].offset.readSeq
  {
    if ms != [] { ShiftSeq(ms[1..], distance); }
  }

  lemma {:induction false} LateView(s: State, p: string, o: Offset)
    requires Inv(FILE, s) && Ordered(s.streams) && p in s.streams && o.readSeq > 0
    ensures var st := s.streams[p];
      && st.meta.forkOffset.readSeq == 0 && View(s.streams, p, o) == After(st.messages, o)
      && (st.meta.currentOffset.byteOffset <= o.byteOffset ==> View(s.streams, p, o) == [])
      && (st.messages != [] && o.byteOffset < st.meta.currentOffset.byteOffset ==> View(s.streams, p, o) != [])
      && (View(s.streams, p, o) != [] ==> View(s.streams, p, o)[0].offset.readSeq == 0)
  {
    var st := s.streams[p];
    assert StreamOk(FILE, s, p);
    ChainedBounds(FILE, st.meta.forkOffset, st.messages, st.meta.currentOffset);
    LateSorted(FILE, st.meta.forkOffset, st.messages, st.meta.currentOffset, o);
    assert View(s.streams, p, o) == [] + After(st.messages, o);
    if st.meta.currentOffset.byteOffset <= o.byteOffset {
      AfterNone(st.messages, o);
    } else if st.messages != [] {
      LastLate(st.messages, o);
    }
  }

  lemma {:induction false} LastLate(ms: seq<Message>, o: Offset)
    requires ms != [] && o.byteOffset < ms[|ms| - 1].offset.byteOffset
    ensures After(ms, o) != []
    decreases ms
  {
    if |ms| > 1 { LastLate(ms[1..], o); }
  }

  lemma {:induction false} LateOwn(bytes: Bytes, base: Offset, o: Offset)
    requires base.readSeq == 0 && o.readSeq > 0
    ensures var r := OwnAt(bytes, base, o);
      && (o.byteOffset < base.byteOffset ==> r.Err?)
      && (base.byteOffset + |bytes| <= o.byteOffset ==> r == Ok([]))
      && (r.Ok? && r.value != [] ==> r.value[0].offset.readSeq > 0)
  {
    if base.byteOffset <= o.byteOffset {
      var at := Offset(o.readSeq, o.byteOffset - base.byteOffset);
      SegmentSeq(bytes, at);
      var r := SegmentAt(bytes, at);
      if r.Ok? { ShiftSeq(r.value, base.byteOffset); }
    }
  }

  lemma {:induction false} LateExact(s: State, p: string, o: Offset)
    requires Inv(FILE, s) && Ordered(s.streams) && AllFit(s.streams) && p in s.streams && o.readSeq > 0
    ensures Right(s.streams, p, o) <==> s.streams[p].meta.currentOffset.byteOffset <= o.byteOffset
  {
    var st, bytes := s.streams[p], SegmentOf(s.streams, p);
    var base := st.meta.forkOffset;
    assert StreamOk(FILE, s, p);
    SegmentEnds(s, p);
    LateView(s, p, o);
    ChainedBounds(FILE, base, st.messages, st.meta.currentOffset);
    LateOwn(bytes, base, o);
    if st.meta.forkedFrom == "" {
      SegmentSeq(bytes, o);
    } else {
      assert SourceRead(s.streams, p, o) == Ok([]);
      var own := OwnAt(bytes, base, o);
      if own.Ok? { assert [] + own.value == own.value; }
    }
  }

  // ---- The result ----

  /** Where a read gives the messages past the offset. */
  ghost predicate Exact(m: Streams, p: string, o: Offset)
    requires Ordered(m) && AllFit(m) && p in m
  {
    if o.readSeq > 0 then m[p].meta.currentOffset.byteOffset <= o.byteOffset else Boundary(m, p, o) || CutOff(m, p, o)
  }

  /**
   * For every offset: the bytes read from it are the messages past it exactly when it is the end of a message, the
   * start of the stream or no less than the tail, or points into a message that a fork point cuts off and nothing read
   * there shows.
   */
  lemma {:induction false} ChainReadExact(s: State, p: string, o: Offset)
    requires Inv(FILE, s) && Ordered(s.streams) && AllFit(s.streams) && p in s.streams
    ensures ChainRead(s.streams, p, o) == Ok(View(s.streams, p, o)) <==> Exact(s.streams, p, o)
  {
    if o.readSeq > 0 { LateExact(s, p, o); } else { PlainExact(s, p, o); }
  }

  // ---- Forks cut between messages ----

  /** Every fork along the chain was cut at a boundary of its source. */
  predicate CutAtBoundaries(m: Streams, p: string)
    requires Ordered(m) && p in m
    decreases m[p].created
  {
    var meta := m[p].meta;
    assert Younger(m, p);
    meta.forkedFrom != "" && meta.forkedFrom in m ==>
      Boundary(m, meta.forkedFrom, meta.forkOffset) && CutAtBoundaries(m, meta.forkedFrom)
  }

  lemma {:induction false} OwnStraddled(s: State, p: string, o: Offset)
    requires Inv(FILE, s) && Ordered(s.streams) && p in s.streams && o.readSeq == 0
    requires !OwnBoundary(s.streams[p], o) && !LessThan(o, s.streams[p].meta.forkOffset)
    ensures View(s.streams, p, o) == After(s.streams[p].messages, o) != []
    ensures Start(View(s.streams, p, o)[0]) < o.byteOffset
  {
    assert StreamOk(FILE, s, p);
    LogStraddled(s.streams[p], o);
    assert View(s.streams, p, o) == After(s.streams[p].messages, o);
  }

  lemma {:induction false} LogStraddledEnds(st: Stream, o: Offset, c: Offset)
    requires LogOk(FILE, st) && o.readSeq == 0
    requires !OwnBoundary(st, o) && !LessThan(o, st.meta.forkOffset)
    requires OwnBoundary(st, c) && o.byteOffset < c.byteOffset
    ensures After(st.messages, o) != [] && After(st.messages, o)[0].offset.byteOffset <= c.byteOffset
  {
    var end := st.meta.currentOffset;
    OwnStraddles(st.meta.forkOffset, st.messages, end, o);
    ChainedBounds(FILE, st.meta.forkOffset, st.messages, end);
    if c.byteOffset >= end.byteOffset {
      assert st.messages[|st.messages| - 1].offset == end;
    } else {
      var i :| 0 <= i < |st.messages| && st.messages[i].offset == c;
    }
  }

  /** The first message read from inside a frame ends no later than any later boundary. */
  lemma {:induction false} StraddlerEnds(s: State, p: string, o: Offset, c: Offset)
    requires Inv(FILE, s) && Ordered(s.streams) && p in s.streams && o.readSeq == 0
    requires CutAtBoundaries(s.streams, p) && !Boundary(s.streams, p, o)
    requires Boundary(s.streams, p, c) && o.byteOffset < c.byteOffset
    ensures View(s.streams, p, o) != [] && View(s.streams, p, o)[0].offset.byteOffset <= c.byteOffset
    decreases s.streams[p].created, 1
  {
    var meta := s.streams[p].meta;
    assert StreamOk(FILE, s, p) && Younger(s.streams, p);
    if meta.forkedFrom != "" && LessThan(o, meta.forkOffset) {
      StraddlerInherited(s, p, o);
      if LessThan(c, meta.forkOffset) { StraddlerEnds(s, meta.forkedFrom, o, c); }
    } else {
      OwnStraddled(s, p, o);
      LogStraddledEnds(s.streams[p], o, c);
    }
  }

  /** Below the fork point that message is the source's, and is not cut off. */
  lemma {:induction false} StraddlerInherited(s: State, p: string, o: Offset)
    requires Inv(FILE, s) && Ordered(s.streams) && p in s.streams && o.readSeq == 0
    requires CutAtBoundaries(s.streams, p) && !Boundary(s.streams, p, o)
    requires s.streams[p].meta.forkedFrom != "" && LessThan(o, s.streams[p].meta.forkOffset)
    ensures var meta := s.streams[p].meta;
      && meta.forkedFrom in s.streams && View(s.streams, meta.forkedFrom, o) != [] && View(s.streams, p, o) != []
      && View(s.streams, p, o)[0] == View(s.streams, meta.forkedFrom, o)[0]
      && View(s.streams, p, o)[0].offset.byteOffset <= meta.forkOffset.byteOffset
    decreases s.streams[p].created, 0
  {
    var meta := s.streams[p].meta;
    assert StreamOk(FILE, s, p) && Younger(s.streams, p);
    StraddlerEnds(s, meta.forkedFrom, o, meta.forkOffset);
    var source := View(s.streams, meta.forkedFrom, o);
    ViewBounds(FILE, s, meta.forkedFrom, o);
    assert LessThanOrEqual(source[0].offset, meta.forkOffset);
    assert UpTo(source, meta.forkOffset)[0] == source[0];
  }

  /** When all forks were cut between messages, no fork point cuts one off. */
  lemma {:induction false} NeverCutOff(s: State, p: string, o: Offset)
    requires Inv(FILE, s) && Ordered(s.streams) && AllFit(s.streams) && p in s.streams && o.readSeq == 0
    requires CutAtBoundaries(s.streams, p) && !Boundary(s.streams, p, o)
    ensures !CutOff(s.streams, p, o)
    decreases s.streams[p].created
  {
    var meta := s.streams[p].meta;
    assert StreamOk(FILE, s, p) && Younger(s.streams, p);
    if meta.forkedFrom != "" && LessThan(o, meta.forkOffset) {
      StraddlerInherited(s, p, o);
      NeverCutOff(s, meta.forkedFrom, o);
      var source := View(s.streams, meta.forkedFrom, o);
      ViewBounds(FILE, s, meta.forkedFrom, o);
      assert UpTo(source, meta.forkOffset)[0] == source[0];
    }
  }

  /** Then the read is right exactly at the boundaries. */
  lemma {:induction false} BetweenMessages(s: State, p: string, o: Offset)
    requires Inv(FILE, s) && Ordered(s.streams) && AllFit(s.streams) && p in s.streams && o.readSeq == 0
    requires CutAtBoundaries(s.streams, p)
    ensures ChainRead(s.streams, p, o) == Ok(View(s.streams, p, o)) <==> Boundary(s.streams, p, o)
  {
    PlainExact(s, p, o);
    if !Boundary(s.streams, p, o) { NeverCutOff(s, p, o); }
  }
}
