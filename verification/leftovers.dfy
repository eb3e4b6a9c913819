/**
 * An append refused for the size of a message leaves the frames before it in the segment. What the segment reads as
 * from then on, whatever appends follow.
 */
module Leftovers {
  import opened Wrappers
  import opened Offsets
  import opened StoreTypes
  import opened StreamStore
  import opened Logs
  import opened StoreInvariant
  import opened FileLayouts
  import opened ChainReads
  import Segments

  // ---- Appends, accepted and refused ----

  /** What admitted appends make of a stream: one with a message over the limit is refused and changes nothing. */
  function StreamAfter(st: Stream, writes: seq<seq<Bytes>>): Stream
    decreases writes
  {
    if writes == [] then st
    else StreamAfter(if Segments.Fits(writes[0]) then Extend(FILE, st, writes[0]) else st, writes[1..])
  }

  /** What they make of its segment: each writes frames up to its first message over the limit. */
  ghost function BytesAfter(bytes: Bytes, writes: seq<seq<Bytes>>): Bytes
    decreases writes
  {
    if writes == [] then bytes
    else BytesAfter(bytes + Segments.EncodeAll(writes[0][..Segments.Fitting(writes[0])]), writes[1..])
  }

  /** A refused append whose first message fits. */
  predicate LeavesFrames(parts: seq<Bytes>) {
    !Segments.Fits(parts) && Segments.Fitting(parts) > 0
  }

  /** No append left frames behind. */
  predicate Clean(writes: seq<seq<Bytes>>)
    decreases writes
  {
    writes == [] || (!LeavesFrames(writes[0]) && Clean(writes[1..]))
  }

  predicate AllNonEmpty(writes: seq<seq<Bytes>>)
    decreases writes
  {
    writes == [] || (NonEmptyParts(writes[0]) && AllNonEmpty(writes[1..]))
  }

  lemma {:induction false} FullyFitting(parts: seq<Bytes>)
    requires Segments.Fits(parts)
    ensures parts[..Segments.Fitting(parts)] == parts
  {
    Segments.FittingAll(parts);
  }

  /** The segment is longer than the log by what was left behind: a frame at least, when anything was. */
  lemma {:induction false} Lengths(st: Stream, bytes: Bytes, writes: seq<seq<Bytes>>, extra: nat)
    requires LogOk(FILE, st) && AllNonEmpty(writes)
    requires st.meta.currentOffset.byteOffset - st.meta.forkOffset.byteOffset + extra == |bytes|
    ensures var st', bytes' := StreamAfter(st, writes), BytesAfter(bytes, writes);
      var log := st'.meta.currentOffset.byteOffset - st'.meta.forkOffset.byteOffset;
      && LogOk(FILE, st') && st'.meta.forkOffset == st.meta.forkOffset
      && |bytes'| >= log + extra
      && (!Clean(writes) ==> |bytes'| > log + extra + Segments.LENGTH_PREFIX_SIZE)
    decreases writes
  {
    if writes != [] {
      var parts := writes[0];
      var kept := parts[..Segments.Fitting(parts)];
      var more := Segments.EncodeAll(kept);
      if Segments.Fits(parts) {
        FullyFitting(parts);
        ExtendOk(FILE, st, parts);
        TailIsLength(st.meta.currentOffset, parts);
        Lengths(Extend(FILE, st, parts), bytes + more, writes[1..], extra);
      } else {
        if kept != [] { FrameLonger(kept); }
        Lengths(st, bytes + more, writes[1..], extra + |more|);
      }
    }
  }

  lemma {:induction false} FrameLonger(parts: seq<Bytes>)
    requires parts != [] && Segments.Fits(parts) && |parts[0]| > 0
    ensures |Segments.EncodeAll(parts)| > Segments.LENGTH_PREFIX_SIZE
  {
  }

  /** With nothing left behind the segment stays the encoding of the log. */
  lemma {:induction false} CleanHolds(st: Stream, bytes: Bytes, writes: seq<seq<Bytes>>)
    requires Holds(bytes, st) && AllNonEmpty(writes) && Clean(writes)
    ensures Holds(BytesAfter(bytes, writes), StreamAfter(st, writes))
    decreases writes
  {
    if writes != [] {
      var parts := writes[0];
      if Segments.Fits(parts) {
        FullyFitting(parts);
        HoldsExtended(bytes, st, parts);
        CleanHolds(Extend(FILE, st, parts), bytes + Segments.EncodeAll(parts), writes[1..]);
      } else {
        assert parts[..0] == [] && bytes + [] == bytes;
        CleanHolds(st, bytes, writes[1..]);
      }
    }
  }

  // ---- Reading a segment that is too long ----

  lemma {:induction false} ReadAllEnds(b: Bytes, from: Offset)
    ensures var r := Segments.ReadAll(b, from);
      r.1 == if r.0 == [] then from else r.0[|r.0| - 1].offset
    decreases |b|
  {
    var first := Segments.ReadOne(b);
    if first.Read? {
      var size := Segments.LENGTH_PREFIX_SIZE + |first.data|;
      var end := Add(from, size);
      ReadAllEnds(b[size..], end);
      var rest := Segments.ReadAll(b[size..], end).0;
      assert Segments.ReadAll(b, from).0 == [Message(first.data, end)] + rest;
    }
  }

  lemma {:induction false} ShiftEnds(ms: seq<Message>, distance: nat)
    ensures |Shift(ms, distance)| == |ms|
    ensures ms != [] ==>
      Shift(ms, distance)[|ms| - 1].offset.byteOffset == ms[|ms| - 1].offset.byteOffset + distance
  {
    if ms != [] { ShiftEnds(ms[1..], distance); }
  }

  lemma {:induction false} AfterEnds(st: Stream, o: Offset)
    requires LogOk(FILE, st) && After(st.messages, o) != []
    ensures var rest := After(st.messages, o);
      rest[|rest| - 1].offset.byteOffset <= st.meta.currentOffset.byteOffset
  {
    ChainedBounds(FILE, st.meta.forkOffset, st.messages, st.meta.currentOffset);
    var j := AfterSource(st.messages, o, |After(st.messages, o)| - 1);
  }

  /** A successful read of more than `n` bytes and a header goes on past the first `n`. */
  lemma {:induction false} ReadsOn(b: Bytes, from: Offset, n: nat)
    requires |b| > n + Segments.LENGTH_PREFIX_SIZE
    ensures var r := Segments.ReadAll(b, from);
      r.2.None? ==> r.0 != [] && r.0[|r.0| - 1].offset.byteOffset > from.byteOffset + n
  {
    Segments.ReadAllDecodes(b, from);
    ReadAllEnds(b, from);
  }

  lemma {:induction false} OwnReadsOn(bytes: Bytes, base: Offset, o: Offset, n: nat)
    requires base.readSeq == o.readSeq && base.byteOffset <= o.byteOffset <= base.byteOffset + n
    requires |bytes| > n + Segments.LENGTH_PREFIX_SIZE
    ensures var r := OwnAt(bytes, base, o);
      r.Ok? ==> r.value != [] && r.value[|r.value| - 1].offset.byteOffset > base.byteOffset + n
  {
    var at := Offset(o.readSeq, o.byteOffset - base.byteOffset);
    var rest := Segments.From(bytes, at.byteOffset);
    ReadsOn(rest, at, n - at.byteOffset);
    ShiftEnds(Segments.ReadAll(rest, at).0, base.byteOffset);
  }

  /** Bytes past the end of the log are read too, or spoil the read. */
  lemma {:induction false} TooLong(st: Stream, bytes: Bytes, o: Offset)
    requires LogOk(FILE, st) && o.readSeq == 0
    requires st.meta.forkOffset.byteOffset <= o.byteOffset <= st.meta.currentOffset.byteOffset
    requires |bytes| > st.meta.currentOffset.byteOffset - st.meta.forkOffset.byteOffset + Segments.LENGTH_PREFIX_SIZE
    ensures OwnAt(bytes, st.meta.forkOffset, o) != Ok(After(st.messages, o))
  {
    OwnReadsOn(bytes, st.meta.forkOffset, o, st.meta.currentOffset.byteOffset - st.meta.forkOffset.byteOffset);
    if After(st.messages, o) != [] { AfterEnds(st, o); }
  }

  /** From inside a frame of its own, a stream's segment never reads as the messages past the offset. */
  lemma {:induction false} InsideOwn(st: Stream, bytes: Bytes, o: Offset)
    requires LogOk(FILE, st) && o.readSeq == 0 && !LessThan(o, st.meta.forkOffset) && !OwnBoundary(st, o)
    requires o.byteOffset <= st.meta.forkOffset.byteOffset + |bytes|
    ensures OwnAt(bytes, st.meta.forkOffset, o) != Ok(After(st.messages, o))
  {
    LogStraddled(st, o);
    OwnAtLies(bytes, st.meta.forkOffset, o);
  }

  /**
   * Whatever appends are made to a stream, accepted or refused for their size: from an offset up to the recorded tail
   * its segment reads as the stream's own messages past the offset exactly when no refused append left frames behind
   * and the offset is the end of a message or the start.
   */
  lemma {:induction false} ReadsAfterWrites(st: Stream, bytes: Bytes, writes: seq<seq<Bytes>>, o: Offset)
    requires LogOk(FILE, st) && Holds(bytes, st) && AllNonEmpty(writes)
    requires var tail := StreamAfter(st, writes).meta.currentOffset;
      o.readSeq == 0 && st.meta.forkOffset.byteOffset <= o.byteOffset <= tail.byteOffset
    ensures var st' := StreamAfter(st, writes);
      OwnAt(BytesAfter(bytes, writes), st.meta.forkOffset, o) == Ok(After(st'.messages, o)) <==>
        Clean(writes) && OwnBoundary(st', o)
  {
    var st', bytes' := StreamAfter(st, writes), BytesAfter(bytes, writes);
    HeldLength(st, bytes);
    Lengths(st, bytes, writes, 0);
    if !Clean(writes) {
      TooLong(st', bytes', o);
    } else if OwnBoundary(st', o) {
      CleanHolds(st, bytes, writes);
      OwnAtBoundary(st', bytes', o);
    } else {
      InsideOwn(st', bytes', o);
    }
  }

  lemma {:induction false} HeldLength(st: Stream, bytes: Bytes)
    requires LogOk(FILE, st) && Holds(bytes, st)
    ensures st.meta.currentOffset == Add(st.meta.forkOffset, |bytes|)
  {
    ChainedIsFrame(FILE, st.meta.forkOffset, st.messages, st.meta.currentOffset);
    TailIsLength(st.meta.forkOffset, Datas(st.messages));
  }

  // ---- Root streams ----

  /** The answer to a read of a live root stream with this segment. */
  function RootAnswer(bytes: Bytes, meta: Metadata, o: Offset): Result<(seq<Message>, bool), Error> {
    if o == meta.currentOffset then Ok(([], true)) else Answered(SegmentAt(bytes, o), meta, o)
  }

  lemma {:induction false} RootIsOwn(bytes: Bytes, o: Offset)
    requires o.readSeq == 0
    ensures SegmentAt(bytes, o) == OwnAt(bytes, ZERO_OFFSET, o)
  {
    ShiftNone(Segments.ReadAll(Segments.From(bytes, o.byteOffset), o).0);
    assert Offset(0, o.byteOffset - 0) == o;
  }

  lemma {:induction false} StaysRoot(st: Stream, writes: seq<seq<Bytes>>)
    ensures StreamAfter(st, writes).meta.forkedFrom == st.meta.forkedFrom
    decreases writes
  {
    if writes != [] {
      StaysRoot(if Segments.Fits(writes[0]) then Extend(FILE, st, writes[0]) else st, writes[1..]);
    }
  }

  /**
   * A read of a root stream, from an offset up to its tail, after any such appends: it gives the answer it should
   * exactly when it asks at the tail, or no refused append left frames behind and it asks at a boundary. An accepted
   * append after a refused one that left frames is so never read back right.
   */
  lemma {:induction false} RootReadsAfterWrites(st: Stream, bytes: Bytes, writes: seq<seq<Bytes>>, o: Offset)
    requires LogOk(FILE, st) && Holds(bytes, st) && AllNonEmpty(writes) && st.meta.forkedFrom == ""
    requires o.readSeq == 0 && o.byteOffset <= StreamAfter(st, writes).meta.currentOffset.byteOffset
    ensures var st' := StreamAfter(st, writes);
      var rest := After(st'.messages, o);
      RootAnswer(BytesAfter(bytes, writes), st'.meta, o) == Ok((rest, UpToDate(st'.meta, rest, o))) <==>
        o == st'.meta.currentOffset || (Clean(writes) && OwnBoundary(st', o))
  {
    ReadsAfterWrites(st, bytes, writes, o);
    HeldLength(st, bytes);
    Lengths(st, bytes, writes, 0);
    var st' := StreamAfter(st, writes);
    RootIsOwn(BytesAfter(bytes, writes), o);
    if o == st'.meta.currentOffset {
      ChainedBounds(FILE, st'.meta.forkOffset, st'.messages, st'.meta.currentOffset);
      AfterNone(st'.messages, o);
    }
  }
}
