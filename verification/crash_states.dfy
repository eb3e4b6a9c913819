/**
 * Two states of a file store, made by short runs from the empty store: one that recovery damages, and one from which a
 * crash in the middle of a deletion leaves a tombstone.
 */
module CrashStates {
  import opened Wrappers
  import opened Offsets
  import opened StoreTypes
  import opened StreamStore
  import opened StoreInvariant
  import opened BboltStores
  import opened FileLayouts
  import opened FileRecovery
  import opened DeletionCrashes
  import Logs
  import Segments
  import Text
  import Tombstones

  // ---- Laying a state out ----

  predicate StreamFits(s: State, p: string)
    requires p in s.streams
  {
    Segments.Fits(Logs.Datas(s.streams[p].messages)) && OffsetsInRange(s.streams[p].meta)
  }

  ghost predicate AllFit(s: State) {
    forall p {:trigger StreamFits(s, p)} :: p in s.streams ==> StreamFits(s, p)
  }

  ghost function SegmentOf(s: State, p: string): Bytes
    requires p in s.streams
  {
    if StreamFits(s, p) then Segments.EncodeAll(Logs.Datas(s.streams[p].messages)) else []
  }

  /** A layout of a state, with every stream in a directory of its own path. */
  ghost function LaidOut(s: State): FileLayouts.Layout {
    FileLayouts.Layout(
      map p | p in s.streams :: s.streams[p].meta,
      map p | p in s.streams :: p,
      map p | p in s.streams :: SegmentOf(s, p),
      map p | p in s.streams :: EncodeRecord(p, s.streams[p].meta, p))
  }

  lemma {:induction false} LaidOutEntry(s: State, p: string)
    requires p in s.streams && StreamFits(s, p)
    ensures Entry(LaidOut(s), s, p) && StoredInRange(s, p)
  {
  }

  lemma {:induction false} LaidOutKeys(s: State)
    ensures var l := LaidOut(s);
      l.metas.Keys == s.streams.Keys && l.dirs.Keys == s.streams.Keys && l.records.Keys == s.streams.Keys
    ensures forall p :: p in s.streams ==> LaidOut(s).dirs[p] == p
  {
  }

  lemma {:induction false} LaidOutOrderly(s: State)
    requires Inv(FILE, s) && AllFit(s)
    ensures Orderly(LaidOut(s), s)
  {
    var l := LaidOut(s);
    LaidOutKeys(s);
    forall p | p in s.streams ensures Entry(l, s, p) && StoredInRange(s, p) {
      assert StreamFits(s, p);
      LaidOutEntry(s, p);
    }
    forall p, q ensures Apart(l.dirs, p, q) {
      assert p in l.dirs ==> p in s.streams.Keys;
      assert q in l.dirs ==> q in s.streams.Keys;
    }
  }

  // ---- A stream and a fork of it ----

  predicate Binary(contentType: string) {
    contentType != "" && !Text.IsJson(contentType)
  }

  function Plain(contentType: string, data: Option<Body>): CreateOptions {
    CreateOptions(contentType, None, None, data, false, "", None, None)
  }

  function ForkOf(a: string): CreateOptions {
    CreateOptions("", None, None, None, false, a, None, None)
  }

  lemma {:induction false} RootCreated(z: Kind, a: string, opts: CreateOptions, st: Stream)
    requires opts.forkedFrom == "" && Initialise(z, Blank(z, RootMeta(opts), [], 0), opts.initialData) == Ok(st)
    ensures Create(z, EMPTY_STATE, a, opts, {}) == (State(map[a := st], 1), Ok(true))
  {
    Tombstones.NewStreamLinks(z, EMPTY_STATE, opts, {});
  }

  /** The stream `x` at `a`, counted and perhaps marked, and a fork of its whole log at `b`. */
  function Pair(a: string, b: string, x: Stream, marked: bool): State {
    var counted := WithRefCount(x, 1);
    State(map[a := counted.(meta := counted.meta.(softDeleted := marked)),
              b := Stream(ForkMeta(ForkOf(a), x.meta, x.meta.currentOffset), [], 1)], 2)
  }

  lemma {:induction false} TwoKeys(a: string, b: string, x: Stream, x': Stream, y: Stream)
    requires a != b
    ensures map[a := x][a := x'][b := y] == map[a := x', b := y]
  {
  }

  lemma {:induction false} PairCreated(z: Kind, a: string, b: string, x: Stream)
    requires a != b && a != "" && x.meta.refCount == 0 && !x.meta.softDeleted && x.meta.currentOffset.readSeq == 0
    requires Ordered(map[a := x])
    ensures Create(z, State(map[a := x], 1), b, ForkOf(a), {}) == (Pair(a, b, x, false), Ok(true))
  {
    var s, m := State(map[a := x], 1), Pair(a, b, x, false).streams;
    assert s.streams[a] == x;
    assert ForkTarget(s.streams, ForkOf(a), {}) == Ok(x.meta.currentOffset);
    TwoKeys(a, b, x, m[a], m[b]);
  }

  lemma {:induction false} PairReached(z: Kind, a: string, b: string, opts: CreateOptions, x: Stream)
    requires a != b && a != "" && opts.forkedFrom == ""
    requires Initialise(z, Blank(z, RootMeta(opts), [], 0), opts.initialData) == Ok(x)
    requires x.meta.refCount == 0 && !x.meta.softDeleted
    ensures Inv(z, Pair(a, b, x, false)) && Inv(z, Pair(a, b, x, true))
    ensures x.meta.currentOffset.readSeq == 0
  {
    RootCreated(z, a, opts, x);
    CreateOk(z, EMPTY_STATE, a, opts, {});
    var s1 := State(map[a := x], 1);
    GraphOrdered(s1.streams);
    assert StreamOk(z, s1, a);
    Logs.ChainedBounds(z, x.meta.forkOffset, x.messages, x.meta.currentOffset);
    PairCreated(z, a, b, x);
    CreateOk(z, s1, b, ForkOf(a), {});
    DeleteOk(z, Pair(a, b, x, false), a);
    PairMarked(a, b, x);
  }

  lemma {:induction false} PairMarked(a: string, b: string, x: Stream)
    requires a != b
    ensures Delete(Pair(a, b, x, false), a) == (Pair(a, b, x, true), None) || x.meta.softDeleted
  {
    var m, m' := Pair(a, b, x, false).streams, Pair(a, b, x, true).streams;
    assert m[a := m'[a]] == m';
  }

  // ---- A fork that recovery damages ----

  /** A stream with one message. */
  function OneMessage(contentType: string, data: Bytes): Stream {
    var end := Offset(0, Segments.LENGTH_PREFIX_SIZE + |data|);
    Stream(RootMeta(Plain(contentType, None)).(currentOffset := end), [Message(data, end)], 0)
  }

  lemma {:induction false} OneFrame(data: Bytes, end: Offset)
    requires end == Offset(0, Segments.LENGTH_PREFIX_SIZE + |data|)
    ensures Frame(FILE, ZERO_OFFSET, [data]) == [Message(data, end)] && Tail(FILE, ZERO_OFFSET, [data]) == end
  {
    assert [data][1..] == [];
  }

  lemma {:induction false} OneMessageMade(contentType: string, data: Bytes)
    requires Binary(contentType) && |data| > 0
    ensures var opts := Plain(contentType, Some(RawBody(data, None)));
      Initialise(FILE, Blank(FILE, RootMeta(opts), [], 0), opts.initialData) == Ok(OneMessage(contentType, data))
  {
    var opts := Plain(contentType, Some(RawBody(data, None)));
    var meta, st := RootMeta(opts), Blank(FILE, RootMeta(opts), [], 0);
    assert meta.contentType == contentType && st == Stream(meta, [], 0);
    assert Split(Text.IsJson(contentType), opts.initialData.value, true) == Ok([data]);
    OneFrame(data, Offset(0, Segments.LENGTH_PREFIX_SIZE + |data|));
    assert [] + Frame(FILE, ZERO_OFFSET, [data]) == Frame(FILE, ZERO_OFFSET, [data]);
  }

  lemma {:induction false} PairFits(a: string, b: string, x: Stream, data: Bytes, p: string)
    requires a != b && 0 < |data| <= Segments.MAX_MESSAGE_SIZE && (p == a || p == b)
    requires x.messages == [Message(data, x.meta.currentOffset)] && x.meta.forkedFrom == ""
    requires x.meta.currentOffset == Offset(0, Segments.LENGTH_PREFIX_SIZE + |data|)
    ensures StreamFits(Pair(a, b, x, false), p)
  {
    assert x.messages[1..] == [];
  }

  /**
   * A stream with one message, and a fork of it with none of its own: after an orderly run the fork recovers with its
   * tail at the start, below the point where it forks, and the record says so from then on.
   */
  lemma {:induction false} ForkLostInRecovery(a: string, b: string, contentType: string, data: Bytes)
    requires a != b && a != "" && Binary(contentType) && 0 < |data| <= Segments.MAX_MESSAGE_SIZE
    ensures var s := Pair(a, b, OneMessage(contentType, data), false);
      var l, fork := LaidOut(s), s.streams[b].meta;
      && Inv(FILE, s) && Orderly(l, s) && b in l.records
      && LessThan(ZERO_OFFSET, fork.forkOffset) && RecoveredRecord(l.records[b], l.files).Some?
      && DecodeRecord(RecoveredRecord(l.records[b], l.files).value) == Ok(fork.(currentOffset := ZERO_OFFSET))
  {
    var x := OneMessage(contentType, data);
    OneMessageMade(contentType, data);
    PairReached(FILE, a, b, Plain(contentType, Some(RawBody(data, None))), x);
    PairLost(a, b, x, data);
  }

  lemma {:induction false} PairOrderly(a: string, b: string, x: Stream, data: Bytes)
    requires a != b && 0 < |data| <= Segments.MAX_MESSAGE_SIZE && Inv(FILE, Pair(a, b, x, false))
    requires x.messages == [Message(data, x.meta.currentOffset)] && x.meta.forkedFrom == ""
    requires x.meta.currentOffset == Offset(0, Segments.LENGTH_PREFIX_SIZE + |data|)
    ensures Orderly(LaidOut(Pair(a, b, x, false)), Pair(a, b, x, false))
  {
    var s := Pair(a, b, x, false);
    forall p | p in s.streams ensures StreamFits(s, p) {
      PairFits(a, b, x, data, p);
    }
    LaidOutOrderly(s);
  }

  lemma {:induction false} Lost(l: FileLayouts.Layout, s: State, p: string)
    requires Orderly(l, s) && p in s.streams && s.streams[p].messages == []
    requires s.streams[p].meta.forkOffset != ZERO_OFFSET && s.streams[p].meta.expiresAt == None
    ensures var fork := s.streams[p].meta;
      && p in l.records && LessThan(ZERO_OFFSET, fork.forkOffset) && RecoveredRecord(l.records[p], l.files).Some?
      && DecodeRecord(RecoveredRecord(l.records[p], l.files).value) == Ok(fork.(currentOffset := ZERO_OFFSET))
  {
    EmptyForkLost(l, s, p);
    assert StreamOk(FILE, s, p);
    NothingDropped(s.streams[p].meta.(currentOffset := ZERO_OFFSET));
  }

  lemma {:induction false} PairLost(a: string, b: string, x: Stream, data: Bytes)
    requires a != b && a != "" && 0 < |data| <= Segments.MAX_MESSAGE_SIZE && Inv(FILE, Pair(a, b, x, false))
    requires x.messages == [Message(data, x.meta.currentOffset)] && x.meta.forkedFrom == ""
    requires x.meta.currentOffset == Offset(0, Segments.LENGTH_PREFIX_SIZE + |data|) && x.meta.expiresAt == None
    requires x.meta.ttlSeconds == None
    ensures var s := Pair(a, b, x, false);
      var l, fork := LaidOut(s), s.streams[b].meta;
      && Orderly(l, s) && b in l.records
      && LessThan(ZERO_OFFSET, fork.forkOffset) && RecoveredRecord(l.records[b], l.files).Some?
      && DecodeRecord(RecoveredRecord(l.records[b], l.files).value) == Ok(fork.(currentOffset := ZERO_OFFSET))
  {
    PairOrderly(a, b, x, data);
    Lost(LaidOut(Pair(a, b, x, false)), Pair(a, b, x, false), b);
  }

  lemma {:induction false} NothingDropped(meta: Metadata)
    requires meta.expiresAt == None && meta.forkedFrom != ""
    ensures Durable(meta) == meta
  {
  }

  // ---- A deletion that a crash can cut off ----

  /**
   * A stream is created and forked, and the stream is deleted. The deletion of the fork then takes two records, and a
   * crash between them leaves a tombstone that stays through every run of calls that never finds it expired.
   */
  lemma {:induction false} TombstoneExample(a: string, b: string, contentType: string)
    requires a != b && a != "" && Binary(contentType)
    ensures var s := Pair(a, b, Stream(RootMeta(Plain(contentType, None)), [], 0), true);
      && Inv(FILE, s) && Orderly(LaidOut(s), s)
      && s.streams[b].meta.refCount == 0 && Order(s.streams, b) == [b, a]
  {
    var x := Stream(RootMeta(Plain(contentType, None)), [], 0);
    PairReached(FILE, a, b, Plain(contentType, None), x);
    PairLaidOut(a, b, x);
    PairOrder(a, b, x);
  }

  lemma {:induction false} PairLaidOut(a: string, b: string, x: Stream)
    requires a != b && x.messages == [] && x.meta.forkedFrom == "" && x.meta.currentOffset == ZERO_OFFSET
    requires Inv(FILE, Pair(a, b, x, true))
    ensures Orderly(LaidOut(Pair(a, b, x, true)), Pair(a, b, x, true))
  {
    var s := Pair(a, b, x, true);
    forall p | p in s.streams ensures StreamFits(s, p) {
    }
    LaidOutOrderly(s);
  }

  lemma {:induction false} PairOrder(a: string, b: string, x: Stream)
    requires a != b && a != "" && x.meta.forkedFrom == ""
    ensures Order(Pair(a, b, x, true).streams, b) == [b, a]
  {
    var m := Pair(a, b, x, true).streams;
    var left := Forget(m, b);
    assert GoesOn(m, b) && Order(left, a) == [a] + [];
  }
}
