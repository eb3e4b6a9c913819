/**
 * How the file store lays a state out: cached metadata, one directory with one segment per stream, and one
 * durable record per stream. Values only; the store that changes them is in FileStores.
 */
module FileLayouts {
  import opened Wrappers
  import opened Offsets
  import opened StoreTypes
  import opened StreamStore
  import opened Logs
  import opened StoreInvariant
  import opened BboltStores
  import opened Framing
  import Segments

  const FILE := Segments.FILE

  datatype Layout = Layout(
    metas: map<string, Metadata>,
    dirs: map<string, string>,
    files: map<string, Bytes>,
    records: Records)

  /**
   * Stream `p` is cached, its segment is the encoding of its own messages, and its record is the encoding of
   * the cached metadata.
   */
  ghost predicate Entry(l: Layout, s: State, p: string)
    requires p in s.streams
  {
    && p in l.metas && p in l.dirs && p in l.records && l.dirs[p] in l.files
    && l.metas[p] == s.streams[p].meta
    && Holds(l.files[l.dirs[p]], s.streams[p])
    && l.records[p] == EncodeRecord(p, l.metas[p], l.dirs[p])
  }

  ghost predicate Holds(bytes: Bytes, st: Stream) {
    Segments.Fits(Datas(st.messages)) && bytes == Segments.EncodeAll(Datas(st.messages))
  }

  /** Two streams never share a directory. */
  predicate Apart(dirs: map<string, string>, p: string, q: string) {
    p in dirs && q in dirs && p != q ==> dirs[p] != dirs[q]
  }

  ghost predicate Stored(l: Layout, s: State) {
    && l.metas.Keys == s.streams.Keys && l.dirs.Keys == s.streams.Keys && l.records.Keys == s.streams.Keys
    && (forall p {:trigger Entry(l, s, p)} :: p in s.streams ==> Entry(l, s, p))
    && (forall p, q {:trigger Apart(l.dirs, p, q)} :: Apart(l.dirs, p, q))
  }

  // ---- Elementary changes ----

  function Updated(l: Layout, p: string, meta: Metadata, bytes: Bytes, rec: Record): Layout
    requires p in l.dirs
  {
    Layout(l.metas[p := meta], l.dirs, l.files[l.dirs[p] := bytes], l.records[p := rec])
  }

  lemma {:induction false} SameKeys<T>(m: map<string, T>, p: string, value: T)
    requires p in m
    ensures m[p := value].Keys == m.Keys
  {
  }

  /** An entry depends on its own path and directory only. */
  lemma {:induction false} EntryElsewhere(l: Layout, s: State, l': Layout, s': State, q: string)
    requires q in s.streams && Entry(l, s, q)
    requires q in s'.streams && s'.streams[q] == s.streams[q]
    requires q in l'.metas && l'.metas[q] == l.metas[q]
    requires q in l'.dirs && l'.dirs[q] == l.dirs[q]
    requires q in l'.records && l'.records[q] == l.records[q]
    requires l.dirs[q] in l'.files && l'.files[l.dirs[q]] == l.files[l.dirs[q]]
    ensures Entry(l', s', q)
  {
  }

  lemma {:induction false} UpdateStored(l: Layout, s: State, p: string, st: Stream, bytes: Bytes, rec: Record)
    requires Stored(l, s) && p in s.streams
    requires Holds(bytes, st) && rec == EncodeRecord(p, st.meta, l.dirs[p])
    ensures Stored(Updated(l, p, st.meta, bytes, rec), s.(streams := s.streams[p := st]))
  {
    var l', s' := Updated(l, p, st.meta, bytes, rec), s.(streams := s.streams[p := st]);
    assert Entry(l, s, p);
    SameKeys(l.metas, p, st.meta);
    SameKeys(l.records, p, rec);
    SameKeys(s.streams, p, st);
    forall q | q in s'.streams ensures Entry(l', s', q) {
      assert Entry(l, s, q) && Apart(l.dirs, p, q);
      UpdatedEntry(l, s, p, st, bytes, rec, q);
    }
  }

  lemma {:induction false} UpdatedEntry(l: Layout, s: State, p: string, st: Stream, bytes: Bytes, rec: Record,
                                        q: string)
    requires p in s.streams && Entry(l, s, p) && q in s.streams && Entry(l, s, q) && Apart(l.dirs, p, q)
    requires Holds(bytes, st) && rec == EncodeRecord(p, st.meta, l.dirs[p])
    ensures Entry(Updated(l, p, st.meta, bytes, rec), s.(streams := s.streams[p := st]), q)
  {
    if q != p { EntryElsewhere(l, s, Updated(l, p, st.meta, bytes, rec), s.(streams := s.streams[p := st]), q); }
  }

  /** A change of metadata alone leaves the segment as it is. */
  lemma {:induction false} UpdateMetaStored(l: Layout, s: State, p: string, meta: Metadata, rec: Record)
    requires Stored(l, s) && p in s.streams
    requires rec == EncodeRecord(p, meta, l.dirs[p])
    ensures Stored(l.(metas := l.metas[p := meta], records := l.records[p := rec]),
                   s.(streams := s.streams[p := s.streams[p].(meta := meta)]))
  {
    assert Entry(l, s, p);
    var bytes := l.files[l.dirs[p]];
    UpdateStored(l, s, p, s.streams[p].(meta := meta), bytes, rec);
    assert l.files[l.dirs[p] := bytes] == l.files;
  }

  function Removed(l: Layout, p: string): Layout
    requires p in l.dirs
  {
    Layout(l.metas - {p}, l.dirs - {p}, l.files - {l.dirs[p]}, l.records - {p})
  }

  lemma {:induction false} RemoveStored(l: Layout, s: State, p: string)
    requires Stored(l, s) && p in s.streams
    ensures Stored(Removed(l, p), s.(streams := s.streams - {p}))
  {
    var l', s' := Removed(l, p), s.(streams := s.streams - {p});
    forall q | q in s'.streams ensures Entry(l', s', q) {
      assert Entry(l, s, q) && Apart(l.dirs, p, q);
      EntryElsewhere(l, s, l', s', q);
    }
    forall q, r ensures Apart(l'.dirs, q, r) {
      assert Apart(l.dirs, q, r);
    }
  }

  function Added(l: Layout, p: string, meta: Metadata, dir: string, bytes: Bytes): Layout {
    Layout(l.metas[p := meta], l.dirs[p := dir], l.files[dir := bytes], l.records[p := EncodeRecord(p, meta, dir)])
  }

  lemma {:induction false} AddStored(l: Layout, s: State, p: string, st: Stream, dir: string, bytes: Bytes, clock: nat)
    requires Stored(l, s) && p !in s.streams && dir !in l.files && Holds(bytes, st)
    ensures Stored(Added(l, p, st.meta, dir, bytes), State(s.streams[p := st], clock))
  {
    var l' := Added(l, p, st.meta, dir, bytes);
    var s' := State(s.streams[p := st], clock);
    MoreKeys(l.metas, s.streams, p, st.meta, st);
    MoreKeys(l.dirs, s.streams, p, dir, st);
    MoreKeys(l.records, s.streams, p, l'.records[p], st);
    forall q | q in s'.streams ensures Entry(l', s', q) {
      if q in s.streams { assert Entry(l, s, q); }
      AddedEntry(l, s, p, st, dir, bytes, clock, q);
    }
    forall q, r ensures Apart(l'.dirs, q, r) {
      AddedApart(l, s, p, dir, q, r);
    }
  }

  lemma {:induction false} AddedApart(l: Layout, s: State, p: string, dir: string, q: string, r: string)
    requires Stored(l, s) && p !in s.streams && dir !in l.files
    ensures Apart(l.dirs[p := dir], q, r)
  {
    assert Apart(l.dirs, q, r);
    if q in s.streams { assert Entry(l, s, q); }
    if r in s.streams { assert Entry(l, s, r); }
  }

  lemma {:induction false} MoreKeys<T, U>(a: map<string, T>, b: map<string, U>, p: string, x: T, y: U)
    requires a.Keys == b.Keys
    ensures a[p := x].Keys == b[p := y].Keys
  {
  }

  lemma {:induction false} AddedEntry(l: Layout, s: State, p: string, st: Stream, dir: string, bytes: Bytes, clock: nat,
                                      q: string)
    requires p !in s.streams && dir !in l.files && Holds(bytes, st)
    requires q in s.streams || q == p
    requires q in s.streams ==> Entry(l, s, q)
    ensures Entry(Added(l, p, st.meta, dir, bytes), State(s.streams[p := st], clock), q)
  {
    if q != p { EntryElsewhere(l, s, Added(l, p, st.meta, dir, bytes), State(s.streams[p := st], clock), q); }
  }

  // ---- Records of appended and closed streams ----

  /** The transaction an append runs turns the old record into the record of the committed stream. */
  lemma {:induction false} CommitRecord(path: string, st: Stream, dir: string, parts: seq<Bytes>, opts: AppendOptions,
                                        state: Option<ProducerState>)
    requires state.Some? ==> opts.producerId != ""
    ensures var rec := EncodeRecord(path, st.meta, dir);
      var meta := Commit(FILE, st, parts, opts, state).meta;
      EncodeRecord(path, meta, dir) ==
        if state.Some? || opts.close
        then WithAppendState(rec, meta.currentOffset, opts.streamSeq, opts.producerId, state, opts.close, meta.closedBy)
        else WithOffset(rec, meta.currentOffset, opts.streamSeq)
  {
  }

  lemma {:induction false} HoldsCommitted(bytes: Bytes, st: Stream, parts: seq<Bytes>, opts: AppendOptions,
                                          state: Option<ProducerState>)
    requires Holds(bytes, st) && NonEmptyParts(parts) && Segments.Fits(parts)
    ensures Holds(bytes + Segments.EncodeAll(parts), Commit(FILE, st, parts, opts, state))
  {
    HoldsExtended(bytes, st, parts);
    assert Commit(FILE, st, parts, opts, state).messages == Extend(FILE, st, parts).messages;
  }

  // ---- Segments and logs ----

  lemma {:induction false} TailIsLength(from: Offset, parts: seq<Bytes>)
    requires Segments.Fits(parts)
    ensures Tail(FILE, from, parts) == Add(from, |Segments.EncodeAll(parts)|)
    decreases parts
  {
    if parts != [] { TailIsLength(Add(from, SizeOf(FILE, parts[0])), parts[1..]); }
  }

  /** A stored stream's tail is its fork point plus the length of its segment. */
  lemma {:induction false} TailOfSegment(l: Layout, s: State, p: string)
    requires Inv(FILE, s) && Stored(l, s) && p in s.streams
    ensures Entry(l, s, p)
    ensures s.streams[p].meta.currentOffset == Add(s.streams[p].meta.forkOffset, |l.files[l.dirs[p]]|)
  {
    assert StreamOk(FILE, s, p) && Entry(l, s, p);
    var st := s.streams[p];
    ChainedIsFrame(FILE, st.meta.forkOffset, st.messages, st.meta.currentOffset);
    TailIsLength(st.meta.forkOffset, Datas(st.messages));
  }

  /** Appending frames appends messages. */
  lemma {:induction false} HoldsExtended(bytes: Bytes, st: Stream, parts: seq<Bytes>)
    requires Holds(bytes, st) && NonEmptyParts(parts) && Segments.Fits(parts)
    ensures Holds(bytes + Segments.EncodeAll(parts), Extend(FILE, st, parts))
  {
    FrameChained(FILE, st.meta.currentOffset, parts);
    DatasConcat(st.messages, Frame(FILE, st.meta.currentOffset, parts));
    Segments.EncodeConcat(Datas(st.messages), parts);
  }

  // ---- Logical and physical positions ----

  function Shift(ms: seq<Message>, distance: nat): seq<Message> {
    if ms == [] then []
    else
      var at := ms[0].offset;
      [Message(ms[0].data, Offset(at.readSeq, at.byteOffset + distance))] + Shift(ms[1..], distance)
  }

  lemma {:induction false} ShiftFrame(from: Offset, parts: seq<Bytes>, distance: nat)
    ensures Shift(Frame(FILE, from, parts), distance) == Frame(FILE, Add(from, distance), parts)
    decreases parts
  {
    if parts != [] {
      var end := Add(from, SizeOf(FILE, parts[0]));
      ShiftFrame(end, parts[1..], distance);
      assert Frame(FILE, from, parts)[1..] == Frame(FILE, end, parts[1..]);
      assert Add(end, distance) == Add(Add(from, distance), SizeOf(FILE, parts[0]));
    }
  }

  /** A position between two of the stream's own messages, or past its end. */
  predicate OwnBoundary(st: Stream, o: Offset) {
    || o.byteOffset >= st.meta.currentOffset.byteOffset
    || o == st.meta.forkOffset
    || exists i :: 0 <= i < |st.messages| && st.messages[i].offset == o
  }

  /** A position between two messages of the stream as its readers see it, or past its end. */
  predicate Boundary(m: Streams, p: string, o: Offset)
    requires Ordered(m) && p in m
    decreases m[p].created
  {
    var meta := m[p].meta;
    assert Younger(m, p);
    && o.readSeq == 0
    && (if meta.forkedFrom != "" && LessThan(o, meta.forkOffset)
        then meta.forkedFrom in m ==> Boundary(m, meta.forkedFrom, o)
        else OwnBoundary(m[p], o))
  }

  lemma {:induction false} ViewParts(m: Streams, p: string, o: Offset)
    requires Ordered(m) && p in m && Boundary(m, p, o)
    ensures View(m, p, o) == Inherited(m, p, o) + After(m[p].messages, o)
    ensures Inherited(m, p, o) == [] ==> View(m, p, o) == After(m[p].messages, o)
    ensures After(m[p].messages, o) == [] ==> View(m, p, o) == Inherited(m, p, o)
    ensures m[p].meta.forkedFrom == "" ==> Inherited(m, p, o) == []
    ensures o.readSeq == 0
    ensures m[p].meta.forkedFrom == "" || !LessThan(o, m[p].meta.forkOffset) ==> OwnBoundary(m[p], o)
  {
  }

  /** Reading encoded messages back gives them all, with the offsets they were appended at. */
  lemma {:induction false} EncodedReads(parts: seq<Bytes>, at: Offset)
    requires Segments.Fits(parts)
    ensures Segments.ReadAll(Segments.EncodeAll(parts), at) ==
      (Frame(FILE, at, parts), Add(at, |Segments.EncodeAll(parts)|), None)
  {
    var b := Segments.EncodeAll(parts);
    Segments.ScanEncoded(parts, []);
    assert b + [] == b;
    Segments.ReadAllDecodes(b, at);
    assert b[|b|..] == [];
  }

  /** A log splits after its first `k` messages, and so does its encoding. */
  lemma {:induction false} SplitAt(base: Offset, parts: seq<Bytes>, k: nat)
    requires Segments.Fits(parts) && NonEmptyParts(parts) && k <= |parts|
    ensures var at := Tail(FILE, base, parts[..k]);
      && at == Add(base, |Segments.EncodeAll(parts[..k])|)
      && |Segments.EncodeAll(parts[..k])| <= |Segments.EncodeAll(parts)|
      && Segments.EncodeAll(parts)[|Segments.EncodeAll(parts[..k])|..] == Segments.EncodeAll(parts[k..])
      && After(Frame(FILE, base, parts), at) == Frame(FILE, at, parts[k..])
  {
    var low, high := parts[..k], parts[k..];
    var at := Tail(FILE, base, low);
    assert parts == low + high;
    TailIsLength(base, low);
    Segments.EncodeConcat(low, high);
    FrameConcat(FILE, base, low, high);
    FrameChained(FILE, base, low);
    FrameChained(FILE, at, high);
    ChainedBounds(FILE, base, Frame(FILE, base, low), at);
    ChainedBounds(FILE, at, Frame(FILE, at, high), Tail(FILE, at, high));
    AfterConcat(Frame(FILE, base, low), Frame(FILE, at, high), at);
    AfterNone(Frame(FILE, base, low), at);
    AfterAll(Frame(FILE, at, high), at);
  }

  /** A boundary within the log lies after some number of its messages. */
  lemma {:induction false} BoundaryIndex(st: Stream, o: Offset) returns (k: nat)
    requires LogOk(FILE, st) && OwnBoundary(st, o)
    requires o.byteOffset < st.meta.currentOffset.byteOffset
    ensures var parts := Datas(st.messages);
      k <= |parts| && o == Tail(FILE, st.meta.forkOffset, parts[..k])
  {
    var base := st.meta.forkOffset;
    var parts := Datas(st.messages);
    ChainedIsFrame(FILE, base, st.messages, st.meta.currentOffset);
    if o == base {
      k := 0;
    } else {
      var i :| 0 <= i < |st.messages| && st.messages[i].offset == o;
      FrameAt(FILE, base, parts, i);
      k := i + 1;
    }
  }

  /** Reading these bytes succeeds and returns these messages, moved by `distance`. */
  predicate Yields(bytes: Bytes, at: Offset, distance: nat, messages: seq<Message>) {
    var r := Segments.ReadAll(bytes, at);
    r.2 == None && Shift(r.0, distance) == messages
  }

  lemma {:induction false} ReadPastEnd(st: Stream, bytes: Bytes, o: Offset)
    requires LogOk(FILE, st) && Holds(bytes, st)
    requires o.readSeq == 0 && o.byteOffset >= st.meta.currentOffset.byteOffset
    requires o.byteOffset >= st.meta.forkOffset.byteOffset
    ensures var base := st.meta.forkOffset.byteOffset;
      Yields(Segments.From(bytes, o.byteOffset - base), Offset(0, o.byteOffset - base), base, After(st.messages, o))
  {
    var base := st.meta.forkOffset;
    var at := Offset(0, o.byteOffset - base.byteOffset);
    ChainedIsFrame(FILE, base, st.messages, st.meta.currentOffset);
    TailIsLength(base, Datas(st.messages));
    ChainedBounds(FILE, base, st.messages, st.meta.currentOffset);
    AfterNone(st.messages, o);
    NothingYields(at, base.byteOffset);
    assert Segments.From(bytes, at.byteOffset) == [];
  }

  lemma {:induction false} NothingYields(at: Offset, distance: nat)
    ensures Yields([], at, distance, [])
  {
  }

  /** What a reader of encoded messages gets, moved by `distance`. */
  lemma {:induction false} EncodedShifted(parts: seq<Bytes>, at: Offset, distance: nat)
    requires Segments.Fits(parts)
    ensures Yields(Segments.EncodeAll(parts), at, distance, Frame(FILE, Add(at, distance), parts))
  {
    EncodedReads(parts, at);
    ShiftFrame(at, parts, distance);
  }

  lemma {:induction false} YieldsSame(a: Bytes, b: Bytes, at: Offset, distance: nat, ms: seq<Message>, ns: seq<Message>)
    requires Yields(a, at, distance, ms) && a == b && ms == ns
    ensures Yields(b, at, distance, ns)
  {
  }

  lemma {:induction false} FromWithin(b: Bytes, pos: nat)
    requires pos <= |b|
    ensures Segments.From(b, pos) == b[pos..]
  {
  }

  lemma {:induction false} LatePart(parts: seq<Bytes>, k: nat, at: Offset, base: Offset, o: Offset)
    requires Segments.Fits(parts) && k <= |parts| && at.byteOffset <= |Segments.EncodeAll(parts)|
    requires Segments.EncodeAll(parts)[at.byteOffset..] == Segments.EncodeAll(parts[k..])
    requires o.readSeq == at.readSeq && o.byteOffset == at.byteOffset + base.byteOffset
    requires After(Frame(FILE, base, parts), o) == Frame(FILE, o, parts[k..])
    ensures Yields(Segments.From(Segments.EncodeAll(parts), at.byteOffset), at, base.byteOffset,
                   After(Frame(FILE, base, parts), o))
  {
    FromWithin(Segments.EncodeAll(parts), at.byteOffset);
    BackTo(o, at, base.byteOffset);
    EncodedShifted(parts[k..], at, base.byteOffset);
  }

  /** Reading the encoded messages from the end of the `k`-th yields the later ones. */
  lemma {:induction false} PositionYields(base: Offset, parts: seq<Bytes>, k: nat, o: Offset)
    requires Segments.Fits(parts) && NonEmptyParts(parts) && k <= |parts|
    requires o == Tail(FILE, base, parts[..k]) && o.readSeq == 0
    ensures o.byteOffset >= base.byteOffset
    ensures var distance := o.byteOffset - base.byteOffset;
      Yields(Segments.From(Segments.EncodeAll(parts), distance), Offset(0, distance), base.byteOffset,
             After(Frame(FILE, base, parts), o))
  {
    SplitAt(base, parts, k);
    LatePart(parts, k, Offset(0, |Segments.EncodeAll(parts[..k])|), base, o);
  }

  lemma {:induction false} BackTo(o: Offset, at: Offset, distance: nat)
    requires o.readSeq == at.readSeq && o.byteOffset == at.byteOffset + distance
    ensures Add(at, distance) == o
  {
  }

  lemma {:induction false} ReadWithin(st: Stream, bytes: Bytes, o: Offset)
    requires LogOk(FILE, st) && Holds(bytes, st) && OwnBoundary(st, o)
    requires o.readSeq == 0 && st.meta.forkOffset.byteOffset <= o.byteOffset < st.meta.currentOffset.byteOffset
    ensures var base := st.meta.forkOffset.byteOffset;
      Yields(Segments.From(bytes, o.byteOffset - base), Offset(0, o.byteOffset - base), base, After(st.messages, o))
  {
    ChainedIsFrame(FILE, st.meta.forkOffset, st.messages, st.meta.currentOffset);
    var k := BoundaryIndex(st, o);
    var base, parts := st.meta.forkOffset, Datas(st.messages);
    PositionYields(base, parts, k, o);
    var distance := o.byteOffset - base.byteOffset;
    YieldsSame(Segments.From(Segments.EncodeAll(parts), distance), Segments.From(bytes, distance), Offset(0, distance),
               base.byteOffset, After(Frame(FILE, base, parts), o), After(st.messages, o));
  }

  /**
   * Reading a stream's segment from the physical position of a boundary, and moving the offsets back by the
   * fork point, returns the stream's own messages past the boundary.
   */
  lemma {:induction false} SegmentRead(st: Stream, bytes: Bytes, o: Offset)
    requires LogOk(FILE, st) && Holds(bytes, st)
    requires o.readSeq == 0 && o.byteOffset >= st.meta.forkOffset.byteOffset && OwnBoundary(st, o)
    ensures var base := st.meta.forkOffset.byteOffset;
      Yields(Segments.From(bytes, o.byteOffset - base), Offset(0, o.byteOffset - base), base, After(st.messages, o))
  {
    if o.byteOffset >= st.meta.currentOffset.byteOffset {
      ReadPastEnd(st, bytes, o);
    } else {
      ReadWithin(st, bytes, o);
    }
  }

  /** What reading a whole stream's own segment returns: a root needs no moving. */
  lemma {:induction false} RootRead(st: Stream, bytes: Bytes, o: Offset)
    requires LogOk(FILE, st) && Holds(bytes, st) && st.meta.forkedFrom == ""
    requires o.readSeq == 0 && OwnBoundary(st, o)
    ensures var r := Segments.ReadAll(Segments.From(bytes, o.byteOffset), o);
      r.2 == None && r.0 == After(st.messages, o)
  {
    SegmentRead(st, bytes, o);
    assert Offset(0, o.byteOffset - 0) == o;
    ShiftNone(Segments.ReadAll(Segments.From(bytes, o.byteOffset), o).0);
  }

  lemma {:induction false} ShiftNone(ms: seq<Message>)
    ensures Shift(ms, 0) == ms
  {
    if ms != [] {
      ShiftNone(ms[1..]);
      assert ms == [ms[0]] + ms[1..];
    }
  }

  lemma {:induction false} ShiftConcat(a: seq<Message>, b: seq<Message>, distance: nat)
    ensures Shift(a + b, distance) == Shift(a, distance) + Shift(b, distance)
  {
    if a == [] {
      assert a + b == b;
    } else {
      assert (a + b)[1..] == a[1..] + b;
      ShiftConcat(a[1..], b, distance);
    }
  }

  lemma {:induction false} ShiftSnoc(ms: seq<Message>, i: nat, distance: nat)
    requires i < |ms|
    ensures Shift(ms[..i + 1], distance) == Shift(ms[..i], distance)
      + [Message(ms[i].data, Offset(ms[i].offset.readSeq, ms[i].offset.byteOffset + distance))]
  {
    assert ms[..i + 1] == ms[..i] + [ms[i]];
    ShiftConcat(ms[..i], [ms[i]], distance);
    assert [ms[i]][1..] == [];
  }

  /** Below the fork point, all of the stream's own messages are still to come. */
  lemma {:induction false} OwnFrom(st: Stream, o: Offset)
    requires LogOk(FILE, st) && LessThan(o, st.meta.forkOffset) && o.readSeq == 0
    ensures After(st.messages, o) == After(st.messages, st.meta.forkOffset) == st.messages
  {
    ChainedBounds(FILE, st.meta.forkOffset, st.messages, st.meta.currentOffset);
    AfterAll(st.messages, o);
    AfterAll(st.messages, st.meta.forkOffset);
  }

  /** Nothing lies past the tail. */
  lemma {:induction false} ReadAtTail(s: State, p: string)
    requires Inv(FILE, s) && Ordered(s.streams) && p in s.streams
    ensures View(s.streams, p, s.streams[p].meta.currentOffset) == []
  {
    assert StreamOk(FILE, s, p);
    var st := s.streams[p];
    ChainedBounds(FILE, st.meta.forkOffset, st.messages, st.meta.currentOffset);
    AfterNone(st.messages, st.meta.currentOffset);
  }

  // ---- Offsets the store hands out are boundaries ----

  lemma {:induction false} TailIsBoundary(s: State, p: string)
    requires Inv(FILE, s) && Ordered(s.streams) && p in s.streams
    ensures Boundary(s.streams, p, s.streams[p].meta.currentOffset)
  {
    assert StreamOk(FILE, s, p);
    var st := s.streams[p];
    ChainedBounds(FILE, st.meta.forkOffset, st.messages, st.meta.currentOffset);
  }

  lemma {:induction false} StartIsBoundary(s: State, p: string)
    requires Inv(FILE, s) && Ordered(s.streams) && p in s.streams
    ensures Boundary(s.streams, p, ZERO_OFFSET)
    decreases s.streams[p].created
  {
    assert StreamOk(FILE, s, p) && Younger(s.streams, p);
    var meta := s.streams[p].meta;
    if meta.forkedFrom != "" && LessThan(ZERO_OFFSET, meta.forkOffset) && meta.forkedFrom in s.streams {
      StartIsBoundary(s, meta.forkedFrom);
    }
  }

  /** The offset of every message a read returns is a boundary: reading on from it is safe. */
  lemma {:induction false} ReturnedIsBoundary(s: State, p: string, o: Offset, i: nat)
    requires Inv(FILE, s) && Ordered(s.streams) && p in s.streams
    requires i < |View(s.streams, p, o)|
    ensures Boundary(s.streams, p, View(s.streams, p, o)[i].offset)
    decreases s.streams[p].created
  {
    assert StreamOk(FILE, s, p) && Younger(s.streams, p);
    var st := s.streams[p];
    var meta := st.meta;
    var inherited := Inherited(s.streams, p, o);
    ChainedBounds(FILE, meta.forkOffset, st.messages, meta.currentOffset);
    if i < |inherited| {
      var at := inherited[i].offset;
      var j := UpToSource(View(s.streams, meta.forkedFrom, o), meta.forkOffset, i);
      ReturnedIsBoundary(s, meta.forkedFrom, o, j);
    } else {
      var j := AfterSource(st.messages, o, i - |inherited|);
    }
  }

  lemma {:induction false} UpToSource(ms: seq<Message>, cap: Offset, i: nat) returns (j: nat)
    requires i < |UpTo(ms, cap)|
    ensures j < |ms| && ms[j] == UpTo(ms, cap)[i] && LessThanOrEqual(ms[j].offset, cap)
  {
    if LessThanOrEqual(ms[0].offset, cap) {
      if i == 0 { return 0; }
      j := UpToSource(ms[1..], cap, i - 1);
    } else {
      j := UpToSource(ms[1..], cap, i);
    }
    j := j + 1;
  }

  lemma {:induction false} AfterSource(ms: seq<Message>, o: Offset, i: nat) returns (j: nat)
    requires i < |After(ms, o)|
    ensures j < |ms| && ms[j] == After(ms, o)[i]
  {
    if ms[0].offset.byteOffset > o.byteOffset {
      if i == 0 { return 0; }
      j := AfterSource(ms[1..], o, i - 1);
    } else {
      j := AfterSource(ms[1..], o, i);
    }
    j := j + 1;
  }

  // ---- Creating ----

  /** Making room at a path leaves every boundary of every remaining stream a boundary. */
  lemma {:induction false} ReclaimBoundary(m: Streams, path: string, opts: CreateOptions, expired: set<string>,
                                           q: string, o: Offset)
    requires Ordered(m) && Ordered(Reclaim(m, path, opts, expired).0)
    requires q in Reclaim(m, path, opts, expired).0 && q in m && Boundary(m, q, o)
    ensures Boundary(Reclaim(m, path, opts, expired).0, q, o)
    decreases m[q].created
  {
    var left := Reclaim(m, path, opts, expired).0;
    ReclaimContent(m, path, opts, expired, q);
    assert Younger(m, q);
    var meta := m[q].meta;
    if meta.forkedFrom != "" && LessThan(o, meta.forkOffset) && meta.forkedFrom in left {
      ReclaimContent(m, path, opts, expired, meta.forkedFrom);
      ReclaimBoundary(m, path, opts, expired, meta.forkedFrom, o);
    }
  }
}
