/** What every reachable state of a stream store satisfies, and what every operation keeps of the past. */
module StoreInvariant {
  import opened Wrappers
  import opened Offsets
  import opened StoreTypes
  import opened StreamStore
  import opened ForkGraph
  import opened Logs
  import Sets
  import Text

  /** The log of one stream fills the positions from its fork point to its tail. */
  predicate LogOk(z: Kind, st: Stream) {
    && st.meta.forkOffset.readSeq == 0
    && Chained(z, st.meta.forkOffset, st.messages, st.meta.currentOffset)
    && (st.meta.forkedFrom == "" ==>
      st.meta.forkOffset == ZERO_OFFSET && st.meta.forkOffsetRequested == None && st.meta.forkSubOffset == 0)
  }

  /** A stream has a log, a stamp from the past, and a fork point within its source. */
  predicate StreamOk(z: Kind, s: State, p: string)
    requires p in s.streams
  {
    var st := s.streams[p];
    && LogOk(z, st)
    && st.created < s.clock
    && (st.meta.forkedFrom in s.streams ==> st.meta.forkedFrom != "" ==>
      st.meta.forkOffset.byteOffset <= s.streams[st.meta.forkedFrom].meta.currentOffset.byteOffset)
  }

  ghost predicate Inv(z: Kind, s: State) {
    && Graph(s.streams)
    && (forall p {:trigger StreamOk(z, s, p)} :: p in s.streams ==> StreamOk(z, s, p))
  }

  /** `b` is a later state of the same generation as `a`. */
  predicate Grown(a: Stream, b: Stream) {
    && SameLinks(a, b)
    && a.meta.contentType == b.meta.contentType
    && a.meta.forkOffset == b.meta.forkOffset
    && a.messages <= b.messages
    && (a.meta.closed ==> b.meta.closed && b.messages == a.messages)
    && (a.meta.softDeleted ==> b.meta.softDeleted)
  }

  /** The stream at `p`, if any, is either the one of before, grown, or was created since. */
  predicate Descends(s: State, s': State, p: string)
    requires p in s'.streams
  {
    s'.streams[p].created >= s.clock || (p in s.streams && Grown(s.streams[p], s'.streams[p]))
  }

  ghost predicate Keeps(s: State, s': State) {
    && s.clock <= s'.clock
    && (forall p {:trigger Descends(s, s', p)} :: p in s'.streams ==> Descends(s, s', p))
  }

  lemma {:induction false} KeepsTransitive(s: State, s1: State, s2: State)
    requires Keeps(s, s1) && Keeps(s1, s2)
    requires forall p :: p in s.streams ==> s.streams[p].created < s.clock
    ensures Keeps(s, s2)
  {
    forall p | p in s2.streams ensures Descends(s, s2, p) {
      assert Descends(s1, s2, p);
      if p in s1.streams { assert Descends(s, s1, p); }
    }
  }

  lemma {:induction false} GraphOrdered(m: Streams)
    requires Linked(m)
    ensures Ordered(m)
  {
    forall p | p in m ensures Younger(m, p) {
      assert LinkOk(m, p);
    }
  }

  // ---- Elementary changes keep the invariant ----

  lemma {:induction false} TailsGrow(z: Kind, a: Stream, b: Stream)
    requires LogOk(z, a) && LogOk(z, b) && Grown(a, b)
    ensures Chained(z, a.meta.currentOffset, b.messages[|a.messages|..], b.meta.currentOffset)
    ensures a.meta.currentOffset.byteOffset <= b.meta.currentOffset.byteOffset
    ensures a.meta.currentOffset.readSeq == b.meta.currentOffset.readSeq == 0
  {
    var extra := b.messages[|a.messages|..];
    assert b.messages == a.messages + extra;
    ChainedSplit(z, a.meta.forkOffset, a.messages, a.meta.currentOffset, extra, b.meta.currentOffset);
    ChainedBounds(z, a.meta.currentOffset, extra, b.meta.currentOffset);
    ChainedBounds(z, a.meta.forkOffset, a.messages, a.meta.currentOffset);
  }

  lemma {:induction false} UpdateOk(z: Kind, s: State, p: string, st: Stream)
    requires Inv(z, s) && p in s.streams
    requires Grown(s.streams[p], st) && LogOk(z, st)
    requires st.meta.refCount == s.streams[p].meta.refCount
    requires st.meta.softDeleted ==> st.meta.refCount > 0
    ensures Inv(z, s.(streams := s.streams[p := st]))
    ensures Keeps(s, s.(streams := s.streams[p := st]))
  {
    var s' := s.(streams := s.streams[p := st]);
    UpdateKeepsGraph(s.streams, p, st);
    assert StreamOk(z, s, p);
    TailsGrow(z, s.streams[p], st);
    forall q | q in s'.streams ensures StreamOk(z, s', q) && Descends(s, s', q) {
      assert StreamOk(z, s, q);
    }
  }

  lemma {:induction false} UnchangedOk(z: Kind, s: State)
    ensures Keeps(s, s)
  {
    forall q | q in s.streams ensures Descends(s, s, q) {
    }
  }

  /** Removing a stream without forks, with the cascade that follows. */
  lemma {:induction false} CascadeOk(z: Kind, s: State, p: string)
    requires Inv(z, s) && p in s.streams && s.streams[p].meta.refCount == 0
    ensures !Cascade(s.streams, p).1
    ensures Collected(s.streams, p, Cascade(s.streams, p).0)
    ensures Inv(z, s.(streams := Cascade(s.streams, p).0))
    ensures Keeps(s, s.(streams := Cascade(s.streams, p).0))
  {
    var m := s.streams;
    assert m[p].meta.refCount == |Children(m, p)|;
    CascadeExact(m, p);
    var left := Cascade(m, p).0;
    var s' := s.(streams := left);
    forall q | q in left ensures StreamOk(z, s', q) && Descends(s, s', q) {
      assert StreamOk(z, s, q) && Survives(m, left, q);
      var source := left[q].meta.forkedFrom;
      if source in left { assert Survives(m, left, source); }
    }
  }

  ghost predicate Insertable(z: Kind, s: State, path: string, st: Stream) {
    && path !in s.streams
    && st.created == s.clock
    && LogOk(z, st)
    && st.meta.refCount == 0 && !st.meta.softDeleted
    && (st.meta.forkedFrom != "" ==>
      && st.meta.forkedFrom in s.streams
      && st.meta.forkOffset.byteOffset <= s.streams[st.meta.forkedFrom].meta.currentOffset.byteOffset)
  }

  lemma {:induction false} InsertChildren(m: Streams, path: string, st: Stream, q: string)
    requires Linked(m) && path !in m && (st.meta.forkedFrom != "" ==> st.meta.forkedFrom in m)
    ensures |Children(Insert(m, path, st), q)|
      == |Children(m, q)| + (if q != "" && q == st.meta.forkedFrom then 1 else 0)
  {
    var m' := Insert(m, path, st);
    if q != "" && q == st.meta.forkedFrom {
      Sets.OneMore(Children(m, q), Children(m', q), path);
    } else {
      Sets.Same(Children(m, q), Children(m', q));
    }
  }

  lemma {:induction false} NoForksYet(m: Streams, path: string)
    requires Linked(m) && path !in m
    ensures Children(m, path) == {}
  {
    forall c | c in m ensures m[c].meta.forkedFrom == path ==> path == "" {
      assert LinkOk(m, c);
    }
  }

  lemma {:induction false} InsertLinked(z: Kind, s: State, path: string, st: Stream)
    requires Inv(z, s) && Insertable(z, s, path, st)
    ensures Linked(Insert(s.streams, path, st))
  {
    var m := s.streams;
    var m' := Insert(m, path, st);
    forall q | q in m' ensures LinkOk(m', q) {
      if q == path {
        if st.meta.forkedFrom != "" { assert StreamOk(z, s, st.meta.forkedFrom); }
      } else {
        assert LinkOk(m, q) && Younger(m, q);
      }
    }
  }

  lemma {:induction false} InsertCounted(m: Streams, path: string, st: Stream)
    requires Graph(m) && path !in m && (st.meta.forkedFrom != "" ==> st.meta.forkedFrom in m)
    requires st.meta.refCount == 0 && !st.meta.softDeleted
    ensures Counted(Insert(m, path, st)) && Pinned(Insert(m, path, st))
  {
    var m' := Insert(m, path, st);
    NoForksYet(m, path);
    forall q | q in m'
      ensures m'[q].meta.refCount == |Children(m', q)|
      ensures m'[q].meta.softDeleted ==> m'[q].meta.refCount > 0
    {
      InsertChildren(m, path, st, q);
    }
  }

  lemma {:induction false} InsertOk(z: Kind, s: State, path: string, st: Stream)
    requires Inv(z, s) && Insertable(z, s, path, st)
    ensures Inv(z, State(Insert(s.streams, path, st), s.clock + 1))
    ensures Keeps(s, State(Insert(s.streams, path, st), s.clock + 1))
  {
    InsertLinked(z, s, path, st);
    InsertCounted(s.streams, path, st);
    var s' := State(Insert(s.streams, path, st), s.clock + 1);
    forall q | q in s'.streams ensures StreamOk(z, s', q) && Descends(s, s', q) {
      InsertedStreamOk(z, s, path, st, q);
    }
  }

  lemma {:induction false} InsertedStreamOk(z: Kind, s: State, path: string, st: Stream, q: string)
    requires Inv(z, s) && Insertable(z, s, path, st)
    requires q == path || q in s.streams
    ensures var s' := State(Insert(s.streams, path, st), s.clock + 1);
      q in s'.streams && StreamOk(z, s', q) && Descends(s, s', q)
  {
    if q != path {
      assert StreamOk(z, s, q) && LinkOk(s.streams, q);
    }
  }

  // ---- The operations keep the invariant ----

  lemma {:induction false} ExtendOk(z: Kind, st: Stream, parts: seq<Bytes>)
    requires LogOk(z, st) && NonEmptyParts(parts)
    ensures LogOk(z, Extend(z, st, parts))
    ensures st.meta.currentOffset.byteOffset <= Extend(z, st, parts).meta.currentOffset.byteOffset
  {
    var cur := st.meta.currentOffset;
    FrameChained(z, cur, parts);
    ChainedConcat(z, st.meta.forkOffset, st.messages, cur, Frame(z, cur, parts), Tail(z, cur, parts));
    ChainedBounds(z, cur, Frame(z, cur, parts), Tail(z, cur, parts));
  }

  /** A new stream: its log starts at its fork point with the prefix and the initial data. */
  lemma {:induction false} LaunchOk(z: Kind, meta: Metadata, prefix: Bytes, stamp: nat, initial: Option<Body>)
    requires LogOk(z, Stream(meta, [], stamp))
    ensures LogOk(z, Blank(z, meta, prefix, stamp))
    ensures var st := Initialise(z, Blank(z, meta, prefix, stamp), initial);
      st.Ok? ==> (LogOk(z, st.value) && SameLinks(st.value, Stream(meta, [], stamp))
                  && st.value.meta == meta.(currentOffset := st.value.meta.currentOffset))
  {
    var base := Stream(meta, [], stamp);
    if prefix != [] { ExtendOk(z, base, [prefix]); }
    var blank := Blank(z, meta, prefix, stamp);
    if initial.Some? {
      var parts := Split(Text.IsJson(meta.contentType), initial.value, true);
      if parts.Ok? { ExtendOk(z, blank, parts.value); }
    }
  }

  lemma {:induction false} DeleteOk(z: Kind, s: State, path: string)
    requires Inv(z, s)
    ensures Inv(z, Delete(s, path).0) && Keeps(s, Delete(s, path).0)
    ensures Delete(s, path).1 != Some(RefCountUnderflow)
  {
    if path !in s.streams || s.streams[path].meta.softDeleted {
      UnchangedOk(z, s);
    } else if s.streams[path].meta.refCount > 0 {
      SoftDeleteOk(z, s, path);
    } else {
      assert s.streams[path].meta.refCount == |Children(s.streams, path)|;
      CascadeOk(z, s, path);
    }
  }

  lemma {:induction false} SoftDeleteOk(z: Kind, s: State, path: string)
    requires Inv(z, s) && path in s.streams && s.streams[path].meta.refCount > 0
    ensures Inv(z, s.(streams := SetSoftDeleted(s.streams, path)))
    ensures Keeps(s, s.(streams := SetSoftDeleted(s.streams, path)))
  {
    assert StreamOk(z, s, path);
    UpdateOk(z, s, path, SetSoftDeleted(s.streams, path)[path]);
  }

  lemma {:induction false} ReclaimOk(z: Kind, s: State, path: string, opts: CreateOptions, expired: set<string>)
    requires Inv(z, s)
    ensures Inv(z, s.(streams := Reclaim(s.streams, path, opts, expired).0))
    ensures Keeps(s, s.(streams := Reclaim(s.streams, path, opts, expired).0))
    ensures Reclaim(s.streams, path, opts, expired).1 != Settled(Err(RefCountUnderflow))
  {
    UnchangedOk(z, s);
    if path in s.streams && path in expired {
      if s.streams[path].meta.refCount > 0 {
        SoftDeleteOk(z, s, path);
      } else {
        assert s.streams[path].meta.refCount == |Children(s.streams, path)|;
        CascadeOk(z, s, path);
      }
    }
  }

  /** A fork point lies within the source, on the source's own read sequence. */
  lemma {:induction false} ForkPointOk(z: Kind, s: State, opts: CreateOptions, expired: set<string>)
    requires Inv(z, s) && Ordered(s.streams)
    ensures var r := ResolveFork(s.streams, opts, expired);
      r.Ok? ==> (r.value.offset.readSeq == 0
                 && r.value.offset.byteOffset <= s.streams[opts.forkedFrom].meta.currentOffset.byteOffset)
  {
    var r := ResolveFork(s.streams, opts, expired);
    if r.Ok? {
      var source := opts.forkedFrom;
      assert StreamOk(z, s, source);
      ChainedBounds(z, s.streams[source].meta.forkOffset, s.streams[source].messages,
                    s.streams[source].meta.currentOffset);
      var at := match opts.forkOffset case Some(o) => o case None => s.streams[source].meta.currentOffset;
      ViewBounds(z, s, source, at);
    }
  }

  /** Every message a read returns ends after the offset asked for and no later than the tail. */
  lemma {:induction false} ViewBounds(z: Kind, s: State, p: string, o: Offset)
    requires Inv(z, s) && Ordered(s.streams) && p in s.streams
    ensures forall i :: 0 <= i < |View(s.streams, p, o)| ==>
      var at := View(s.streams, p, o)[i].offset;
      at.readSeq == 0 && o.byteOffset < at.byteOffset <= s.streams[p].meta.currentOffset.byteOffset
    decreases s.streams[p].created
  {
    assert StreamOk(z, s, p) && LinkOk(s.streams, p) && Younger(s.streams, p);
    var st := s.streams[p];
    ChainedBounds(z, st.meta.forkOffset, st.messages, st.meta.currentOffset);
    FilterBounds(st.messages, o);
    if st.meta.forkedFrom != "" && LessThan(o, st.meta.forkOffset) {
      ViewBounds(z, s, st.meta.forkedFrom, o);
      CapBounds(View(s.streams, st.meta.forkedFrom, o), st.meta.forkOffset);
    }
  }

  lemma {:induction false} FilterBounds(ms: seq<Message>, o: Offset)
    ensures forall i :: 0 <= i < |After(ms, o)| ==>
      After(ms, o)[i] in ms && o.byteOffset < After(ms, o)[i].offset.byteOffset
  {
    if ms != [] { FilterBounds(ms[1..], o); }
  }

  lemma {:induction false} CapBounds(ms: seq<Message>, cap: Offset)
    ensures forall i :: 0 <= i < |UpTo(ms, cap)| ==>
      UpTo(ms, cap)[i] in ms && LessThanOrEqual(UpTo(ms, cap)[i].offset, cap)
  {
    if ms != [] { CapBounds(ms[1..], cap); }
  }

  lemma {:induction false} CreateOk(z: Kind, s: State, path: string, opts: CreateOptions, expired: set<string>)
    requires Inv(z, s) && Ordered(s.streams)
    ensures Inv(z, Create(z, s, path, opts, expired).0)
    ensures Keeps(s, Create(z, s, path, opts, expired).0)
    ensures Create(z, s, path, opts, expired).1 != Err(RefCountUnderflow)
  {
    var (m, claim) := Reclaim(s.streams, path, opts, expired);
    ReclaimOk(z, s, path, opts, expired);
    if claim.Free? {
      var s1 := s.(streams := m);
      LaunchKeeps(z, s1, path, opts, expired);
      forall p | p in s.streams ensures s.streams[p].created < s.clock { assert StreamOk(z, s, p); }
      KeepsTransitive(s, s1, Launch(z, s1, path, opts, expired).0);
    }
  }

  lemma {:induction false} LaunchKeeps(z: Kind, s: State, path: string, opts: CreateOptions, expired: set<string>)
    requires Inv(z, s) && Ordered(s.streams) && path !in s.streams
    ensures Inv(z, Launch(z, s, path, opts, expired).0)
    ensures Keeps(s, Launch(z, s, path, opts, expired).0)
    ensures Launch(z, s, path, opts, expired).1 != Err(RefCountUnderflow)
  {
    UnchangedOk(z, s);
    NewStreamErrors(z, s, opts, expired);
    var st := NewStream(z, s, opts, expired);
    if st.Ok? {
      NewStreamInsertable(z, s, path, opts, expired);
      InsertOk(z, s, path, st.value);
    }
  }

  lemma {:induction false} NewStreamErrors(z: Kind, s: State, opts: CreateOptions, expired: set<string>)
    requires Ordered(s.streams)
    ensures NewStream(z, s, opts, expired) != Err(RefCountUnderflow)
  {
  }

  lemma {:induction false} NewStreamInsertable(z: Kind, s: State, path: string, opts: CreateOptions,
                                               expired: set<string>)
    requires Inv(z, s) && Ordered(s.streams) && path !in s.streams
    requires NewStream(z, s, opts, expired).Ok?
    ensures Insertable(z, s, path, NewStream(z, s, opts, expired).value)
  {
    if opts.forkedFrom == "" {
      LaunchOk(z, RootMeta(opts), [], s.clock, opts.initialData);
    } else {
      ForkPointOk(z, s, opts, expired);
      var fork := ResolveFork(s.streams, opts, expired).value;
      LaunchOk(z, ForkMeta(opts, s.streams[opts.forkedFrom].meta, fork.offset), fork.prefix, s.clock, opts.initialData);
    }
  }

  lemma {:induction false} AppendOk(z: Kind, s: State, path: string, body: Body, opts: AppendOptions,
                                    expired: set<string>)
    requires Inv(z, s)
    ensures Inv(z, Append(z, s, path, body, opts, expired).0)
    ensures Keeps(s, Append(z, s, path, body, opts, expired).0)
  {
    UnchangedOk(z, s);
    if path in s.streams {
      var st := s.streams[path];
      var admission := AdmitAppend(st.meta, path in expired, body, opts);
      if admission.Admit? {
        CommitOk(z, s, path, admission.parts, opts, admission.verdict.state);
      }
    }
  }

  lemma {:induction false} CommitOk(z: Kind, s: State, path: string, parts: seq<Bytes>, opts: AppendOptions,
                                    state: Option<ProducerState>)
    requires Inv(z, s) && path in s.streams && NonEmptyParts(parts)
    requires !s.streams[path].meta.closed && !s.streams[path].meta.softDeleted
    ensures var s' := s.(streams := s.streams[path := Commit(z, s.streams[path], parts, opts, state)]);
      Inv(z, s') && Keeps(s, s')
  {
    assert StreamOk(z, s, path);
    ExtendOk(z, s.streams[path], parts);
    UpdateOk(z, s, path, Commit(z, s.streams[path], parts, opts, state));
  }

  lemma {:induction false} CloseOk(z: Kind, s: State, path: string, expired: set<string>)
    requires Inv(z, s)
    ensures Inv(z, Close(s, path, expired).0) && Keeps(s, Close(s, path, expired).0)
  {
    UnchangedOk(z, s);
    if path in s.streams && path !in expired {
      assert StreamOk(z, s, path);
      UpdateOk(z, s, path, Close(s, path, expired).0.streams[path]);
    }
  }

  lemma {:induction false} CloseWithProducerOk(z: Kind, s: State, path: string, id: string, epoch: int, seqNo: int,
                                               expired: set<string>)
    requires Inv(z, s)
    ensures Inv(z, CloseWithProducer(s, path, id, epoch, seqNo, expired).0)
    ensures Keeps(s, CloseWithProducer(s, path, id, epoch, seqNo, expired).0)
  {
    UnchangedOk(z, s);
    if path in s.streams && path !in expired {
      assert StreamOk(z, s, path);
      UpdateOk(z, s, path, CloseWithProducer(s, path, id, epoch, seqNo, expired).0.streams[path]);
    }
  }

  lemma {:induction false} ReadOk(z: Kind, s: State, path: string, expired: set<string>)
    requires Inv(z, s)
    ensures Inv(z, MarkExpired(s, path, expired)) && Keeps(s, MarkExpired(s, path, expired))
  {
    UnchangedOk(z, s);
    if path in s.streams && path in expired && s.streams[path].meta.refCount > 0 { SoftDeleteOk(z, s, path); }
  }

  lemma {:induction false} SweepOk(z: Kind, s: State, victims: seq<string>)
    requires Inv(z, s)
    ensures Inv(z, s.(streams := Sweep(s.streams, victims)))
    ensures Keeps(s, s.(streams := Sweep(s.streams, victims)))
    decreases victims
  {
    UnchangedOk(z, s);
    if victims != [] {
      var p := victims[0];
      var s1 := s;
      if p in s.streams {
        if s.streams[p].meta.refCount > 0 {
          SoftDeleteOk(z, s, p);
          s1 := s.(streams := SetSoftDeleted(s.streams, p));
        } else {
          assert s.streams[p].meta.refCount == |Children(s.streams, p)|;
          CascadeOk(z, s, p);
          s1 := s.(streams := Cascade(s.streams, p).0);
        }
      }
      SweepOk(z, s1, victims[1..]);
      forall q | q in s.streams ensures s.streams[q].created < s.clock { assert StreamOk(z, s, q); }
      KeepsTransitive(s, s1, s1.(streams := Sweep(s1.streams, victims[1..])));
    }
  }

  // ---- What calls leave of a stream they do not write to ----

  /** Same stream except for the number of its forks and its soft-delete mark. */
  predicate SameContent(a: Stream, b: Stream) {
    && a.created == b.created && a.messages == b.messages
    && b.meta == a.meta.(refCount := b.meta.refCount, softDeleted := b.meta.softDeleted)
  }

  lemma {:induction false} CascadeContent(m: Streams, p: string, q: string)
    requires q in Cascade(m, p).0
    ensures q in m && SameContent(m[q], Cascade(m, p).0[q])
    decreases |m.Keys|
  {
    ContentSelf(m[q]);
    if p !in m { return; }
    var rest := m - {p};
    var source := m[p].meta.forkedFrom;
    if source == "" || source !in rest { return; }
    var n := rest[source].meta.refCount - 1;
    CountContent(rest, source, n, q);
    CountContent(rest, source, 0, q);
    var released := SetRefCount(rest, source, n);
    if n == 0 && released[source].meta.softDeleted {
      Shrinks(m, p);
      SameSize(rest, source, WithRefCount(rest[source], n));
      CascadeContent(released, source, q);
      ContentTransitive(m[q], released[q], Cascade(released, source).0[q]);
    }
  }

  lemma {:induction false} ContentSelf(st: Stream)
    ensures SameContent(st, st)
  {
  }

  lemma {:induction false} CountContent(m: Streams, p: string, n: int, q: string)
    requires p in m && q in m
    ensures SameContent(m[q], SetRefCount(m, p, n)[q])
  {
  }

  lemma {:induction false} SameSize(m: Streams, p: string, st: Stream)
    requires p in m
    ensures |m[p := st].Keys| == |m.Keys|
  {
    Sets.Same(m[p := st].Keys, m.Keys);
  }

  lemma {:induction false} ContentTransitive(a: Stream, b: Stream, c: Stream)
    requires SameContent(a, b) && SameContent(b, c)
    ensures SameContent(a, c)
  {
  }

  lemma {:induction false} ReclaimContent(m: Streams, path: string, opts: CreateOptions, expired: set<string>,
                                          q: string)
    requires q in Reclaim(m, path, opts, expired).0
    ensures q in m && SameContent(m[q], Reclaim(m, path, opts, expired).0[q])
  {
    if path in m && path in expired && m[path].meta.refCount <= 0 { CascadeContent(m, path, q); }
  }

  lemma {:induction false} SweepContent(m: Streams, victims: seq<string>, q: string)
    requires q in Sweep(m, victims)
    ensures q in m && SameContent(m[q], Sweep(m, victims)[q])
    decreases victims
  {
    if victims != [] {
      var p := victims[0];
      if p !in m {
        SweepContent(m, victims[1..], q);
      } else if m[p].meta.refCount > 0 {
        SweepContent(SetSoftDeleted(m, p), victims[1..], q);
      } else {
        SweepContent(Cascade(m, p).0, victims[1..], q);
        CascadeContent(m, p, q);
      }
    }
  }

  /** Every public call keeps the invariant and only ever extends the logs that survive it. */
  lemma {:induction false} StepOk(z: Kind, s: State, e: Event)
    requires Inv(z, s) && Ordered(s.streams)
    ensures Inv(z, Step(z, s, e)) && Keeps(s, Step(z, s, e))
    ensures Ordered(Step(z, s, e).streams)
  {
    match e.op {
      case CreateOp(path, opts) => CreateOk(z, s, path, opts, e.expired);
      case AppendOp(path, body, opts) => AppendOk(z, s, path, body, opts, e.expired);
      case CloseOp(path) => CloseOk(z, s, path, e.expired);
      case CloseProducerOp(path, id, epoch, seqNo) => CloseWithProducerOk(z, s, path, id, epoch, seqNo, e.expired);
      case DeleteOp(path) => DeleteOk(z, s, path);
      case ReadOp(path, from) => ReadOk(z, s, path, e.expired);
      case SweepOp(victims) => SweepOk(z, s, victims);
    }
    GraphOrdered(Step(z, s, e).streams);
  }

  /** The state after a sequence of public calls. */
  ghost function Run(z: Kind, s: State, events: seq<Event>): (s': State)
    requires Inv(z, s)
    ensures Inv(z, s') && Keeps(s, s') && Ordered(s'.streams)
    decreases events
  {
    GraphOrdered(s.streams);
    UnchangedOk(z, s);
    if events == [] then s
    else
      StepOk(z, s, events[0]);
      var s1 := Step(z, s, events[0]);
      var s2 := Run(z, s1, events[1..]);
      assert Keeps(s, s2) by {
        forall q | q in s.streams ensures s.streams[q].created < s.clock { assert StreamOk(z, s, q); }
        KeepsTransitive(s, s1, s2);
      }
      s2
  }
}
