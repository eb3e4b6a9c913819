/** Each call on a store and the same call on the simple log lead to related states and equal answers. */
module RefinementSteps {
  import opened Wrappers
  import opened Offsets
  import opened StoreTypes
  import opened StreamStore
  import opened ForkGraph
  import opened Logs
  import opened StoreInvariant
  import opened ForkReading
  import opened Framing
  import opened Refinement

  /** The position in a source's log that a fork at message count `k` asks for; past the end when there is none. */
  function Position(z: Kind, a: Streams, source: string, k: nat): Offset {
    if source !in a then ZERO_OFFSET
    else
      var log := Datas(a[source].messages);
      if k <= |log| then At(z, log, k) else Add(At(z, log, |log|), 1)
  }

  /** The same creation request, at byte offsets the store itself returned instead of message counts. */
  function ConcreteOptions(z: Kind, a: Streams, opts: CreateOptions): CreateOptions {
    match opts.forkOffset
    case None => opts
    case Some(at) => opts.(forkOffset := Some(Position(z, a, opts.forkedFrom, at.byteOffset)))
  }

  function ConcreteEvent(z: Kind, a: Streams, e: Event): Event {
    match e.op
    case CreateOp(path, opts) => e.(op := CreateOp(path, ConcreteOptions(z, a, opts)))
    case _ => e
  }

  /** Message counts are written as offsets of read sequence 0. */
  predicate Countable(e: Event) {
    e.op.CreateOp? && e.op.create.forkOffset.Some? ==> e.op.create.forkOffset.value.readSeq == 0
  }

  // ---- Updating one stream ----

  lemma {:induction false} RefineUpdate(z: Kind, s: State, a: State, p: string, st: Stream, su: Stream)
    requires Refines(z, s, a) && p in s.streams
    requires StreamRefines(z, st, su)
    requires SameLinks(a.streams[p], su) && su.meta.forkOffset == a.streams[p].meta.forkOffset
    requires Datas(a.streams[p].messages) <= Datas(su.messages)
    ensures Refines(z, s.(streams := s.streams[p := st]), a.(streams := a.streams[p := su]))
  {
    var s', a' := s.streams[p := st], a.streams[p := su];
    forall q | q in s' ensures Refined(z, s', a', q) {
      assert Refined(z, s.streams, a.streams, q);
      CopiedStays(a.streams, p, su, q);
    }
  }

  lemma {:induction false} CopiedStays(a: Streams, p: string, su: Stream, q: string)
    requires p in a && q in a && Copied(a, q)
    requires SameLinks(a[p], su) && su.meta.forkOffset == a[p].meta.forkOffset
    requires Datas(a[p].messages) <= Datas(su.messages)
    ensures Copied(a[p := su], q)
  {
    var k := a[q].meta.forkOffset.byteOffset;
    var log, longer := Datas(a[p].messages), Datas(su.messages);
    if k <= |log| { assert longer[..k] == log[..k]; }
  }

  lemma {:induction false} AtExtended(z: Kind, log: seq<Bytes>, parts: seq<Bytes>, i: nat)
    requires i <= |log|
    ensures At(z, log + parts, i) == At(z, log, i)
  {
    assert (log + parts)[..i] == log[..i];
  }

  lemma {:induction false} EraseExtend(z: Kind, st: Stream, parts: seq<Bytes>)
    ensures Erase(Extend(z, st, parts).meta) == Erase(st.meta)
  {
  }

  lemma {:induction false} RequestStays(z: Kind, log: seq<Bytes>, parts: seq<Bytes>, k: nat, bytes: Option<Offset>,
                                        count: Option<Offset>)
    requires k <= |log| && RequestRefines(z, log, k, bytes, count)
    ensures RequestRefines(z, log + parts, k, bytes, count)
  {
    if count.Some? && bytes.Some? { AtExtended(z, log, parts, count.value.byteOffset); }
  }

  lemma {:induction false} ExtendRefines(z: Kind, st: Stream, su: Stream, parts: seq<Bytes>)
    requires StreamRefines(z, st, su) && NonEmptyParts(parts)
    ensures StreamRefines(z, Extend(z, st, parts), Extend(Unit, su, parts))
    ensures Datas(Extend(Unit, su, parts).messages) == Datas(su.messages) + parts
  {
    var log, k := Datas(su.messages), su.meta.forkOffset.byteOffset;
    var st', su' := Extend(z, st, parts), Extend(Unit, su, parts);
    ExtendSimple(su, parts);
    ExtendOwn(z, st, parts);
    EraseExtend(z, st, parts);
    EraseExtend(Unit, su, parts);
    RequestStays(z, log, parts, k, st.meta.forkOffsetRequested, su.meta.forkOffsetRequested);
    LateExtended(z, log, parts, k);
  }

  lemma {:induction false} LateExtended(z: Kind, log: seq<Bytes>, parts: seq<Bytes>, k: nat)
    requires k <= |log|
    ensures At(z, log + parts, k) == At(z, log, k)
    ensures (log + parts)[k..] == log[k..] + parts
  {
    AtExtended(z, log, parts, k);
  }

  lemma {:induction false} ExtendOwn(z: Kind, st: Stream, parts: seq<Bytes>)
    requires NonEmptyParts(parts)
    ensures Datas(Extend(z, st, parts).messages) == Datas(st.messages) + parts
  {
    FrameChained(z, st.meta.currentOffset, parts);
    DatasConcat(st.messages, Frame(z, st.meta.currentOffset, parts));
  }

  lemma {:induction false} ExtendSimple(su: Stream, parts: seq<Bytes>)
    requires Chained(Unit, ZERO_OFFSET, su.messages, su.meta.currentOffset) && NonEmptyParts(parts)
    ensures Chained(Unit, ZERO_OFFSET, Extend(Unit, su, parts).messages, Extend(Unit, su, parts).meta.currentOffset)
    ensures Datas(Extend(Unit, su, parts).messages) == Datas(su.messages) + parts
  {
    var more := Frame(Unit, su.meta.currentOffset, parts);
    FrameChained(Unit, su.meta.currentOffset, parts);
    ChainedConcat(Unit, ZERO_OFFSET, su.messages, su.meta.currentOffset, more,
                  Tail(Unit, su.meta.currentOffset, parts));
    DatasConcat(su.messages, more);
  }

  // ---- Appending and closing ----

  lemma {:induction false} AppendRefines(z: Kind, s: State, a: State, path: string, body: Body, opts: AppendOptions,
                                         expired: set<string>)
    requires Inv(z, s) && Refines(z, s, a)
    ensures Refines(z, Append(z, s, path, body, opts, expired).0, Append(Unit, a, path, body, opts, expired).0)
    ensures Append(z, s, path, body, opts, expired).1.error == Append(Unit, a, path, body, opts, expired).1.error
    ensures Append(z, s, path, body, opts, expired).1.result.(offset := ZERO_OFFSET)
      == Append(Unit, a, path, body, opts, expired).1.result.(offset := ZERO_OFFSET)
  {
    if path in s.streams {
      assert Refined(z, s.streams, a.streams, path) && StreamOk(z, s, path);
      var st, su := s.streams[path], a.streams[path];
      AdmitSame(st.meta, su.meta, path in expired, body, opts);
      var admission := AdmitAppend(st.meta, path in expired, body, opts);
      if admission.Admit? {
        CommitRefines(z, s, a, path, admission.parts, opts, admission.verdict.state);
      }
    }
  }

  /** Positions do not influence whether an append is admitted. */
  lemma {:induction false} AdmitSame(meta: Metadata, metau: Metadata, expired: bool, body: Body, opts: AppendOptions)
    requires Erase(meta) == Erase(metau)
    ensures var r, ru := AdmitAppend(meta, expired, body, opts), AdmitAppend(metau, expired, body, opts);
      && (r.Admit? ==> ru == r)
      && (r.Answer? ==> ru.Answer? && r.outcome.error == ru.outcome.error
                        && r.outcome.result.(offset := ZERO_OFFSET) == ru.outcome.result.(offset := ZERO_OFFSET))
  {
    assert meta == Erase(meta).(currentOffset := meta.currentOffset, forkOffset := meta.forkOffset,
                                forkOffsetRequested := meta.forkOffsetRequested);
    assert metau == Erase(metau).(currentOffset := metau.currentOffset, forkOffset := metau.forkOffset,
                                  forkOffsetRequested := metau.forkOffsetRequested);
  }

  lemma {:induction false} CommitRefines(z: Kind, s: State, a: State, path: string, parts: seq<Bytes>,
                                         opts: AppendOptions, state: Option<ProducerState>)
    requires Inv(z, s) && Refines(z, s, a) && path in s.streams && NonEmptyParts(parts)
    ensures Refines(z, s.(streams := s.streams[path := Commit(z, s.streams[path], parts, opts, state)]),
                       a.(streams := a.streams[path := Commit(Unit, a.streams[path], parts, opts, state)]))
  {
    assert Refined(z, s.streams, a.streams, path);
    var st, su := s.streams[path], a.streams[path];
    ExtendRefines(z, st, su, parts);
    RefineUpdate(z, s, a, path, Commit(z, st, parts, opts, state), Commit(Unit, su, parts, opts, state));
  }

  /** Two metadata records with the same positions. */
  predicate SamePlace(a: Metadata, b: Metadata) {
    && a.currentOffset == b.currentOffset && a.forkOffset == b.forkOffset
    && a.forkOffsetRequested == b.forkOffsetRequested && a.forkedFrom == b.forkedFrom
  }

  /** A change of flags made alike on both sides. */
  lemma {:induction false} RefineFlags(z: Kind, s: State, a: State, p: string, meta: Metadata, metau: Metadata)
    requires Refines(z, s, a) && p in s.streams
    requires SamePlace(s.streams[p].meta, meta) && SamePlace(a.streams[p].meta, metau)
    requires Erase(meta) == Erase(metau)
    ensures Refines(z, s.(streams := s.streams[p := s.streams[p].(meta := meta)]),
                       a.(streams := a.streams[p := a.streams[p].(meta := metau)]))
  {
    assert Refined(z, s.streams, a.streams, p);
    RefineUpdate(z, s, a, p, s.streams[p].(meta := meta), a.streams[p].(meta := metau));
  }

  lemma {:induction false} SoftDeleteRefines(z: Kind, s: State, a: State, p: string)
    requires Refines(z, s, a) && p in s.streams
    ensures Refines(z, s.(streams := SetSoftDeleted(s.streams, p)), a.(streams := SetSoftDeleted(a.streams, p)))
  {
    assert Refined(z, s.streams, a.streams, p);
    var meta, metau := s.streams[p].meta, a.streams[p].meta;
    assert Erase(meta.(softDeleted := true)) == Erase(meta).(softDeleted := true);
    assert Erase(metau.(softDeleted := true)) == Erase(metau).(softDeleted := true);
    RefineFlags(z, s, a, p, meta.(softDeleted := true), metau.(softDeleted := true));
  }

  lemma {:induction false} CloseRefines(z: Kind, s: State, a: State, path: string, expired: set<string>)
    requires Refines(z, s, a)
    ensures Refines(z, Close(s, path, expired).0, Close(a, path, expired).0)
    ensures Close(s, path, expired).1.Ok? == Close(a, path, expired).1.Ok?
  {
    if path in s.streams && path !in expired {
      assert Refined(z, s.streams, a.streams, path);
      var meta, metau := s.streams[path].meta, a.streams[path].meta;
      assert Erase(meta.(closed := true)) == Erase(meta).(closed := true);
      assert Erase(metau.(closed := true)) == Erase(metau).(closed := true);
      RefineFlags(z, s, a, path, meta.(closed := true), metau.(closed := true));
    }
  }

  lemma {:induction false} CloseWithProducerRefines(z: Kind, s: State, a: State, path: string, id: string, epoch: int,
                                                    seqNo: int, expired: set<string>)
    requires Refines(z, s, a)
    ensures Refines(z, CloseWithProducer(s, path, id, epoch, seqNo, expired).0,
                       CloseWithProducer(a, path, id, epoch, seqNo, expired).0)
    ensures CloseWithProducer(s, path, id, epoch, seqNo, expired).1.error
      == CloseWithProducer(a, path, id, epoch, seqNo, expired).1.error
  {
    if path in s.streams && path !in expired {
      assert Refined(z, s.streams, a.streams, path);
      var meta, metau := s.streams[path].meta, a.streams[path].meta;
      EraseFields(meta, metau);
      var verdict := ValidateProducer(meta.producers, id, epoch, seqNo);
      if !meta.closed && verdict.error.None? && verdict.result.producerResult != Duplicate {
        var producers := meta.producers[id := verdict.state.value];
        var closer := Some(ClosedBy(id, epoch, seqNo));
        var meta', metau' := meta.(producers := producers, closed := true, closedBy := closer),
                             metau.(producers := producers, closed := true, closedBy := closer);
        assert Erase(meta') == Erase(meta).(producers := producers, closed := true, closedBy := closer);
        assert Erase(metau') == Erase(metau).(producers := producers, closed := true, closedBy := closer);
        RefineFlags(z, s, a, path, meta', metau');
      }
    }
  }

  /** Equal up to positions means equal in everything that decides an answer. */
  lemma {:induction false} EraseFields(meta: Metadata, metau: Metadata)
    requires Erase(meta) == Erase(metau)
    ensures metau == meta.(currentOffset := metau.currentOffset, forkOffset := metau.forkOffset,
                           forkOffsetRequested := metau.forkOffsetRequested)
  {
    assert meta == Erase(meta).(currentOffset := meta.currentOffset, forkOffset := meta.forkOffset,
                                forkOffsetRequested := meta.forkOffsetRequested);
    assert metau == Erase(metau).(currentOffset := metau.currentOffset, forkOffset := metau.forkOffset,
                                  forkOffsetRequested := metau.forkOffsetRequested);
  }

  // ---- Deleting ----

  /** Two maps that agree on the fork graph. */
  ghost predicate SameGraph(m: Streams, mu: Streams) {
    && m.Keys == mu.Keys
    && (forall p {:trigger SameNode(m, mu, p)} :: p in m ==> SameNode(m, mu, p))
  }

  predicate SameNode(m: Streams, mu: Streams, p: string)
    requires p in m && p in mu
  {
    && m[p].meta.forkedFrom == mu[p].meta.forkedFrom
    && m[p].meta.refCount == mu[p].meta.refCount
    && m[p].meta.softDeleted == mu[p].meta.softDeleted
  }

  /** What remains of a map is unchanged but for counts. */
  ghost predicate Remains(m: Streams, left: Streams) {
    && left.Keys <= m.Keys
    && (forall p {:trigger SameButCount(m[p], left[p])} :: p in left ==> SameButCount(m[p], left[p]))
  }

  lemma {:induction false} CascadeSame(m: Streams, mu: Streams, p: string)
    requires SameGraph(m, mu)
    ensures SameGraph(Cascade(m, p).0, Cascade(mu, p).0) && Cascade(m, p).1 == Cascade(mu, p).1
    decreases |m.Keys|
  {
    if p in m {
      var rest, restu := m - {p}, mu - {p};
      var source := m[p].meta.forkedFrom;
      assert SameNode(m, mu, p);
      forall q | q in rest ensures SameNode(rest, restu, q) { assert SameNode(m, mu, q); }
      if source != "" && source in rest {
        assert SameNode(m, mu, source);
        var n := rest[source].meta.refCount - 1;
        var released, releasedu := SetRefCount(rest, source, n), SetRefCount(restu, source, n);
        ReleaseSame(m, mu, p, source, n);
        if n == 0 && rest[source].meta.softDeleted {
          Shrinks(m, p);
          assert released.Keys == rest.Keys;
          CascadeSame(released, releasedu, source);
        } else if n < 0 {
          ReleaseSame(m, mu, p, source, 0);
        }
      }
    }
  }

  lemma {:induction false} ReleaseSame(m: Streams, mu: Streams, p: string, source: string, n: int)
    requires SameGraph(m, mu) && source in m && source != p
    ensures var released, releasedu := SetRefCount(m - {p}, source, n), SetRefCount(mu - {p}, source, n);
      SameGraph(released, releasedu)
  {
    var released, releasedu := SetRefCount(m - {p}, source, n), SetRefCount(mu - {p}, source, n);
    forall q | q in released ensures SameNode(released, releasedu, q) { assert SameNode(m, mu, q); }
  }

  lemma {:induction false} ReleaseRemains(m: Streams, p: string, source: string, n: int)
    requires source in m && source != p
    ensures Remains(m, SetRefCount(m - {p}, source, n))
  {
    var released := SetRefCount(m - {p}, source, n);
    forall q | q in released ensures SameButCount(m[q], released[q]) {
    }
  }

  /** A cascade changes nothing of the streams it leaves but their counts. */
  lemma {:induction false} CascadeRemains(m: Streams, p: string)
    ensures Remains(m, Cascade(m, p).0)
    decreases |m.Keys|
  {
    forall q | q in m ensures SameButCount(m[q], m[q]) {
    }
    if p !in m { return; }
    var rest := m - {p};
    var source := m[p].meta.forkedFrom;
    if source == "" || source !in rest { return; }
    var n := rest[source].meta.refCount - 1;
    var released := SetRefCount(rest, source, n);
    ReleaseRemains(m, p, source, n);
    ReleaseRemains(m, p, source, 0);
    if n == 0 && rest[source].meta.softDeleted {
      Shrinks(m, p);
      assert released.Keys == rest.Keys;
      CascadeRemains(released, source);
      RemainsTransitive(m, released, Cascade(released, source).0);
    }
  }

  lemma {:induction false} RemainsTransitive(m: Streams, mid: Streams, left: Streams)
    requires Remains(m, mid) && Remains(mid, left)
    ensures Remains(m, left)
  {
    forall p | p in left ensures SameButCount(m[p], left[p]) {
      assert SameButCount(mid[p], left[p]) && SameButCount(m[p], mid[p]);
    }
  }

  /** Removing the same streams on both sides, when every survivor's source survives. */
  lemma {:induction false} RefineRemains(z: Kind, s: State, a: State, left: Streams, leftu: Streams)
    requires Refines(z, s, a) && SameGraph(left, leftu) && Linked(left)
    requires Remains(s.streams, left) && Remains(a.streams, leftu)
    ensures Refines(z, s.(streams := left), a.(streams := leftu))
  {
    forall p | p in left ensures Refined(z, left, leftu, p) {
      assert Refined(z, s.streams, a.streams, p) && SameNode(left, leftu, p) && LinkOk(left, p);
      assert SameButCount(s.streams[p], left[p]) && SameButCount(a.streams[p], leftu[p]);
      var source := left[p].meta.forkedFrom;
      if source != "" { assert SameButCount(a.streams[source], leftu[source]); }
      var n := left[p].meta.refCount;
      assert Erase(WithRefCount(s.streams[p], n).meta) == Erase(s.streams[p].meta).(refCount := n);
      assert Erase(WithRefCount(a.streams[p], n).meta) == Erase(a.streams[p].meta).(refCount := n);
    }
  }

  lemma {:induction false} RefinesSameGraph(z: Kind, s: State, a: State)
    requires Refines(z, s, a)
    ensures SameGraph(s.streams, a.streams)
  {
    forall p | p in s.streams ensures SameNode(s.streams, a.streams, p) {
      assert Refined(z, s.streams, a.streams, p);
      EraseFields(s.streams[p].meta, a.streams[p].meta);
    }
  }

  lemma {:induction false} CascadeRefines(z: Kind, s: State, a: State, p: string)
    requires Inv(z, s) && Refines(z, s, a) && p in s.streams && s.streams[p].meta.refCount == 0
    ensures Refines(z, s.(streams := Cascade(s.streams, p).0), a.(streams := Cascade(a.streams, p).0))
    ensures Cascade(s.streams, p).1 == Cascade(a.streams, p).1 == false
  {
    RefinesSameGraph(z, s, a);
    CascadeSame(s.streams, a.streams, p);
    CascadeRemains(s.streams, p);
    CascadeRemains(a.streams, p);
    CascadeOk(z, s, p);
    RefineRemains(z, s, a, Cascade(s.streams, p).0, Cascade(a.streams, p).0);
  }

  lemma {:induction false} DeleteRefines(z: Kind, s: State, a: State, path: string)
    requires Inv(z, s) && Refines(z, s, a)
    ensures Refines(z, Delete(s, path).0, Delete(a, path).0) && Delete(s, path).1 == Delete(a, path).1
  {
    RefinesSameGraph(z, s, a);
    if path in s.streams {
      assert SameNode(s.streams, a.streams, path);
      if s.streams[path].meta.refCount > 0 {
        SoftDeleteRefines(z, s, a, path);
      } else {
        assert s.streams[path].meta.refCount == |Children(s.streams, path)|;
        CascadeRefines(z, s, a, path);
      }
    }
  }

  lemma {:induction false} SweepRefines(z: Kind, s: State, a: State, victims: seq<string>)
    requires Inv(z, s) && Refines(z, s, a)
    ensures Refines(z, s.(streams := Sweep(s.streams, victims)), a.(streams := Sweep(a.streams, victims)))
    decreases victims
  {
    if victims != [] {
      var p := victims[0];
      var s1, a1 := s, a;
      RefinesSameGraph(z, s, a);
      if p in s.streams {
        assert SameNode(s.streams, a.streams, p);
        if s.streams[p].meta.refCount > 0 {
          SoftDeleteOk(z, s, p);
          SoftDeleteRefines(z, s, a, p);
          s1, a1 := s.(streams := SetSoftDeleted(s.streams, p)), a.(streams := SetSoftDeleted(a.streams, p));
        } else {
          assert s.streams[p].meta.refCount == |Children(s.streams, p)|;
          CascadeOk(z, s, p);
          CascadeRefines(z, s, a, p);
          s1, a1 := s.(streams := Cascade(s.streams, p).0), a.(streams := Cascade(a.streams, p).0);
        }
      }
      SweepRefines(z, s1, a1, victims[1..]);
    }
  }
}
