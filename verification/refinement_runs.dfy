/** Creation refines the simple log, and so do whole runs; hence any two sizings read the same payloads. */
module RefinementRuns {
  import opened Wrappers
  import opened Offsets
  import opened StoreTypes
  import opened StreamStore
  import opened ForkGraph
  import opened Logs
  import opened StoreInvariant
  import opened Framing
  import opened SimpleLog
  import opened Refinement
  import opened RefinementSteps
  import Text

  // ---- Creation ----

  /** The offset a fork was asked for, or the one it got when none was given. */
  function Requested(meta: Metadata): Offset {
    match meta.forkOffsetRequested case Some(o) => o case None => meta.forkOffset
  }

  /** Positions of a fork and of its source's log coincide over the copied part. */
  lemma {:induction false} AtCopied(z: Kind, log: seq<Bytes>, source: seq<Bytes>, k: nat, r: nat)
    requires r <= k <= |log| && k <= |source| && log[..k] == source[..k]
    ensures At(z, log, r) == At(z, source, r)
  {
    assert log[..r] == log[..k][..r];
    assert source[..r] == source[..k][..r];
  }

  /** The tails on both sides, and that the records differ in positions only. */
  lemma {:induction false} TailFacts(z: Kind, s: State, a: State, p: string)
    requires Inv(z, s) && Refines(z, s, a) && p in s.streams
    ensures var log := Datas(a.streams[p].messages);
      && NonEmptyParts(log)
      && s.streams[p].meta.currentOffset == At(z, log, |log|)
      && a.streams[p].meta.currentOffset == Offset(0, |log|)
      && a.streams[p].messages == Frame(Unit, ZERO_OFFSET, log)
    ensures Erase(s.streams[p].meta) == Erase(a.streams[p].meta)
  {
    assert Refined(z, s.streams, a.streams, p) && StreamOk(z, s, p);
    LogFacts(z, s.streams[p], a.streams[p]);
  }

  lemma {:induction false} MatchSame(meta: Metadata, metau: Metadata, opts: CreateOptions, concrete: CreateOptions)
    requires Erase(meta) == Erase(metau)
    requires concrete == opts.(forkOffset := concrete.forkOffset)
    requires concrete.forkOffset.Some? == opts.forkOffset.Some?
    requires opts.forkOffset.Some? && opts.forkedFrom != "" && meta.forkedFrom == opts.forkedFrom ==>
      (Requested(meta) == concrete.forkOffset.value <==> Requested(metau) == opts.forkOffset.value)
    ensures ConfigMatches(meta, concrete) <==> ConfigMatches(metau, opts)
  {
    EraseFields(meta, metau);
  }

  /** Re-creating an existing stream matches its configuration on both sides or on neither. */
  lemma {:induction false} ConfigSame(z: Kind, s: State, a: State, path: string, opts: CreateOptions)
    requires Inv(z, s) && Refines(z, s, a) && path in s.streams
    requires opts.forkOffset.Some? ==> opts.forkOffset.value.readSeq == 0
    ensures ConfigMatches(s.streams[path].meta, ConcreteOptions(z, a.streams, opts))
      <==> ConfigMatches(a.streams[path].meta, opts)
  {
    var st, su := s.streams[path], a.streams[path];
    TailFacts(z, s, a, path);
    if opts.forkOffset.Some? && opts.forkedFrom != "" && st.meta.forkedFrom == opts.forkedFrom {
      var source := opts.forkedFrom;
      assert LinkOk(s.streams, path);
      TailFacts(z, s, a, source);
      assert Refined(z, s.streams, a.streams, path);
      assert su.meta.forkedFrom == source by { EraseFields(st.meta, su.meta); }
      RequestedSame(z, st, su, Datas(a.streams[source].messages), opts.forkOffset.value);
    }
    MatchSame(st.meta, su.meta, opts, ConcreteOptions(z, a.streams, opts));
  }

  lemma {:induction false} RequestedSame(z: Kind, st: Stream, su: Stream, source: seq<Bytes>, at: Offset)
    requires StreamRefines(z, st, su) && at.readSeq == 0 && NonEmptyParts(source)
    requires var log, k := Datas(su.messages), su.meta.forkOffset.byteOffset;
      k <= |source| && log[..k] == source[..k]
    ensures Requested(su.meta) == at <==>
      Requested(st.meta) == (if at.byteOffset <= |source| then At(z, source, at.byteOffset)
                             else Add(At(z, source, |source|), 1))
  {
    var log, k := Datas(su.messages), su.meta.forkOffset.byteOffset;
    var r := Requested(su.meta).byteOffset;
    AtCopied(z, log, source, k, r);
    if at.byteOffset <= |source| {
      AtInjective(z, source, r, at.byteOffset);
    } else {
      AtMonotone(z, source, r, |source|);
    }
  }

  lemma {:induction false} ReclaimRefines(z: Kind, s: State, a: State, path: string, opts: CreateOptions,
                                          expired: set<string>)
    requires Inv(z, s) && Refines(z, s, a)
    requires opts.forkOffset.Some? ==> opts.forkOffset.value.readSeq == 0
    ensures var r := Reclaim(s.streams, path, ConcreteOptions(z, a.streams, opts), expired);
      var ru := Reclaim(a.streams, path, opts, expired);
      Refines(z, s.(streams := r.0), a.(streams := ru.0)) && r.1 == ru.1
  {
    if path in s.streams {
      RefinesSameGraph(z, s, a);
      assert SameNode(s.streams, a.streams, path);
      if path in expired {
        if s.streams[path].meta.refCount > 0 {
          SoftDeleteRefines(z, s, a, path);
        } else {
          assert s.streams[path].meta.refCount == |Children(s.streams, path)|;
          CascadeRefines(z, s, a, path);
        }
      } else {
        ConfigSame(z, s, a, path, opts);
      }
    }
  }

  /** The same offset check on both sides. */
  lemma {:induction false} BoundSame(z: Kind, log: seq<Bytes>, k: nat)
    requires NonEmptyParts(log)
    ensures var at := if k <= |log| then At(z, log, k) else Add(At(z, log, |log|), 1);
      && !LessThan(at, ZERO_OFFSET)
      && (LessThan(At(z, log, |log|), at) <==> LessThan(Offset(0, |log|), Offset(0, k)))
  {
    if k <= |log| { AtMonotone(z, log, k, |log|); } else { AtMonotone(z, log, |log|, |log|); }
  }

  /** A fork's start: the same checks pass on both sides, at corresponding positions. */
  lemma {:induction false} TargetSame(z: Kind, s: State, a: State, opts: CreateOptions, concrete: CreateOptions,
                                      expired: set<string>)
    requires Inv(z, s) && Refines(z, s, a) && opts.forkedFrom != ""
    requires opts.forkOffset.Some? ==> opts.forkOffset.value.readSeq == 0
    requires concrete == ConcreteOptions(z, a.streams, opts)
    ensures var r, ru := ForkTarget(s.streams, concrete, expired), ForkTarget(a.streams, opts, expired);
      && r.Ok? == ru.Ok? && (r.Err? ==> r.error == ru.error)
      && (ru.Ok? ==>
        var log := Datas(a.streams[opts.forkedFrom].messages);
        && ru.value.readSeq == 0 && ru.value.byteOffset <= |log| && NonEmptyParts(log)
        && r.value == At(z, log, ru.value.byteOffset))
  {
    var source := opts.forkedFrom;
    if source in s.streams {
      TailFacts(z, s, a, source);
      EraseFields(s.streams[source].meta, a.streams[source].meta);
      var log := Datas(a.streams[source].messages);
      BoundSame(z, log, match opts.forkOffset case Some(at) => at.byteOffset case None => |log|);
    }
  }

  /** Two answers to the same cut: both refused alike, or at corresponding positions past `k`. */
  predicate CutsAgree(z: Kind, log: seq<Bytes>, k: nat, r: Result<ForkPoint, Error>, ru: Result<ForkPoint, Error>) {
    match (r, ru)
    case (Ok(cut), Ok(cutu)) =>
      && cut.prefix == cutu.prefix
      && cutu.offset.readSeq == 0 && k <= cutu.offset.byteOffset <= |log|
      && cut.offset == At(z, log, cutu.offset.byteOffset)
    case (Err(e), Err(eu)) => e == eu
    case _ => false
  }

  /** Cutting into what follows position `k` of a log gives corresponding fork points. */
  lemma {:induction false} CutSame(z: Kind, log: seq<Bytes>, k: nat, isJson: bool, sub: nat)
    requires NonEmptyParts(log) && k <= |log|
    ensures var r := CutInto(isJson, Frame(z, At(z, log, k), log[k..]), At(z, log, k), sub);
      var ru := CutInto(isJson, Frame(Unit, Offset(0, k), log[k..]), Offset(0, k), sub);
      CutsAgree(z, log, k, r, ru)
  {
    UnitTail(ZERO_OFFSET, log[..k]);
    FrameLength(z, At(z, log, k), log[k..]);
    FrameLength(Unit, Offset(0, k), log[k..]);
    if 0 < sub <= |log| - k { KthSame(z, log, k, sub - 1); }
    if k < |log| { KthSame(z, log, k, 0); }
  }

  lemma {:induction false} KthSame(z: Kind, log: seq<Bytes>, k: nat, j: nat)
    requires k + j < |log| && NonEmptyParts(log)
    ensures |Frame(z, At(z, log, k), log[k..])| == |log| - k == |Frame(Unit, Offset(0, k), log[k..])|
    ensures Frame(z, At(z, log, k), log[k..])[j] == Message(log[k + j], At(z, log, k + j + 1))
    ensures Frame(Unit, Offset(0, k), log[k..])[j] == Message(log[k + j], Offset(0, k + j + 1))
  {
    UnitTail(ZERO_OFFSET, log[..k]);
    UnitTail(ZERO_OFFSET, log[..k + j + 1]);
    FrameIndex(z, log, k, j);
    FrameIndex(Unit, log, k, j);
  }

  /** A fork without initial data refines the copy of its source's log. */
  lemma {:induction false} BlankRefines(z: Kind, log: seq<Bytes>, k: nat, j: nat, meta: Metadata, metau: Metadata,
                                        copy: seq<Message>, stamp: nat)
    requires NonEmptyParts(log) && k <= j <= |log| && copy == Frame(Unit, ZERO_OFFSET, log[..j])
    requires Erase(meta) == Erase(metau)
    requires meta.currentOffset == meta.forkOffset == At(z, log, j)
    requires metau.currentOffset == metau.forkOffset == Offset(0, j)
    requires match metau.forkOffsetRequested
      case None => meta.forkOffsetRequested == None
      case Some(r) => r == Offset(0, k) && meta.forkOffsetRequested == Some(At(z, log, k))
    ensures var base, copied := Stream(meta, [], stamp), Stream(metau, copy, stamp);
      StreamRefines(z, base, copied) && Datas(copy) == log[..j]
  {
    FrameChained(Unit, ZERO_OFFSET, log[..j]);
    UnitTail(ZERO_OFFSET, log[..j]);
    AtPrefix(z, log, j, j);
    AtPrefix(z, log, j, k);
  }

  lemma {:induction false} AtPrefix(z: Kind, log: seq<Bytes>, j: nat, i: nat)
    requires i <= j <= |log|
    ensures At(z, log[..j], i) == At(z, log, i)
  {
    assert log[..j][..i] == log[..i];
  }

  lemma {:induction false} InitialiseRefines(z: Kind, st: Stream, su: Stream, prefix: Bytes, initial: Option<Body>)
    requires StreamRefines(z, st, su)
    ensures var blank := if prefix == [] then st else Extend(z, st, [prefix]);
      var blanku := if prefix == [] then su else Extend(Unit, su, [prefix]);
      var r, ru := Initialise(z, blank, initial), Initialise(Unit, blanku, initial);
      && r.Ok? == ru.Ok? && (r.Err? ==> r.error == ru.error)
      && (r.Ok? ==> (StreamRefines(z, r.value, ru.value)
                     && SameLinks(su, ru.value) && ru.value.meta.forkOffset == su.meta.forkOffset
                     && ru.value.meta.refCount == su.meta.refCount
                     && Datas(su.messages) <= Datas(ru.value.messages)))
  {
    if prefix != [] { ExtendRefines(z, st, su, [prefix]); }
    var blank := if prefix == [] then st else Extend(z, st, [prefix]);
    var blanku := if prefix == [] then su else Extend(Unit, su, [prefix]);
    EraseFields(blank.meta, blanku.meta);
    if initial.Some? {
      var parts := Split(Text.IsJson(blank.meta.contentType), initial.value, true);
      if parts.Ok? { ExtendRefines(z, blank, blanku, parts.value); }
    }
  }

  /** The cut into the source, read through its chain and read from its copy. */
  lemma {:induction false} CutSourceSame(z: Kind, s: State, a: State, source: string, k: nat, isJson: bool, sub: nat)
    requires Inv(z, s) && Ordered(s.streams) && Refines(z, s, a) && source in s.streams
    requires k <= |Datas(a.streams[source].messages)|
    ensures var log := Datas(a.streams[source].messages);
      var r := CutInto(isJson, View(s.streams, source, At(z, log, k)), At(z, log, k), sub);
      var ru := CutInto(isJson, After(a.streams[source].messages, Offset(0, k)), Offset(0, k), sub);
      CutsAgree(z, log, k, r, ru)
  {
    var log := Datas(a.streams[source].messages);
    TailFacts(z, s, a, source);
    ViewFrom(z, s, a, source, k);
    FrameSplit(Unit, log, k);
    UnitTail(ZERO_OFFSET, log[..k]);
    CutSame(z, log, k, isJson, sub);
  }

  lemma {:induction false} SameContentType(z: Kind, s: State, a: State, p: string)
    requires Refines(z, s, a) && p in s.streams
    ensures s.streams[p].meta.contentType == a.streams[p].meta.contentType
  {
    assert Refined(z, s.streams, a.streams, p);
    EraseFields(s.streams[p].meta, a.streams[p].meta);
  }

  lemma {:induction false} NewForkRefines(z: Kind, s: State, a: State, opts: CreateOptions, concrete: CreateOptions,
                                          expired: set<string>)
    requires Inv(z, s) && Ordered(s.streams) && Refines(z, s, a) && opts.forkedFrom != ""
    requires opts.forkOffset.Some? ==> opts.forkOffset.value.readSeq == 0
    requires concrete == ConcreteOptions(z, a.streams, opts)
    ensures var r, ru := NewStream(z, s, concrete, expired), CopyFork(a, opts, expired);
      if opts.forkedFrom in a.streams then ForksAgree(z, a.streams[opts.forkedFrom], opts.forkedFrom, r, ru)
      else r == ru == Err(NotFound)
  {
    TargetSame(z, s, a, opts, concrete, expired);
    var target := ForkTarget(a.streams, opts, expired);
    if target.Ok? {
      var source := opts.forkedFrom;
      var k := target.value.byteOffset;
      assert target.value == Offset(0, k);
      var isJson := Text.IsJson(a.streams[source].meta.contentType);
      SameContentType(z, s, a, source);
      CutSourceSame(z, s, a, source, k, isJson, SubOffset(opts));
      var cut := CutInto(isJson, After(a.streams[source].messages, target.value), target.value, SubOffset(opts));
      if cut.Ok? {
        CutForkRefines(z, s, a, opts, concrete, k, cut.value);
      }
    }
  }

  /** Two new forks of the same source: refused alike, or one refining the other. */
  predicate ForksAgree(z: Kind, source: Stream, path: string, r: Result<Stream, Error>, ru: Result<Stream, Error>) {
    match (r, ru)
    case (Ok(st), Ok(su)) => StreamRefines(z, st, su) && ForkOf(source, path, su)
    case (Err(e), Err(eu)) => e == eu
    case _ => false
  }

  /** `su` starts with a copy of the source's log up to its fork point. */
  predicate ForkOf(source: Stream, path: string, su: Stream) {
    var log, k := Datas(su.messages), su.meta.forkOffset.byteOffset;
    && su.meta.forkedFrom == path
    && su.meta.refCount == 0
    && k <= |Datas(source.messages)| && k <= |log|
    && log[..k] == Datas(source.messages)[..k]
  }

  lemma {:induction false} ForkMetaSame(opts: CreateOptions, concrete: CreateOptions, source: Metadata,
                                        sourceu: Metadata, at: Offset, atu: Offset)
    requires Erase(source) == Erase(sourceu) && concrete == opts.(forkOffset := concrete.forkOffset)
    ensures Erase(ForkMeta(concrete, source, at)) == Erase(ForkMeta(opts, sourceu, atu))
  {
    EraseFields(source, sourceu);
  }

  lemma {:induction false} CutForkRefines(z: Kind, s: State, a: State, opts: CreateOptions, concrete: CreateOptions,
                                          k: nat, cut: ForkPoint)
    requires Inv(z, s) && Refines(z, s, a) && opts.forkedFrom != "" && opts.forkedFrom in a.streams
    requires opts.forkOffset.Some? ==> opts.forkOffset.value == Offset(0, k)
    requires concrete == ConcreteOptions(z, a.streams, opts)
    requires var log := Datas(a.streams[opts.forkedFrom].messages);
      k <= cut.offset.byteOffset <= |log| && cut.offset.readSeq == 0
    ensures var source := a.streams[opts.forkedFrom];
      var at := At(z, Datas(source.messages), cut.offset.byteOffset);
      var r := Initialise(z, Blank(z, ForkMeta(concrete, s.streams[opts.forkedFrom].meta, at), cut.prefix, s.clock),
                          opts.initialData);
      var copy := Stream(ForkMeta(opts, source.meta, cut.offset), UpTo(source.messages, cut.offset), a.clock);
      var blank := if cut.prefix == [] then copy else Extend(Unit, copy, [cut.prefix]);
      var ru := Initialise(Unit, blank, opts.initialData);
      ForksAgree(z, source, opts.forkedFrom, r, ru)
  {
    var source := a.streams[opts.forkedFrom];
    TailFacts(z, s, a, opts.forkedFrom);
    var log, j := Datas(source.messages), cut.offset.byteOffset;
    UnitTail(ZERO_OFFSET, log[..j]);
    FrameSplit(Unit, log, j);
    var meta, metau := ForkMeta(concrete, s.streams[opts.forkedFrom].meta, At(z, log, j)),
                       ForkMeta(opts, source.meta, cut.offset);
    ForkMetaSame(opts, concrete, s.streams[opts.forkedFrom].meta, source.meta, At(z, log, j), cut.offset);
    var copy := UpTo(source.messages, cut.offset);
    BlankRefines(z, log, k, j, meta, metau, copy, s.clock);
    LaunchCopy(z, meta, metau, copy, s.clock, cut.prefix, opts.initialData, source, opts.forkedFrom);
  }

  lemma {:induction false} LaunchCopy(z: Kind, meta: Metadata, metau: Metadata, copy: seq<Message>, stamp: nat,
                                      prefix: Bytes, initial: Option<Body>, source: Stream, path: string)
    requires StreamRefines(z, Stream(meta, [], stamp), Stream(metau, copy, stamp))
    requires ForkOf(source, path, Stream(metau, copy, stamp))
    ensures var r := Initialise(z, Blank(z, meta, prefix, stamp), initial);
      var copied := Stream(metau, copy, stamp);
      var ru := Initialise(Unit, if prefix == [] then copied else Extend(Unit, copied, [prefix]), initial);
      ForksAgree(z, source, path, r, ru)
  {
    var copied := Stream(metau, copy, stamp);
    InitialiseRefines(z, Stream(meta, [], stamp), copied, prefix, initial);
    var ru := Initialise(Unit, if prefix == [] then copied else Extend(Unit, copied, [prefix]), initial);
    if ru.Ok? {
      var k := metau.forkOffset.byteOffset;
      assert Datas(ru.value.messages)[..k] == Datas(copy)[..k];
    }
  }

  lemma {:induction false} InsertRefines(z: Kind, s: State, a: State, path: string, st: Stream, su: Stream)
    requires Inv(z, s) && Refines(z, s, a) && path !in s.streams
    requires StreamRefines(z, st, su)
    requires st.meta.forkedFrom == su.meta.forkedFrom
    requires if su.meta.forkedFrom == "" then su.meta.forkOffset == ZERO_OFFSET
      else su.meta.forkedFrom in a.streams && ForkOf(a.streams[su.meta.forkedFrom], su.meta.forkedFrom, su)
    ensures Refines(z, State(Insert(s.streams, path, st), s.clock + 1), State(Insert(a.streams, path, su), a.clock + 1))
  {
    var m, mu := Insert(s.streams, path, st), Insert(a.streams, path, su);
    forall q | q in m ensures Refined(z, m, mu, q) {
      if q != path { InsertOther(z, s, a, path, st, su, q); }
    }
  }

  lemma {:induction false} CountRefines(z: Kind, st: Stream, su: Stream, n: int)
    requires StreamRefines(z, st, su)
    ensures StreamRefines(z, WithRefCount(st, n), WithRefCount(su, n))
  {
    assert Erase(WithRefCount(st, n).meta) == Erase(st.meta).(refCount := n);
    assert Erase(WithRefCount(su, n).meta) == Erase(su.meta).(refCount := n);
  }

  lemma {:induction false} InsertCopied(a: Streams, path: string, su: Stream, q: string)
    requires path !in a && q in a && Copied(a, q)
    requires a[q].meta.forkedFrom == "" || a[q].meta.forkedFrom in a
    ensures Copied(Insert(a, path, su), q)
  {
  }

  /** Inserting changes another stream in its count only. */
  lemma {:induction false} InsertKeepsOther(m: Streams, path: string, st: Stream, q: string)
    requires path !in m && q in m
    ensures path in Insert(m, path, st) && q in Insert(m, path, st)
    ensures Insert(m, path, st)[q]
      == if q == st.meta.forkedFrom && q != "" then WithRefCount(m[q], m[q].meta.refCount + 1) else m[q]
  {
  }

  lemma {:induction false} InsertOther(z: Kind, s: State, a: State, path: string, st: Stream, su: Stream, q: string)
    requires Inv(z, s) && Refines(z, s, a) && path !in s.streams && q in s.streams
    requires st.meta.forkedFrom == su.meta.forkedFrom
    ensures Refined(z, Insert(s.streams, path, st), Insert(a.streams, path, su), q)
  {
    assert LinkOk(s.streams, q);
    assert Refined(z, s.streams, a.streams, q);
    RefinesSameGraph(z, s, a);
    assert SameNode(s.streams, a.streams, q);
    InsertKeepsOther(s.streams, path, st, q);
    InsertKeepsOther(a.streams, path, su, q);
    InsertCopied(a.streams, path, su, q);
    if q == st.meta.forkedFrom && q != "" {
      CountRefines(z, s.streams[q], a.streams[q], s.streams[q].meta.refCount + 1);
    }
  }

  lemma {:induction false} RootRefines(z: Kind, opts: CreateOptions, stamp: nat)
    ensures var r := Initialise(z, Blank(z, RootMeta(opts), [], stamp), opts.initialData);
      var ru := Initialise(Unit, Blank(Unit, RootMeta(opts), [], stamp), opts.initialData);
      && r.Ok? == ru.Ok? && (r.Err? ==> r.error == ru.error)
      && (ru.Ok? ==> StreamRefines(z, r.value, ru.value) && ru.value.meta.forkedFrom == ""
                     && ru.value.meta.forkOffset == ZERO_OFFSET)
  {
    var base := Stream(RootMeta(opts), [], stamp);
    assert At(z, [], 0) == ZERO_OFFSET;
    assert StreamRefines(z, base, base);
    InitialiseRefines(z, base, base, [], opts.initialData);
  }

  lemma {:induction false} RootLaunchRefines(z: Kind, streams: map<string, Stream>, s1: State, a1: State, path: string,
                                             opts: CreateOptions, expired: set<string>)
    requires Inv(z, s1) && Ordered(s1.streams) && Refines(z, s1, a1) && path !in s1.streams && opts.forkedFrom == ""
    ensures var st := NewStream(z, s1, ConcreteOptions(z, streams, opts), expired);
      var su := Initialise(Unit, Blank(Unit, RootMeta(opts), [], a1.clock), opts.initialData);
      && st.Ok? == su.Ok? && (st.Err? ==> st.error == su.error)
      && (su.Ok? ==> Refines(z, State(Insert(s1.streams, path, st.value), s1.clock + 1),
                                State(Insert(a1.streams, path, su.value), a1.clock + 1)))
  {
    RootRefines(z, opts, s1.clock);
    var st := NewStream(z, s1, ConcreteOptions(z, streams, opts), expired);
    var su := Initialise(Unit, Blank(Unit, RootMeta(opts), [], a1.clock), opts.initialData);
    if su.Ok? {
      EraseFields(st.value.meta, su.value.meta);
      InsertRefines(z, s1, a1, path, st.value, su.value);
    }
  }

  /** Creating a stream on the store and on the simple log. */
  lemma {:induction false} CreateRefines(z: Kind, s: State, a: State, path: string, opts: CreateOptions,
                                         expired: set<string>)
    requires Inv(z, s) && Ordered(s.streams) && Refines(z, s, a)
    requires opts.forkOffset.Some? ==> opts.forkOffset.value.readSeq == 0
    ensures var r := Create(z, s, path, ConcreteOptions(z, a.streams, opts), expired);
      var ru := SimpleCreate(a, path, opts, expired);
      Refines(z, r.0, ru.0) && r.1 == ru.1
  {
    var concrete := ConcreteOptions(z, a.streams, opts);
    ReclaimRefines(z, s, a, path, opts, expired);
    ReclaimOk(z, s, path, concrete, expired);
    var (m, claim) := Reclaim(s.streams, path, concrete, expired);
    var (mu, claimu) := Reclaim(a.streams, path, opts, expired);
    var s1, a1 := s.(streams := m), a.(streams := mu);
    if claim.Free? {
      if opts.forkedFrom == "" {
        RootLaunchRefines(z, a.streams, s1, a1, path, opts, expired);
      } else {
        ForkLaunchRefines(z, s, a, s1, a1, path, opts, expired);
      }
    }
  }

  lemma {:induction false} ForkLaunchRefines(z: Kind, s: State, a: State, s1: State, a1: State, path: string,
                                             opts: CreateOptions, expired: set<string>)
    requires Inv(z, s1) && Ordered(s1.streams) && Refines(z, s1, a1) && path !in s1.streams && opts.forkedFrom != ""
    requires opts.forkOffset.Some? ==> opts.forkOffset.value.readSeq == 0
    requires a1.streams == Reclaim(a.streams, path, opts, expired).0
    ensures var concrete := ConcreteOptions(z, a.streams, opts);
      var st, su := NewStream(z, s1, concrete, expired), CopyFork(a1, opts, expired);
      && st.Ok? == su.Ok? && (st.Err? ==> st.error == su.error)
      && (su.Ok? ==> Refines(z, State(Insert(s1.streams, path, st.value), s1.clock + 1),
                                State(Insert(a1.streams, path, su.value), a1.clock + 1)))
  {
    var concrete := ConcreteOptions(z, a.streams, opts);
    if opts.forkedFrom in a1.streams {
      ReclaimContent(a.streams, path, opts, expired, opts.forkedFrom);
      assert concrete == ConcreteOptions(z, a1.streams, opts);
      NewForkRefines(z, s1, a1, opts, concrete, expired);
      var st, su := NewStream(z, s1, concrete, expired), CopyFork(a1, opts, expired);
      if su.Ok? {
        EraseFields(st.value.meta, su.value.meta);
        InsertRefines(z, s1, a1, path, st.value, su.value);
      }
    }
  }

  // ---- Runs ----

  lemma {:induction false} ReadRefines(z: Kind, s: State, a: State, path: string, expired: set<string>)
    requires Inv(z, s) && Ordered(s.streams) && Refines(z, s, a)
    ensures Refines(z, MarkExpired(s, path, expired), MarkExpired(a, path, expired))
  {
    RefinesSameGraph(z, s, a);
    if path in s.streams {
      assert SameNode(s.streams, a.streams, path);
      if path in expired && s.streams[path].meta.refCount > 0 { SoftDeleteRefines(z, s, a, path); }
    }
  }

  lemma {:induction false} StepRefines(z: Kind, s: State, a: State, e: Event)
    requires Inv(z, s) && Ordered(s.streams) && Refines(z, s, a) && Countable(e)
    ensures Refines(z, Step(z, s, ConcreteEvent(z, a.streams, e)), SimpleStep(Sweeps(z), a, e))
  {
    match e.op {
      case CreateOp(path, opts) => CreateRefines(z, s, a, path, opts, e.expired);
      case AppendOp(path, body, opts) => AppendRefines(z, s, a, path, body, opts, e.expired);
      case CloseOp(path) => CloseRefines(z, s, a, path, e.expired);
      case CloseProducerOp(path, id, epoch, seqNo) =>
        CloseWithProducerRefines(z, s, a, path, id, epoch, seqNo, e.expired);
      case DeleteOp(path) => DeleteRefines(z, s, a, path);
      case ReadOp(path, from) => ReadRefines(z, s, a, path, e.expired);
      case SweepOp(victims) => SweepRefines(z, s, a, victims);
    }
  }

  function SimpleRun(sweeps: bool, a: State, events: seq<Event>): State
    decreases events
  {
    if events == [] then a else SimpleRun(sweeps, SimpleStep(sweeps, a, events[0]), events[1..])
  }

  /** The store's run on the same calls, with message counts turned into offsets the store returned. */
  ghost function StoreRun(z: Kind, s: State, a: State, events: seq<Event>): (s': State)
    requires Inv(z, s) && Refines(z, s, a)
    requires forall i :: 0 <= i < |events| ==> Countable(events[i])
    ensures Inv(z, s') && Ordered(s'.streams) && Refines(z, s', SimpleRun(Sweeps(z), a, events))
    decreases events
  {
    GraphOrdered(s.streams);
    if events == [] then s
    else
      var e := ConcreteEvent(z, a.streams, events[0]);
      StepOk(z, s, e);
      StepRefines(z, s, a, events[0]);
      StoreRun(z, Step(z, s, e), SimpleStep(Sweeps(z), a, events[0]), events[1..])
  }

  lemma {:induction false} EmptyOk(z: Kind)
    ensures Inv(z, EMPTY_STATE) && Refines(z, EMPTY_STATE, EMPTY_STATE)
  {
  }

  /** A new store of the given kind after these calls. */
  ghost function StoreAfter(z: Kind, events: seq<Event>): (s: State)
    requires forall j :: 0 <= j < |events| ==> Countable(events[j])
    ensures Inv(z, s) && Ordered(s.streams) && Refines(z, s, SimpleRun(Sweeps(z), EMPTY_STATE, events))
  {
    EmptyOk(z);
    StoreRun(z, EMPTY_STATE, EMPTY_STATE, events)
  }

  /**
   * After any calls at all, a store of any kind holds exactly the streams of the simple log, and reading a
   * stream from the offset of its `i`-th message returns the simple log's payloads from the `i`-th on.
   */
  lemma {:induction false} RunRefines(z: Kind, events: seq<Event>, path: string, i: nat)
    requires forall j :: 0 <= j < |events| ==> Countable(events[j])
    ensures var a := SimpleRun(Sweeps(z), EMPTY_STATE, events);
      var s := StoreAfter(z, events);
      && s.streams.Keys == a.streams.Keys
      && (path in a.streams && i <= |Datas(a.streams[path].messages)| ==>
        Datas(View(s.streams, path, At(z, Datas(a.streams[path].messages), i))) == SimpleRead(a, path, i))
  {
    var a := SimpleRun(Sweeps(z), EMPTY_STATE, events);
    if path in a.streams && i <= |Datas(a.streams[path].messages)| { ViewFrom(z, StoreAfter(z, events), a, path, i); }
  }
}
