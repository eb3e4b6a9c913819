/**
 * The file store refuses messages over the size limit of a frame. Calls on it, as its methods specify them, refine the
 * simple log with the same limit.
 */
module FileRefinement {
  import opened Wrappers
  import opened Offsets
  import opened StoreTypes
  import opened StreamStore
  import opened Logs
  import opened StoreInvariant
  import opened Framing
  import opened SimpleLog
  import opened Refinement
  import opened RefinementSteps
  import opened RefinementRuns
  import opened FileLayouts
  import opened ChainReads
  import opened FileCreation
  import FileStores
  import Segments
  import Text

  // ---- The size limit ----

  /** A creation that succeeds where there is no limit, with a message over the limit in its data. */
  predicate OversizeCreate(a: State, path: string, opts: CreateOptions, expired: set<string>) {
    var r := SimpleCreate(a, path, opts, expired);
    r.1 == Ok(true) && path in r.0.streams && !InitialFits(r.0.streams[path].meta.contentType, opts.initialData)
  }

  /** A call that the file store refuses for its size alone. */
  predicate Oversize(a: State, e: Event) {
    match e.op
    case CreateOp(path, opts) => OversizeCreate(a, path, opts, e.expired)
    case AppendOp(path, body, opts) => FileStores.TooLarge(a, path, body, opts, e.expired).Some?
    case _ => false
  }

  /** A call on the simple log with the limit: a creation over it only makes room, an append over it does nothing. */
  function LimitedStep(a: State, e: Event): State {
    if !Oversize(a, e) then SimpleStep(true, a, e)
    else match e.op
      case CreateOp(path, opts) => a.(streams := Reclaim(a.streams, path, opts, e.expired).0)
      case _ => a
  }

  function LimitedRun(a: State, events: seq<Event>): State
    decreases events
  {
    if events == [] then a else LimitedRun(LimitedStep(a, events[0]), events[1..])
  }

  /**
   * What a call makes of the state the file store stands for, by the contracts of its methods. An append over the limit
   * leaves that state as it is, though perhaps not the segment.
   */
  ghost function FileStep(s: State, e: Event): State
    requires Ordered(s.streams) && AllFit(s.streams)
  {
    match e.op
    case CreateOp(path, opts) => FileCreate(s, path, opts, e.expired).0
    case AppendOp(path, body, opts) =>
      if FileStores.TooLarge(s, path, body, opts, e.expired).Some? then s
      else Append(FILE, s, path, body, opts, e.expired).0
    case _ => Step(FILE, s, e)
  }

  // ---- Positions of the log are boundaries ----

  lemma {:induction false} OwnPosition(st: Stream, log: seq<Bytes>, j: nat, k: nat)
    requires j < k <= |log| && st.messages == Frame(FILE, At(FILE, log, j), log[j..])
    ensures OwnBoundary(st, At(FILE, log, k))
  {
    FrameIndex(FILE, log, j, k - j - 1);
    assert st.messages[k - j - 1].offset == At(FILE, log, k);
  }

  /** Every position of a stream's log is a boundary of the stream. */
  lemma {:induction false} PositionIsBoundary(s: State, a: State, p: string, k: nat)
    requires Inv(FILE, s) && Ordered(s.streams) && Refines(FILE, s, a) && p in s.streams
    requires k <= |Datas(a.streams[p].messages)|
    ensures Boundary(s.streams, p, At(FILE, Datas(a.streams[p].messages), k))
    decreases s.streams[p].created
  {
    assert StreamOk(FILE, s, p) && Refined(FILE, s.streams, a.streams, p) && Younger(s.streams, p);
    var st, su := s.streams[p], a.streams[p];
    var log, j := Datas(su.messages), su.meta.forkOffset.byteOffset;
    LogFacts(FILE, st, su);
    EraseFields(st.meta, su.meta);
    AtInjective(FILE, log, k, j);
    AtMonotone(FILE, log, k, |log|);
    if k > j {
      OwnPosition(st, log, j, k);
    } else if k < j && st.meta.forkedFrom != "" && st.meta.forkedFrom in s.streams {
      var source := Datas(a.streams[st.meta.forkedFrom].messages);
      AtCopied(FILE, log, source, j, k);
      PositionIsBoundary(s, a, st.meta.forkedFrom, k);
    }
  }

  /** A fork at a message count asks at a boundary. */
  lemma {:induction false} CountsAskAtBoundary(s: State, a: State, opts: CreateOptions)
    requires Inv(FILE, s) && Ordered(s.streams) && Refines(FILE, s, a)
    ensures AsksAtBoundary(s.streams, ConcreteOptions(FILE, a.streams, opts))
  {
    var source := opts.forkedFrom;
    if source in s.streams && opts.forkOffset.Some? {
      var log, k := Datas(a.streams[source].messages), opts.forkOffset.value.byteOffset;
      if k <= |log| { PositionIsBoundary(s, a, source, k); } else { PastTheTail(s, a, source); }
    }
  }

  lemma {:induction false} PastTheTail(s: State, a: State, p: string)
    requires Inv(FILE, s) && Ordered(s.streams) && Refines(FILE, s, a) && p in s.streams
    ensures var log := Datas(a.streams[p].messages);
      Boundary(s.streams, p, Add(At(FILE, log, |log|), 1))
  {
    assert StreamOk(FILE, s, p);
    TailFacts(FILE, s, a, p);
    var st := s.streams[p];
    ChainedBounds(FILE, st.meta.forkOffset, st.messages, st.meta.currentOffset);
  }

  // ---- Creating and appending ----

  lemma {:induction false} FreeSucceeds(a: State, path: string, opts: CreateOptions, expired: set<string>)
    requires SimpleCreate(a, path, opts, expired).1 == Ok(true)
    ensures Reclaim(a.streams, path, opts, expired).1.Free? && path in SimpleCreate(a, path, opts, expired).0.streams
  {
  }

  /** Creating a stream in the file store and on the simple log with the limit. */
  lemma {:induction false} FileCreateRefines(s: State, a: State, path: string, opts: CreateOptions,
                                             expired: set<string>)
    requires Inv(FILE, s) && Ordered(s.streams) && AllFit(s.streams) && Refines(FILE, s, a)
    requires opts.forkOffset.Some? ==> opts.forkOffset.value.readSeq == 0
    ensures var r := FileCreate(s, path, ConcreteOptions(FILE, a.streams, opts), expired);
      var ru := SimpleCreate(a, path, opts, expired);
      if OversizeCreate(a, path, opts, expired)
      then r.1 == Err(MessageTooLarge) && Refines(FILE, r.0, a.(streams := Reclaim(a.streams, path, opts, expired).0))
      else r.1 == ru.1 && Refines(FILE, r.0, ru.0)
  {
    var concrete := ConcreteOptions(FILE, a.streams, opts);
    CountsAskAtBoundary(s, a, opts);
    FileCreateAtBoundary(s, path, concrete, expired);
    CreateRefines(FILE, s, a, path, opts, expired);
    ReclaimRefines(FILE, s, a, path, opts, expired);
    CreateSizedCases(s, path, concrete, expired);
    var r, ru := Create(FILE, s, path, concrete, expired), SimpleCreate(a, path, opts, expired);
    if ru.1 == Ok(true) {
      FreeSucceeds(a, path, opts, expired);
      SameContentType(FILE, r.0, ru.0, path);
    }
  }

  lemma {:induction false} TooLargeSame(s: State, a: State, path: string, body: Body, opts: AppendOptions,
                                        expired: set<string>)
    requires Refines(FILE, s, a)
    ensures FileStores.TooLarge(s, path, body, opts, expired) == FileStores.TooLarge(a, path, body, opts, expired)
  {
    if path in s.streams {
      assert Refined(FILE, s.streams, a.streams, path);
      AdmitSame(s.streams[path].meta, a.streams[path].meta, path in expired, body, opts);
    }
  }

  // ---- Messages keep fitting ----

  lemma {:induction false} FitsBoth(a: seq<Bytes>, b: seq<Bytes>)
    requires Segments.Fits(a) && Segments.Fits(b)
    ensures Segments.Fits(a + b)
  {
  }

  lemma {:induction false} UpdateFit(m: Streams, p: string, st: Stream)
    requires AllFit(m) && Segments.Fits(Datas(st.messages))
    ensures AllFit(m[p := st])
  {
    var m' := m[p := st];
    forall q | q in m' ensures OwnFit(m', q) {
      if q != p { assert OwnFit(m, q); }
    }
  }

  lemma {:induction false} ExtendFit(st: Stream, parts: seq<Bytes>)
    requires Segments.Fits(Datas(st.messages)) && NonEmptyParts(parts) && Segments.Fits(parts)
    ensures Segments.Fits(Datas(Extend(FILE, st, parts).messages))
  {
    ExtendOwn(FILE, st, parts);
    FitsBoth(Datas(st.messages), parts);
  }

  lemma {:induction false} InitialiseFit(meta: Metadata, prefix: Bytes, stamp: nat, initial: Option<Body>)
    requires |prefix| <= Segments.MAX_MESSAGE_SIZE
    ensures var st := InitialiseSized(Blank(FILE, meta, prefix, stamp), initial);
      st.Ok? ==> Segments.Fits(Datas(st.value.messages))
  {
    var base, blank := Stream(meta, [], stamp), Blank(FILE, meta, prefix, stamp);
    if prefix != [] { ExtendFit(base, [prefix]); }
    if initial.Some? {
      var parts := Split(Text.IsJson(blank.meta.contentType), initial.value, true);
      if parts.Ok? && Segments.Fits(parts.value) { ExtendFit(blank, parts.value); }
    }
  }

  lemma {:induction false} FileLaunchFit(s: State, path: string, opts: CreateOptions, expired: set<string>)
    requires Inv(FILE, s) && Ordered(s.streams) && AllFit(s.streams)
    ensures AllFit(FileLaunch(s, path, opts, expired).0.streams)
  {
    if opts.forkedFrom == "" {
      LaunchRoot(s, path, opts, expired);
      InitialiseFit(RootMeta(opts), [], s.clock, opts.initialData);
      var st := InitialiseSized(Blank(FILE, RootMeta(opts), [], s.clock), opts.initialData);
      if st.Ok? { UpdateFit(s.streams, path, st.value); }
    } else {
      FileForkOk(s, opts, expired);
      var fork := FileFork(s.streams, opts, expired);
      if fork.Ok? { LaunchedForkFit(s, path, opts, fork.value); }
    }
  }

  lemma {:induction false} LaunchedForkFit(s: State, path: string, opts: CreateOptions, fork: ForkPoint)
    requires AllFit(s.streams) && opts.forkedFrom in s.streams && |fork.prefix| <= Segments.MAX_MESSAGE_SIZE
    ensures AllFit(LaunchedFork(s, path, opts, fork).0.streams)
  {
    var source := s.streams[opts.forkedFrom];
    var counted := WithRefCount(source, source.meta.refCount + 1);
    assert OwnFit(s.streams, opts.forkedFrom);
    UpdateFit(s.streams, opts.forkedFrom, counted);
    var meta := ForkMeta(opts, source.meta, fork.offset);
    InitialiseFit(meta, fork.prefix, s.clock, opts.initialData);
    var st := InitialiseSized(Blank(FILE, meta, fork.prefix, s.clock), opts.initialData);
    if st.Ok? { UpdateFit(s.streams[opts.forkedFrom := counted], path, st.value); }
  }

  lemma {:induction false} FileCreateFit(s: State, path: string, opts: CreateOptions, expired: set<string>)
    requires Inv(FILE, s) && Ordered(s.streams) && AllFit(s.streams)
    ensures AllFit(FileCreate(s, path, opts, expired).0.streams)
  {
    var (m, claim) := Reclaim(s.streams, path, opts, expired);
    ReclaimOk(FILE, s, path, opts, expired);
    ReclaimFit(s.streams, path, opts, expired);
    if claim.Free? { FileLaunchFit(s.(streams := m), path, opts, expired); }
  }

  lemma {:induction false} AppendFit(s: State, path: string, body: Body, opts: AppendOptions, expired: set<string>)
    requires AllFit(s.streams) && FileStores.TooLarge(s, path, body, opts, expired).None?
    ensures AllFit(Append(FILE, s, path, body, opts, expired).0.streams)
  {
    if path in s.streams && !(HasProducerHeaders(opts) && !HasAllProducerHeaders(opts)) {
      var st := s.streams[path];
      assert OwnFit(s.streams, path);
      var admission := AdmitAppend(st.meta, path in expired, body, opts);
      if admission.Admit? {
        ExtendFit(st, admission.parts);
        UpdateFit(s.streams, path, Commit(FILE, st, admission.parts, opts, admission.verdict.state));
      }
    }
  }

  /** Calls that add no message keep what there is fitting. */
  lemma {:induction false} PlainFit(s: State, e: Event)
    requires AllFit(s.streams) && Ordered(s.streams) && !e.op.CreateOp? && !e.op.AppendOp?
    ensures AllFit(Step(FILE, s, e).streams)
  {
    var left := Step(FILE, s, e).streams;
    forall q | q in left ensures OwnFit(left, q) {
      match e.op {
        case DeleteOp(path) => if q in Cascade(s.streams, path).0 { CascadeContent(s.streams, path, q); }
        case SweepOp(victims) => SweepContent(s.streams, victims, q);
        case _ =>
      }
      assert OwnFit(s.streams, q);
    }
  }

  // ---- Runs ----

  lemma {:induction false} FileStepOk(s: State, e: Event)
    requires Inv(FILE, s) && Ordered(s.streams) && AllFit(s.streams)
    ensures Inv(FILE, FileStep(s, e)) && Ordered(FileStep(s, e).streams) && AllFit(FileStep(s, e).streams)
  {
    match e.op {
      case CreateOp(path, opts) =>
        FileCreateOk(s, path, opts, e.expired);
        FileCreateFit(s, path, opts, e.expired);
      case AppendOp(path, body, opts) =>
        if FileStores.TooLarge(s, path, body, opts, e.expired).None? {
          AppendFit(s, path, body, opts, e.expired);
          AppendOk(FILE, s, path, body, opts, e.expired);
        }
      case _ =>
        PlainFit(s, e);
        StepOk(FILE, s, e);
    }
    GraphOrdered(FileStep(s, e).streams);
  }

  lemma {:induction false} FileStepRefines(s: State, a: State, e: Event)
    requires Inv(FILE, s) && Ordered(s.streams) && AllFit(s.streams) && Refines(FILE, s, a) && Countable(e)
    ensures Refines(FILE, FileStep(s, ConcreteEvent(FILE, a.streams, e)), LimitedStep(a, e))
  {
    match e.op {
      case CreateOp(path, opts) => FileCreateRefines(s, a, path, opts, e.expired);
      case AppendOp(path, body, opts) =>
        TooLargeSame(s, a, path, body, opts, e.expired);
        AppendRefines(FILE, s, a, path, body, opts, e.expired);
      case _ => StepRefines(FILE, s, a, e);
    }
  }

  /** The file store's run, with message counts turned into offsets it returned. */
  ghost function FileRun(s: State, a: State, events: seq<Event>): (s': State)
    requires Inv(FILE, s) && Ordered(s.streams) && AllFit(s.streams) && Refines(FILE, s, a)
    requires forall i :: 0 <= i < |events| ==> Countable(events[i])
    ensures Inv(FILE, s') && Ordered(s'.streams) && AllFit(s'.streams) && Refines(FILE, s', LimitedRun(a, events))
    decreases events
  {
    if events == [] then s
    else
      var e := ConcreteEvent(FILE, a.streams, events[0]);
      FileStepOk(s, e);
      FileStepRefines(s, a, events[0]);
      FileRun(FileStep(s, e), LimitedStep(a, events[0]), events[1..])
  }

  /** A new file store after these calls. */
  ghost function FileAfter(events: seq<Event>): (s: State)
    requires forall j :: 0 <= j < |events| ==> Countable(events[j])
    ensures Inv(FILE, s) && Ordered(s.streams) && AllFit(s.streams)
    ensures Refines(FILE, s, LimitedRun(EMPTY_STATE, events))
  {
    EmptyOk(FILE);
    FileRun(EMPTY_STATE, EMPTY_STATE, events)
  }

  /** No append is refused after some of its messages were written already. */
  predicate NothingLeft(a: State, events: seq<Event>)
    decreases events
  {
    events == [] || (LeavesNothing(a, events[0]) && NothingLeft(LimitedStep(a, events[0]), events[1..]))
  }

  predicate LeavesNothing(a: State, e: Event) {
    e.op.AppendOp? ==>
      match FileStores.TooLarge(a, e.op.path, e.op.body, e.op.append, e.expired)
      case None => true
      case Some(parts) => Segments.Fitting(parts) == 0
  }

  /**
   * After any calls that leave no frames of a refused append behind, the file store holds exactly the streams of the
   * simple log with the limit, and a read of its segments from the offset of the `i`-th message succeeds and returns
   * the payloads from the `i`-th on.
   */
  lemma {:induction false} FileRunRefines(events: seq<Event>, path: string, i: nat)
    requires forall j :: 0 <= j < |events| ==> Countable(events[j])
    requires NothingLeft(EMPTY_STATE, events)
    ensures var a, s := LimitedRun(EMPTY_STATE, events), FileAfter(events);
      && s.streams.Keys == a.streams.Keys
      && (path in a.streams && i <= |Datas(a.streams[path].messages)| ==>
        var r := ChainRead(s.streams, path, At(FILE, Datas(a.streams[path].messages), i));
        r.Ok? && Datas(r.value) == SimpleRead(a, path, i))
  {
    var a, s := LimitedRun(EMPTY_STATE, events), FileAfter(events);
    if path in a.streams && i <= |Datas(a.streams[path].messages)| {
      PositionIsBoundary(s, a, path, i);
      ChainAtBoundary(s, path, At(FILE, Datas(a.streams[path].messages), i));
      ViewFrom(FILE, s, a, path, i);
    }
  }
}
