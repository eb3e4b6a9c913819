/** What the file store makes of a Create, as values: fork points as its reads find them, and data that may not fit. */
module FileCreation {
  import opened Wrappers
  import opened Offsets
  import opened StoreTypes
  import opened StreamStore
  import opened StoreInvariant
  import opened FileLayouts
  import opened ChainReads
  import Segments
  import Text

  /** Every message a body becomes is within the size limit of one frame. */
  predicate BodyFits(contentType: string, body: Body, allowEmpty: bool) {
    var split := Split(Text.IsJson(contentType), body, allowEmpty);
    split.Ok? ==> Segments.Fits(split.value)
  }

  /** The initial data of a stream of this content type fits, or there is none. */
  predicate InitialFits(contentType: string, initial: Option<Body>) {
    initial.Some? ==> BodyFits(contentType, initial.value, true)
  }

  /** A new stream with its initial data; none when a message of the data is over the size limit. */
  function InitialiseSized(blank: Stream, initial: Option<Body>): Result<Stream, Error> {
    var st := Initialise(FILE, blank, initial);
    if st.Ok? && !InitialFits(blank.meta.contentType, initial) then Err(MessageTooLarge) else st
  }

  function LaunchSized(s: State, path: string, opts: CreateOptions, expired: set<string>): (State, Result<bool, Error>)
    requires Ordered(s.streams)
  {
    var st := NewStream(FILE, s, opts, expired);
    if st.Ok? && !InitialFits(st.value.meta.contentType, opts.initialData) then (s, Err(MessageTooLarge))
    else Launch(FILE, s, path, opts, expired)
  }

  /** Creation as specified, but for initial data that does not fit: then only room is made at the path. */
  function CreateSized(s: State, path: string, opts: CreateOptions, expired: set<string>): (State, Result<bool, Error>)
    requires Ordered(s.streams)
  {
    var (m, claim) := Reclaim(s.streams, path, opts, expired);
    if claim.Settled? then (s.(streams := m), claim.outcome)
    else LaunchSized(s.(streams := m), path, opts, expired)
  }

  /** That is the specified creation, unless it would succeed with a message over the limit. */
  lemma {:induction false} CreateSizedCases(s: State, path: string, opts: CreateOptions, expired: set<string>)
    requires Ordered(s.streams)
    ensures var r := Create(FILE, s, path, opts, expired);
      var large := r.1 == Ok(true) && path in r.0.streams
        && !InitialFits(r.0.streams[path].meta.contentType, opts.initialData);
      CreateSized(s, path, opts, expired) ==
        if large then (s.(streams := Reclaim(s.streams, path, opts, expired).0), Err(MessageTooLarge)) else r
  {
  }

  /** What placing a new stream in `counted` makes of `s`, or `s` itself when there is none. */
  function Placed(s: State, counted: State, path: string, st: Result<Stream, Error>): (State, Result<bool, Error>) {
    match st
    case Err(e) => (s, Err(e))
    case Ok(st) => (State(counted.streams[path := st], s.clock + 1), Ok(true))
  }

  function LaunchedFork(s: State, path: string, opts: CreateOptions, fork: ForkPoint): (State, Result<bool, Error>)
    requires opts.forkedFrom in s.streams
  {
    var source := s.streams[opts.forkedFrom].meta;
    var counted := s.(streams := SetRefCount(s.streams, opts.forkedFrom, source.refCount + 1));
    Placed(s, counted, path,
           InitialiseSized(Blank(FILE, ForkMeta(opts, source, fork.offset), fork.prefix, s.clock), opts.initialData))
  }

  lemma {:induction false} InitialisedType(blank: Stream, initial: Option<Body>)
    requires Initialise(FILE, blank, initial).Ok?
    ensures Initialise(FILE, blank, initial).value.meta.contentType == blank.meta.contentType
    ensures Initialise(FILE, blank, initial).value.meta.forkedFrom == blank.meta.forkedFrom
  {
  }

  lemma {:induction false} LaunchRoot(s: State, path: string, opts: CreateOptions, expired: set<string>)
    requires Ordered(s.streams) && opts.forkedFrom == ""
    ensures LaunchSized(s, path, opts, expired) ==
      Placed(s, s, path, InitialiseSized(Blank(FILE, RootMeta(opts), [], s.clock), opts.initialData))
  {
    var blank := Blank(FILE, RootMeta(opts), [], s.clock);
    if Initialise(FILE, blank, opts.initialData).Ok? { InitialisedType(blank, opts.initialData); }
  }

  lemma {:induction false} LaunchFork(s: State, path: string, opts: CreateOptions, expired: set<string>)
    requires Ordered(s.streams) && opts.forkedFrom != "" && ResolveFork(s.streams, opts, expired).Ok?
    ensures LaunchSized(s, path, opts, expired) ==
      LaunchedFork(s, path, opts, ResolveFork(s.streams, opts, expired).value)
  {
    var fork := ResolveFork(s.streams, opts, expired).value;
    var blank := Blank(FILE, ForkMeta(opts, s.streams[opts.forkedFrom].meta, fork.offset), fork.prefix, s.clock);
    if Initialise(FILE, blank, opts.initialData).Ok? { InitialisedType(blank, opts.initialData); }
  }

  /** Placing a fork after its source was counted, and giving the count back if that fails. */
  lemma {:induction false} CountedFork(start: State, counted: State, path: string, opts: CreateOptions, fork: ForkPoint)
    requires opts.forkedFrom in start.streams && path !in start.streams
    requires counted == start.(streams :=
      SetRefCount(start.streams, opts.forkedFrom, start.streams[opts.forkedFrom].meta.refCount + 1))
    ensures var source := opts.forkedFrom;
      var rolled := counted.(streams :=
        SetRefCount(counted.streams, source, counted.streams[source].meta.refCount - 1));
      var meta := ForkMeta(opts, start.streams[source].meta, fork.offset);
      && path !in counted.streams && source in counted.streams
      && LaunchedFork(start, path, opts, fork) ==
        Placed(rolled, counted, path,
               InitialiseSized(Blank(FILE, meta, fork.prefix, counted.clock), opts.initialData))
  {
    var source := opts.forkedFrom;
    var rolled := SetRefCount(counted.streams, source, counted.streams[source].meta.refCount - 1);
    assert rolled[source] == start.streams[source];
    assert rolled == start.streams;
  }

  // ---- Fork points ----

  /** Where a fork is cut: a sub-offset counts through what the read at the fork offset returns. */
  ghost function FileFork(m: Streams, opts: CreateOptions, expired: set<string>): (r: Result<ForkPoint, Error>)
    requires Ordered(m) && AllFit(m)
    ensures r.Ok? ==> opts.forkedFrom in m
  {
    match ForkTarget(m, opts, expired)
    case Err(e) => Err(e)
    case Ok(at) =>
      if SubOffset(opts) == 0 then Ok(ForkPoint(at, [])) else FileCut(m, opts.forkedFrom, at, SubOffset(opts))
  }

  ghost function FileCut(m: Streams, source: string, at: Offset, k: nat): Result<ForkPoint, Error>
    requires Ordered(m) && AllFit(m) && source in m
  {
    match ChainRead(m, source, at)
    case Err(e) => Err(e)
    case Ok(ms) => CutInto(Text.IsJson(m[source].meta.contentType), ms, at, k)
  }

  /** A fork with a sub-offset asks for an offset that the store itself returned. */
  predicate AsksAtBoundary(m: Streams, opts: CreateOptions)
    requires Ordered(m)
  {
    opts.forkedFrom in m && opts.forkOffset.Some? && SubOffset(opts) > 0 ==>
      Boundary(m, opts.forkedFrom, opts.forkOffset.value)
  }

  lemma {:induction false} CutLies(isJson: bool, ms: seq<Message>, at: Offset, k: nat, end: nat)
    requires AllLie(ms, 0, at.byteOffset, end) && at.readSeq == 0 && at.byteOffset <= end
    ensures var cut := CutInto(isJson, ms, at, k);
      cut.Ok? ==>
        && cut.value.offset.readSeq == 0 && cut.value.offset.byteOffset <= end
        && |cut.value.prefix| <= Segments.MAX_MESSAGE_SIZE
  {
    if |ms| > 0 { assert Lies(ms[0], 0, at.byteOffset, end); }
    if 0 < k <= |ms| { assert Lies(ms[k - 1], 0, at.byteOffset, end); }
  }

  /** Whatever the read finds, the fork point lies within the source, and the prefix fits into a frame. */
  lemma {:induction false} FileForkOk(s: State, opts: CreateOptions, expired: set<string>)
    requires Inv(FILE, s) && Ordered(s.streams) && AllFit(s.streams)
    ensures var r := FileFork(s.streams, opts, expired);
      r.Ok? ==>
        && r.value.offset.readSeq == 0
        && r.value.offset.byteOffset <= s.streams[opts.forkedFrom].meta.currentOffset.byteOffset
        && |r.value.prefix| <= Segments.MAX_MESSAGE_SIZE
    ensures FileFork(s.streams, opts, expired) != Err(RefCountUnderflow)
  {
    var target := ForkTarget(s.streams, opts, expired);
    if target.Ok? {
      var source, at := opts.forkedFrom, target.value;
      SegmentEnds(s, source);
      assert StreamOk(FILE, s, source);
      var meta := s.streams[source].meta;
      ChainLies(s, source, at);
      var read := ChainRead(s.streams, source, at);
      if read.Ok? {
        CutLies(Text.IsJson(meta.contentType), read.value, at, SubOffset(opts), meta.currentOffset.byteOffset);
      }
    }
  }

  /** A fork that asks at a boundary is cut as specified. */
  lemma {:induction false} FileForkAtBoundary(s: State, opts: CreateOptions, expired: set<string>)
    requires Inv(FILE, s) && Ordered(s.streams) && AllFit(s.streams) && AsksAtBoundary(s.streams, opts)
    ensures FileFork(s.streams, opts, expired) == ResolveFork(s.streams, opts, expired)
  {
    var target := ForkTarget(s.streams, opts, expired);
    if target.Ok? && SubOffset(opts) > 0 {
      TailIsBoundary(s, opts.forkedFrom);
      ChainAtBoundary(s, opts.forkedFrom, target.value);
    }
  }

  // ---- Creation ----

  lemma {:induction false} ReclaimFit(m: Streams, path: string, opts: CreateOptions, expired: set<string>)
    requires AllFit(m)
    ensures AllFit(Reclaim(m, path, opts, expired).0)
  {
    var left := Reclaim(m, path, opts, expired).0;
    forall q | q in left ensures OwnFit(left, q) {
      ReclaimContent(m, path, opts, expired, q);
      assert OwnFit(m, q);
    }
  }

  ghost function FileLaunch(s: State, path: string, opts: CreateOptions, expired: set<string>)
    : (State, Result<bool, Error>)
    requires Ordered(s.streams) && AllFit(s.streams)
  {
    if opts.forkedFrom == "" then LaunchSized(s, path, opts, expired)
    else
      match FileFork(s.streams, opts, expired)
      case Err(e) => (s, Err(e))
      case Ok(fork) => LaunchedFork(s, path, opts, fork)
  }

  /** Creation in the file store, for every request. */
  ghost function FileCreate(s: State, path: string, opts: CreateOptions, expired: set<string>)
    : (State, Result<bool, Error>)
    requires Ordered(s.streams) && AllFit(s.streams)
  {
    var (m, claim) := Reclaim(s.streams, path, opts, expired);
    ReclaimFit(s.streams, path, opts, expired);
    if claim.Settled? then (s.(streams := m), claim.outcome)
    else FileLaunch(s.(streams := m), path, opts, expired)
  }

  lemma {:induction false} ForkInsertable(s: State, path: string, opts: CreateOptions, fork: ForkPoint)
    requires path !in s.streams && opts.forkedFrom in s.streams && opts.forkedFrom != ""
    requires fork.offset.readSeq == 0
    requires fork.offset.byteOffset <= s.streams[opts.forkedFrom].meta.currentOffset.byteOffset
    ensures var meta := ForkMeta(opts, s.streams[opts.forkedFrom].meta, fork.offset);
      var st := Initialise(FILE, Blank(FILE, meta, fork.prefix, s.clock), opts.initialData);
      st.Ok? ==> Insertable(FILE, s, path, st.value) && st.value.meta.forkedFrom == opts.forkedFrom
  {
    var meta := ForkMeta(opts, s.streams[opts.forkedFrom].meta, fork.offset);
    LaunchOk(FILE, meta, fork.prefix, s.clock, opts.initialData);
  }

  /** A fork of any point within its source keeps the invariant of reachable states. */
  lemma {:induction false} LaunchedForkOk(s: State, path: string, opts: CreateOptions, fork: ForkPoint)
    requires Inv(FILE, s) && path !in s.streams && opts.forkedFrom in s.streams && opts.forkedFrom != ""
    requires fork.offset.readSeq == 0
    requires fork.offset.byteOffset <= s.streams[opts.forkedFrom].meta.currentOffset.byteOffset
    ensures Inv(FILE, LaunchedFork(s, path, opts, fork).0)
    ensures LaunchedFork(s, path, opts, fork).1 != Err(RefCountUnderflow)
  {
    var meta := ForkMeta(opts, s.streams[opts.forkedFrom].meta, fork.offset);
    ForkInsertable(s, path, opts, fork);
    var blank := Blank(FILE, meta, fork.prefix, s.clock);
    var st := InitialiseSized(blank, opts.initialData);
    if st.Ok? {
      InsertOk(FILE, s, path, st.value);
      assert LaunchedFork(s, path, opts, fork).0 == State(Insert(s.streams, path, st.value), s.clock + 1);
    } else {
      assert LaunchedFork(s, path, opts, fork) == (s, Err(st.error));
      InitialiseError(blank, opts.initialData);
    }
  }

  lemma {:induction false} InitialiseError(blank: Stream, initial: Option<Body>)
    ensures InitialiseSized(blank, initial) != Err(RefCountUnderflow)
  {
  }

  lemma {:induction false} FileLaunchOk(s: State, path: string, opts: CreateOptions, expired: set<string>)
    requires Inv(FILE, s) && Ordered(s.streams) && AllFit(s.streams) && path !in s.streams
    ensures Inv(FILE, FileLaunch(s, path, opts, expired).0)
    ensures FileLaunch(s, path, opts, expired).1 != Err(RefCountUnderflow)
  {
    if opts.forkedFrom == "" {
      LaunchKeeps(FILE, s, path, opts, expired);
    } else {
      FileForkOk(s, opts, expired);
      var fork := FileFork(s.streams, opts, expired);
      if fork.Ok? { LaunchedForkOk(s, path, opts, fork.value); }
    }
  }

  lemma {:induction false} FileCreateOk(s: State, path: string, opts: CreateOptions, expired: set<string>)
    requires Inv(FILE, s) && Ordered(s.streams) && AllFit(s.streams)
    ensures var r := FileCreate(s, path, opts, expired);
      Inv(FILE, r.0) && Ordered(r.0.streams) && r.1 != Err(RefCountUnderflow)
  {
    var (m, claim) := Reclaim(s.streams, path, opts, expired);
    ReclaimOk(FILE, s, path, opts, expired);
    ReclaimFit(s.streams, path, opts, expired);
    if claim.Free? { FileLaunchOk(s.(streams := m), path, opts, expired); }
    GraphOrdered(FileCreate(s, path, opts, expired).0.streams);
  }

  lemma {:induction false} ReclaimAsks(s: State, path: string, opts: CreateOptions, expired: set<string>)
    requires Inv(FILE, s) && Ordered(s.streams) && AsksAtBoundary(s.streams, opts)
    ensures AsksAtBoundary(Reclaim(s.streams, path, opts, expired).0, opts)
  {
    var m := Reclaim(s.streams, path, opts, expired).0;
    if opts.forkedFrom in m && opts.forkOffset.Some? && SubOffset(opts) > 0 {
      ReclaimContent(s.streams, path, opts, expired, opts.forkedFrom);
      ReclaimBoundary(s.streams, path, opts, expired, opts.forkedFrom, opts.forkOffset.value);
    }
  }

  /** At a boundary, and with data that fits, creation is the specified one. */
  lemma {:induction false} FileCreateAtBoundary(s: State, path: string, opts: CreateOptions, expired: set<string>)
    requires Inv(FILE, s) && Ordered(s.streams) && AllFit(s.streams) && AsksAtBoundary(s.streams, opts)
    ensures FileCreate(s, path, opts, expired) == CreateSized(s, path, opts, expired)
  {
    var (m, claim) := Reclaim(s.streams, path, opts, expired);
    ReclaimOk(FILE, s, path, opts, expired);
    ReclaimFit(s.streams, path, opts, expired);
    ReclaimAsks(s, path, opts, expired);
    if claim.Free? && opts.forkedFrom != "" {
      var s1 := s.(streams := m);
      FileForkAtBoundary(s1, opts, expired);
      if ResolveFork(m, opts, expired).Ok? { LaunchFork(s1, path, opts, expired); }
    }
  }
}
