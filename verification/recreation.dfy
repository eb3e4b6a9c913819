/** Creating the same stream again: exactly when the second request finds the configuration it asks for. */
module Recreation {
  import opened Wrappers
  import opened Offsets
  import opened StoreTypes
  import opened StreamStore
  import opened StoreInvariant
  import opened ForkReading
  import opened ProducerDedup
  import opened Untouched
  import opened Closing
  import ForkGraph
  import Logs
  import Text

  // ---- When a second request agrees with the one that made the stream ----

  /** The same media type up to ASCII case, when parameters are left off and no type means the default. */
  predicate SameMedia(a: string, b: string) {
    Text.ToLower(Text.ExtractMediaType(Text.OrDefault(a))) == Text.ToLower(Text.ExtractMediaType(Text.OrDefault(b)))
  }

  /** The source of a fork as it is when the fork is made; for a root, any metadata at all. */
  function SourceOf(m: Streams, opts: CreateOptions): Metadata {
    if opts.forkedFrom != "" && opts.forkedFrom in m then m[opts.forkedFrom].meta else RootMeta(opts)
  }

  /** The time to live a fork takes from its source is shadowed by any expiry of its own. */
  predicate TtlAgrees(source: Metadata, first: CreateOptions, second: CreateOptions) {
    second.ttlSeconds ==
      if first.forkedFrom == "" || first.ttlSeconds.Some? then first.ttlSeconds
      else if first.expiresAt.Some? then None
      else source.ttlSeconds
  }

  /** And its expiry by any time to live, of its own or of its source. */
  predicate ExpiryAgrees(source: Metadata, first: CreateOptions, second: CreateOptions) {
    second.expiresAt ==
      if first.forkedFrom == "" then first.expiresAt
      else if first.ttlSeconds.Some? then None
      else if first.expiresAt.Some? then first.expiresAt
      else if source.ttlSeconds.Some? then None
      else source.expiresAt
  }

  /**
   * `second` asks for what `first` made: the media type, or the source's, the lease, or the source's, a stream as
   * closed as it is now, the same source, and in it the offset that `first` asked for, or the tail it then had.
   */
  predicate Agrees(m: Streams, first: CreateOptions, second: CreateOptions, closed: bool) {
    var source := SourceOf(m, first);
    && SameMedia(if first.contentType == "" && first.forkedFrom != "" then source.contentType else first.contentType,
                 second.contentType)
    && TtlAgrees(source, first, second) && ExpiryAgrees(source, first, second)
    && second.closed == closed
    && second.forkedFrom == first.forkedFrom
    && (first.forkedFrom != "" ==>
      && (second.forkOffset.Some? ==>
        second.forkOffset.value == if first.forkOffset.Some? then first.forkOffset.value else source.currentOffset)
      && SubOffset(second) == SubOffset(first))
  }

  // ---- The new stream ----

  lemma {:induction false} DefaultIsEmpty(ct: string, other: string)
    ensures Text.ContentTypeMatches(Text.OrDefault(ct), other) == Text.ContentTypeMatches(ct, other)
    ensures Text.ContentTypeMatches(ct, ct)
  {
  }

  lemma {:induction false} InitialiseKeepsMeta(z: Kind, meta: Metadata, prefix: Bytes, stamp: nat,
                                               initial: Option<Body>)
    ensures var r := Initialise(z, Blank(z, meta, prefix, stamp), initial);
      r.Ok? ==> r.value.meta == meta.(currentOffset := r.value.meta.currentOffset)
  {
  }

  lemma {:induction false} RootMatches(m: Streams, first: CreateOptions, second: CreateOptions, at: Offset)
    requires first.forkedFrom == ""
    ensures ConfigMatches(RootMeta(first).(currentOffset := at), second) <==> Agrees(m, first, second, first.closed)
  {
    DefaultIsEmpty(first.contentType, second.contentType);
  }

  lemma {:induction false} ForkMatches(m: Streams, first: CreateOptions, second: CreateOptions, fork: Offset,
                                       at: Offset)
    requires first.forkedFrom != "" && first.forkedFrom in m
    requires first.forkOffset.None? ==> fork == m[first.forkedFrom].meta.currentOffset
    ensures ConfigMatches(ForkMeta(first, m[first.forkedFrom].meta, fork).(currentOffset := at), second) <==>
      Agrees(m, first, second, first.closed)
  {
  }

  /** Nothing lies past the tail, so a fork that names no offset starts at the tail of its source. */
  lemma {:induction false} ForksAtTail(z: Kind, s: State, opts: CreateOptions, expired: set<string>)
    requires Inv(z, s) && Ordered(s.streams) && opts.forkOffset.None? && ResolveFork(s.streams, opts, expired).Ok?
    ensures ResolveFork(s.streams, opts, expired).value.offset == s.streams[opts.forkedFrom].meta.currentOffset
  {
    var tail := s.streams[opts.forkedFrom].meta.currentOffset;
    ViewBounds(z, s, opts.forkedFrom, tail);
    Logs.FirstWithin(View(s.streams, opts.forkedFrom, tail), tail.byteOffset, tail.byteOffset);
  }

  /** The configuration of a new stream matches a request exactly when the request agrees with the one that made it. */
  lemma {:induction false} NewStreamMatches(z: Kind, s: State, first: CreateOptions, expired: set<string>,
                                            second: CreateOptions)
    requires Inv(z, s) && Ordered(s.streams) && NewStream(z, s, first, expired).Ok?
    ensures ConfigMatches(NewStream(z, s, first, expired).value.meta, second) <==>
      Agrees(s.streams, first, second, first.closed)
    ensures !NewStream(z, s, first, expired).value.meta.softDeleted
    ensures NewStream(z, s, first, expired).value.meta.closed == first.closed
  {
    var st := NewStream(z, s, first, expired).value;
    if first.forkedFrom == "" {
      InitialiseKeepsMeta(z, RootMeta(first), [], s.clock, first.initialData);
      RootMatches(s.streams, first, second, st.meta.currentOffset);
    } else {
      var fork := ResolveFork(s.streams, first, expired).value;
      if first.forkOffset.None? { ForksAtTail(z, s, first, expired); }
      InitialiseKeepsMeta(z, ForkMeta(first, s.streams[first.forkedFrom].meta, fork.offset), fork.prefix, s.clock,
                          first.initialData);
      ForkMatches(s.streams, first, second, fork.offset, st.meta.currentOffset);
    }
  }

  /** Making room at the path changes nothing that a request can leave unsaid. */
  lemma {:induction false} ReclaimAgrees(s: State, path: string, first: CreateOptions, second: CreateOptions,
                                         expired: set<string>)
    requires first.forkedFrom == "" || first.forkedFrom in Reclaim(s.streams, path, first, expired).0
    ensures Agrees(Reclaim(s.streams, path, first, expired).0, first, second, first.closed) <==>
      Agrees(s.streams, first, second, first.closed)
  {
    if first.forkedFrom != "" { ReclaimContent(s.streams, path, first, expired, first.forkedFrom); }
  }

  /** A creation that succeeds makes the new stream at a path made free. */
  lemma {:induction false} CreatedStream(z: Kind, s: State, path: string, opts: CreateOptions, expired: set<string>)
    requires Inv(z, s) && Ordered(s.streams) && Create(z, s, path, opts, expired).1 == Ok(true)
    ensures var s0, s1 := s.(streams := Reclaim(s.streams, path, opts, expired).0), Create(z, s, path, opts, expired).0;
      && Inv(z, s0) && Ordered(s0.streams) && NewStream(z, s0, opts, expired).Ok?
      && path in s1.streams && s1.streams[path] == NewStream(z, s0, opts, expired).value
      && s1.streams[path].created == s.clock
      && (opts.forkedFrom == "" || opts.forkedFrom in s0.streams)
  {
    ReclaimOk(z, s, path, opts, expired);
    NewStreamInsertable(z, s.(streams := Reclaim(s.streams, path, opts, expired).0), path, opts, expired);
  }

  lemma {:induction false} CreatedMatches(z: Kind, s: State, path: string, first: CreateOptions, expired: set<string>,
                                          second: CreateOptions)
    requires Inv(z, s) && Ordered(s.streams) && Create(z, s, path, first, expired).1 == Ok(true)
    ensures var s1 := Create(z, s, path, first, expired).0;
      && path in s1.streams && s1.streams[path].created == s.clock
      && !s1.streams[path].meta.softDeleted && s1.streams[path].meta.closed == first.closed
      && (ConfigMatches(s1.streams[path].meta, second) <==> Agrees(s.streams, first, second, first.closed))
  {
    CreatedStream(z, s, path, first, expired);
    NewStreamMatches(z, s.(streams := Reclaim(s.streams, path, first, expired).0), first, expired, second);
    ReclaimAgrees(s, path, first, second, expired);
  }

  // ---- A generation keeps its configuration ----

  /** Two states of one generation, with the same configuration but perhaps for the closure. */
  predicate SameConfig(a: Metadata, b: Metadata) {
    && b.contentType == a.contentType && b.ttlSeconds == a.ttlSeconds && b.expiresAt == a.expiresAt
    && b.forkedFrom == a.forkedFrom && b.forkOffset == a.forkOffset
    && b.forkOffsetRequested == a.forkOffsetRequested && b.forkSubOffset == a.forkSubOffset
  }

  lemma {:induction false} CommitConfig(z: Kind, st: Stream, parts: seq<Bytes>, opts: AppendOptions,
                                        state: Option<ProducerState>)
    ensures SameConfig(st.meta, Commit(z, st, parts, opts, state).meta)
  {
  }

  lemma {:induction false} WriteConfig(z: Kind, s: State, e: Event, p: string)
    requires Ordered(s.streams) && p in s.streams && Writes(e, p)
    ensures p in Step(z, s, e).streams && SameConfig(s.streams[p].meta, Step(z, s, e).streams[p].meta)
  {
    if e.op.AppendOp? {
      var admission := AdmitAppend(s.streams[p].meta, p in e.expired, e.op.body, e.op.append);
      if admission.Admit? {
        CommitConfig(z, s.streams[p], admission.parts, e.op.append, admission.verdict.state);
      }
    }
  }

  lemma {:induction false} StepConfig(z: Kind, s: State, e: Event, p: string)
    requires Inv(z, s) && Ordered(s.streams) && p in s.streams && p in Step(z, s, e).streams
    requires Step(z, s, e).streams[p].created == s.streams[p].created
    ensures SameConfig(s.streams[p].meta, Step(z, s, e).streams[p].meta)
  {
    if Writes(e, p) { WriteConfig(z, s, e, p); } else { StepSame(z, s, e, p); }
  }

  lemma {:induction false} RunConfig(z: Kind, s: State, events: seq<Event>, p: string)
    requires Inv(z, s) && p in s.streams
    requires p in Run(z, s, events).streams && Run(z, s, events).streams[p].created == s.streams[p].created
    ensures SameConfig(s.streams[p].meta, Run(z, s, events).streams[p].meta)
    decreases events
  {
    if events != [] {
      GraphOrdered(s.streams);
      StepOk(z, s, events[0]);
      var s1 := Step(z, s, events[0]);
      ThereAllAlong(z, s, s1, Run(z, s1, events[1..]), p);
      StepConfig(z, s, events[0], p);
      RunConfig(z, s1, events[1..], p);
    }
  }

  lemma {:induction false} ConfigDecides(a: Metadata, b: Metadata, opts: CreateOptions)
    requires SameConfig(a, b)
    ensures ConfigMatches(b, opts) <==> ConfigMatches(a.(closed := b.closed), opts)
  {
  }

  // ---- Asking again ----

  /** The answer to a request at a path that holds a live stream: found, or a mismatch. */
  function AskedAgain(s: State, agrees: bool): (State, Result<bool, Error>) {
    (s, if agrees then Ok(false) else Err(ConfigMismatch))
  }

  lemma {:induction false} AskedLive(z: Kind, s: State, path: string, opts: CreateOptions, expired: set<string>)
    requires Ordered(s.streams) && path in s.streams && !s.streams[path].meta.softDeleted && path !in expired
    ensures Create(z, s, path, opts, expired) == AskedAgain(s, ConfigMatches(s.streams[path].meta, opts))
  {
  }

  lemma {:induction false} AgreesAs(m: Streams, first: CreateOptions, second: CreateOptions, closed: bool)
    ensures Agrees(m, first, second, closed) <==>
      second.closed == closed && Agrees(m, first, second.(closed := first.closed), first.closed)
  {
  }

  lemma {:induction false} MatchesAs(meta: Metadata, opts: CreateOptions, closed: bool, was: bool)
    requires meta.closed == was
    ensures ConfigMatches(meta.(closed := closed), opts) <==>
      opts.closed == closed && ConfigMatches(meta, opts.(closed := was))
  {
  }

  lemma {:induction false} AskedLater(z: Kind, m: Streams, made: Metadata, s: State, path: string,
                                      first: CreateOptions, second: CreateOptions, later: set<string>)
    requires Ordered(s.streams) && path in s.streams && !s.streams[path].meta.softDeleted && path !in later
    requires SameConfig(made, s.streams[path].meta) && made.closed == first.closed
    requires ConfigMatches(made, second.(closed := first.closed)) <==>
      Agrees(m, first, second.(closed := first.closed), first.closed)
    ensures Create(z, s, path, second, later) == AskedAgain(s, Agrees(m, first, second, s.streams[path].meta.closed))
  {
    var closed := s.streams[path].meta.closed;
    ConfigDecides(made, s.streams[path].meta, second);
    AgreesAs(m, first, second, closed);
    MatchesAs(made, second, closed, first.closed);
    AskedLive(z, s, path, second, later);
  }

  /** The same from the state right after the creation. */
  lemma {:induction false} AskedAfter(z: Kind, m: Streams, s1: State, path: string, first: CreateOptions,
                                      events: seq<Event>, second: CreateOptions, later: set<string>)
    requires Inv(z, s1) && path in s1.streams && s1.streams[path].meta.closed == first.closed
    requires ConfigMatches(s1.streams[path].meta, second.(closed := first.closed)) <==>
      Agrees(m, first, second.(closed := first.closed), first.closed)
    requires var s' := Run(z, s1, events);
      && path in s'.streams && !s'.streams[path].meta.softDeleted && path !in later
      && s'.streams[path].created == s1.streams[path].created
    ensures var s' := Run(z, s1, events);
      Create(z, s', path, second, later) == AskedAgain(s', Agrees(m, first, second, s'.streams[path].meta.closed))
  {
    RunConfig(z, s1, events, path);
    AskedLater(z, m, s1.streams[path].meta, Run(z, s1, events), path, first, second, later);
  }

  /** A creation as the first call of a run. */
  lemma {:induction false} CreatedThen(z: Kind, s: State, path: string, first: CreateOptions, expired: set<string>,
                                       events: seq<Event>)
    requires Inv(z, s) && Ordered(s.streams)
    ensures var s1 := Create(z, s, path, first, expired).0;
      && Inv(z, s1) && Ordered(s1.streams) && s1 == Step(z, s, Event(CreateOp(path, first), expired))
      && Run(z, s, [Event(CreateOp(path, first), expired)] + events) == Run(z, s1, events)
  {
    CreateOk(z, s, path, first, expired);
    RunFrom(z, s, Event(CreateOp(path, first), expired), events);
    GraphOrdered(Create(z, s, path, first, expired).0.streams);
  }

  /** What is left of the stream at `path` by the end of a run is the generation stamped `created`, and it is live. */
  predicate LivesOn(s: State, path: string, created: nat) {
    path in s.streams && !s.streams[path].meta.softDeleted && s.streams[path].created == created
  }

  /**
   * A stream is created, and after any calls at all that this generation survives live, another creation is asked for
   * at its path. It is answered as found exactly when it agrees with the one that made the stream, the stream being as
   * closed as it is by then, and as a mismatch otherwise; and it changes nothing.
   */
  lemma {:induction false} CreateAgain(z: Kind, s: State, path: string, first: CreateOptions, expired: set<string>,
                                       events: seq<Event>, second: CreateOptions, later: set<string>)
    requires Inv(z, s) && Ordered(s.streams) && Create(z, s, path, first, expired).1 == Ok(true) && path !in later
    requires LivesOn(Run(z, s, [Event(CreateOp(path, first), expired)] + events), path, s.clock)
    ensures var s' := Run(z, s, [Event(CreateOp(path, first), expired)] + events);
      Create(z, s', path, second, later) ==
        AskedAgain(s', Agrees(s.streams, first, second, s'.streams[path].meta.closed))
  {
    CreatedThen(z, s, path, first, expired, events);
    CreatedMatches(z, s, path, first, expired, second.(closed := first.closed));
    AskedAfter(z, s.streams, Create(z, s, path, first, expired).0, path, first, events, second, later);
  }

  /** With calls on other streams only in between, the closure is as the first request asked for. */
  lemma {:induction false} CreateElsewhere(z: Kind, s: State, path: string, first: CreateOptions, expired: set<string>,
                                           events: seq<Event>, second: CreateOptions, later: set<string>)
    requires Inv(z, s) && Ordered(s.streams) && Create(z, s, path, first, expired).1 == Ok(true)
    requires (forall i :: 0 <= i < |events| ==> Elsewhere(events[i], path)) && path !in later
    ensures var s' := Run(z, s, [Event(CreateOp(path, first), expired)] + events);
      Create(z, s', path, second, later) == AskedAgain(s', Agrees(s.streams, first, second, first.closed))
  {
    CreatedThen(z, s, path, first, expired, events);
    CreatedMatches(z, s, path, first, expired, second);
    Isolation(z, Create(z, s, path, first, expired).0, events, path, ZERO_OFFSET);
    CreateAgain(z, s, path, first, expired, events, second, later);
  }

  /** After a call that closed the stream, only a request for a closed one finds it. */
  lemma {:induction false} CreateAfterClosing(z: Kind, s: State, path: string, first: CreateOptions,
                                              expired: set<string>, before: seq<Event>, close: Event,
                                              after: seq<Event>, second: CreateOptions, later: set<string>)
    requires Inv(z, s) && Ordered(s.streams) && Create(z, s, path, first, expired).1 == Ok(true) && path !in later
    requires Closes(z, Run(z, s, [Event(CreateOp(path, first), expired)] + before), close, path)
    requires LivesOn(Run(z, s, [Event(CreateOp(path, first), expired)] + (before + ([close] + after))), path, s.clock)
    ensures var s' := Run(z, s, [Event(CreateOp(path, first), expired)] + (before + ([close] + after)));
      Create(z, s', path, second, later) == AskedAgain(s', Agrees(s.streams, first, second, true))
  {
    var rest := before + ([close] + after);
    CreatedThen(z, s, path, first, expired, before);
    CreatedThen(z, s, path, first, expired, rest);
    CreatedMatches(z, s, path, first, expired, second);
    ClosedAfter(z, Create(z, s, path, first, expired).0, before, close, after, path);
    CreateAgain(z, s, path, first, expired, rest, second, later);
  }

  // ---- The request that made the stream ----

  /**
   * The request says all that the stream it makes will be configured with: a fork takes neither its content type
   * nor its expiry from the source, unless the default type and no expiry are all there is to take.
   */
  predicate SaysEverything(m: Streams, opts: CreateOptions) {
    opts.forkedFrom == "" ||
    (opts.forkedFrom in m &&
      var source := m[opts.forkedFrom].meta;
      && (opts.contentType == "" ==> Text.ContentTypeMatches(source.contentType, ""))
      && (opts.ttlSeconds.Some? ==> opts.expiresAt.None?)
      && (opts.ttlSeconds.None? && opts.expiresAt.None? ==> source.ttlSeconds.None? && source.expiresAt.None?))
  }

  lemma {:induction false} AgreesWithItself(m: Streams, opts: CreateOptions)
    requires opts.forkedFrom == "" || opts.forkedFrom in m
    ensures opts.forkOffset.None? || opts.forkedFrom != "" ==>
      (Agrees(m, opts, opts, opts.closed) <==> SaysEverything(m, opts))
    ensures opts.forkedFrom == "" ==> Agrees(m, opts, opts, opts.closed)
  {
  }

  /**
   * Creating a stream and then, after any calls on other streams, asking for the same stream again: the second
   * request finds it exactly when it says everything, and is refused as a mismatch otherwise. A fork that takes its
   * content type or expiry from its source is refused by the very request that made it.
   */
  lemma {:induction false} CreateTwice(z: Kind, s: State, path: string, opts: CreateOptions, expired: set<string>,
                                       events: seq<Event>, later: set<string>)
    requires Inv(z, s) && Ordered(s.streams) && Create(z, s, path, opts, expired).1 == Ok(true)
    requires (forall i :: 0 <= i < |events| ==> Elsewhere(events[i], path)) && path !in later
    ensures var s' := Run(z, s, [Event(CreateOp(path, opts), expired)] + events);
      Create(z, s', path, opts, later) == AskedAgain(s', SaysEverything(s.streams, opts))
  {
    CreateElsewhere(z, s, path, opts, expired, events, opts, later);
    SourceThere(z, s, path, opts, expired);
    AgreesWithItself(s.streams, opts);
  }

  lemma {:induction false} SourceThere(z: Kind, s: State, path: string, opts: CreateOptions, expired: set<string>)
    requires Inv(z, s) && Ordered(s.streams) && Create(z, s, path, opts, expired).1 == Ok(true)
    ensures opts.forkedFrom == "" || opts.forkedFrom in s.streams
  {
    if opts.forkedFrom != "" && opts.forkedFrom in Reclaim(s.streams, path, opts, expired).0 {
      ReclaimContent(s.streams, path, opts, expired, opts.forkedFrom);
    }
  }

  // ---- Paths that are taken ----

  /** A soft-deleted stream that has not expired keeps its path. */
  lemma {:induction false} TombstoneRefuses(z: Kind, s: State, path: string, opts: CreateOptions, expired: set<string>)
    requires Ordered(s.streams) && path in s.streams && s.streams[path].meta.softDeleted && path !in expired
    ensures Create(z, s, path, opts, expired) == (s, Err(Exists))
  {
  }

  /**
   * An expired live stream gives way as if it were deleted first: with forks it stays as a tombstone, which refuses the
   * creation, and without forks the creation goes on at a free path.
   */
  lemma {:induction false} ExpiredGivesWay(z: Kind, s: State, path: string, opts: CreateOptions, expired: set<string>)
    requires Inv(z, s) && Ordered(s.streams) && path in s.streams && path in expired
    requires !s.streams[path].meta.softDeleted
    ensures var s1 := Delete(s, path).0;
      && Inv(z, s1) && Ordered(s1.streams)
      && Create(z, s, path, opts, expired) ==
        (if s.streams[path].meta.refCount > 0 then (s1, Err(Exists)) else Create(z, s1, path, opts, expired))
  {
    DeleteOk(z, s, path);
    GraphOrdered(Delete(s, path).0.streams);
    assert s.streams[path].meta.refCount == |ForkGraph.Children(s.streams, path)|;
    if s.streams[path].meta.refCount == 0 {
      CascadeOk(z, s, path);
      CascadeRemoves(s.streams, path);
    }
  }

  // ---- A request that is refused by the stream it made ----

  /** A fork of a stream with a time to live, asked for without one: made, and refused when asked for again. */
  lemma {:induction false} LeasedForkRefused(z: Kind, s: State, a: string, b: string)
    requires Inv(z, s) && Ordered(s.streams) && a in s.streams && b !in s.streams && a != ""
    requires !s.streams[a].meta.softDeleted && s.streams[a].meta.ttlSeconds.Some?
    ensures var opts := CreateOptions("", None, None, None, false, a, None, None);
      var r := Create(z, s, b, opts, {});
      && r.1 == Ok(true) && Ordered(r.0.streams)
      && Create(z, r.0, b, opts, {}) == (r.0, Err(ConfigMismatch))
  {
    var opts := CreateOptions("", None, None, None, false, a, None, None);
    PlainForkMade(z, s, a, b, opts);
    var s1 := Create(z, s, b, opts, {}).0;
    CreateOk(z, s, b, opts, {});
    GraphOrdered(s1.streams);
    CreateTwice(z, s, b, opts, {}, [], {});
    RunFrom(z, s, Event(CreateOp(b, opts), {}), []);
  }

  lemma {:induction false} PlainForkMade(z: Kind, s: State, a: string, b: string, opts: CreateOptions)
    requires Inv(z, s) && Ordered(s.streams) && a in s.streams && b !in s.streams && a != ""
    requires !s.streams[a].meta.softDeleted
    requires opts == CreateOptions("", None, None, None, false, a, None, None)
    ensures Create(z, s, b, opts, {}).1 == Ok(true)
  {
    assert StreamOk(z, s, a);
    Logs.ChainedBounds(z, s.streams[a].meta.forkOffset, s.streams[a].messages, s.streams[a].meta.currentOffset);
    assert ForkTarget(s.streams, opts, {}) == Ok(s.streams[a].meta.currentOffset);
  }
}
