/** The in-memory and the file store side by side: when they agree, and a run after which they do not. */
module StoreAgreement {
  import opened Wrappers
  import opened Offsets
  import opened StoreTypes
  import opened StreamStore
  import opened Logs
  import opened ForkReading
  import opened Framing
  import opened SimpleLog
  import opened StoreInvariant
  import opened Refinement
  import opened RefinementSteps
  import opened RefinementRuns
  import opened MemoryStores
  import opened FileLayouts
  import opened ChainReads
  import opened FileRefinement
  import FileStores
  import Text

  /** A stream the next sweep or read changes nothing of: one that is gone, or already marked and held by forks. */
  predicate Settled(m: Streams, p: string) {
    p in m ==> m[p].meta.softDeleted && m[p].meta.refCount > 0
  }

  /**
   * A call that both stores take alike: no read that marks a stream, no cleanup that finds one to change, and no
   * creation or append that only its size keeps from succeeding in the file store.
   */
  predicate Alike(a: State, e: Event) {
    match e.op
    case ReadOp(path, _) =>
      path in a.streams && path in e.expired && a.streams[path].meta.refCount > 0 ==> Settled(a.streams, path)
    case SweepOp(victims) => forall p :: p in victims ==> Settled(a.streams, p)
    case _ => !Oversize(a, e)
  }

  predicate AllAlike(a: State, events: seq<Event>)
    decreases events
  {
    events == [] || (Alike(a, events[0]) && AllAlike(LimitedStep(a, events[0]), events[1..]))
  }

  /** The same streams, with the same ones marked as deleted. */
  predicate SameStreams(m: Streams, m': Streams) {
    m.Keys == m'.Keys && (forall p :: p in m ==> m[p].meta.softDeleted == m'[p].meta.softDeleted)
  }

  /** The same streams with the same payloads. */
  predicate SameLogs(m: Streams, m': Streams) {
    SameStreams(m, m') && (forall p :: p in m ==> Datas(m[p].messages) == Datas(m'[p].messages))
  }

  lemma {:induction false} MarkedAgain(m: Streams, p: string)
    requires p in m && m[p].meta.softDeleted
    ensures SetSoftDeleted(m, p) == m
  {
    assert m[p := m[p]] == m;
  }

  lemma {:induction false} SweepsNothing(m: Streams, victims: seq<string>)
    requires forall p :: p in victims ==> Settled(m, p)
    ensures Sweep(m, victims) == m
  {
    if victims != [] {
      assert Settled(m, victims[0]);
      if victims[0] in m { MarkedAgain(m, victims[0]); }
      SweepsNothing(m, victims[1..]);
    }
  }

  /** A sweep takes streams away and marks streams, and never the other way round. */
  lemma {:induction false} SweepOnly(m: Streams, victims: seq<string>)
    ensures Sweep(m, victims).Keys <= m.Keys
    ensures forall p :: p in Sweep(m, victims) && m[p].meta.softDeleted ==> Sweep(m, victims)[p].meta.softDeleted
    decreases victims
  {
    if victims != [] {
      var p := victims[0];
      if p !in m {
        SweepOnly(m, victims[1..]);
      } else if m[p].meta.refCount > 0 {
        SweepOnly(SetSoftDeleted(m, p), victims[1..]);
      } else {
        var left := Cascade(m, p).0;
        CascadeRemains(m, p);
        SweepOnly(left, victims[1..]);
        forall q | q in Sweep(left, victims[1..]) && m[q].meta.softDeleted ensures left[q].meta.softDeleted {
          assert SameButCount(m[q], left[q]);
        }
      }
    }
  }

  lemma {:induction false} SweepsSomething(m: Streams, victims: seq<string>, p: string)
    requires p in victims && !Settled(m, p)
    ensures !SameStreams(m, Sweep(m, victims))
    decreases victims
  {
    var q := victims[0];
    if q in m && !Settled(m, q) {
      var m' := if m[q].meta.refCount > 0 then SetSoftDeleted(m, q) else Cascade(m, q).0;
      SweepOnly(m', victims[1..]);
    } else {
      if q in m { MarkedAgain(m, q); }
      SweepsSomething(m, victims[1..], p);
    }
  }

  /** An append over the limit adds messages where there is no limit. */
  lemma {:induction false} OversizeAdds(a: State, e: Event)
    requires e.op.AppendOp? && Oversize(a, e)
    ensures !SameLogs(a.streams, SimpleStep(false, a, e).streams)
  {
    var path, a' := e.op.path, SimpleStep(false, a, e);
    var st := a.streams[path];
    var parts := FileStores.TooLarge(a, path, e.op.body, e.op.append, e.expired).value;
    ExtendOwn(Unit, st, parts);
    assert |Datas(a'.streams[path].messages)| == |Datas(st.messages)| + |parts|;
  }

  /** A creation over the limit makes a stream where there is no limit. */
  lemma {:induction false} OversizeMakes(a: State, e: Event)
    requires e.op.CreateOp? && Oversize(a, e)
    ensures !SameLogs(LimitedStep(a, e).streams, SimpleStep(false, a, e).streams)
  {
    FreeSucceeds(a, e.op.path, e.op.create, e.expired);
    assert e.op.path !in LimitedStep(a, e).streams;
  }

  /** Exactly the calls that are alike leave the same logs behind in both. */
  lemma {:induction false} StepsAlike(a: State, e: Event)
    ensures Alike(a, e) ==> LimitedStep(a, e) == SimpleStep(false, a, e)
    ensures !Alike(a, e) ==> !SameLogs(LimitedStep(a, e).streams, SimpleStep(false, a, e).streams)
  {
    match e.op
    case CreateOp(_, _) => if Oversize(a, e) { OversizeMakes(a, e); }
    case AppendOp(_, _, _) => if Oversize(a, e) { OversizeAdds(a, e); }
    case ReadOp(path, _) =>
      if path in a.streams && a.streams[path].meta.softDeleted { MarkedAgain(a.streams, path); }
    case SweepOp(victims) =>
      if Alike(a, e) {
        SweepsNothing(a.streams, victims);
      } else {
        var p :| p in victims && !Settled(a.streams, p);
        SweepsSomething(a.streams, victims, p);
        assert SameStreams(a.streams, Sweep(a.streams, victims)) <==> SameStreams(Sweep(a.streams, victims), a.streams);
      }
    case _ =>
  }

  lemma {:induction false} RunsAlike(a: State, events: seq<Event>)
    requires AllAlike(a, events)
    ensures LimitedRun(a, events) == SimpleRun(false, a, events)
    decreases events
  {
    if events != [] {
      StepsAlike(a, events[0]);
      RunsAlike(LimitedStep(a, events[0]), events[1..]);
    }
  }

  lemma {:induction false} AlikeSoFar(a: State, events: seq<Event>, k: nat)
    requires AllAlike(a, events) && k <= |events|
    ensures AllAlike(a, events[..k])
    decreases events
  {
    if k > 0 {
      assert events[..k][1..] == events[1..][..k - 1];
      AlikeSoFar(LimitedStep(a, events[0]), events[1..], k - 1);
    }
  }

  lemma {:induction false} OneMoreCall(a: State, events: seq<Event>, k: nat)
    requires k < |events|
    ensures SimpleRun(false, a, events[..k + 1]) == SimpleStep(false, SimpleRun(false, a, events[..k]), events[k])
    decreases events
  {
    assert events[..k + 1][1..] == events[1..][..k];
    if k > 0 {
      assert events[..k][1..] == events[1..][..k - 1];
      OneMoreCall(SimpleStep(false, a, events[0]), events[1..], k - 1);
    }
  }

  lemma {:induction false} OneMoreLimited(a: State, events: seq<Event>, k: nat)
    requires k < |events|
    ensures LimitedRun(a, events[..k + 1]) == LimitedStep(LimitedRun(a, events[..k]), events[k])
    decreases events
  {
    assert events[..k + 1][1..] == events[1..][..k];
    if k > 0 {
      assert events[..k][1..] == events[1..][..k - 1];
      OneMoreLimited(LimitedStep(a, events[0]), events[1..], k - 1);
    }
  }

  /** The first call of a run that is not alike. */
  lemma {:induction false} FirstUnlike(a: State, events: seq<Event>) returns (k: nat)
    requires !AllAlike(a, events)
    ensures k < |events|
    ensures AllAlike(a, events[..k]) && !Alike(LimitedRun(a, events[..k]), events[k])
    decreases events
  {
    k := 0;
    if Alike(a, events[0]) {
      var j := FirstUnlike(LimitedStep(a, events[0]), events[1..]);
      k := j + 1;
      assert events[..k][1..] == events[1..][..j];
    }
  }

  /** What a stream reads as from its start. */
  function Payloads(m: Streams, p: string): seq<Bytes>
    requires Ordered(m) && p in m
  {
    Datas(View(m, p, ZERO_OFFSET))
  }

  /** Two stores that hold and mark the same streams, and read the same from each. */
  predicate Agree(m: Streams, m': Streams)
    requires Ordered(m) && Ordered(m')
  {
    SameStreams(m, m') && (forall p :: p in m ==> Payloads(m, p) == Payloads(m', p))
  }

  /** Both stores after the first `k` calls. */
  ghost predicate AgreeAfter(events: seq<Event>, k: nat)
    requires k <= |events| && forall j :: 0 <= j < |events| ==> Countable(events[j])
  {
    Agree(StoreAfter(MEMORY, events[..k]).streams, FileAfter(events[..k]).streams)
  }

  /** A store whose streams read as the logs do. */
  ghost predicate ReadsAs(m: Streams, a: Streams)
    requires Ordered(m)
  {
    SameStreams(m, a) && (forall p :: p in m ==> Payloads(m, p) == Datas(a[p].messages))
  }

  lemma {:induction false} LikeItsLog(z: Kind, s: State, a: State)
    requires Inv(z, s) && Ordered(s.streams) && Refines(z, s, a)
    ensures ReadsAs(s.streams, a.streams)
  {
    forall p | p in s.streams
      ensures s.streams[p].meta.softDeleted == a.streams[p].meta.softDeleted
      ensures Payloads(s.streams, p) == Datas(a.streams[p].messages)
    {
      assert Refined(z, s.streams, a.streams, p);
      assert Erase(s.streams[p].meta).softDeleted == Erase(a.streams[p].meta).softDeleted;
      ViewFrom(z, s, a, p, 0);
      assert At(z, Datas(a.streams[p].messages), 0) == ZERO_OFFSET;
    }
  }

  lemma {:induction false} AgreeThenLogs(m: Streams, a: Streams, m': Streams, a': Streams)
    requires Ordered(m) && ReadsAs(m, a) && Ordered(m') && ReadsAs(m', a') && Agree(m, m')
    ensures SameLogs(a', a)
  {
    forall p | p in a' ensures Datas(a'[p].messages) == Datas(a[p].messages) {
      assert Payloads(m, p) == Payloads(m', p);
    }
  }

  lemma {:induction false} LogsThenAgree(m: Streams, a: Streams, m': Streams, a': Streams)
    requires Ordered(m) && ReadsAs(m, a) && Ordered(m') && ReadsAs(m', a') && SameLogs(a', a)
    ensures Agree(m, m')
  {
    forall p | p in m ensures Payloads(m, p) == Payloads(m', p) {
      assert Datas(a'[p].messages) == Datas(a[p].messages);
    }
  }

  lemma {:induction false} AgreeAsLogs(events: seq<Event>, k: nat)
    requires k <= |events| && forall j :: 0 <= j < |events| ==> Countable(events[j])
    ensures AgreeAfter(events, k) <==>
      SameLogs(LimitedRun(EMPTY_STATE, events[..k]).streams, SimpleRun(false, EMPTY_STATE, events[..k]).streams)
  {
    var memory, simple := StoreAfter(MEMORY, events[..k]), SimpleRun(false, EMPTY_STATE, events[..k]);
    var file, limited := FileAfter(events[..k]), LimitedRun(EMPTY_STATE, events[..k]);
    LikeItsLog(MEMORY, memory, simple);
    LikeItsLog(FILE, file, limited);
    if AgreeAfter(events, k) {
      AgreeThenLogs(memory.streams, simple.streams, file.streams, limited.streams);
    } else if SameLogs(limited.streams, simple.streams) {
      LogsThenAgree(memory.streams, simple.streams, file.streams, limited.streams);
    }
  }

  /**
   * The in-memory store and the file store, with its four bytes of framing and its limit on the size of a message,
   * hold and mark the same streams and read the same payloads from each after every call of a run, exactly when no
   * read meets an expired stream with forks that is not marked yet, the cleanup finds no stream that is not marked and
   * held by forks, and no creation or append is kept from succeeding by the size of a message alone.
   */
  lemma {:induction false} StoresAgree(events: seq<Event>)
    requires forall j :: 0 <= j < |events| ==> Countable(events[j])
    ensures AllAlike(EMPTY_STATE, events) <==> forall k :: 0 <= k <= |events| ==> AgreeAfter(events, k)
  {
    if AllAlike(EMPTY_STATE, events) {
      forall k | 0 <= k <= |events| ensures AgreeAfter(events, k) {
        AlikeSoFar(EMPTY_STATE, events, k);
        RunsAlike(EMPTY_STATE, events[..k]);
        AgreeAsLogs(events, k);
      }
    } else {
      var k := FirstUnlike(EMPTY_STATE, events);
      RunsAlike(EMPTY_STATE, events[..k]);
      StepsAlike(LimitedRun(EMPTY_STATE, events[..k]), events[k]);
      OneMoreCall(EMPTY_STATE, events, k);
      OneMoreLimited(EMPTY_STATE, events, k);
      AgreeAsLogs(events, k + 1);
    }
  }

  lemma {:induction false} AlikeLeavesNothing(a: State, events: seq<Event>)
    requires AllAlike(a, events)
    ensures NothingLeft(a, events)
    decreases events
  {
    if events != [] { AlikeLeavesNothing(LimitedStep(a, events[0]), events[1..]); }
  }

  /**
   * Over such runs, what the file store reads in its segments from the offset of a message on are the payloads that
   * the in-memory store reads from that message on.
   */
  lemma {:induction false} StoresReadAlike(events: seq<Event>, path: string, i: nat)
    requires forall j :: 0 <= j < |events| ==> Countable(events[j])
    requires AllAlike(EMPTY_STATE, events)
    ensures var memory, file := StoreAfter(MEMORY, events).streams, FileAfter(events).streams;
      && memory.Keys == file.Keys
      && (path in memory && i <= |Payloads(memory, path)| ==>
        var log := Payloads(memory, path);
        var r := ChainRead(file, path, At(FILE, log, i));
        r.Ok? && Datas(r.value) == Datas(View(memory, path, At(MEMORY, log, i))))
  {
    RunsAlike(EMPTY_STATE, events);
    AlikeLeavesNothing(EMPTY_STATE, events);
    LikeItsLog(MEMORY, StoreAfter(MEMORY, events), SimpleRun(false, EMPTY_STATE, events));
    RunRefines(MEMORY, events, path, i);
    FileRunRefines(events, path, i);
  }

  // ---- A run that parts them ----

  /** A stream with a time to live, and a fork of it. */
  function Leased(ttl: int): CreateOptions {
    CreateOptions("", Some(ttl), None, None, false, "", None, None)
  }

  function ForkedFrom(a: string): CreateOptions {
    CreateOptions("", None, None, None, false, a, None, None)
  }

  /** The two are created, the stream is read after it expired, and then the fork is deleted. */
  function Parting(a: string, b: string, ttl: int): seq<Event> {
    [Event(CreateOp(a, Leased(ttl)), {})]
    + ([Event(CreateOp(b, ForkedFrom(a)), {})]
       + ([Event(ReadOp(a, ZERO_OFFSET), {a})] + ([Event(DeleteOp(b), {a})] + [])))
  }

  function Root(ttl: int): Stream {
    Stream(RootMeta(Leased(ttl)), [], 0)
  }

  /** The stream, marked or not, and its fork. */
  function Pair(a: string, b: string, ttl: int, marked: bool): State {
    var x := WithRefCount(Root(ttl), 1);
    State(map[a := x.(meta := x.meta.(softDeleted := marked)),
              b := Stream(ForkMeta(ForkedFrom(a), Root(ttl).meta, ZERO_OFFSET), [], 1)], 2)
  }

  lemma {:induction false} RootCreated(sweeps: bool, a: string, ttl: int)
    ensures SimpleStep(sweeps, EMPTY_STATE, Event(CreateOp(a, Leased(ttl)), {})) == State(map[a := Root(ttl)], 1)
  {
  }

  lemma {:induction false} ForkAtTail(s: State, path: string, opts: CreateOptions)
    requires path !in s.streams && opts.forkedFrom != "" && opts.forkedFrom in s.streams && opts.initialData.None?
    requires opts.contentType == "" && opts.forkOffset.None? && opts.forkSubOffset.None?
    requires var source := s.streams[opts.forkedFrom];
      !source.meta.softDeleted && source.meta.currentOffset == ZERO_OFFSET && source.messages == []
    ensures var source := s.streams[opts.forkedFrom];
      SimpleCreate(s, path, opts, {}).0 ==
        State(s.streams[opts.forkedFrom := WithRefCount(source, source.meta.refCount + 1)]
                       [path := Stream(ForkMeta(opts, source.meta, ZERO_OFFSET), [], s.clock)], s.clock + 1)
  {
    assert ForkTarget(s.streams, opts, {}) == Ok(ZERO_OFFSET);
  }

  lemma {:induction false} TwoKeys(a: string, b: string, x: Stream, x': Stream, y: Stream)
    requires a != b
    ensures map[a := x][a := x'][b := y] == map[a := x', b := y]
  {
  }

  lemma {:induction false} PairCreated(sweeps: bool, a: string, b: string, ttl: int)
    requires a != b && a != ""
    ensures SimpleStep(sweeps, State(map[a := Root(ttl)], 1), Event(CreateOp(b, ForkedFrom(a)), {}))
      == Pair(a, b, ttl, false)
  {
    var s, m := State(map[a := Root(ttl)], 1), Pair(a, b, ttl, false).streams;
    ForkAtTail(s, b, ForkedFrom(a));
    TwoKeys(a, b, Root(ttl), m[a], m[b]);
  }

  lemma {:induction false} PairRead(sweeps: bool, a: string, b: string, ttl: int)
    requires a != b
    ensures SimpleStep(sweeps, Pair(a, b, ttl, false), Event(ReadOp(a, ZERO_OFFSET), {a})) == Pair(a, b, ttl, !sweeps)
  {
    var m, m' := Pair(a, b, ttl, false).streams, Pair(a, b, ttl, true).streams;
    assert m[a := m'[a]] == m';
  }

  lemma {:induction false} ForkGone(m: Streams, rest: Streams, a: string, b: string)
    requires a != b && a != "" && b in m && rest == m - {b} && m[b].meta.forkedFrom == a
    requires rest.Keys == {a} && rest[a].meta.refCount == 1 && rest[a].meta.forkedFrom == ""
    ensures Cascade(m, b).0.Keys == if rest[a].meta.softDeleted then {} else {a}
  {
    var left := SetRefCount(rest, a, 0);
    assert left.Keys == {a};
    if rest[a].meta.softDeleted {
      assert (left - {a}).Keys == {};
      assert Cascade(left, a).0 == left - {a};
    }
  }

  lemma {:induction false} PairDeleted(sweeps: bool, a: string, b: string, ttl: int)
    requires a != b && a != ""
    ensures SimpleStep(sweeps, Pair(a, b, ttl, !sweeps), Event(DeleteOp(b), {a})).streams.Keys ==
      if sweeps then {a} else {}
  {
    var m := Pair(a, b, ttl, !sweeps).streams;
    assert m - {b} == map[a := m[a]];
    ForkGone(m, m - {b}, a, b);
  }

  lemma {:induction false} OneCall(sweeps: bool, s: State, e: Event, rest: seq<Event>)
    ensures SimpleRun(sweeps, s, [e] + rest) == SimpleRun(sweeps, SimpleStep(sweeps, s, e), rest)
  {
    assert ([e] + rest)[1..] == rest;
  }

  lemma {:induction false} PartingRun(sweeps: bool, a: string, b: string, ttl: int)
    requires a != b && a != ""
    ensures SimpleRun(sweeps, EMPTY_STATE, Parting(a, b, ttl)).streams.Keys == if sweeps then {a} else {}
  {
    var make, fork := Event(CreateOp(a, Leased(ttl)), {}), Event(CreateOp(b, ForkedFrom(a)), {});
    var read, drop := Event(ReadOp(a, ZERO_OFFSET), {a}), Event(DeleteOp(b), {a});
    RootCreated(sweeps, a, ttl);
    PairCreated(sweeps, a, b, ttl);
    PairRead(sweeps, a, b, ttl);
    PairDeleted(sweeps, a, b, ttl);
    OneCall(sweeps, EMPTY_STATE, make, [fork] + ([read] + ([drop] + [])));
    OneCall(sweeps, State(map[a := Root(ttl)], 1), fork, [read] + ([drop] + []));
    OneCall(sweeps, Pair(a, b, ttl, false), read, [drop] + []);
    OneCall(sweeps, Pair(a, b, ttl, !sweeps), drop, []);
  }

  /** Calls that carry no data are never over the limit. */
  lemma {:induction false} WithoutData(a: State, events: seq<Event>)
    requires forall j :: 0 <= j < |events| ==>
      !events[j].op.AppendOp? && (events[j].op.CreateOp? ==> events[j].op.create.initialData.None?)
    ensures LimitedRun(a, events) == SimpleRun(true, a, events)
    decreases events
  {
    if events != [] {
      assert !Oversize(a, events[0]);
      WithoutData(SimpleStep(true, a, events[0]), events[1..]);
    }
  }

  /**
   * The read of the expired stream marks it in the in-memory store, so deleting the fork collects it there; in the
   * file store it stays.
   */
  lemma {:induction false} StoresPart(a: string, b: string, ttl: int)
    requires a != b && a != ""
    ensures forall j :: 0 <= j < |Parting(a, b, ttl)| ==> Countable(Parting(a, b, ttl)[j])
    ensures StoreAfter(MEMORY, Parting(a, b, ttl)).streams.Keys == {}
    ensures FileAfter(Parting(a, b, ttl)).streams.Keys == {a}
  {
    PartingRun(true, a, b, ttl);
    PartingRun(false, a, b, ttl);
    RunRefines(MEMORY, Parting(a, b, ttl), a, 0);
    WithoutData(EMPTY_STATE, Parting(a, b, ttl));
  }

  // ---- Runs that the size of a message parts ----

  function Making(contentType: string, data: Option<Body>): CreateOptions {
    CreateOptions(contentType, None, None, data, false, "", None, None)
  }

  /** A stream is created with data. */
  function MadeWith(path: string, contentType: string, data: Body): seq<Event> {
    [Event(CreateOp(path, Making(contentType, Some(data))), {})]
  }

  lemma {:induction false} OneTooLarge(data: Bytes)
    requires |data| > Segments.MAX_MESSAGE_SIZE
    ensures !Segments.Fits([data])
  {
    assert [data][0] == data;
  }

  lemma {:induction false} SizeMakes(path: string, contentType: string, data: Body)
    requires !Text.IsJson(Text.OrDefault(contentType)) && |data.raw| > Segments.MAX_MESSAGE_SIZE
    ensures var r := SimpleCreate(EMPTY_STATE, path, Making(contentType, Some(data)), {});
      r.0.streams.Keys == {path} && r.1 == Ok(true)
    ensures OversizeCreate(EMPTY_STATE, path, Making(contentType, Some(data)), {})
  {
    OneTooLarge(data.raw);
  }

  /** When it is one message over the limit, the in-memory store holds the stream and the file store does not. */
  lemma {:induction false} SizeParts(path: string, contentType: string, data: Body)
    requires !Text.IsJson(Text.OrDefault(contentType)) && |data.raw| > Segments.MAX_MESSAGE_SIZE
    ensures Countable(MadeWith(path, contentType, data)[0])
    ensures StoreAfter(MEMORY, MadeWith(path, contentType, data)).streams.Keys == {path}
    ensures FileAfter(MadeWith(path, contentType, data)).streams.Keys == {}
  {
    var events := MadeWith(path, contentType, data);
    var e := events[0];
    SizeMakes(path, contentType, data);
    assert events[1..] == [] && Oversize(EMPTY_STATE, e);
    assert SimpleRun(false, EMPTY_STATE, events) == SimpleStep(false, EMPTY_STATE, e);
    assert LimitedRun(EMPTY_STATE, events) == LimitedStep(EMPTY_STATE, e) == EMPTY_STATE;
    RunRefines(MEMORY, events, path, 0);
  }

  const PLAIN_APPEND := AppendOptions("", "", false, "", None, None)

  /** A stream is created, and data appended to it. */
  function AppendedTo(path: string, contentType: string, data: Body): seq<Event> {
    [Event(CreateOp(path, Making(contentType, None)), {}), Event(AppendOp(path, data, PLAIN_APPEND), {})]
  }

  lemma {:induction false} SizeAppends(path: string, contentType: string, data: Body)
    requires !Text.IsJson(Text.OrDefault(contentType)) && |data.raw| > Segments.MAX_MESSAGE_SIZE
    ensures var a := State(map[path := Stream(RootMeta(Making(contentType, None)), [], 0)], 1);
      && FileStores.TooLarge(a, path, data, PLAIN_APPEND, {}) == Some([data.raw])
      && var a' := Append(Unit, a, path, data, PLAIN_APPEND, {}).0;
         path in a'.streams && Datas(a'.streams[path].messages) == [data.raw]
  {
    OneTooLarge(data.raw);
    var meta := RootMeta(Making(contentType, None));
    assert AdmitAppend(meta, false, data, PLAIN_APPEND) == Admit([data.raw], AppendVerdict(meta, PLAIN_APPEND));
    ExtendOwn(Unit, Stream(meta, [], 0), [data.raw]);
  }

  /** When it is one message over the limit, the in-memory store reads it and the file store reads nothing. */
  lemma {:induction false} SizePartsLogs(path: string, contentType: string, data: Body)
    requires !Text.IsJson(Text.OrDefault(contentType)) && |data.raw| > Segments.MAX_MESSAGE_SIZE
    ensures forall j :: 0 <= j < 2 ==> Countable(AppendedTo(path, contentType, data)[j])
    ensures var memory := StoreAfter(MEMORY, AppendedTo(path, contentType, data)).streams;
      path in memory && Payloads(memory, path) == [data.raw]
    ensures var file := FileAfter(AppendedTo(path, contentType, data)).streams;
      path in file && Payloads(file, path) == []
  {
    var events := AppendedTo(path, contentType, data);
    var make, grow := events[0], events[1];
    var a := State(map[path := Stream(RootMeta(Making(contentType, None)), [], 0)], 1);
    assert SimpleStep(true, EMPTY_STATE, make) == SimpleStep(false, EMPTY_STATE, make) == a;
    assert !Oversize(EMPTY_STATE, make);
    SizeAppends(path, contentType, data);
    assert events[1..] == [grow] && [grow][1..] == [];
    assert LimitedRun(a, [grow]) == LimitedStep(a, grow) == a;
    assert SimpleRun(false, a, [grow]) == SimpleStep(false, a, grow);
    LikeItsLog(MEMORY, StoreAfter(MEMORY, events), SimpleRun(false, EMPTY_STATE, events));
    LikeItsLog(FILE, FileAfter(events), LimitedRun(EMPTY_STATE, events));
  }
}
