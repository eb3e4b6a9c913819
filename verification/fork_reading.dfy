/** Reads across the fork chain over whole runs: isolation, resumption and where forks are cut. */
module ForkReading {
  import opened Wrappers
  import opened Offsets
  import opened StoreTypes
  import opened StreamStore
  import opened ForkGraph
  import opened Logs
  import opened StoreInvariant

  // ---- The fork graph ----

  /** The stream `n` forks up from `p`, if the chain is that long. */
  function Ancestor(m: Streams, p: string, n: nat): Option<string>
    decreases n
  {
    if n == 0 then Some(p)
    else if p !in m || m[p].meta.forkedFrom == "" then None
    else Ancestor(m, m[p].meta.forkedFrom, n - 1)
  }

  lemma {:induction false} AncestorsAreOlder(m: Streams, p: string, n: nat)
    requires Linked(m) && p in m
    ensures Ancestor(m, p, n).Some? ==> Ancestor(m, p, n).value in m
    ensures n > 0 && Ancestor(m, p, n).Some? ==> m[Ancestor(m, p, n).value].created < m[p].created
    decreases n
  {
    if n > 0 && m[p].meta.forkedFrom != "" {
      assert LinkOk(m, p) && Younger(m, p);
      AncestorsAreOlder(m, m[p].meta.forkedFrom, n - 1);
    }
  }

  /** No stream is its own ancestor. */
  lemma {:induction false} NoCycle(z: Kind, s: State, p: string, n: nat)
    requires Inv(z, s) && p in s.streams && n > 0
    ensures Ancestor(s.streams, p, n) != Some(p)
  {
    AncestorsAreOlder(s.streams, p, n);
  }

  /** Every soft-deleted stream is kept for some live descendant. */
  lemma {:induction false} LiveDescendant(z: Kind, s: State, p: string) returns (d: string, n: nat)
    requires Inv(z, s) && p in s.streams
    ensures d in s.streams && !s.streams[d].meta.softDeleted
    ensures Ancestor(s.streams, d, n) == Some(p)
    decreases s.clock - s.streams[p].created
  {
    assert StreamOk(z, s, p);
    if !s.streams[p].meta.softDeleted {
      d, n := p, 0;
    } else {
      assert |Children(s.streams, p)| == s.streams[p].meta.refCount > 0;
      var c :| c in Children(s.streams, p);
      assert StreamOk(z, s, c) && LinkOk(s.streams, c) && Younger(s.streams, c);
      d, n := LiveDescendant(z, s, c);
      AncestorStep(s.streams, d, n, c, p);
      n := n + 1;
    }
  }

  lemma {:induction false} AncestorStep(m: Streams, d: string, n: nat, c: string, p: string)
    requires Ancestor(m, d, n) == Some(c) && c in m && m[c].meta.forkedFrom == p && p != ""
    ensures Ancestor(m, d, n + 1) == Some(p)
    decreases n
  {
    if n > 0 { AncestorStep(m, m[d].meta.forkedFrom, n - 1, c, p); }
  }

  // ---- Isolation ----

  /** `p` is the same generation in both states. */
  predicate SameGeneration(s: State, s': State, p: string) {
    p in s.streams && p in s'.streams && s.streams[p].created == s'.streams[p].created
  }

  ghost predicate Later(z: Kind, s: State, s': State) {
    Inv(z, s) && Inv(z, s') && Ordered(s.streams) && Ordered(s'.streams) && Keeps(s, s')
  }

  /** A surviving fork's source survives too, as the same generation. */
  lemma {:induction false} SourceKept(z: Kind, s: State, s': State, p: string)
    requires Later(z, s, s') && SameGeneration(s, s', p)
    ensures Grown(s.streams[p], s'.streams[p])
    ensures s.streams[p].meta.forkedFrom != "" ==> SameGeneration(s, s', s.streams[p].meta.forkedFrom)
  {
    assert StreamOk(z, s, p) && Descends(s, s', p);
    var source := s.streams[p].meta.forkedFrom;
    if source != "" {
      assert LinkOk(s'.streams, p) && Younger(s'.streams, p) && LinkOk(s.streams, p);
      assert Descends(s, s', source);
    }
  }

  /** Up to any offset the stream had reached, a later read returns what the earlier one did. */
  lemma {:induction false} CappedViewStable(z: Kind, s: State, s': State, p: string, o: Offset, cap: Offset)
    requires Later(z, s, s') && SameGeneration(s, s', p)
    requires cap.readSeq == 0 && cap.byteOffset <= s.streams[p].meta.currentOffset.byteOffset
    ensures UpTo(View(s'.streams, p, o), cap) == UpTo(View(s.streams, p, o), cap)
    decreases s.streams[p].created
  {
    SourceKept(z, s, s', p);
    var a, b := s.streams[p], s'.streams[p];
    InheritedStable(z, s, s', p, o);
    assert StreamOk(z, s, p) && StreamOk(z, s', p);
    CappedOwnStable(z, a, b, o, cap);
    var inherited := Inherited(s.streams, p, o);
    UpToConcat(inherited, After(a.messages, o), cap);
    UpToConcat(inherited, After(b.messages, o), cap);
  }

  /** What a stream's own log gains later lies past every offset it had reached. */
  lemma {:induction false} CappedOwnStable(z: Kind, a: Stream, b: Stream, o: Offset, cap: Offset)
    requires LogOk(z, a) && LogOk(z, b) && Grown(a, b)
    requires cap.readSeq == 0 && cap.byteOffset <= a.meta.currentOffset.byteOffset
    ensures UpTo(After(b.messages, o), cap) == UpTo(After(a.messages, o), cap)
  {
    TailsGrow(z, a, b);
    var extra := b.messages[|a.messages|..];
    assert b.messages == a.messages + extra;
    ChainedBounds(z, a.meta.currentOffset, extra, b.meta.currentOffset);
    AfterConcat(a.messages, extra, o);
    FilterBounds(extra, o);
    UpToNone(After(extra, o), cap);
    UpToConcat(After(a.messages, o), After(extra, o), cap);
  }

  /** What a fork inherits never changes. */
  lemma {:induction false} InheritedStable(z: Kind, s: State, s': State, p: string, o: Offset)
    requires Later(z, s, s') && SameGeneration(s, s', p)
    ensures Inherited(s'.streams, p, o) == Inherited(s.streams, p, o)
    decreases s.streams[p].created, 0
  {
    SourceKept(z, s, s', p);
    var meta := s.streams[p].meta;
    if meta.forkedFrom != "" && LessThan(o, meta.forkOffset) {
      assert StreamOk(z, s, p) && LinkOk(s.streams, p) && Younger(s.streams, p);
      CappedViewStable(z, s, s', meta.forkedFrom, o, meta.forkOffset);
    }
  }

  /** An event that cannot name the stream `p` itself. */
  predicate Elsewhere(e: Event, p: string) {
    match e.op
    case SweepOp(victims) => p !in victims
    case _ => e.op.path != p
  }

  /** Same stream except for the number of forks taken from it. */
  predicate SameButCount(a: Stream, b: Stream) {
    b == WithRefCount(a, b.meta.refCount)
  }

  lemma {:induction false} CascadeElsewhere(z: Kind, s: State, x: string, p: string)
    requires Inv(z, s) && x in s.streams && s.streams[x].meta.refCount == 0
    requires p in s.streams && p != x && !s.streams[p].meta.softDeleted
    ensures p in Cascade(s.streams, x).0 && SameButCount(s.streams[p], Cascade(s.streams, x).0[p])
  {
    CascadeOk(z, s, x);
    var left := Cascade(s.streams, x).0;
    assert !Doomed(s.streams, s.streams.Keys - left.Keys, x, p);
    assert Survives(s.streams, left, p);
  }

  lemma {:induction false} SweepElsewhere(z: Kind, s: State, victims: seq<string>, p: string)
    requires Inv(z, s) && p in s.streams && !s.streams[p].meta.softDeleted && p !in victims
    ensures p in Sweep(s.streams, victims) && SameButCount(s.streams[p], Sweep(s.streams, victims)[p])
    decreases victims
  {
    if victims != [] {
      var x := victims[0];
      var s1 := s;
      if x in s.streams {
        if s.streams[x].meta.refCount > 0 {
          SoftDeleteOk(z, s, x);
          s1 := s.(streams := SetSoftDeleted(s.streams, x));
        } else {
          assert s.streams[x].meta.refCount == |Children(s.streams, x)|;
          CascadeOk(z, s, x);
          CascadeElsewhere(z, s, x, p);
          s1 := s.(streams := Cascade(s.streams, x).0);
        }
      }
      SweepElsewhere(z, s1, victims[1..], p);
    }
  }

  lemma {:induction false} ReclaimElsewhere(z: Kind, s: State, path: string, opts: CreateOptions, expired: set<string>,
                                            p: string)
    requires Inv(z, s) && p in s.streams && !s.streams[p].meta.softDeleted && path != p
    ensures var m := Reclaim(s.streams, path, opts, expired).0; p in m && SameButCount(s.streams[p], m[p])
  {
    if path in s.streams && path in expired && s.streams[path].meta.refCount <= 0 {
      assert s.streams[path].meta.refCount == |Children(s.streams, path)|;
      CascadeElsewhere(z, s, path, p);
    }
  }

  lemma {:induction false} CreateElsewhere(z: Kind, s: State, path: string, opts: CreateOptions, expired: set<string>,
                                           p: string)
    requires Inv(z, s) && Ordered(s.streams) && p in s.streams && !s.streams[p].meta.softDeleted && path != p
    ensures var s' := Create(z, s, path, opts, expired).0;
      p in s'.streams && SameButCount(s.streams[p], s'.streams[p])
  {
    ReclaimElsewhere(z, s, path, opts, expired, p);
  }

  lemma {:induction false} DeleteElsewhere(z: Kind, s: State, path: string, p: string)
    requires Inv(z, s) && p in s.streams && !s.streams[p].meta.softDeleted && path != p
    ensures var s' := Delete(s, path).0; p in s'.streams && SameButCount(s.streams[p], s'.streams[p])
  {
    if path in s.streams && !s.streams[path].meta.softDeleted && s.streams[path].meta.refCount <= 0 {
      assert s.streams[path].meta.refCount == |Children(s.streams, path)|;
      CascadeElsewhere(z, s, path, p);
    }
  }

  lemma {:induction false} WriteElsewhere(z: Kind, s: State, e: Event, p: string)
    requires e.op.AppendOp? || e.op.CloseOp? || e.op.CloseProducerOp? || e.op.ReadOp?
    requires Ordered(s.streams) && p in s.streams && e.op.path != p
    ensures p in Step(z, s, e).streams && Step(z, s, e).streams[p] == s.streams[p]
  {
    match e.op {
      case AppendOp(path, body, opts) =>
        var r := Append(z, s, path, body, opts, e.expired);
      case CloseOp(path) =>
      case CloseProducerOp(path, id, epoch, seqNo) =>
        var r := CloseWithProducer(s, path, id, epoch, seqNo, e.expired);
      case ReadOp(path, from) =>
    }
  }

  /** A call on other streams leaves a live stream as it is, but for its count. */
  lemma {:induction false} StepElsewhere(z: Kind, s: State, e: Event, p: string)
    requires Inv(z, s) && Ordered(s.streams) && p in s.streams && !s.streams[p].meta.softDeleted
    requires Elsewhere(e, p)
    ensures p in Step(z, s, e).streams && SameButCount(s.streams[p], Step(z, s, e).streams[p])
  {
    match e.op {
      case CreateOp(path, opts) => CreateElsewhere(z, s, path, opts, e.expired, p);
      case DeleteOp(path) => DeleteElsewhere(z, s, path, p);
      case SweepOp(victims) => SweepElsewhere(z, s, victims, p);
      case _ => WriteElsewhere(z, s, e, p);
    }
  }

  /**
   * Fork isolation: no run of calls on other streams, whatever is appended, closed, deleted, expired,
   * collected or created, removes a live stream or changes what any read of it returns.
   */
  lemma {:induction false} Isolation(z: Kind, s: State, events: seq<Event>, p: string, o: Offset)
    requires Inv(z, s) && Ordered(s.streams) && p in s.streams && !s.streams[p].meta.softDeleted
    requires forall i :: 0 <= i < |events| ==> Elsewhere(events[i], p)
    ensures var s' := Run(z, s, events);
      && p in s'.streams
      && SameButCount(s.streams[p], s'.streams[p])
      && View(s'.streams, p, o) == View(s.streams, p, o)
    decreases events
  {
    if events != [] {
      StepOk(z, s, events[0]);
      StepElsewhere(z, s, events[0], p);
      var s1 := Step(z, s, events[0]);
      InheritedStable(z, s, s1, p, o);
      Isolation(z, s1, events[1..], p, o);
    }
  }

  // ---- What a fork reads ----

  /** From its creation on, a fork reads the source as it was up to the fork point, then its own messages. */
  lemma {:induction false} ForkReads(z: Kind, s: State, s1: State, s': State, p: string, o: Offset)
    requires Later(z, s, s1) && Later(z, s1, s') && SameGeneration(s1, s', p)
    requires s1.streams[p].meta.forkedFrom != "" && SameGeneration(s, s1, s1.streams[p].meta.forkedFrom)
    requires s1.streams[p].meta.forkOffset.byteOffset
      <= s.streams[s1.streams[p].meta.forkedFrom].meta.currentOffset.byteOffset
    requires o.readSeq == 0
    ensures View(s'.streams, p, o)
      == UpTo(View(s.streams, s1.streams[p].meta.forkedFrom, o), s1.streams[p].meta.forkOffset)
       + After(s'.streams[p].messages, o)
  {
    InheritedStable(z, s1, s', p, o);
    var source, cap := s1.streams[p].meta.forkedFrom, s1.streams[p].meta.forkOffset;
    assert LinkOk(s1.streams, p) && Younger(s1.streams, p) && StreamOk(z, s1, p);
    CappedViewStable(z, s, s1, source, o, cap);
    if !LessThan(o, cap) {
      ViewBounds(z, s, source, o);
      UpToNone(View(s.streams, source, o), cap);
    }
  }

  lemma {:induction false} RunFrom(z: Kind, s: State, e: Event, events: seq<Event>)
    requires Inv(z, s) && Ordered(s.streams) && Inv(z, Step(z, s, e))
    ensures Run(z, s, [e] + events) == Run(z, Step(z, s, e), events)
  {
    assert ([e] + events)[1..] == events;
  }

  /** The same, stated from the Create call that makes the fork and over any run that follows it. */
  lemma {:induction false} ForkSnapshot(z: Kind, s: State, path: string, opts: CreateOptions, expired: set<string>,
                                        events: seq<Event>, o: Offset)
    requires Inv(z, s) && Ordered(s.streams) && opts.forkedFrom != "" && o.readSeq == 0
    requires Create(z, s, path, opts, expired).1 == Ok(true)
    ensures var s1 := Create(z, s, path, opts, expired).0;
      var s' := Run(z, s, [Event(CreateOp(path, opts), expired)] + events);
      && opts.forkedFrom in s.streams && path in s1.streams
      && (SameGeneration(s1, s', path) ==>
        View(s'.streams, path, o)
        == UpTo(View(s.streams, opts.forkedFrom, o), s1.streams[path].meta.forkOffset)
         + After(s'.streams[path].messages, o))
  {
    var s1 := Create(z, s, path, opts, expired).0;
    CreateOk(z, s, path, opts, expired);
    RunFrom(z, s, Event(CreateOp(path, opts), expired), events);
    var s' := Run(z, s1, events);
    ReclaimOk(z, s, path, opts, expired);
    GraphOrdered(s1.streams);
    var s0 := s.(streams := Reclaim(s.streams, path, opts, expired).0);
    ForkStart(z, s0, path, opts, expired, s1);
    assert Descends(s, s0, opts.forkedFrom) && StreamOk(z, s0, opts.forkedFrom);
    assert opts.forkedFrom in s.streams;
    ReclaimTails(z, s, path, opts, expired, opts.forkedFrom);
    if SameGeneration(s1, s', path) {
      ForkReads(z, s, s1, s', path, o);
    }
  }

  lemma {:induction false} ForkStart(z: Kind, s: State, path: string, opts: CreateOptions, expired: set<string>,
                                     s1: State)
    requires Inv(z, s) && Ordered(s.streams) && path !in s.streams && opts.forkedFrom != ""
    requires Launch(z, s, path, opts, expired) == (s1, Ok(true))
    ensures path in s1.streams && s1.streams[path].meta.forkedFrom == opts.forkedFrom
    ensures opts.forkedFrom in s.streams && SameGeneration(s, s1, opts.forkedFrom)
    ensures s1.streams[path].meta.forkOffset.byteOffset
      <= s.streams[opts.forkedFrom].meta.currentOffset.byteOffset
  {
    NewStreamInsertable(z, s, path, opts, expired);
    var fork := ResolveFork(s.streams, opts, expired).value;
    var meta := ForkMeta(opts, s.streams[opts.forkedFrom].meta, fork.offset);
    LaunchOk(z, meta, fork.prefix, s.clock, opts.initialData) by {
      ForkPointOk(z, s, opts, expired);
    }
  }

  /** Making room at a path does not move any other stream's tail. */
  lemma {:induction false} ReclaimTails(z: Kind, s: State, path: string, opts: CreateOptions, expired: set<string>,
                                        p: string)
    requires Inv(z, s) && p in Reclaim(s.streams, path, opts, expired).0
    ensures p in s.streams
    ensures s.streams[p].meta.currentOffset == Reclaim(s.streams, path, opts, expired).0[p].meta.currentOffset
    ensures s.streams[p].created == Reclaim(s.streams, path, opts, expired).0[p].created
  {
    if path in s.streams && path in expired && s.streams[path].meta.refCount <= 0 {
      assert s.streams[path].meta.refCount == |Children(s.streams, path)|;
      CascadeOk(z, s, path);
      assert Survives(s.streams, Cascade(s.streams, path).0, p);
    }
  }
}
