/**
 * A tombstone without forks: a soft-deleted stream that a crash has left with nothing to pin it. It looks like a
 * live stream without forks to every call on other streams, so those calls behave as in a reachable state.
 */
module Tombstones {
  import opened Offsets
  import opened StoreTypes
  import opened StreamStore
  import opened StoreInvariant
  import opened ForkGraph
  import opened ForkReading

  /** The state with the mark of `p` taken off. */
  function Unmarked(s: State, p: string): State
    requires p in s.streams
  {
    s.(streams := s.streams[p := s.streams[p].(meta := s.streams[p].meta.(softDeleted := false))])
  }

  /** `p` is a tombstone without forks, and but for its mark the state is a reachable one. */
  ghost predicate Haunted(z: Kind, s: State, p: string) {
    && p in s.streams && s.streams[p].meta.softDeleted && s.streams[p].meta.refCount == 0
    && Inv(z, Unmarked(s, p))
  }

  /** A call that finds `p` expired and takes its path, or sweeps it. */
  predicate Collects(z: Kind, e: Event, p: string) {
    match e.op
    case CreateOp(path, _) => path == p && p in e.expired
    case SweepOp(victims) => Sweeps(z) && p in victims
    case _ => false
  }

  // ---- Calls do not look at the mark of a stream they do not name ----

  predicate SameButMark(x: Stream, y: Stream) {
    x == y.(meta := y.meta.(softDeleted := x.meta.softDeleted))
  }

  ghost predicate Childless(m: Streams, p: string) {
    forall c {:trigger m[c]} :: c in m && m[c].meta.forkedFrom == p ==> p == ""
  }

  lemma {:induction false} NoForks(m: Streams, p: string)
    requires Counted(m) && p in m && m[p].meta.refCount == 0
    ensures Childless(m, p)
  {
    assert m[p].meta.refCount == |Children(m, p)|;
    assert Children(m, p) == {};
    forall c | c in m && m[c].meta.forkedFrom == p ensures p == "" {
      assert p != "" ==> c in Children(m, p);
    }
  }

  lemma {:induction false} ChildlessShrinks(m: Streams, left: Streams, p: string)
    requires Childless(m, p) && left.Keys <= m.Keys
    requires forall q :: q in left ==> SameLinks(m[q], left[q])
    ensures Childless(left, p)
  {
    forall c | c in left && left[c].meta.forkedFrom == p ensures p == "" {
      assert c in m && SameLinks(m[c], left[c]);
    }
  }

  lemma {:induction false} SwapElsewhere<T>(m: map<string, T>, p: string, x: T, q: string, y: T)
    requires p != q
    ensures m[p := x][q := y] == m[q := y][p := x]
    ensures m[p := x] - {q} == (m - {q})[p := x]
  {
  }

  /** One step of a cascade: what is left of it, and whether it goes on to the source. */
  lemma {:induction false} CascadeOnce(m: Streams, q: string, rest: Streams, source: string)
    requires q in m && rest == m - {q} && source == m[q].meta.forkedFrom
    ensures source == "" || source !in rest ==> Cascade(m, q) == (rest, false)
    ensures source != "" && source in rest ==>
      var n := rest[source].meta.refCount - 1;
      Cascade(m, q) ==
        if n < 0 then (SetRefCount(rest, source, 0), true)
        else if n == 0 && rest[source].meta.softDeleted then Cascade(SetRefCount(rest, source, n), source)
        else (SetRefCount(rest, source, n), false)
  {
  }

  lemma {:induction false} CascadeSwap(m: Streams, q: string, p: string, x: Stream)
    requires p in m && q != p && SameButMark(x, m[p]) && Childless(m, p)
    ensures p in Cascade(m, q).0 && Cascade(m, q).0[p] == m[p] && Childless(Cascade(m, q).0, p)
    ensures Cascade(m[p := x], q) == (Cascade(m, q).0[p := x], Cascade(m, q).1)
    decreases |m.Keys|, 0
  {
    if q in m {
      var rest, source := m - {q}, m[q].meta.forkedFrom;
      SwapElsewhere(m, p, x, q, m[q]);
      ChildlessShrinks(m, rest, p);
      Shrinks(m, q);
      RestSwap(m, m[p := x], q, rest, rest[p := x], source, p, x);
    }
  }

  lemma {:induction false} RestSwap(m: Streams, m': Streams, q: string, rest: Streams, rest': Streams, source: string,
                                    p: string, x: Stream)
    requires q in m && rest == m - {q} && source == m[q].meta.forkedFrom && p in rest && |rest.Keys| < |m.Keys|
    requires q in m' && rest' == m' - {q} && source == m'[q].meta.forkedFrom && rest' == rest[p := x]
    requires SameButMark(x, rest[p]) && Childless(rest, p) && (source == p ==> p == "")
    ensures p in Cascade(m, q).0 && Cascade(m, q).0[p] == rest[p] && Childless(Cascade(m, q).0, p)
    ensures Cascade(m', q) == (Cascade(m, q).0[p := x], Cascade(m, q).1)
    decreases |rest.Keys|, 1
  {
    CascadeOnce(m, q, rest, source);
    CascadeOnce(m', q, rest', source);
    if source != "" && source in rest {
      var n := rest[source].meta.refCount - 1;
      var k := if n < 0 then 0 else n;
      var released := SetRefCount(rest, source, k);
      SwapElsewhere(rest, p, x, source, WithRefCount(rest[source], k));
      SameSize(rest, source, WithRefCount(rest[source], k));
      ChildlessShrinks(rest, released, p);
      if n == 0 && rest[source].meta.softDeleted { CascadeSwap(released, source, p, x); }
    }
  }

  lemma {:induction false} SweepSwap(m: Streams, victims: seq<string>, p: string, x: Stream)
    requires p in m && p !in victims && SameButMark(x, m[p]) && Childless(m, p)
    ensures p in Sweep(m, victims) && Sweep(m, victims)[p] == m[p]
    ensures Sweep(m[p := x], victims) == Sweep(m, victims)[p := x]
    decreases victims
  {
    if victims != [] {
      var q := victims[0];
      if q !in m {
        SweepSwap(m, victims[1..], p, x);
      } else if m[q].meta.refCount > 0 {
        var left := SetSoftDeleted(m, q);
        SwapElsewhere(m, p, x, q, left[q]);
        ChildlessShrinks(m, left, p);
        SweepSwap(left, victims[1..], p, x);
      } else {
        CascadeSwap(m, q, p, x);
        SweepSwap(Cascade(m, q).0, victims[1..], p, x);
      }
    }
  }

  /** Sweeping a childless stream removes it, marked or not. */
  lemma {:induction false} SweepTakes(m: Streams, victims: seq<string>, p: string, x: Stream)
    requires p in m && p in victims && SameButMark(x, m[p]) && Childless(m, p) && m[p].meta.refCount == 0
    ensures Sweep(m[p := x], victims) == Sweep(m, victims) && p !in Sweep(m, victims)
    decreases victims
  {
    var q := victims[0];
    if q == p {
      CascadeTakes(m, p, x);
      CascadeRemoves(m, p);
      var left := Sweep(Cascade(m, p).0, victims[1..]);
      if p in left { SweepContent(Cascade(m, p).0, victims[1..], p); }
    } else if q !in m {
      SweepTakes(m, victims[1..], p, x);
    } else if m[q].meta.refCount > 0 {
      var left := SetSoftDeleted(m, q);
      SwapElsewhere(m, p, x, q, left[q]);
      ChildlessShrinks(m, left, p);
      SweepTakes(left, victims[1..], p, x);
    } else {
      CascadeSwap(m, q, p, x);
      SweepTakes(Cascade(m, q).0, victims[1..], p, x);
    }
  }

  lemma {:induction false} CascadeTakes(m: Streams, p: string, x: Stream)
    requires p in m && SameButMark(x, m[p])
    ensures Cascade(m[p := x], p) == Cascade(m, p)
  {
    assert m[p := x] - {p} == m - {p};
  }

  lemma {:induction false} SwapOrdered(m: Streams, p: string, x: Stream)
    requires p in m && SameButMark(x, m[p]) && Ordered(m)
    ensures Ordered(m[p := x])
  {
    var m' := m[p := x];
    forall q | q in m' ensures Younger(m', q) {
      assert Younger(m, q);
    }
  }

  lemma {:induction false} ViewSwap(m: Streams, p: string, x: Stream, q: string, o: Offset)
    requires p in m && SameButMark(x, m[p]) && Ordered(m) && Ordered(m[p := x]) && q in m
    ensures View(m[p := x], q, o) == View(m, q, o)
    decreases m[q].created
  {
    var meta := m[q].meta;
    assert Younger(m, q);
    if meta.forkedFrom != "" && LessThan(o, meta.forkOffset) && meta.forkedFrom in m {
      ViewSwap(m, p, x, meta.forkedFrom, o);
    }
  }

  function Swapped(s: State, p: string, x: Stream): State {
    s.(streams := s.streams[p := x])
  }

  /** A call that does not name `p` does to the others what it does when `p` carries another mark. */
  ghost predicate Swaps(s1: State, s1': State, p: string, x: Stream, y: Stream) {
    p in s1.streams && s1.streams[p] == y && s1' == Swapped(s1, p, x)
  }

  lemma {:induction false} ReclaimSwap(s: State, path: string, opts: CreateOptions, expired: set<string>, p: string,
                                       x: Stream)
    requires p in s.streams && path != p && SameButMark(x, s.streams[p]) && Childless(s.streams, p)
    ensures var r, r' := Reclaim(s.streams, path, opts, expired), Reclaim(s.streams[p := x], path, opts, expired);
      && p in r.0 && r.0[p] == s.streams[p] && r'.0 == r.0[p := x] && r'.1 == r.1
  {
    var m := s.streams;
    if path in m && path in expired {
      if m[path].meta.refCount > 0 {
        SwapElsewhere(m, p, x, path, SetSoftDeleted(m, path)[path]);
      } else {
        CascadeSwap(m, path, p, x);
      }
    }
  }

  lemma {:induction false} NewStreamSwap(z: Kind, s: State, opts: CreateOptions, expired: set<string>, p: string,
                                         x: Stream)
    requires p in s.streams && SameButMark(x, s.streams[p]) && p in expired
    requires Ordered(s.streams) && Ordered(s.streams[p := x])
    ensures var r, r' := NewStream(z, s, opts, expired), NewStream(z, Swapped(s, p, x), opts, expired);
      if opts.forkedFrom == p && p != "" then r.Err? && r'.Err? else r' == r
  {
    var source := opts.forkedFrom;
    if source != "" && source != p && source in s.streams {
      var at := match opts.forkOffset case Some(o) => o case None => s.streams[source].meta.currentOffset;
      ViewSwap(s.streams, p, x, source, at);
    }
  }

  lemma {:induction false} LaunchSwap(z: Kind, s: State, path: string, opts: CreateOptions, expired: set<string>,
                                      p: string, x: Stream)
    requires p in s.streams && path != p && SameButMark(x, s.streams[p]) && p in expired
    requires Ordered(s.streams) && Ordered(s.streams[p := x])
    ensures Swaps(Launch(z, s, path, opts, expired).0, Launch(z, Swapped(s, p, x), path, opts, expired).0, p, x,
                  s.streams[p])
  {
    NewStreamSwap(z, s, opts, expired, p, x);
    var r := NewStream(z, s, opts, expired);
    if r.Ok? {
      NewStreamLinks(z, s, opts, expired);
      InsertSwap(s.streams, path, r.value, p, x);
    }
  }

  lemma {:induction false} NewStreamLinks(z: Kind, s: State, opts: CreateOptions, expired: set<string>)
    requires Ordered(s.streams) && NewStream(z, s, opts, expired).Ok?
    ensures NewStream(z, s, opts, expired).value.meta.forkedFrom == opts.forkedFrom
  {
  }

  lemma {:induction false} InsertSwap(m: Streams, path: string, st: Stream, p: string, x: Stream)
    requires p in m && path != p && (st.meta.forkedFrom == p ==> p == "")
    ensures Insert(m[p := x], path, st) == Insert(m, path, st)[p := x] && Insert(m, path, st)[p] == m[p]
  {
    var source := st.meta.forkedFrom;
    if source != "" && source in m {
      var counted := WithRefCount(m[source], m[source].meta.refCount + 1);
      SwapElsewhere(m, p, x, source, counted);
      SwapElsewhere(m[source := counted], p, x, path, st);
    } else {
      SwapElsewhere(m, p, x, path, st);
    }
  }

  lemma {:induction false} CreateSwap(z: Kind, s: State, path: string, opts: CreateOptions, expired: set<string>,
                                      p: string, x: Stream)
    requires p in s.streams && path != p && SameButMark(x, s.streams[p]) && Childless(s.streams, p) && p in expired
    requires Ordered(s.streams) && Ordered(s.streams[p := x])
    ensures Swaps(Create(z, s, path, opts, expired).0, Create(z, Swapped(s, p, x), path, opts, expired).0, p, x,
                  s.streams[p])
  {
    ReclaimSwap(s, path, opts, expired, p, x);
    var (m, claim) := Reclaim(s.streams, path, opts, expired);
    SwapOrdered(m, p, x);
    if claim.Free? { LaunchSwap(z, s.(streams := m), path, opts, expired, p, x); }
  }

  lemma {:induction false} WriteSwap(z: Kind, s: State, e: Event, p: string, x: Stream)
    requires p in s.streams && Elsewhere(e, p) && Ordered(s.streams) && Ordered(s.streams[p := x])
    requires e.op.AppendOp? || e.op.CloseOp? || e.op.CloseProducerOp? || e.op.ReadOp?
    ensures Swaps(Step(z, s, e), Step(z, Swapped(s, p, x), e), p, x, s.streams[p])
  {
    var path := e.op.path;
    if path in s.streams {
      var after := Step(z, s, e);
      assert path in after.streams;
      SwapElsewhere(s.streams, p, x, path, after.streams[path]);
    }
  }

  lemma {:induction false} StepSwap(z: Kind, s: State, e: Event, p: string, x: Stream)
    requires p in s.streams && Elsewhere(e, p) && SameButMark(x, s.streams[p]) && Childless(s.streams, p)
    requires p in e.expired && Ordered(s.streams)
    ensures Ordered(s.streams[p := x])
    ensures Swaps(Step(z, s, e), Step(z, Swapped(s, p, x), e), p, x, s.streams[p])
  {
    SwapOrdered(s.streams, p, x);
    match e.op {
      case CreateOp(path, opts) => CreateSwap(z, s, path, opts, e.expired, p, x);
      case DeleteOp(path) =>
        if path in s.streams && !s.streams[path].meta.softDeleted {
          if s.streams[path].meta.refCount > 0 {
            SwapElsewhere(s.streams, p, x, path, SetSoftDeleted(s.streams, path)[path]);
          } else {
            CascadeSwap(s.streams, path, p, x);
          }
        }
      case SweepOp(victims) => SweepSwap(s.streams, victims, p, x);
      case _ => WriteSwap(z, s, e, p, x);
    }
  }

  // ---- One call on a haunted state ----

  function AlsoExpired(e: Event, p: string): Event {
    e.(expired := e.expired + {p})
  }

  /** A tombstone is refused as a source before its expiry is looked at. */
  lemma {:induction false} TombstoneRefused(z: Kind, s: State, e: Event, p: string)
    requires p in s.streams && s.streams[p].meta.softDeleted && Elsewhere(e, p) && Ordered(s.streams)
    ensures Step(z, s, e) == Step(z, s, AlsoExpired(e, p))
  {
    if e.op.CreateOp? {
      var path, opts := e.op.path, e.op.create;
      var (m, claim) := Reclaim(s.streams, path, opts, e.expired);
      assert Reclaim(s.streams, path, opts, e.expired + {p}) == (m, claim);
      if claim.Free? { SameTarget(z, s, path, opts, e.expired, p); }
    }
  }

  lemma {:induction false} SameTarget(z: Kind, s: State, path: string, opts: CreateOptions, expired: set<string>,
                                      p: string)
    requires p in s.streams && s.streams[p].meta.softDeleted && path != p && Ordered(s.streams)
    ensures var m := Reclaim(s.streams, path, opts, expired).0;
      Ordered(m) && ForkTarget(m, opts, expired) == ForkTarget(m, opts, expired + {p})
  {
    var m := Reclaim(s.streams, path, opts, expired).0;
    if opts.forkedFrom == p && p in m { ReclaimMark(s, path, opts, expired, p); }
  }

  lemma {:induction false} ReclaimMark(s: State, path: string, opts: CreateOptions, expired: set<string>, p: string)
    requires p in s.streams && s.streams[p].meta.softDeleted
    requires p in Reclaim(s.streams, path, opts, expired).0
    ensures Reclaim(s.streams, path, opts, expired).0[p].meta.softDeleted
  {
    var m := s.streams;
    if path in m && path in expired && m[path].meta.refCount <= 0 { CascadeMark(m, path, p); }
  }

  lemma {:induction false} CascadeMark(m: Streams, q: string, p: string)
    requires p in m && m[p].meta.softDeleted && p in Cascade(m, q).0
    ensures Cascade(m, q).0[p].meta.softDeleted
    decreases |m.Keys|
  {
    if q in m {
      var rest, source := m - {q}, m[q].meta.forkedFrom;
      CascadeOnce(m, q, rest, source);
      if source != "" && source in rest && rest[source].meta.refCount == 1 && rest[source].meta.softDeleted {
        var released := SetRefCount(rest, source, 0);
        Shrinks(m, q);
        SameSize(rest, source, released[source]);
        CascadeMark(released, source, p);
      }
    }
  }

  lemma {:induction false} MarkedBack(s: State, p: string)
    requires p in s.streams
    ensures Swapped(Unmarked(s, p), p, s.streams[p]) == s
    ensures SameButMark(s.streams[p], Unmarked(s, p).streams[p])
  {
    assert Unmarked(s, p).streams[p := s.streams[p]] == s.streams;
  }

  lemma {:induction false} UnmarkSwapped(u: State, p: string, x: Stream)
    requires p in u.streams && SameButMark(x, u.streams[p]) && !u.streams[p].meta.softDeleted
    ensures Unmarked(Swapped(u, p, x), p) == u
  {
    assert u.streams[p := x][p := u.streams[p]] == u.streams;
  }

  /** Calls on other streams leave the tombstone, and the state haunted. */
  lemma {:induction false} ElsewhereHaunts(z: Kind, s: State, e: Event, p: string)
    requires Haunted(z, s, p) && Elsewhere(e, p)
    ensures Ordered(s.streams) && Haunted(z, Step(z, s, e), p) && Step(z, s, e).streams[p] == s.streams[p]
  {
    var u, x, e' := Unmarked(s, p), s.streams[p], AlsoExpired(e, p);
    HauntedOrdered(z, s, p);
    GraphOrdered(u.streams);
    NoForks(u.streams, p);
    MarkedBack(s, p);
    StepSwap(z, u, e', p, x);
    TombstoneRefused(z, s, e, p);
    StepOk(z, u, e');
    UnmarkSwapped(Step(z, u, e'), p, x);
  }

  /** Nor does a call on the tombstone itself remove it, unless it finds it expired and may take its path. */
  lemma {:induction false} OwnHaunts(z: Kind, s: State, e: Event, p: string)
    requires Haunted(z, s, p) && !Elsewhere(e, p) && !Collects(z, e, p)
    ensures Ordered(s.streams) && Haunted(z, Step(z, s, e), p)
    ensures Step(z, s, e).streams[p].created == s.streams[p].created
  {
    var u := Unmarked(s, p);
    GraphOrdered(u.streams);
    SwapOrdered(u.streams, p, s.streams[p]);
    assert u.streams[p := s.streams[p]] == s.streams;
    if e.op.CloseOp? || e.op.CloseProducerOp? {
      StepOk(z, u, e);
      ClosedTombstone(z, s, e, p);
    }
  }

  lemma {:induction false} ClosedTombstone(z: Kind, s: State, e: Event, p: string)
    requires p in s.streams && (e.op.CloseOp? || e.op.CloseProducerOp?) && e.op.path == p
    requires Ordered(s.streams) && Ordered(Unmarked(s, p).streams)
    ensures p in Step(z, s, e).streams
    ensures Unmarked(Step(z, s, e), p) == Step(z, Unmarked(s, p), e)
    ensures var st := Step(z, s, e).streams[p];
      && st.created == s.streams[p].created && st.meta.refCount == s.streams[p].meta.refCount
      && st.meta.softDeleted == s.streams[p].meta.softDeleted
  {
    if e.op.CloseOp? {
      ClosedPlainly(s, p, e.expired);
    } else {
      ClosedByProducer(s, p, e.op.producerId, e.op.epoch, e.op.seqNo, e.expired);
    }
  }

  lemma {:induction false} ClosedPlainly(s: State, p: string, expired: set<string>)
    requires p in s.streams
    ensures var a, b := Close(s, p, expired).0, Close(Unmarked(s, p), p, expired).0;
      && p in a.streams && Unmarked(a, p) == b
      && a.streams[p] == s.streams[p].(meta := s.streams[p].meta.(closed := a.streams[p].meta.closed))
  {
    var a, b := Close(s, p, expired).0, Close(Unmarked(s, p), p, expired).0;
    SameMapBut(s.streams, p, a.streams, Unmarked(s, p).streams, b.streams, Unmarked(a, p).streams);
  }

  lemma {:induction false} ClosedByProducer(s: State, p: string, id: string, epoch: int, seqNo: int,
                                            expired: set<string>)
    requires p in s.streams
    ensures var a := CloseWithProducer(s, p, id, epoch, seqNo, expired).0;
      var b := CloseWithProducer(Unmarked(s, p), p, id, epoch, seqNo, expired).0;
      && p in a.streams && Unmarked(a, p) == b
      && a.streams[p] == s.streams[p].(meta := s.streams[p].meta.(
        closed := a.streams[p].meta.closed, closedBy := a.streams[p].meta.closedBy,
        producers := a.streams[p].meta.producers))
  {
    var a := CloseWithProducer(s, p, id, epoch, seqNo, expired).0;
    var b := CloseWithProducer(Unmarked(s, p), p, id, epoch, seqNo, expired).0;
    SameMapBut(s.streams, p, a.streams, Unmarked(s, p).streams, b.streams, Unmarked(a, p).streams);
  }

  lemma {:induction false} SameMapBut(m: Streams, p: string, a: Streams, u: Streams, b: Streams, v: Streams)
    requires p in m && p in a && p in u && p in b && p in v && v[p] == b[p]
    requires a == m[p := a[p]] && u == m[p := u[p]] && b == u[p := b[p]] && v == a[p := v[p]]
    ensures v == b
  {
  }

  lemma {:induction false} NewStreamStamp(z: Kind, s: State, opts: CreateOptions, expired: set<string>)
    requires Ordered(s.streams) && NewStream(z, s, opts, expired).Ok?
    ensures NewStream(z, s, opts, expired).value.created == s.clock
  {
  }

  /** A call that collects the tombstone does what it does to a live stream without forks. */
  lemma {:induction false} CollectsTombstone(z: Kind, s: State, e: Event, p: string)
    requires Haunted(z, s, p) && Collects(z, e, p)
    ensures Ordered(s.streams) && Ordered(Unmarked(s, p).streams) && Inv(z, Step(z, s, e))
    ensures Step(z, s, e) == Step(z, Unmarked(s, p), e)
    ensures p in Step(z, s, e).streams ==> Step(z, s, e).streams[p].created == s.clock
  {
    var u, x := Unmarked(s, p), s.streams[p];
    GraphOrdered(u.streams);
    SwapOrdered(u.streams, p, x);
    NoForks(u.streams, p);
    assert u.streams[p := x] == s.streams;
    StepOk(z, u, e);
    match e.op {
      case CreateOp(path, opts) =>
        CascadeTakes(u.streams, p, x);
        CascadeRemoves(u.streams, p);
        var s0 := s.(streams := Cascade(u.streams, p).0);
        CascadeOrdered(u.streams, p);
        if NewStream(z, s0, opts, e.expired).Ok? { NewStreamStamp(z, s0, opts, e.expired); }
      case SweepOp(victims) => SweepTakes(u.streams, victims, p, x);
    }
  }

  // ---- Runs ----

  /** The state after a sequence of calls, reachable or not. */
  ghost function Steps(z: Kind, s: State, events: seq<Event>): State
    decreases events
  {
    if events == [] || !Ordered(s.streams) then s else Steps(z, Step(z, s, events[0]), events[1..])
  }

  lemma {:induction false} StepsIsRun(z: Kind, s: State, events: seq<Event>)
    requires Inv(z, s)
    ensures Steps(z, s, events) == Run(z, s, events)
    decreases events
  {
    GraphOrdered(s.streams);
    if events != [] {
      StepOk(z, s, events[0]);
      StepsIsRun(z, Step(z, s, events[0]), events[1..]);
    }
  }

  /** The tombstone is still there. */
  ghost predicate StillThere(s: State, s': State, p: string)
    requires p in s.streams
  {
    p in s'.streams && s'.streams[p].created == s.streams[p].created
  }

  /**
   * A tombstone without forks stays through a run of calls exactly when no call finds it expired and takes its path or
   * sweeps it. Without an expiry it stays for good, and its path with it.
   */
  lemma {:induction false} TombstoneStays(z: Kind, s: State, events: seq<Event>, p: string)
    requires Haunted(z, s, p)
    ensures StillThere(s, Steps(z, s, events), p) <==> (forall i :: 0 <= i < |events| ==> !Collects(z, events[i], p))
    ensures StillThere(s, Steps(z, s, events), p) ==> Haunted(z, Steps(z, s, events), p)
    decreases events
  {
    if events != [] {
      var e, rest := events[0], events[1..];
      assert forall i :: 0 < i < |events| ==> events[i] == rest[i - 1];
      HauntedOrdered(z, s, p);
      var s1 := Step(z, s, e);
      if Collects(z, e, p) {
        CollectsTombstone(z, s, e, p);
        StepsIsRun(z, s1, rest);
        NeverBack(z, s, s1, Run(z, s1, rest), p);
      } else {
        if Elsewhere(e, p) { ElsewhereHaunts(z, s, e, p); } else { OwnHaunts(z, s, e, p); }
        TombstoneStays(z, s1, rest, p);
        assert (forall i :: 0 <= i < |rest| ==> !Collects(z, rest[i], p)) <==>
          (forall i :: 0 <= i < |events| ==> !Collects(z, events[i], p));
      }
    }
  }

  lemma {:induction false} HauntedOrdered(z: Kind, s: State, p: string)
    requires Haunted(z, s, p)
    ensures Ordered(s.streams)
  {
    var u := Unmarked(s, p);
    GraphOrdered(u.streams);
    SwapOrdered(u.streams, p, s.streams[p]);
    assert u.streams[p := s.streams[p]] == s.streams;
  }

  lemma {:induction false} NeverBack(z: Kind, s: State, s1: State, s': State, p: string)
    requires Haunted(z, s, p) && Keeps(s1, s') && s1.clock >= s.clock
    requires p in s1.streams ==> s1.streams[p].created == s.clock
    ensures !StillThere(s, s', p)
  {
    assert StreamOk(z, Unmarked(s, p), p);
    if p in s'.streams { assert Descends(s1, s', p); }
  }
}
