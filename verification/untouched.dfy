/** Calls that write nothing to a stream leave all of it as it was, but for its mark and the number of its forks. */
module Untouched {
  import opened StoreTypes
  import opened StreamStore
  import opened StoreInvariant

  /** An append to `p`, or a close of it. */
  predicate Writes(e: Event, p: string) {
    (e.op.AppendOp? || e.op.CloseOp? || e.op.CloseProducerOp?) && e.op.path == p
  }

  lemma {:induction false} DeleteSame(s: State, path: string, p: string)
    requires p in s.streams && p in Delete(s, path).0.streams
    ensures SameContent(s.streams[p], Delete(s, path).0.streams[p])
  {
    ContentSelf(s.streams[p]);
    if path in s.streams && !s.streams[path].meta.softDeleted && s.streams[path].meta.refCount <= 0 {
      CascadeContent(s.streams, path, p);
    }
  }

  lemma {:induction false} LaunchSame(z: Kind, s: State, path: string, opts: CreateOptions, expired: set<string>,
                                      p: string)
    requires Inv(z, s) && Ordered(s.streams) && path !in s.streams
    requires p in Launch(z, s, path, opts, expired).0.streams
    requires Launch(z, s, path, opts, expired).0.streams[p].created < s.clock
    ensures p in s.streams && SameContent(s.streams[p], Launch(z, s, path, opts, expired).0.streams[p])
  {
    if NewStream(z, s, opts, expired).Ok? { NewStreamInsertable(z, s, path, opts, expired); }
  }

  lemma {:induction false} CreateSame(z: Kind, s: State, path: string, opts: CreateOptions, expired: set<string>,
                                      p: string)
    requires Inv(z, s) && Ordered(s.streams) && p in s.streams && p in Create(z, s, path, opts, expired).0.streams
    requires Create(z, s, path, opts, expired).0.streams[p].created == s.streams[p].created
    ensures SameContent(s.streams[p], Create(z, s, path, opts, expired).0.streams[p])
  {
    var (m, claim) := Reclaim(s.streams, path, opts, expired);
    ReclaimOk(z, s, path, opts, expired);
    GraphOrdered(m);
    assert StreamOk(z, s, p);
    if claim.Free? { LaunchSame(z, s.(streams := m), path, opts, expired, p); }
    ReclaimContent(s.streams, path, opts, expired, p);
  }

  lemma {:induction false} WriteSame(z: Kind, s: State, e: Event, p: string)
    requires Ordered(s.streams) && p in s.streams && !Writes(e, p) && p in Step(z, s, e).streams
    requires e.op.AppendOp? || e.op.CloseOp? || e.op.CloseProducerOp? || e.op.ReadOp?
    ensures SameContent(s.streams[p], Step(z, s, e).streams[p])
  {
    ContentSelf(s.streams[p]);
  }

  /** One call that does not write to the stream, on a generation that survives it. */
  lemma {:induction false} StepSame(z: Kind, s: State, e: Event, p: string)
    requires Inv(z, s) && Ordered(s.streams) && p in s.streams && p in Step(z, s, e).streams
    requires Step(z, s, e).streams[p].created == s.streams[p].created && !Writes(e, p)
    ensures SameContent(s.streams[p], Step(z, s, e).streams[p])
  {
    match e.op {
      case CreateOp(path, opts) => CreateSame(z, s, path, opts, e.expired, p);
      case DeleteOp(path) => DeleteSame(s, path, p);
      case SweepOp(victims) => if Sweeps(z) { SweepContent(s.streams, victims, p); } else { ContentSelf(s.streams[p]); }
      case _ => WriteSame(z, s, e, p);
    }
  }
}
