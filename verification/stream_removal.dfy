/** Deleting, sweeping and expiry: exactly which streams go, which stay as tombstones, and how these answer. */
module StreamRemoval {
  import opened Wrappers
  import opened Offsets
  import opened StoreTypes
  import opened StreamStore
  import opened ForkGraph
  import opened StoreInvariant
  import opened ForkReading
  import opened Closing
  import opened Tombstones

  /** Some stream was forked from `p`. */
  predicate Forked(m: Streams, p: string) {
    p != "" && exists c :: c in m && m[c].meta.forkedFrom == p
  }

  /** Nothing can be read at `p` any more. */
  predicate Gone(s: State, p: string) {
    p in s.streams ==> s.streams[p].meta.softDeleted
  }

  lemma {:induction false} CountsForks(m: Streams, p: string)
    requires Counted(m) && p in m
    ensures m[p].meta.refCount > 0 <==> Forked(m, p)
    ensures m[p].meta.refCount >= 0
    ensures !Forked(m, p) ==> Childless(m, p)
  {
    var forks := Children(m, p);
    if m[p].meta.refCount > 0 {
      assert forks != {};
      var c :| c in forks;
    } else {
      NoForks(m, p);
    }
  }

  /** The stream itself leaves no trace but the mark, and nothing else changes. */
  predicate Marked(s: State, s': State, p: string) {
    && OnlyAt(s, s', p) && p in s.streams
    && s'.streams[p] == s.streams[p].(meta := s.streams[p].meta.(softDeleted := true))
  }

  // ---- Delete ----

  /**
   * Delete succeeds exactly on a stream that is there and not a tombstone. One that was forked stays as a tombstone,
   * and nothing else changes. Any other goes, with the tombstones above it that have no forks left then. Either way
   * nothing can be read there, and every other stream stays as it is, but for the number of its forks.
   */
  lemma {:induction false} DeleteExact(z: Kind, s: State, p: string)
    requires Inv(z, s)
    ensures var (s', error) := Delete(s, p);
      && (error == None <==> !Gone(s, p))
      && (error.Some? ==> s' == s && error.value == if p in s.streams then StreamSoftDeleted else NotFound)
      && (error.None? ==>
        && Gone(s', p) && s'.clock == s.clock
        && (if Forked(s.streams, p) then Marked(s, s', p) else Collected(s.streams, p, s'.streams) && p !in s'.streams)
        && (forall q :: q in s.streams && q != p && !s.streams[q].meta.softDeleted ==>
          q in s'.streams && SameButCount(s.streams[q], s'.streams[q])))
  {
    if !Gone(s, p) {
      CountsForks(s.streams, p);
      var s' := Delete(s, p).0;
      if !Forked(s.streams, p) {
        CascadeOk(z, s, p);
        CascadeExact(s.streams, p);
        CascadeRemoves(s.streams, p);
      }
      forall q | q in s.streams && q != p && !s.streams[q].meta.softDeleted
        ensures q in s'.streams && SameButCount(s.streams[q], s'.streams[q])
      {
        DeleteElsewhere(z, s, p, q);
      }
    }
  }

  /** A stream that is gone stays so through any calls on other streams. */
  lemma {:induction false} StepGone(z: Kind, s: State, e: Event, p: string)
    requires Inv(z, s) && Ordered(s.streams) && Gone(s, p) && Elsewhere(e, p)
    ensures Gone(Step(z, s, e), p)
  {
    var s' := Step(z, s, e);
    StepOk(z, s, e);
    if p in s'.streams {
      NotCreated(z, s, e, p);
      assert Descends(s, s', p) && StreamOk(z, s, p);
    }
  }

  /** No call on other streams makes the stream `p`. */
  lemma {:induction false} NotCreated(z: Kind, s: State, e: Event, p: string)
    requires Inv(z, s) && Ordered(s.streams) && Elsewhere(e, p) && p in Step(z, s, e).streams
    ensures p in s.streams && Step(z, s, e).streams[p].created == s.streams[p].created
  {
    match e.op {
      case CreateOp(path, opts) => CreatesOne(z, s, path, opts, e.expired, p);
      case DeleteOp(path) =>
      case SweepOp(victims) => if Sweeps(z) { SweepCreates(s.streams, victims, p); }
      case _ => WritesCreateNone(z, s, e, p);
    }
  }

  lemma {:induction false} CreatesOne(z: Kind, s: State, path: string, opts: CreateOptions, expired: set<string>,
                                      p: string)
    requires Inv(z, s) && Ordered(s.streams) && path != p && p in Create(z, s, path, opts, expired).0.streams
    ensures p in s.streams && Create(z, s, path, opts, expired).0.streams[p].created == s.streams[p].created
  {
    if p in Reclaim(s.streams, path, opts, expired).0 { ReclaimTails(z, s, path, opts, expired, p); }
  }

  lemma {:induction false} WritesCreateNone(z: Kind, s: State, e: Event, p: string)
    requires e.op.AppendOp? || e.op.CloseOp? || e.op.CloseProducerOp? || e.op.ReadOp?
    requires Ordered(s.streams) && e.op.path != p && p in Step(z, s, e).streams
    ensures p in s.streams && Step(z, s, e).streams[p].created == s.streams[p].created
  {
    if p in s.streams { WriteElsewhere(z, s, e, p); }
  }

  lemma {:induction false} SweepCreates(m: Streams, victims: seq<string>, p: string)
    requires p in Sweep(m, victims)
    ensures p in m && Sweep(m, victims)[p].created == m[p].created
    decreases victims
  {
    if victims != [] {
      var x := victims[0];
      var next := if x !in m then m
                  else if m[x].meta.refCount > 0 then SetSoftDeleted(m, x) else Cascade(m, x).0;
      SweepCreates(next, victims[1..], p);
    }
  }

  lemma {:induction false} StaysGone(z: Kind, s: State, events: seq<Event>, p: string)
    requires Inv(z, s) && Gone(s, p) && forall i :: 0 <= i < |events| ==> Elsewhere(events[i], p)
    ensures Gone(Run(z, s, events), p)
    decreases events
  {
    if events != [] {
      GraphOrdered(s.streams);
      StepOk(z, s, events[0]);
      StepGone(z, s, events[0], p);
      StaysGone(z, Step(z, s, events[0]), events[1..], p);
    }
  }

  /** How a path answers at which nothing can be read: nothing is found, written or deleted there. */
  lemma {:induction false} GoneAnswers(z: Kind, s: State, p: string, o: Offset, body: Body, opts: AppendOptions,
                                       expired: set<string>)
    requires Ordered(s.streams) && Gone(s, p)
    ensures Read(s, p, o, expired) == Err(NotFound)
    ensures Delete(s, p) == (s, Some(if p in s.streams then StreamSoftDeleted else NotFound))
    ensures (HasProducerHeaders(opts) ==> HasAllProducerHeaders(opts)) ==>
      Append(z, s, p, body, opts, expired) ==
        (s, Outcome(BLANK_RESULT, Some(if p in s.streams then StreamSoftDeleted else NotFound)))
  {
  }

  /** A deleted stream is not read, written or deleted again, whatever is called on other streams in between. */
  lemma {:induction false} DeletedForGood(z: Kind, s: State, p: string, events: seq<Event>, o: Offset, body: Body,
                                          opts: AppendOptions, expired: set<string>)
    requires Inv(z, s) && Delete(s, p).1 == None && forall i :: 0 <= i < |events| ==> Elsewhere(events[i], p)
    ensures Inv(z, Delete(s, p).0)
    ensures var s' := Run(z, Delete(s, p).0, events);
      && Ordered(s'.streams)
      && Read(s', p, o, expired) == Err(NotFound)
      && Delete(s', p).1.Some? && Delete(s', p).0 == s'
      && Append(z, s', p, body, opts, expired).0 == s' && Append(z, s', p, body, opts, expired).1.error.Some?
  {
    DeleteOk(z, s, p);
    DeleteExact(z, s, p);
    StaysGone(z, Delete(s, p).0, events, p);
    var s' := Run(z, Delete(s, p).0, events);
    GraphOrdered(s'.streams);
    GoneAnswers(z, s', p, o, body, opts, expired);
  }

  // ---- Expiry ----

  /**
   * A sweep leaves nothing to be read of the streams it is told have expired; those without forks are no longer there.
   * It leaves all other streams as they are, but for the number of their forks and for tombstones that have none left.
   */
  lemma {:induction false} SweepExact(z: Kind, s: State, victims: seq<string>)
    requires Inv(z, s)
    ensures var s' := AfterSweep(true, s, victims);
      && s'.clock == s.clock
      && (forall p :: p in victims ==> Gone(s', p) && (!Forked(s.streams, p) ==> p !in s'.streams))
      && (forall p :: p in s.streams && p !in victims && !s.streams[p].meta.softDeleted ==>
        p in s'.streams && SameButCount(s.streams[p], s'.streams[p]))
    ensures AfterSweep(false, s, victims) == s
  {
    var s' := AfterSweep(true, s, victims);
    forall p | p in victims ensures Gone(s', p) && (!Forked(s.streams, p) ==> p !in s'.streams) {
      VictimGone(z, s, victims, p);
      if !Forked(s.streams, p) {
        if p in s.streams {
          CountsForks(s.streams, p);
          assert s.streams[p := s.streams[p]] == s.streams;
          SweepTakes(s.streams, victims, p, s.streams[p]);
        } else if p in s'.streams {
          SweepCreates(s.streams, victims, p);
        }
      }
    }
    forall p | p in s.streams && p !in victims && !s.streams[p].meta.softDeleted
      ensures p in s'.streams && SameButCount(s.streams[p], s'.streams[p])
    {
      SweepElsewhere(z, s, victims, p);
    }
  }

  lemma {:induction false} VictimGone(z: Kind, s: State, victims: seq<string>, p: string)
    requires Inv(z, s) && (p in victims || Gone(s, p))
    ensures Gone(s.(streams := Sweep(s.streams, victims)), p)
    decreases victims
  {
    if victims != [] {
      var x := victims[0];
      var s1 := s;
      if x in s.streams {
        CountsForks(s.streams, x);
        if s.streams[x].meta.refCount > 0 {
          SoftDeleteOk(z, s, x);
          s1 := s.(streams := SetSoftDeleted(s.streams, x));
        } else {
          CascadeOk(z, s, x);
          CascadeRemoves(s.streams, x);
          s1 := s.(streams := Cascade(s.streams, x).0);
          if p in s1.streams && p in s.streams && s.streams[p].meta.softDeleted { CascadeMark(s.streams, x, p); }
        }
      }
      VictimGone(z, s1, victims[1..], p);
    }
  }

  /**
   * A read of an expired stream finds nothing. In the in-memory store it leaves a tombstone if there are forks; it
   * changes nothing else, and nothing at all in the store that sweeps.
   */
  lemma {:induction false} ExpiredRead(z: Kind, s: State, p: string, o: Offset, sweeps: bool, expired: set<string>)
    requires Inv(z, s) && Ordered(s.streams) && p in expired
    ensures Read(s, p, o, expired) == Err(NotFound)
    ensures if !sweeps && p in s.streams && Forked(s.streams, p) then Marked(s, AfterRead(sweeps, s, p, expired), p)
            else AfterRead(sweeps, s, p, expired) == s
  {
    if p in s.streams { CountsForks(s.streams, p); }
  }

  /** A read of a stream that has not expired changes nothing. */
  lemma {:induction false} ReadsLeaveAlone(s: State, p: string, sweeps: bool, expired: set<string>)
    requires p !in expired
    ensures AfterRead(sweeps, s, p, expired) == s
  {
  }
}
