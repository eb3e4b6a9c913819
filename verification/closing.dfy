/** Closing a stream: what it changes at once, and how the stream answers from then on. */
module Closing {
  import opened Wrappers
  import opened Offsets
  import opened StoreTypes
  import opened StreamStore
  import opened StoreInvariant
  import opened ForkReading
  import opened ProducerDedup

  // ---- The call that closes ----

  /** The call is answered as one that closes `p`. */
  predicate Closes(z: Kind, s: State, e: Event, p: string) {
    match e.op
    case CloseOp(path) => path == p && Close(s, path, e.expired).1.Ok?
    case AppendOp(path, body, opts) =>
      var outcome := Append(z, s, path, body, opts, e.expired).1;
      path == p && opts.close && outcome.error.None? && outcome.result.producerResult != Duplicate
    case CloseProducerOp(path, id, epoch, seqNo) =>
      var outcome := CloseWithProducer(s, path, id, epoch, seqNo, e.expired).1;
      path == p && outcome.error.None? && outcome.result.producerResult == Accepted
    case _ => false
  }

  /** The tuple of a closing request that has one. */
  function Closer(e: Event): Option<ClosedBy> {
    match e.op
    case AppendOp(_, _, opts) =>
      if HasAllProducerHeaders(opts)
      then Some(ClosedBy(opts.producerId, opts.producerEpoch.value, opts.producerSeq.value)) else None
    case CloseProducerOp(_, id, epoch, seqNo) => Some(ClosedBy(id, epoch, seqNo))
    case _ => None
  }

  /** Nothing changes but the stream at `p`. */
  predicate OnlyAt(s: State, s': State, p: string) {
    && s'.clock == s.clock && s'.streams.Keys == s.streams.Keys
    && (forall q :: q in s.streams && q != p ==> s'.streams[q] == s.streams[q])
  }

  /** A plain close succeeds on every stream that is there and has not expired, and changes the one flag. */
  lemma {:induction false} PlainClose(z: Kind, s: State, p: string, expired: set<string>)
    requires Ordered(s.streams)
    ensures var (s', r) := Close(s, p, expired);
      && s' == Step(z, s, Event(CloseOp(p), expired))
      && (r.Ok? <==> p in s.streams && p !in expired)
      && (r.Err? ==> r.error == NotFound && s' == s)
      && (r.Ok? ==>
        && r.value == (s.streams[p].meta.currentOffset, s.streams[p].meta.closed)
        && OnlyAt(s, s', p) && s'.streams[p].meta.closed
        && s.streams[p] == s'.streams[p].(meta := s'.streams[p].meta.(closed := s.streams[p].meta.closed)))
  {
  }

  /** A producer's accepted close records its tuple and who closed, and changes nothing of the log. */
  lemma {:induction false} ProducerClose(s: State, p: string, id: string, epoch: int, seqNo: int, expired: set<string>)
    requires p in s.streams && p !in expired && !s.streams[p].meta.closed
    requires NextOk(Find(s.streams[p].meta.producers, id), epoch, seqNo)
    ensures var (s', outcome) := CloseWithProducer(s, p, id, epoch, seqNo, expired);
      var meta := s.streams[p].meta;
      && outcome.error == None && outcome.result.producerResult == Accepted && outcome.result.streamClosed
      && outcome.result.offset == meta.currentOffset
      && OnlyAt(s, s', p) && s'.streams[p].messages == s.streams[p].messages
      && s'.streams[p].meta == meta.(closed := true, closedBy := Some(ClosedBy(id, epoch, seqNo)),
                                     producers := meta.producers[id := ProducerState(epoch, seqNo)])
  {
    AcceptedTuple(s.streams[p].meta.producers, id, epoch, seqNo);
  }

  /** The stream is closed, by the tuple of the call if it has one, and no other stream changed. */
  lemma {:induction false} ClosesNow(z: Kind, s: State, e: Event, p: string)
    requires Inv(z, s) && Ordered(s.streams) && Closes(z, s, e, p)
    ensures p in s.streams && OnlyAt(s, Step(z, s, e), p)
    ensures var st, st' := s.streams[p], Step(z, s, e).streams[p];
      && st'.created == st.created && st'.meta.closed
      && st'.meta.closedBy == (if Closer(e).Some? then Closer(e) else st.meta.closedBy)
      && (!e.op.AppendOp? ==> st'.messages == st.messages && st'.meta.currentOffset == st.meta.currentOffset)
  {
    match e.op
    case AppendOp(path, body, opts) => AppendCloses(z, s, p, body, opts, e.expired);
    case CloseProducerOp(path, id, epoch, seqNo) => AcceptedTuple(s.streams[p].meta.producers, id, epoch, seqNo);
    case _ =>
  }

  lemma {:induction false} AppendCloses(z: Kind, s: State, p: string, body: Body, opts: AppendOptions,
                                        expired: set<string>)
    requires opts.close && Append(z, s, p, body, opts, expired).1.error.None?
    requires Append(z, s, p, body, opts, expired).1.result.producerResult != Duplicate
    ensures var s' := Append(z, s, p, body, opts, expired).0;
      && p in s.streams && OnlyAt(s, s', p)
      && var st, st' := s.streams[p], s'.streams[p];
         && st'.created == st.created && st'.meta.closed
         && st'.meta.closedBy == if HasAllProducerHeaders(opts)
              then Some(ClosedBy(opts.producerId, opts.producerEpoch.value, opts.producerSeq.value))
              else st.meta.closedBy
  {
    var admission := AdmitAppend(s.streams[p].meta, p in expired, body, opts);
    if HasAllProducerHeaders(opts) {
      AcceptedTuple(s.streams[p].meta.producers, opts.producerId, opts.producerEpoch.value, opts.producerSeq.value);
    }
  }

  // ---- A closed stream stays as it is ----

  /** A later state of a closed stream. */
  predicate Frozen(a: Stream, b: Stream) {
    && b.created == a.created && b.meta.closed && b.messages == a.messages
    && b.meta.currentOffset == a.meta.currentOffset && b.meta.closedBy == a.meta.closedBy
  }

  lemma {:induction false} WritesFrozen(z: Kind, s: State, e: Event, p: string)
    requires Ordered(s.streams) && p in s.streams && s.streams[p].meta.closed
    requires (e.op.AppendOp? || e.op.CloseProducerOp?) && e.op.path == p
    ensures Step(z, s, e) == s
  {
  }

  lemma {:induction false} StepFrozen(z: Kind, s: State, e: Event, p: string)
    requires Inv(z, s) && Ordered(s.streams) && p in s.streams && s.streams[p].meta.closed
    requires p in Step(z, s, e).streams && Step(z, s, e).streams[p].created == s.streams[p].created
    ensures Frozen(s.streams[p], Step(z, s, e).streams[p])
  {
    var s' := Step(z, s, e);
    StepOk(z, s, e);
    assert StreamOk(z, s, p) && StreamOk(z, s', p) && Descends(s, s', p);
    TailsGrow(z, s.streams[p], s'.streams[p]);
    if (e.op.AppendOp? || e.op.CloseProducerOp?) && e.op.path == p {
      WritesFrozen(z, s, e, p);
    } else {
      OthersKeep(z, s, e, p);
    }
  }

  /** However long the run, a closed stream that survives it keeps its log, its tail and who closed it. */
  lemma {:induction false} RunFrozen(z: Kind, s: State, events: seq<Event>, p: string)
    requires Inv(z, s) && p in s.streams && s.streams[p].meta.closed
    requires p in Run(z, s, events).streams && Run(z, s, events).streams[p].created == s.streams[p].created
    ensures Frozen(s.streams[p], Run(z, s, events).streams[p])
    decreases events
  {
    if events != [] {
      GraphOrdered(s.streams);
      var s1 := Step(z, s, events[0]);
      StepOk(z, s, events[0]);
      ThereAllAlong(z, s, s1, Run(z, s1, events[1..]), p);
      StepFrozen(z, s, events[0], p);
      RunFrozen(z, s1, events[1..], p);
    }
  }

  lemma {:induction false} RunThen(z: Kind, s: State, a: seq<Event>, b: seq<Event>)
    requires Inv(z, s)
    ensures Run(z, s, a + b) == Run(z, Run(z, s, a), b)
    decreases a
  {
    if a == [] {
      assert a + b == b;
    } else {
      GraphOrdered(s.streams);
      StepOk(z, s, a[0]);
      assert (a + b)[1..] == a[1..] + b;
      RunThen(z, Step(z, s, a[0]), a[1..], b);
    }
  }

  /** A stream that some call of a run closed is closed from then on. */
  lemma {:induction false} ClosedAfter(z: Kind, s: State, before: seq<Event>, close: Event, after: seq<Event>,
                                       p: string)
    requires Inv(z, s) && p in s.streams && Closes(z, Run(z, s, before), close, p)
    requires var s' := Run(z, s, before + ([close] + after));
      p in s'.streams && s'.streams[p].created == s.streams[p].created
    ensures Run(z, s, before + ([close] + after)).streams[p].meta.closed
  {
    var s1, s' := Run(z, s, before), Run(z, s, before + ([close] + after));
    RunThen(z, s, before, [close] + after);
    ClosesNow(z, s1, close, p);
    StepOk(z, s1, close);
    RunFrom(z, s1, close, after);
    ThereAllAlong(z, s, s1, s', p);
    RunFrozen(z, Step(z, s1, close), after, p);
  }

  // ---- How a closed stream answers ----

  /** The request carries the tuple that closed the stream. */
  predicate NamesCloser(closedBy: Option<ClosedBy>, opts: AppendOptions) {
    && closedBy.Some? && opts.producerId == closedBy.value.producerId && opts.producerId != ""
    && opts.producerEpoch == Some(closedBy.value.epoch) && opts.producerSeq == Some(closedBy.value.seqNo)
  }

  function AsDuplicate(tail: Offset, seqNo: int): Outcome {
    Outcome(AppendResult(tail, Duplicate, 0, 0, 0, seqNo, true), None)
  }

  function AsClosed(tail: Offset): Outcome {
    Outcome(BLANK_RESULT.(offset := tail, streamClosed := true), Some(StreamClosed))
  }

  /** What a write to the closed stream is answered with. */
  function AppendAnswer(tail: Offset, closedBy: Option<ClosedBy>, opts: AppendOptions): Outcome {
    if NamesCloser(closedBy, opts) then AsDuplicate(tail, closedBy.value.seqNo) else AsClosed(tail)
  }

  lemma {:induction false} AnswersClosed(z: Kind, s: State, p: string, body: Body, opts: AppendOptions,
                                         expired: set<string>)
    requires p in s.streams && s.streams[p].meta.closed && !s.streams[p].meta.softDeleted && p !in expired
    requires HasProducerHeaders(opts) ==> HasAllProducerHeaders(opts)
    ensures Append(z, s, p, body, opts, expired) ==
      (s, AppendAnswer(s.streams[p].meta.currentOffset, s.streams[p].meta.closedBy, opts))
  {
  }

  lemma {:induction false} ClosedAlready(s: State, p: string, id: string, epoch: int, seqNo: int, expired: set<string>)
    requires p in s.streams && s.streams[p].meta.closed && p !in expired
    ensures var meta := s.streams[p].meta;
      && CloseWithProducer(s, p, id, epoch, seqNo, expired) ==
        (s, if meta.closedBy == Some(ClosedBy(id, epoch, seqNo)) then AsDuplicate(meta.currentOffset, seqNo)
            else AsClosed(meta.currentOffset))
      && Close(s, p, expired) == (s, Ok((meta.currentOffset, true)))
  {
    assert s.streams[p := s.streams[p]] == s.streams;
  }

  /** The tail a stream is closed at, and who closed it. */
  function ClosedTail(z: Kind, s: State, e: Event, p: string): Offset
    requires Ordered(s.streams)
  {
    var s' := Step(z, s, e);
    if p in s'.streams then s'.streams[p].meta.currentOffset else ZERO_OFFSET
  }

  /**
   * After a call that is answered as closing the stream, and any calls at all that this generation survives, appends,
   * closes and producers' closes change nothing. All are told that the stream is closed at the tail it was closed at,
   * but for the closing request itself, which is answered as a duplicate when it is sent again.
   */
  lemma {:induction false} ClosedForGood(z: Kind, s: State, e: Event, events: seq<Event>, p: string, body: Body,
                                         opts: AppendOptions, expired: set<string>)
    requires Inv(z, s) && Ordered(s.streams) && Closes(z, s, e, p) && p in s.streams
    requires var s' := Run(z, s, [e] + events);
      p in s'.streams && s'.streams[p].created == s.streams[p].created && p !in expired
    ensures var s', tail := Run(z, s, [e] + events), ClosedTail(z, s, e, p);
      var closer := if Closer(e).Some? then Closer(e) else s.streams[p].meta.closedBy;
      && (!e.op.AppendOp? ==> tail == s.streams[p].meta.currentOffset)
      && Close(s', p, expired) == (s', Ok((tail, true)))
      && (!s'.streams[p].meta.softDeleted && (HasProducerHeaders(opts) ==> HasAllProducerHeaders(opts)) ==>
        Append(z, s', p, body, opts, expired) == (s', AppendAnswer(tail, closer, opts)))
      && (forall id, epoch, seqNo {:trigger ClosedBy(id, epoch, seqNo)} ::
        CloseWithProducer(s', p, id, epoch, seqNo, expired) ==
          (s', if closer == Some(ClosedBy(id, epoch, seqNo)) then AsDuplicate(tail, seqNo) else AsClosed(tail)))
  {
    var s1, s' := Step(z, s, e), Run(z, s, [e] + events);
    StepOk(z, s, e);
    ClosesNow(z, s, e, p);
    RunFrom(z, s, e, events);
    RunFrozen(z, s1, events, p);
    ClosedAlready(s', p, "", 0, 0, expired);
    forall id, epoch, seqNo {:trigger ClosedBy(id, epoch, seqNo)}
      ensures CloseWithProducer(s', p, id, epoch, seqNo, expired) ==
        (s', if s'.streams[p].meta.closedBy == Some(ClosedBy(id, epoch, seqNo))
             then AsDuplicate(s'.streams[p].meta.currentOffset, seqNo)
             else AsClosed(s'.streams[p].meta.currentOffset))
    {
      ClosedAlready(s', p, id, epoch, seqNo, expired);
    }
    if !s'.streams[p].meta.softDeleted && (HasProducerHeaders(opts) ==> HasAllProducerHeaders(opts)) {
      AnswersClosed(z, s', p, body, opts, expired);
    }
  }
}
