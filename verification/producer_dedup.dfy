/**
 * Server-side deduplication over all runs: what each producer got accepted on one generation of a stream, in
 * order, against any sequence of requests at all.
 */
module ProducerDedup {
  import opened Wrappers
  import opened StoreTypes
  import opened StreamStore
  import opened StoreInvariant
  import opened Untouched
  import opened Logs

  /** What an accepted append or close put into a stream: its messages, and the producer's tuple if it had one. */
  datatype Accept = Accept(producer: Option<Tuple>, parts: seq<Bytes>)

  datatype Tuple = Tuple(producerId: string, epoch: int, seqNo: int)

  /** What event `e` gets accepted on stream `st`, kept at `p`; None when it leaves log and producers alone. */
  function Accepts(st: Stream, e: Event, p: string): Option<Accept> {
    match e.op
    case AppendOp(path, body, opts) =>
      if path != p || (HasProducerHeaders(opts) && !HasAllProducerHeaders(opts)) then None
      else
        (match AdmitAppend(st.meta, p in e.expired, body, opts)
         case Answer(_) => None
         case Admit(parts, _) =>
           Some(Accept(
             if HasAllProducerHeaders(opts)
             then Some(Tuple(opts.producerId, opts.producerEpoch.value, opts.producerSeq.value)) else None, parts)))
    case CloseProducerOp(path, id, epoch, seqNo) =>
      var verdict := ValidateProducer(st.meta.producers, id, epoch, seqNo);
      if path != p || p in e.expired || st.meta.closed || verdict.state.None? then None
      else Some(Accept(Some(Tuple(id, epoch, seqNo)), []))
    case _ => None
  }

  /** The stream's log and producer states, all that acceptance changes. */
  datatype Content = Content(data: seq<Bytes>, producers: map<string, ProducerState>)

  function ContentOf(st: Stream): Content {
    Content(Datas(st.messages), st.meta.producers)
  }

  function Apply(c: Content, a: Accept): Content {
    Content(c.data + a.parts,
            match a.producer case None => c.producers
                        case Some(t) => c.producers[t.producerId := ProducerState(t.epoch, t.seqNo)])
  }

  // ---- One call ----

  lemma {:induction false} AcceptedTuple(producers: map<string, ProducerState>, id: string, epoch: int, seqNo: int)
    ensures var v := ValidateProducer(producers, id, epoch, seqNo);
      && (v.state.Some? <==> v.error.None? && v.result.producerResult == Accepted)
      && (v.state.Some? <==> NextOk(Find(producers, id), epoch, seqNo))
      && (v.state.Some? ==> v.state.value == ProducerState(epoch, seqNo))
      && (v.error.None? && v.state.None? ==>
        (v.result.producerResult == Duplicate && id in producers && producers[id].epoch == epoch
          && seqNo <= producers[id].lastSeq))
  {
  }

  function Find(producers: map<string, ProducerState>, id: string): Option<ProducerState> {
    if id in producers then Some(producers[id]) else None
  }

  /** The tuples acceptable after `prev`: the next one of the same epoch, or the first of a newer epoch. */
  predicate NextOk(prev: Option<ProducerState>, epoch: int, seqNo: int) {
    match prev
    case None => seqNo == 0
    case Some(s) => (epoch == s.epoch && seqNo == s.lastSeq + 1) || (epoch > s.epoch && seqNo == 0)
  }

  lemma {:induction false} CommitContent(z: Kind, st: Stream, parts: seq<Bytes>, opts: AppendOptions,
                                         state: Option<ProducerState>)
    requires NonEmptyParts(parts)
    ensures ContentOf(Commit(z, st, parts, opts, state)) ==
      Content(Datas(st.messages) + parts,
              if state.Some? then st.meta.producers[opts.producerId := state.value] else st.meta.producers)
  {
    FrameChained(z, st.meta.currentOffset, parts);
    assert Commit(z, st, parts, opts, state).messages == st.messages + Frame(z, st.meta.currentOffset, parts);
    DatasConcat(st.messages, Frame(z, st.meta.currentOffset, parts));
  }

  /** Accepted: exactly the parts are added, and the producer's state becomes exactly the tuple. */
  lemma {:induction false} AppendAccepts(z: Kind, s: State, e: Event, p: string)
    requires e.op.AppendOp? && e.op.path == p && p in s.streams && Ordered(s.streams)
    ensures var st := s.streams[p];
      var st' := Step(z, s, e).streams[p];
      match Accepts(st, e, p)
      case None => st' == st
      case Some(a) => ContentOf(st') == Apply(ContentOf(st), a)
  {
    var st := s.streams[p];
    var opts := e.op.append;
    if HasAllProducerHeaders(opts) {
      AcceptedTuple(st.meta.producers, opts.producerId, opts.producerEpoch.value, opts.producerSeq.value);
    }
    match AdmitAppend(st.meta, p in e.expired, e.op.body, opts) {
      case Answer(_) =>
      case Admit(parts, verdict) => CommitContent(z, st, parts, opts, verdict.state);
    }
  }

  lemma {:induction false} CloseAccepts(z: Kind, s: State, e: Event, p: string)
    requires e.op.CloseProducerOp? && e.op.path == p && p in s.streams && Ordered(s.streams)
    ensures var st := s.streams[p];
      var st' := Step(z, s, e).streams[p];
      match Accepts(st, e, p)
      case None => st' == st
      case Some(a) => ContentOf(st') == Apply(ContentOf(st), a)
  {
    var producers := s.streams[p].meta.producers;
    AcceptedTuple(producers, e.op.producerId, e.op.epoch, e.op.seqNo);
  }

  /** Log, producer states and the closing tuple are as before. */
  predicate Kept(a: Stream, b: Stream) {
    ContentOf(b) == ContentOf(a) && b.meta.closedBy == a.meta.closedBy
  }

  /** Calls that are not writes with a chance of acceptance leave log and producers of a surviving stream alone. */
  lemma {:induction false} OthersKeep(z: Kind, s: State, e: Event, p: string)
    requires Inv(z, s) && Ordered(s.streams) && p in s.streams && p in Step(z, s, e).streams
    requires Step(z, s, e).streams[p].created == s.streams[p].created
    requires !(e.op.AppendOp? && e.op.path == p) && !(e.op.CloseProducerOp? && e.op.path == p)
    ensures Kept(s.streams[p], Step(z, s, e).streams[p])
  {
    if !(e.op.CloseOp? && e.op.path == p) { StepSame(z, s, e, p); }
  }

  /** One call of any kind, on a generation of the stream that survives it. */
  lemma {:induction false} StepAccepts(z: Kind, s: State, e: Event, p: string)
    requires Inv(z, s) && Ordered(s.streams) && p in s.streams && p in Step(z, s, e).streams
    requires Step(z, s, e).streams[p].created == s.streams[p].created
    ensures var st, st' := s.streams[p], Step(z, s, e).streams[p];
      match Accepts(st, e, p)
      case None => ContentOf(st') == ContentOf(st)
      case Some(a) => ContentOf(st') == Apply(ContentOf(st), a)
  {
    if e.op.AppendOp? && e.op.path == p {
      AppendAccepts(z, s, e, p);
    } else if e.op.CloseProducerOp? && e.op.path == p {
      CloseAccepts(z, s, e, p);
    } else {
      OthersKeep(z, s, e, p);
    }
  }

  // ---- Runs ----

  /** Everything accepted on the generation stamped `created` of stream `p` during a run. */
  ghost function History(z: Kind, s: State, events: seq<Event>, p: string, created: nat): seq<Accept>
    requires Inv(z, s)
    decreases events
  {
    if events == [] then []
    else
      GraphOrdered(s.streams);
      StepOk(z, s, events[0]);
      var rest := History(z, Step(z, s, events[0]), events[1..], p, created);
      if p !in s.streams || s.streams[p].created != created then rest
      else
        match Accepts(s.streams[p], events[0], p)
        case None => rest
        case Some(a) => [a] + rest
  }

  function ApplyAll(c: Content, h: seq<Accept>): Content
    decreases h
  {
    if h == [] then c else ApplyAll(Apply(c, h[0]), h[1..])
  }

  /** A stream that is there at the end of a run with an old stamp was there all along. */
  lemma {:induction false} ThereAllAlong(z: Kind, s: State, s1: State, s': State, p: string)
    requires Inv(z, s) && p in s.streams && Keeps(s, s1) && Keeps(s1, s')
    requires p in s'.streams && s'.streams[p].created == s.streams[p].created
    ensures p in s1.streams && s1.streams[p].created == s.streams[p].created
  {
    assert StreamOk(z, s, p) && Descends(s1, s', p);
  }

  /** The log and the producer states at the end of any run are what its history built, and nothing else. */
  lemma {:induction false} HistoryBuilds(z: Kind, s: State, events: seq<Event>, p: string)
    requires Inv(z, s) && p in s.streams
    requires p in Run(z, s, events).streams && Run(z, s, events).streams[p].created == s.streams[p].created
    ensures ContentOf(Run(z, s, events).streams[p]) ==
      ApplyAll(ContentOf(s.streams[p]), History(z, s, events, p, s.streams[p].created))
    decreases events
  {
    if events != [] {
      GraphOrdered(s.streams);
      StepOk(z, s, events[0]);
      var s1 := Step(z, s, events[0]);
      ThereAllAlong(z, s, s1, Run(z, s1, events[1..]), p);
      HistoryBuilds(z, s1, events[1..], p);
      StepAccepts(z, s, events[0], p);
    }
  }

  /** The tuples one producer got accepted, in order. */
  function TuplesOf(h: seq<Accept>, id: string): seq<Tuple> {
    if h == [] then []
    else
      (if h[0].producer.Some? && h[0].producer.value.producerId == id then [h[0].producer.value] else [])
      + TuplesOf(h[1..], id)
  }

  /** Each tuple is the next acceptable one after those before it. */
  predicate Gapless(prev: Option<ProducerState>, tuples: seq<Tuple>)
    decreases tuples
  {
    tuples == []
    || (NextOk(prev, tuples[0].epoch, tuples[0].seqNo)
        && Gapless(Some(ProducerState(tuples[0].epoch, tuples[0].seqNo)), tuples[1..]))
  }

  function LastState(prev: Option<ProducerState>, tuples: seq<Tuple>): Option<ProducerState>
    decreases tuples
  {
    if tuples == [] then prev
    else LastState(Some(ProducerState(tuples[0].epoch, tuples[0].seqNo)), tuples[1..])
  }

  lemma {:induction false} AcceptsNext(st: Stream, e: Event, p: string)
    ensures var a := Accepts(st, e, p);
      a.Some? && a.value.producer.Some? ==>
        (var t := a.value.producer.value; NextOk(Find(st.meta.producers, t.producerId), t.epoch, t.seqNo))
  {
    match e.op {
      case AppendOp(path, body, opts) =>
        if HasAllProducerHeaders(opts) {
          AcceptedTuple(st.meta.producers, opts.producerId, opts.producerEpoch.value, opts.producerSeq.value);
        }
      case CloseProducerOp(path, id, epoch, seqNo) => AcceptedTuple(st.meta.producers, id, epoch, seqNo);
      case _ =>
    }
  }

  /**
   * Against any requests whatsoever, the tuples a producer gets accepted on one generation of a stream are
   * gapless from the state it started with, and the state the server keeps is the last of them.
   */
  lemma {:induction false} Dedup(z: Kind, s: State, events: seq<Event>, p: string, id: string)
    requires Inv(z, s) && p in s.streams
    requires p in Run(z, s, events).streams && Run(z, s, events).streams[p].created == s.streams[p].created
    ensures var prev := Find(s.streams[p].meta.producers, id);
      var tuples := TuplesOf(History(z, s, events, p, s.streams[p].created), id);
      && Gapless(prev, tuples)
      && Find(Run(z, s, events).streams[p].meta.producers, id) == LastState(prev, tuples)
    decreases events
  {
    if events != [] {
      GraphOrdered(s.streams);
      StepOk(z, s, events[0]);
      var s1 := Step(z, s, events[0]);
      ThereAllAlong(z, s, s1, Run(z, s1, events[1..]), p);
      Dedup(z, s1, events[1..], p, id);
      StepAccepts(z, s, events[0], p);
      AcceptsNext(s.streams[p], events[0], p);
      DedupStep(s.streams[p], s1.streams[p], Accepts(s.streams[p], events[0], p),
                History(z, s1, events[1..], p, s.streams[p].created), id);
    }
  }

  /** One accepted entry in front of a gapless rest. */
  lemma {:induction false} DedupStep(st: Stream, st1: Stream, a: Option<Accept>, rest: seq<Accept>, id: string)
    requires ContentOf(st1) == if a.None? then ContentOf(st) else Apply(ContentOf(st), a.value)
    requires a.Some? && a.value.producer.Some? ==>
      NextOk(Find(st.meta.producers, a.value.producer.value.producerId), a.value.producer.value.epoch,
             a.value.producer.value.seqNo)
    requires Gapless(Find(st1.meta.producers, id), TuplesOf(rest, id))
    ensures var h := if a.None? then rest else [a.value] + rest;
      && Gapless(Find(st.meta.producers, id), TuplesOf(h, id))
      && LastState(Find(st.meta.producers, id), TuplesOf(h, id)) ==
        LastState(Find(st1.meta.producers, id), TuplesOf(rest, id))
  {
    assert st1.meta.producers == ContentOf(st1).producers;
    if a.Some? {
      var h := [a.value] + rest;
      assert h[1..] == rest;
      if a.value.producer.Some? && a.value.producer.value.producerId == id {
        assert TuplesOf(h, id)[1..] == TuplesOf(rest, id);
      } else {
        assert TuplesOf(h, id) == TuplesOf(rest, id);
      }
    }
  }

  // ---- What gapless means ----

  predicate LexLess(a: Tuple, b: Tuple) {
    a.epoch < b.epoch || (a.epoch == b.epoch && a.seqNo < b.seqNo)
  }

  /** Accepted tuples strictly increase, so no tuple is accepted twice. */
  lemma {:induction false} GaplessIncreases(prev: Option<ProducerState>, tuples: seq<Tuple>, i: nat, j: nat)
    requires Gapless(prev, tuples) && i < j < |tuples|
    ensures LexLess(tuples[i], tuples[j])
    decreases tuples
  {
    var next := Some(ProducerState(tuples[0].epoch, tuples[0].seqNo));
    if i > 0 {
      GaplessIncreases(next, tuples[1..], i - 1, j - 1);
    } else {
      GaplessAbove(next, tuples[1..], j - 1);
    }
  }

  lemma {:induction false} GaplessAbove(prev: Option<ProducerState>, tuples: seq<Tuple>, j: nat)
    requires Gapless(prev, tuples) && j < |tuples| && prev.Some?
    ensures tuples[j].epoch > prev.value.epoch
      || (tuples[j].epoch == prev.value.epoch && tuples[j].seqNo > prev.value.lastSeq)
    decreases tuples
  {
    if j > 0 { GaplessAbove(Some(ProducerState(tuples[0].epoch, tuples[0].seqNo)), tuples[1..], j - 1); }
  }

  /** The sequence numbers accepted in one epoch. */
  function SeqsOf(tuples: seq<Tuple>, epoch: int): seq<int> {
    if tuples == [] then []
    else (if tuples[0].epoch == epoch then [tuples[0].seqNo] else []) + SeqsOf(tuples[1..], epoch)
  }

  /** Consecutive numbers from `first`. */
  function CountFrom(first: int, n: nat): seq<int>
    decreases n
  {
    if n == 0 then [] else [first] + CountFrom(first + 1, n - 1)
  }

  /** In every epoch, a producer that started afresh got exactly 0, 1, 2, ... accepted, without a hole. */
  lemma {:induction false} EpochsAreComplete(tuples: seq<Tuple>, epoch: int)
    requires Gapless(None, tuples)
    ensures SeqsOf(tuples, epoch) == CountFrom(0, |SeqsOf(tuples, epoch)|)
  {
    EpochContinues(None, tuples, epoch);
  }

  /** The number the next accepted tuple of an epoch has, after `prev`. */
  function NextIn(prev: Option<ProducerState>, epoch: int): int {
    if prev.Some? && prev.value.epoch == epoch then prev.value.lastSeq + 1 else 0
  }

  lemma {:induction false} EpochContinues(prev: Option<ProducerState>, tuples: seq<Tuple>, epoch: int)
    requires Gapless(prev, tuples)
    ensures SeqsOf(tuples, epoch) == CountFrom(NextIn(prev, epoch), |SeqsOf(tuples, epoch)|)
    decreases tuples
  {
    if tuples != [] {
      var t := tuples[0];
      var rest := SeqsOf(tuples[1..], epoch);
      var next := ProducerState(t.epoch, t.seqNo);
      EpochContinues(Some(next), tuples[1..], epoch);
      if t.epoch == epoch {
        assert NextIn(prev, epoch) == t.seqNo;
        assert SeqsOf(tuples, epoch) == [t.seqNo] + rest;
        assert rest == CountFrom(t.seqNo + 1, |rest|);
      } else {
        assert SeqsOf(tuples, epoch) == rest;
        if t.epoch > epoch { EpochOver(next, tuples[1..], epoch); }
      }
    }
  }

  /** Once a newer epoch is accepted, an older one is over. */
  lemma {:induction false} EpochOver(prev: ProducerState, tuples: seq<Tuple>, epoch: int)
    requires Gapless(Some(prev), tuples) && prev.epoch > epoch
    ensures SeqsOf(tuples, epoch) == []
    decreases tuples
  {
    if tuples != [] { EpochOver(ProducerState(tuples[0].epoch, tuples[0].seqNo), tuples[1..], epoch); }
  }

  /** A request answered as a duplicate names a tuple that was accepted before. */
  lemma {:induction false} DuplicateWasAccepted(tuples: seq<Tuple>, id: string, epoch: int, seqNo: int)
    requires Gapless(None, tuples) && (forall t :: t in tuples ==> t.producerId == id)
    requires LastState(None, tuples).Some? && LastState(None, tuples).value.epoch == epoch
    requires 0 <= seqNo <= LastState(None, tuples).value.lastSeq
    ensures Tuple(id, epoch, seqNo) in tuples
  {
    LastCovers(None, tuples, id, epoch, seqNo);
  }

  lemma {:induction false} LastCovers(prev: Option<ProducerState>, tuples: seq<Tuple>, id: string, epoch: int,
                                      seqNo: int)
    requires Gapless(prev, tuples) && (forall t :: t in tuples ==> t.producerId == id)
    requires LastState(prev, tuples).Some? && LastState(prev, tuples).value.epoch == epoch
    requires 0 <= seqNo <= LastState(prev, tuples).value.lastSeq
    requires prev.Some? && prev.value.epoch == epoch ==> seqNo > prev.value.lastSeq
    ensures Tuple(id, epoch, seqNo) in tuples
    decreases tuples
  {
    if tuples != [] {
      var t := tuples[0];
      if t != Tuple(id, epoch, seqNo) {
        if t.epoch == epoch { assert t.seqNo <= seqNo; }
        LastCovers(Some(ProducerState(t.epoch, t.seqNo)), tuples[1..], id, epoch, seqNo);
      }
    }
  }
}
