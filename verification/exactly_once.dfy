/**
 * Exactly-once delivery end to end: one client, an arbitrary network, the server, and whatever anyone else does
 * to the server, as one state machine. The network may lose, repeat, delay and reorder requests and answers.
 */
module ExactlyOnce {
  import opened Wrappers
  import opened StoreTypes
  import opened StreamStore
  import opened StoreInvariant
  import opened ProducerDedup
  import opened ProducerClients
  import Text

  /** The stream, the producer and its configuration; automatic epoch claiming is off. */
  datatype Config = Config(
    z: Kind,
    path: string,
    producerId: string,
    contentType: string,
    isJson: bool,
    maxInFlight: nat,
    maxBatchBytes: nat)

  /**
   * `batches` are all batches ever sent, in order, and `appended` all items ever appended: what the network can
   * deliver and what the theorem speaks of. `requests` are the calls the server has processed. `answered` are
   * the tuples the server has answered with success, `acknowledged` those whose answer reached the client.
   */
  datatype System = System(
    client: Client,
    batches: seq<Batch>,
    appended: seq<Bytes>,
    requests: seq<Event>,
    answered: set<(int, int)>,
    acknowledged: set<(int, int)>)

  datatype Action =
    | AppendItem(data: Bytes)
    | Linger
    | Deliver(index: nat, expired: set<string>)
    | Elsewhere(event: Event)
    | Acknowledge(tuple: (int, int))
    | Finish
    | Restart

  function Request(cfg: Config, body: Body, epoch: int, seqNo: int): Op {
    AppendOp(cfg.path, body, AppendOptions("", cfg.contentType, false, cfg.producerId, Some(epoch), Some(seqNo)))
  }

  /** A call that this producer makes on its stream. */
  predicate Ours(cfg: Config, e: Event) {
    match e.op
    case AppendOp(path, _, opts) => path == cfg.path && opts.producerId == cfg.producerId
    case CloseProducerOp(path, id, _, _) => path == cfg.path && id == cfg.producerId
    case _ => false
  }

  function Start(epoch: int): System {
    System(Client(epoch, 0, [], 0, map[]), [], [], [], {}, {})
  }

  function Sent(sys: System, taken: (Client, Option<Batch>)): System {
    sys.(client := taken.0, batches := sys.batches + (match taken.1 case None => [] case Some(b) => [b]))
  }

  ghost function Act(cfg: Config, s0: State, sys: System, a: Action): System
    requires Inv(cfg.z, s0)
  {
    match a
    case AppendItem(data) =>
      var grown := sys.(client := sys.client.(pending := sys.client.pending + [data]),
                        appended := sys.appended + [data]);
      if TotalBytes(grown.client.pending) >= cfg.maxBatchBytes
      then Sent(grown, TakeBatch(grown.client, cfg.maxInFlight)) else grown
    case Linger => Sent(sys, TakeBatch(sys.client, cfg.maxInFlight))
    case Deliver(index, expired) =>
      if index >= |sys.batches| || !NonEmptyBody(BatchRaw(cfg.isJson, sys.batches[index].items)) then sys
      else
        var b := sys.batches[index];
        var op := Request(cfg, BatchRaw(cfg.isJson, b.items), b.epoch, b.seqNo);
        var outcome := Append(cfg.z, Run(cfg.z, s0, sys.requests), cfg.path, op.body, op.append, expired).1;
        sys.(requests := sys.requests + [Event(op, expired)],
             answered := if outcome.error == None then sys.answered + {(b.epoch, b.seqNo)} else sys.answered)
    case Elsewhere(event) => if Ours(cfg, event) then sys else sys.(requests := sys.requests + [event])
    case Acknowledge(tuple) =>
      if tuple in sys.answered then sys.(acknowledged := sys.acknowledged + {tuple}) else sys
    case Finish =>
      if sys.client.inFlight > 0 then sys.(client := sys.client.(inFlight := sys.client.inFlight - 1)) else sys
    case Restart =>
      if sys.client.pending == [] && sys.client.inFlight == 0
      then sys.(client := sys.client.(epoch := sys.client.epoch + 1, nextSeq := 0)) else sys
  }

  ghost function Play(cfg: Config, s0: State, sys: System, actions: seq<Action>): System
    requires Inv(cfg.z, s0)
    decreases actions
  {
    if actions == [] then sys else Play(cfg, s0, Act(cfg, s0, sys, actions[0]), actions[1..])
  }

  // ---- Batches ----

  function OfEpoch(batches: seq<Batch>, epoch: int): seq<Batch> {
    if batches == [] then []
    else (if batches[0].epoch == epoch then [batches[0]] else []) + OfEpoch(batches[1..], epoch)
  }

  function ItemsOf(batches: seq<Batch>): seq<Bytes> {
    if batches == [] then [] else batches[0].items + ItemsOf(batches[1..])
  }

  lemma {:induction false} OfEpochSnoc(batches: seq<Batch>, b: Batch, epoch: int)
    ensures OfEpoch(batches + [b], epoch) == OfEpoch(batches, epoch) + (if b.epoch == epoch then [b] else [])
    ensures ItemsOf(batches + [b]) == ItemsOf(batches) + b.items
  {
    if batches == [] {
      assert [] + [b] == [b] && [b][1..] == [];
    } else {
      assert (batches + [b])[1..] == batches[1..] + [b];
      OfEpochSnoc(batches[1..], b, epoch);
    }
  }

  /** Within each epoch the batches carry 0, 1, 2, ... in the order they were sent. */
  ghost predicate Numbered(batches: seq<Batch>) {
    forall e: int, j: int {:trigger OfEpoch(batches, e)[j]} ::
      0 <= j < |OfEpoch(batches, e)| ==> OfEpoch(batches, e)[j].seqNo == j && OfEpoch(batches, e)[j].epoch == e
  }

  lemma {:induction false} NumberedSnoc(batches: seq<Batch>, b: Batch)
    requires Numbered(batches) && b.seqNo == |OfEpoch(batches, b.epoch)|
    ensures Numbered(batches + [b])
  {
    forall e: int, j: int | 0 <= j < |OfEpoch(batches + [b], e)|
      ensures OfEpoch(batches + [b], e)[j].seqNo == j && OfEpoch(batches + [b], e)[j].epoch == e
    {
      OfEpochSnoc(batches, b, e);
      if j < |OfEpoch(batches, e)| { assert OfEpoch(batches, e)[j].seqNo == j; }
    }
  }

  lemma {:induction false} InOfEpoch(batches: seq<Batch>, b: Batch)
    requires b in batches
    ensures b in OfEpoch(batches, b.epoch)
  {
    if batches[0] != b { InOfEpoch(batches[1..], b); }
  }

  /** A tuple names one batch. */
  lemma {:induction false} BatchAt(batches: seq<Batch>, b: Batch)
    requires Numbered(batches) && b in batches
    ensures 0 <= b.seqNo < |OfEpoch(batches, b.epoch)| && OfEpoch(batches, b.epoch)[b.seqNo] == b
  {
    InOfEpoch(batches, b);
    var j :| 0 <= j < |OfEpoch(batches, b.epoch)| && OfEpoch(batches, b.epoch)[j] == b;
  }

  lemma {:induction false} NoneOfEpoch(batches: seq<Batch>, epoch: int)
    requires forall b :: b in batches ==> b.epoch != epoch
    ensures OfEpoch(batches, epoch) == []
  {
    if batches != [] {
      assert batches[0] in batches;
      NoneOfEpoch(batches[1..], epoch);
    }
  }

  // ---- The client side of the invariant ----

  ghost predicate ClientInv(sys: System) {
    && Numbered(sys.batches)
    && |OfEpoch(sys.batches, sys.client.epoch)| == sys.client.nextSeq
    && (forall b :: b in sys.batches ==> b.epoch <= sys.client.epoch && b.seqNo >= 0)
    && ItemsOf(sys.batches) + sys.client.pending == sys.appended
  }

  lemma {:induction false} TakeKeeps(cfg: Config, sys: System)
    requires ClientInv(sys)
    ensures ClientInv(Sent(sys, TakeBatch(sys.client, cfg.maxInFlight)))
  {
    var (c, taken) := TakeBatch(sys.client, cfg.maxInFlight);
    if taken.Some? {
      NumberedSnoc(sys.batches, taken.value);
      OfEpochSnoc(sys.batches, taken.value, c.epoch);
    } else {
      assert sys.batches + [] == sys.batches;
    }
  }

  lemma {:induction false} ClientActs(cfg: Config, s0: State, sys: System, a: Action)
    requires Inv(cfg.z, s0) && ClientInv(sys)
    ensures ClientInv(Act(cfg, s0, sys, a))
    ensures sys.batches <= Act(cfg, s0, sys, a).batches
  {
    match a {
      case AppendItem(data) =>
        var grown := sys.(client := sys.client.(pending := sys.client.pending + [data]),
                          appended := sys.appended + [data]);
        assert ItemsOf(sys.batches) + (sys.client.pending + [data])
          == (ItemsOf(sys.batches) + sys.client.pending) + [data];
        TakeKeeps(cfg, grown);
      case Linger => TakeKeeps(cfg, sys);
      case Restart =>
        NoneOfEpoch(sys.batches, sys.client.epoch + 1);
      case _ =>
    }
  }

  // ---- The server side ----

  /** Nobody has closed the stream under this producer's name. */
  predicate NotClosedBy(meta: Metadata, id: string) {
    meta.closedBy.Some? ==> meta.closedBy.value.producerId != id
  }

  /** A stream that is open to the producer, which is new to it. */
  ghost predicate Ready(cfg: Config, s0: State) {
    && Inv(cfg.z, s0) && cfg.path in s0.streams && cfg.producerId != ""
    && cfg.producerId !in s0.streams[cfg.path].meta.producers
    && NotClosedBy(s0.streams[cfg.path].meta, cfg.producerId)
    && cfg.isJson == Text.IsJson(s0.streams[cfg.path].meta.contentType)
  }

  /** The generation of the stream that the producer started on is still there. */
  predicate Alive(cfg: Config, s0: State, s: State)
    requires cfg.path in s0.streams
  {
    cfg.path in s.streams && s.streams[cfg.path].created == s0.streams[cfg.path].created
  }

  /** Every call of this producer that the server processed carried some batch the client had sent. */
  ghost predicate FromBatch(cfg: Config, batches: seq<Batch>, e: Event) {
    Ours(cfg, e) ==>
      exists b :: b in batches && NonEmptyBody(BatchRaw(cfg.isJson, b.items))
        && e.op == Request(cfg, BatchRaw(cfg.isJson, b.items), b.epoch, b.seqNo)
  }

  ghost predicate AllFromBatches(cfg: Config, batches: seq<Batch>, requests: seq<Event>) {
    forall i {:trigger requests[i]} :: 0 <= i < |requests| ==> FromBatch(cfg, batches, requests[i])
  }

  /** The messages a batch becomes on the server. */
  function PartsOf(cfg: Config, b: Batch): seq<Bytes> {
    if cfg.isJson then b.items else [Concat(b.items)]
  }

  /** Whatever this producer got accepted is a batch it sent, whole. */
  ghost predicate AcceptedBatch(cfg: Config, batches: seq<Batch>, a: Accept) {
    a.producer.Some? && a.producer.value.producerId == cfg.producerId ==>
      exists b :: b in batches && a == Accept(Some(Tuple(cfg.producerId, b.epoch, b.seqNo)), PartsOf(cfg, b))
  }

  lemma {:induction false} AcceptIsBatch(cfg: Config, batches: seq<Batch>, st: Stream, e: Event)
    requires FromBatch(cfg, batches, e) && cfg.producerId != ""
    requires cfg.isJson == Text.IsJson(st.meta.contentType)
    requires Accepts(st, e, cfg.path).Some?
    ensures AcceptedBatch(cfg, batches, Accepts(st, e, cfg.path).value)
  {
    if Ours(cfg, e) {
      var b :| b in batches && NonEmptyBody(BatchRaw(cfg.isJson, b.items))
        && e.op == Request(cfg, BatchRaw(cfg.isJson, b.items), b.epoch, b.seqNo);
    }
  }

  /** All along a run, what the producer gets accepted are its batches. */
  lemma {:induction false} HistoryIsBatches(cfg: Config, batches: seq<Batch>, s: State, events: seq<Event>,
                                            created: nat)
    requires Inv(cfg.z, s) && cfg.producerId != "" && AllFromBatches(cfg, batches, events) && created < s.clock
    requires cfg.path in s.streams && s.streams[cfg.path].created == created ==>
      cfg.isJson == Text.IsJson(s.streams[cfg.path].meta.contentType)
    ensures forall a :: a in History(cfg.z, s, events, cfg.path, created) ==> AcceptedBatch(cfg, batches, a)
    decreases events
  {
    if events != [] {
      GraphOrdered(s.streams);
      StepOk(cfg.z, s, events[0]);
      var s1 := Step(cfg.z, s, events[0]);
      if cfg.path in s1.streams { assert Descends(s, s1, cfg.path); }
      assert forall i :: 0 <= i < |events[1..]| ==> events[1..][i] == events[i + 1];
      HistoryIsBatches(cfg, batches, s1, events[1..], created);
      assert FromBatch(cfg, batches, events[0]);
      if cfg.path in s.streams && s.streams[cfg.path].created == created
        && Accepts(s.streams[cfg.path], events[0], cfg.path).Some?
      {
        AcceptIsBatch(cfg, batches, s.streams[cfg.path], events[0]);
      }
    }
  }

  // ---- Exactly once ----

  predicate InEpoch(a: Accept, id: string, epoch: int) {
    a.producer.Some? && a.producer.value.producerId == id && a.producer.value.epoch == epoch
  }

  /** The messages accepted from this producer in one epoch, one entry per accepted request. */
  function PartsIn(h: seq<Accept>, id: string, epoch: int): seq<seq<Bytes>> {
    if h == [] then []
    else
      (if InEpoch(h[0], id, epoch) then [h[0].parts] else []) + PartsIn(h[1..], id, epoch)
  }

  function AllParts(cfg: Config, batches: seq<Batch>): (r: seq<seq<Bytes>>)
    ensures |r| == |batches|
  {
    if batches == [] then [] else [PartsOf(cfg, batches[0])] + AllParts(cfg, batches[1..])
  }

  lemma {:induction false} AllPartsAt(cfg: Config, batches: seq<Batch>, j: nat)
    requires j < |batches|
    ensures AllParts(cfg, batches)[j] == PartsOf(cfg, batches[j])
  {
    if j > 0 { AllPartsAt(cfg, batches[1..], j - 1); }
  }

  /** Accepted batches of an epoch, when their numbers run on from `first`. */
  lemma {:induction false} PartsAreBatches(cfg: Config, batches: seq<Batch>, h: seq<Accept>, epoch: int, first: nat)
    requires Numbered(batches) && (forall a :: a in h ==> AcceptedBatch(cfg, batches, a))
    requires var seqs := SeqsOf(TuplesOf(h, cfg.producerId), epoch); seqs == CountFrom(first, |seqs|)
    ensures var parts := PartsIn(h, cfg.producerId, epoch);
      var own := OfEpoch(batches, epoch);
      && |parts| == |SeqsOf(TuplesOf(h, cfg.producerId), epoch)|
      && (parts != [] ==> first + |parts| <= |own|)
      && (forall j :: 0 <= j < |parts| ==> first + j < |own| && parts[j] == PartsOf(cfg, own[first + j]))
    decreases h
  {
    if h != [] {
      var id, a := cfg.producerId, h[0];
      assert AcceptedBatch(cfg, batches, a);
      HistoryFront(h, id, epoch);
      if InEpoch(a, id, epoch) {
        CountTail(a.producer.value.seqNo, SeqsOf(TuplesOf(h[1..], id), epoch), first);
        PartsAreBatches(cfg, batches, h[1..], epoch, first + 1);
        var b :| b in batches && a == Accept(Some(Tuple(id, b.epoch, b.seqNo)), PartsOf(cfg, b));
        BatchAt(batches, b);
        FrontParts(cfg, PartsIn(h[1..], id, epoch), OfEpoch(batches, epoch), a.parts, first);
      } else {
        PartsAreBatches(cfg, batches, h[1..], epoch, first);
      }
    }
  }

  /** The first entry of a history counts for an epoch, or it does not. */
  lemma {:induction false} HistoryFront(h: seq<Accept>, id: string, epoch: int)
    requires h != []
    ensures var rest := h[1..];
      if InEpoch(h[0], id, epoch) then
        && SeqsOf(TuplesOf(h, id), epoch) == [h[0].producer.value.seqNo] + SeqsOf(TuplesOf(rest, id), epoch)
        && PartsIn(h, id, epoch) == [h[0].parts] + PartsIn(rest, id, epoch)
      else
        && SeqsOf(TuplesOf(h, id), epoch) == SeqsOf(TuplesOf(rest, id), epoch)
        && PartsIn(h, id, epoch) == PartsIn(rest, id, epoch)
  {
    var rest := TuplesOf(h[1..], id);
    if h[0].producer.Some? && h[0].producer.value.producerId == id {
      assert TuplesOf(h, id) == [h[0].producer.value] + rest && TuplesOf(h, id)[1..] == rest;
    } else {
      assert TuplesOf(h, id) == rest;
    }
  }

  lemma {:induction false} CountTail(n: int, rest: seq<int>, first: int)
    requires [n] + rest == CountFrom(first, |rest| + 1)
    ensures n == first && rest == CountFrom(first + 1, |rest|)
  {
    assert rest == ([n] + rest)[1..] == CountFrom(first, |rest| + 1)[1..];
  }

  lemma {:induction false} FrontParts(cfg: Config, rest: seq<seq<Bytes>>, own: seq<Batch>, parts: seq<Bytes>,
                                      first: nat)
    requires first < |own| && parts == PartsOf(cfg, own[first])
    requires rest != [] ==> first + 1 + |rest| <= |own|
    requires forall j :: 0 <= j < |rest| ==> first + 1 + j < |own| && rest[j] == PartsOf(cfg, own[first + 1 + j])
    ensures var all := [parts] + rest;
      && first + |all| <= |own|
      && (forall j :: 0 <= j < |all| ==> first + j < |own| && all[j] == PartsOf(cfg, own[first + j]))
  {
    var all := [parts] + rest;
    forall j | 0 <= j < |all| ensures first + j < |own| && all[j] == PartsOf(cfg, own[first + j]) {
      if j > 0 { assert all[j] == rest[j - 1]; }
    }
  }

  /** The history of the producer's stream in a system state. */
  ghost function Accepted(cfg: Config, s0: State, sys: System): seq<Accept>
    requires Inv(cfg.z, s0) && cfg.path in s0.streams
  {
    History(cfg.z, s0, sys.requests, cfg.path, s0.streams[cfg.path].created)
  }

  /**
   * In every epoch, what the server has accepted from the producer is exactly the first batches the client sent
   * in that epoch, in order, each once and whole, with none missing in between.
   */
  lemma {:induction false} EpochIsPrefix(cfg: Config, s0: State, sys: System, epoch: int)
    requires Ready(cfg, s0) && ClientInv(sys) && AllFromBatches(cfg, sys.batches, sys.requests)
    requires Alive(cfg, s0, Run(cfg.z, s0, sys.requests))
    ensures var parts := PartsIn(Accepted(cfg, s0, sys), cfg.producerId, epoch);
      var own := OfEpoch(sys.batches, epoch);
      && |parts| <= |own|
      && parts == AllParts(cfg, own)[..|parts|]
  {
    var h, id := Accepted(cfg, s0, sys), cfg.producerId;
    var created := s0.streams[cfg.path].created;
    assert StreamOk(cfg.z, s0, cfg.path);
    HistoryIsBatches(cfg, sys.batches, s0, sys.requests, created);
    Dedup(cfg.z, s0, sys.requests, cfg.path, id);
    EpochsAreComplete(TuplesOf(h, id), epoch);
    PartsAreBatches(cfg, sys.batches, h, epoch, 0);
    var parts, own := PartsIn(h, id, epoch), OfEpoch(sys.batches, epoch);
    forall j | 0 <= j < |parts| ensures parts[j] == AllParts(cfg, own)[j] {
      AllPartsAt(cfg, own, j);
    }
  }

  // ---- Every reachable system state ----

  lemma {:induction false} RunSnoc(z: Kind, s: State, events: seq<Event>, e: Event)
    requires Inv(z, s)
    ensures Ordered(Run(z, s, events).streams)
    ensures Run(z, s, events + [e]) == Step(z, Run(z, s, events), e)
    decreases events
  {
    GraphOrdered(s.streams);
    if events == [] {
      assert [] + [e] == [e] && [e][1..] == [];
    } else {
      assert (events + [e])[1..] == events[1..] + [e];
      StepOk(z, s, events[0]);
      RunSnoc(z, Step(z, s, events[0]), events[1..], e);
    }
  }

  /** What one more call adds to a history. */
  function Added(s: State, e: Event, p: string, created: nat): seq<Accept> {
    if p !in s.streams || s.streams[p].created != created then []
    else match Accepts(s.streams[p], e, p)
      case None => []
      case Some(a) => [a]
  }

  lemma {:induction false} HistorySnoc(z: Kind, s: State, events: seq<Event>, e: Event, p: string, created: nat)
    requires Inv(z, s)
    ensures History(z, s, events + [e], p, created) ==
      History(z, s, events, p, created) + Added(Run(z, s, events), e, p, created)
    decreases events
  {
    GraphOrdered(s.streams);
    if events == [] {
      assert [] + [e] == [e] && [e][1..] == [];
      StepOk(z, s, e);
      assert History(z, Step(z, s, e), [], p, created) == [];
    } else {
      assert (events + [e])[1..] == events[1..] + [e] && (events + [e])[0] == events[0];
      StepOk(z, s, events[0]);
      HistorySnoc(z, Step(z, s, events[0]), events[1..], e, p, created);
    }
  }

  lemma {:induction false} TuplesConcat(a: seq<Accept>, b: seq<Accept>, id: string)
    ensures TuplesOf(a + b, id) == TuplesOf(a, id) + TuplesOf(b, id)
  {
    if a == [] {
      assert a + b == b;
    } else {
      assert (a + b)[1..] == a[1..] + b;
      TuplesConcat(a[1..], b, id);
    }
  }

  lemma {:induction false} TuplesAreOwn(h: seq<Accept>, id: string)
    ensures forall t :: t in TuplesOf(h, id) ==> t.producerId == id
  {
    if h != [] { TuplesAreOwn(h[1..], id); }
  }

  /** The state of the server after everything it has processed. */
  ghost function Server(cfg: Config, s0: State, sys: System): State
    requires Inv(cfg.z, s0)
  {
    Run(cfg.z, s0, sys.requests)
  }

  /** Every answer the server gave names something it had accepted. */
  ghost predicate AnswersTrue(cfg: Config, s0: State, sys: System)
    requires Inv(cfg.z, s0) && cfg.path in s0.streams
  {
    Alive(cfg, s0, Server(cfg, s0, sys)) ==>
      && NotClosedBy(Server(cfg, s0, sys).streams[cfg.path].meta, cfg.producerId)
      && (forall t :: t in sys.answered ==>
        Tuple(cfg.producerId, t.0, t.1) in TuplesOf(Accepted(cfg, s0, sys), cfg.producerId))
  }

  ghost predicate SysInv(cfg: Config, s0: State, sys: System)
    requires Ready(cfg, s0)
  {
    && ClientInv(sys)
    && AllFromBatches(cfg, sys.batches, sys.requests)
    && sys.acknowledged <= sys.answered
    && AnswersTrue(cfg, s0, sys)
  }

  lemma {:induction false} BatchesGrow(cfg: Config, batches: seq<Batch>, more: seq<Batch>, requests: seq<Event>)
    requires AllFromBatches(cfg, batches, requests) && batches <= more
    ensures AllFromBatches(cfg, more, requests)
  {
    forall i | 0 <= i < |requests| ensures FromBatch(cfg, more, requests[i]) {
      assert FromBatch(cfg, batches, requests[i]);
    }
  }

  lemma {:induction false} RequestsGrow(cfg: Config, batches: seq<Batch>, requests: seq<Event>, e: Event)
    requires AllFromBatches(cfg, batches, requests) && FromBatch(cfg, batches, e)
    ensures AllFromBatches(cfg, batches, requests + [e])
  {
    forall i | 0 <= i < |requests + [e]| ensures FromBatch(cfg, batches, (requests + [e])[i]) {
      if i < |requests| { assert FromBatch(cfg, batches, requests[i]); }
    }
  }

  /** A call that is not a close under the producer's name leaves no such close behind. */
  lemma {:induction false} ClosedByOthers(cfg: Config, s: State, e: Event)
    requires Inv(cfg.z, s) && Ordered(s.streams) && cfg.path in s.streams && cfg.path in Step(cfg.z, s, e).streams
    requires Step(cfg.z, s, e).streams[cfg.path].created == s.streams[cfg.path].created
    requires Ours(cfg, e) ==> e.op.AppendOp? && !e.op.append.close
    requires NotClosedBy(s.streams[cfg.path].meta, cfg.producerId)
    ensures NotClosedBy(Step(cfg.z, s, e).streams[cfg.path].meta, cfg.producerId)
  {
    if !(e.op.AppendOp? && e.op.path == cfg.path) && !(e.op.CloseProducerOp? && e.op.path == cfg.path) {
      OthersKeep(cfg.z, s, e, cfg.path);
    }
  }

  /** One more call keeps the answers true; a success answer to this producer becomes one of them. */
  lemma {:induction false} AnswerStep(cfg: Config, s0: State, sys: System, e: Event)
    requires Ready(cfg, s0) && AnswersTrue(cfg, s0, sys)
    requires Ours(cfg, e) ==> e.op.AppendOp? && !e.op.append.close
    ensures AnswersTrue(cfg, s0, sys.(requests := sys.requests + [e]))
    ensures var s1 := Run(cfg.z, s0, sys.requests + [e]);
      Alive(cfg, s0, s1) ==> (
        && Alive(cfg, s0, Server(cfg, s0, sys))
        && TuplesOf(Accepted(cfg, s0, sys), cfg.producerId) <=
          TuplesOf(Accepted(cfg, s0, sys.(requests := sys.requests + [e])), cfg.producerId))
  {
    var s, p, id := Server(cfg, s0, sys), cfg.path, cfg.producerId;
    var created := s0.streams[p].created;
    assert StreamOk(cfg.z, s0, p);
    RunSnoc(cfg.z, s0, sys.requests, e);
    StepOk(cfg.z, s, e);
    var s1 := Step(cfg.z, s, e);
    if Alive(cfg, s0, s1) {
      ThereAllAlong(cfg.z, s0, s, s1, p);
      HistorySnoc(cfg.z, s0, sys.requests, e, p, created);
      TuplesConcat(Accepted(cfg, s0, sys), Added(s, e, p, created), id);
      ClosedByOthers(cfg, s, e);
    }
  }

  /** A request answered as a duplicate names a tuple accepted before. */
  lemma {:induction false} DuplicateAnswered(cfg: Config, s0: State, sys: System, e: Event)
    requires Ready(cfg, s0) && Ours(cfg, e) && e.op.AppendOp?
    requires e.op.append.producerEpoch.Some? && e.op.append.producerSeq.Some? && e.op.append.producerSeq.value >= 0
    requires !e.op.append.close && Alive(cfg, s0, Server(cfg, s0, sys))
    requires NotClosedBy(Server(cfg, s0, sys).streams[cfg.path].meta, cfg.producerId)
    requires Append(cfg.z, Server(cfg, s0, sys), cfg.path, e.op.body, e.op.append, e.expired).1.error == None
    requires Accepts(Server(cfg, s0, sys).streams[cfg.path], e, cfg.path).None?
    ensures Tuple(cfg.producerId, e.op.append.producerEpoch.value, e.op.append.producerSeq.value)
      in TuplesOf(Accepted(cfg, s0, sys), cfg.producerId)
  {
    var p, id, h := cfg.path, cfg.producerId, Accepted(cfg, s0, sys);
    DuplicateInState(Server(cfg, s0, sys).streams[p], e, p);
    Dedup(cfg.z, s0, sys.requests, p, id);
    TuplesAreOwn(h, id);
    DuplicateWasAccepted(TuplesOf(h, id), id, e.op.append.producerEpoch.value, e.op.append.producerSeq.value);
  }

  /** A success answer to an append of the producer names a tuple in the history right after it. */
  lemma {:induction false} SuccessWasAccepted(cfg: Config, s0: State, sys: System, e: Event)
    requires Ready(cfg, s0) && AnswersTrue(cfg, s0, sys) && Ours(cfg, e) && e.op.AppendOp?
    requires e.op.append.producerEpoch.Some? && e.op.append.producerSeq.Some? && e.op.append.producerSeq.value >= 0
    requires !e.op.append.close
    requires Append(cfg.z, Server(cfg, s0, sys), cfg.path, e.op.body, e.op.append, e.expired).1.error == None
    ensures Alive(cfg, s0, Run(cfg.z, s0, sys.requests + [e])) ==>
      Tuple(cfg.producerId, e.op.append.producerEpoch.value, e.op.append.producerSeq.value)
        in TuplesOf(Accepted(cfg, s0, sys.(requests := sys.requests + [e])), cfg.producerId)
  {
    var s, p, id := Server(cfg, s0, sys), cfg.path, cfg.producerId;
    var opts := e.op.append;
    var tuple := Tuple(id, opts.producerEpoch.value, opts.producerSeq.value);
    var s1 := Run(cfg.z, s0, sys.requests + [e]);
    AnswerStep(cfg, s0, sys, e);
    RunSnoc(cfg.z, s0, sys.requests, e);
    if Alive(cfg, s0, s1) {
      var h := Accepted(cfg, s0, sys);
      HistorySnoc(cfg.z, s0, sys.requests, e, p, s0.streams[p].created);
      if Accepts(s.streams[p], e, p).Some? {
        var more := Added(s, e, p, s0.streams[p].created);
        TuplesConcat(h, more, id);
        assert TuplesOf(more, id) == [tuple];
      } else {
        DuplicateAnswered(cfg, s0, sys, e);
      }
    }
  }

  /** A success that adds nothing is a duplicate of the producer's current epoch. */
  lemma {:induction false} DuplicateInState(st: Stream, e: Event, p: string)
    requires e.op.AppendOp? && e.op.path == p && HasAllProducerHeaders(e.op.append)
    requires NotClosedBy(st.meta, e.op.append.producerId)
    requires AdmitAppend(st.meta, p in e.expired, e.op.body, e.op.append).Answer?
    requires AdmitAppend(st.meta, p in e.expired, e.op.body, e.op.append).outcome.error == None
    ensures var id := e.op.append.producerId;
      && id in st.meta.producers
      && st.meta.producers[id].epoch == e.op.append.producerEpoch.value
      && e.op.append.producerSeq.value <= st.meta.producers[id].lastSeq
  {
    var opts := e.op.append;
    AcceptedTuple(st.meta.producers, opts.producerId, opts.producerEpoch.value, opts.producerSeq.value);
  }

  /** Every step of client, network, server or anyone else keeps the invariant. */
  lemma {:induction false} ActKeeps(cfg: Config, s0: State, sys: System, a: Action)
    requires Ready(cfg, s0) && SysInv(cfg, s0, sys)
    ensures SysInv(cfg, s0, Act(cfg, s0, sys, a))
  {
    var after := Act(cfg, s0, sys, a);
    ClientActs(cfg, s0, sys, a);
    match a {
      case Deliver(index, expired) =>
        if after != sys { DeliverKeeps(cfg, s0, sys, index, expired); }
      case Elsewhere(event) =>
        if !Ours(cfg, event) {
          RequestsGrow(cfg, sys.batches, sys.requests, event);
          AnswerStep(cfg, s0, sys, event);
        }
      case _ => BatchesGrow(cfg, sys.batches, after.batches, sys.requests);
    }
  }

  lemma {:induction false} DeliverKeeps(cfg: Config, s0: State, sys: System, index: nat, expired: set<string>)
    requires Ready(cfg, s0) && SysInv(cfg, s0, sys)
    requires index < |sys.batches| && NonEmptyBody(BatchRaw(cfg.isJson, sys.batches[index].items))
    ensures SysInv(cfg, s0, Act(cfg, s0, sys, Deliver(index, expired)))
  {
    var b := sys.batches[index];
    var e := Event(Request(cfg, BatchRaw(cfg.isJson, b.items), b.epoch, b.seqNo), expired);
    var after := Act(cfg, s0, sys, Deliver(index, expired));
    assert b in sys.batches;
    RequestsGrow(cfg, sys.batches, sys.requests, e);
    AnswerStep(cfg, s0, sys, e);
    if after.answered != sys.answered { SuccessWasAccepted(cfg, s0, sys, e); }
    assert Accepted(cfg, s0, after) == Accepted(cfg, s0, sys.(requests := sys.requests + [e]));
  }

  lemma {:induction false} StartKeeps(cfg: Config, s0: State, epoch: int)
    requires Ready(cfg, s0)
    ensures SysInv(cfg, s0, Start(epoch))
  {
    assert OfEpoch([], epoch) == [];
  }

  lemma {:induction false} PlayKeeps(cfg: Config, s0: State, sys: System, actions: seq<Action>)
    requires Ready(cfg, s0) && SysInv(cfg, s0, sys)
    ensures SysInv(cfg, s0, Play(cfg, s0, sys, actions))
    decreases actions
  {
    if actions != [] {
      ActKeeps(cfg, s0, sys, actions[0]);
      PlayKeeps(cfg, s0, Act(cfg, s0, sys, actions[0]), actions[1..]);
    }
  }

  /**
   * Exactly once, end to end. After any run: in each epoch the server has accepted exactly the first so many
   * batches the client sent in it, in order, each once and whole; the batches hold the appended items in append
   * order; every acknowledged batch is among those accepted.
   */
  lemma {:induction false} ExactlyOnceDelivery(cfg: Config, s0: State, start: int, actions: seq<Action>, epoch: int)
    requires Ready(cfg, s0)
    requires Alive(cfg, s0, Server(cfg, s0, Play(cfg, s0, Start(start), actions)))
    ensures var sys := Play(cfg, s0, Start(start), actions);
      var parts := PartsIn(Accepted(cfg, s0, sys), cfg.producerId, epoch);
      var own := OfEpoch(sys.batches, epoch);
      && |parts| <= |own| && parts == AllParts(cfg, own)[..|parts|]
      && ItemsOf(sys.batches) + sys.client.pending == sys.appended
      && (forall n :: (epoch, n) in sys.acknowledged ==> 0 <= n < |parts|)
  {
    var sys := Play(cfg, s0, Start(start), actions);
    StartKeeps(cfg, s0, start);
    PlayKeeps(cfg, s0, Start(start), actions);
    EpochIsPrefix(cfg, s0, sys, epoch);
    var h := Accepted(cfg, s0, sys);
    Dedup(cfg.z, s0, sys.requests, cfg.path, cfg.producerId);
    EpochsAreComplete(TuplesOf(h, cfg.producerId), epoch);
    forall n | (epoch, n) in sys.acknowledged
      ensures 0 <= n < |PartsIn(h, cfg.producerId, epoch)|
    {
      SeqIn(TuplesOf(h, cfg.producerId), Tuple(cfg.producerId, epoch, n));
      PartsCount(h, cfg.producerId, epoch);
      CountBounds(0, |SeqsOf(TuplesOf(h, cfg.producerId), epoch)|, n);
    }
  }

  lemma {:induction false} SeqIn(tuples: seq<Tuple>, t: Tuple)
    requires t in tuples
    ensures t.seqNo in SeqsOf(tuples, t.epoch)
  {
    if tuples[0] != t { SeqIn(tuples[1..], t); }
  }

  lemma {:induction false} PartsCount(h: seq<Accept>, id: string, epoch: int)
    ensures |PartsIn(h, id, epoch)| == |SeqsOf(TuplesOf(h, id), epoch)|
  {
    if h != [] {
      HistoryFront(h, id, epoch);
      PartsCount(h[1..], id, epoch);
    }
  }

  lemma {:induction false} CountBounds(first: int, n: nat, x: int)
    requires x in CountFrom(first, n)
    ensures first <= x < first + n
    decreases n
  {
    if n > 0 && x != first { CountBounds(first + 1, n - 1, x); }
  }

  // ---- Batches and items ----

  function Joined(parts: seq<seq<Bytes>>): seq<Bytes> {
    if parts == [] then [] else parts[0] + Joined(parts[1..])
  }

  lemma {:induction false} ConcatTwo(a: seq<Bytes>, b: seq<Bytes>)
    ensures Concat(a + b) == Concat(a) + Concat(b)
  {
    if a == [] {
      assert a + b == b;
    } else {
      assert (a + b)[1..] == a[1..] + b;
      ConcatTwo(a[1..], b);
    }
  }

  /** The messages of the batches are their items for a JSON stream, and their bytes for any stream. */
  lemma {:induction false} PartsAreItems(cfg: Config, batches: seq<Batch>)
    ensures cfg.isJson ==> Joined(AllParts(cfg, batches)) == ItemsOf(batches)
    ensures Concat(Joined(AllParts(cfg, batches))) == Concat(ItemsOf(batches))
  {
    if batches != [] {
      var first, rest := PartsOf(cfg, batches[0]), AllParts(cfg, batches[1..]);
      PartsAreItems(cfg, batches[1..]);
      assert AllParts(cfg, batches)[1..] == rest;
      ConcatTwo(first, Joined(rest));
      ConcatTwo(batches[0].items, ItemsOf(batches[1..]));
      if !cfg.isJson {
        assert [Concat(batches[0].items)][1..] == [];
        assert Concat(first) == Concat(batches[0].items) + [];
      }
    }
  }
}
