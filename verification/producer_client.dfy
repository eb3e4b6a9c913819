/** The pipelined idempotent producer: batches, sequence numbers and the table of completed sequences. */
module ProducerClients {
  import opened Wrappers
  import opened StoreTypes
  import Sets

  /** One request body and the tuple it is sent under. */
  datatype Batch = Batch(epoch: int, seqNo: int, items: seq<Bytes>)

  /** What is known of one sequence number: an entry without a result only has waiters. */
  datatype SeqState = SeqState(resolved: bool, failed: bool)

  datatype Client = Client(
    epoch: int,
    nextSeq: nat,
    pending: seq<Bytes>,
    inFlight: nat,
    seqStates: map<int, map<int, SeqState>>)

  /** Taking the pending items as a batch, when there are any and the pipeline has room. */
  function TakeBatch(c: Client, maxInFlight: nat): (Client, Option<Batch>) {
    if c.pending == [] || c.inFlight >= maxInFlight then (c, None)
    else
      (c.(pending := [], nextSeq := c.nextSeq + 1, inFlight := c.inFlight + 1),
       Some(Batch(c.epoch, c.nextSeq, c.pending)))
  }

  function EpochStates(c: Client, epoch: int): map<int, SeqState> {
    if epoch in c.seqStates then c.seqStates[epoch] else map[]
  }

  function DroppedBelow(states: map<int, SeqState>, threshold: int): map<int, SeqState> {
    map s | s in states && s >= threshold :: states[s]
  }

  /** Entries further than three pipelines behind a completed sequence are forgotten. */
  function Cleaned(states: map<int, SeqState>, seqNo: int, maxInFlight: nat): map<int, SeqState> {
    var threshold := seqNo - maxInFlight * 3;
    if threshold > 0 then DroppedBelow(states, threshold) else states
  }

  function Signal(c: Client, epoch: int, seqNo: int, failed: bool, maxInFlight: nat): Client {
    var states := EpochStates(c, epoch)[seqNo := SeqState(true, failed)];
    c.(seqStates := c.seqStates[epoch := Cleaned(states, seqNo, maxInFlight)])
  }

  /** Asking for a sequence: its result, or none after leaving a waiter. */
  function Await(c: Client, epoch: int, seqNo: int): (Client, Option<bool>) {
    var states := EpochStates(c, epoch);
    if seqNo in states && states[seqNo].resolved then
      (c.(seqStates := c.seqStates[epoch := states]), Some(states[seqNo].failed))
    else
      var waiting := if seqNo in states then states[seqNo] else SeqState(false, false);
      (c.(seqStates := c.seqStates[epoch := states[seqNo := waiting]]), None)
  }

  /** How far back completed sequences are remembered. */
  predicate Remembers(completed: int, seqNo: int, maxInFlight: nat) {
    seqNo >= completed - 3 * maxInFlight || completed <= 3 * maxInFlight
  }

  /**
   * A completed sequence is answered with its result from then on. Of the other sequences of its epoch, those up to
   * three pipelines behind it are answered as before, and the rest are forgotten; other epochs are not touched.
   */
  lemma {:induction false} SignalExact(c: Client, epoch: int, seqNo: int, failed: bool, maxInFlight: nat, e: int,
                                       t: int)
    ensures var after := Await(Signal(c, epoch, seqNo, failed, maxInFlight), e, t).1;
      after == if e == epoch && t == seqNo then Some(failed)
               else if e == epoch && !Remembers(seqNo, t, maxInFlight) then None
               else Await(c, e, t).1
  {
  }

  /** Waiting changes no answer, whoever asks next. */
  lemma {:induction false} AwaitExact(c: Client, epoch: int, seqNo: int, e: int, t: int)
    ensures Await(Await(c, epoch, seqNo).0, e, t).1 == Await(c, e, t).1
  {
  }

  function TotalBytes(items: seq<Bytes>): nat {
    if items == [] then 0 else |items[0]| + TotalBytes(items[1..])
  }

  lemma {:induction false} TotalConcat(a: seq<Bytes>, b: seq<Bytes>)
    ensures TotalBytes(a + b) == TotalBytes(a) + TotalBytes(b)
  {
    if a == [] {
      assert a + b == b;
    } else {
      assert (a + b)[1..] == a[1..] + b;
      TotalConcat(a[1..], b);
    }
  }

  // ---- Request bodies ----

  function Concat(items: seq<Bytes>): Bytes {
    if items == [] then [] else items[0] + Concat(items[1..])
  }

  const OPEN: Byte := 0x5B
  const COMMA: Byte := 0x2C
  const CLOSE: Byte := 0x5D

  function Join(items: seq<Bytes>): Bytes {
    if items == [] then []
    else if |items| == 1 then items[0]
    else items[0] + [COMMA] + Join(items[1..])
  }

  lemma {:induction false} ConcatSnoc(items: seq<Bytes>, i: nat)
    requires i < |items|
    ensures Concat(items[..i + 1]) == Concat(items[..i]) + items[i]
  {
    if i == 0 {
      assert items[..1][1..] == [] && items[..0] == [];
    } else {
      assert items[..i + 1][1..] == items[1..][..i] && items[..i][1..] == items[1..][..i - 1];
      ConcatSnoc(items[1..], i - 1);
    }
  }

  lemma {:induction false} JoinSnoc(items: seq<Bytes>, i: nat)
    requires i < |items|
    ensures Join(items[..i + 1]) == Join(items[..i]) + (if i > 0 then [COMMA] else []) + items[i]
  {
    if i == 0 {
      assert items[..1] == [items[0]] && items[..0] == [];
    } else {
      assert items[..i + 1][1..] == items[1..][..i] && items[..i][1..] == items[1..][..i - 1];
      JoinSnoc(items[1..], i - 1);
      if i == 1 {
        assert items[..1] == [items[0]] && items[1..][..0] == [];
      }
    }
  }

  /** The body of a batch; a JSON body parses back into the items, which are one JSON value each. */
  function BatchRaw(isJson: bool, items: seq<Bytes>): RawBody {
    if isJson then RawBody([OPEN] + Join(items) + [CLOSE], Some(items)) else RawBody(Concat(items), None)
  }

  method BuildBody(isJson: bool, items: seq<Bytes>) returns (raw: Bytes)
    ensures raw == BatchRaw(isJson, items).raw
  {
    if isJson {
      raw := [OPEN];
      for i := 0 to |items|
        invariant raw == [OPEN] + Join(items[..i])
      {
        JoinSnoc(items, i);
        if i > 0 { raw := raw + [COMMA]; }
        raw := raw + items[i];
      }
      assert items[..|items|] == items;
      raw := raw + [CLOSE];
    } else {
      raw := [];
      for i := 0 to |items|
        invariant raw == Concat(items[..i])
      {
        ConcatSnoc(items, i);
        raw := raw + items[i];
      }
      assert items[..|items|] == items;
    }
  }

  /** The bytes of a batch, which decide when it is full, are those of its items. */
  lemma {:induction false} TotalIsLength(items: seq<Bytes>)
    ensures TotalBytes(items) == |Concat(items)|
    decreases items
  {
    if items != [] { TotalIsLength(items[1..]); }
  }

  /** Where item `i` begins in the joined text. */
  function JoinedAt(items: seq<Bytes>, i: nat): nat
    requires i < |items|
  {
    TotalBytes(items[..i]) + i
  }

  lemma {:induction false} JoinedAtNext(items: seq<Bytes>, i: nat)
    requires 0 < i < |items|
    ensures JoinedAt(items, i) == |items[0]| + 1 + JoinedAt(items[1..], i - 1)
  {
    assert items[..i][0] == items[0] && items[..i][1..] == items[1..][..i - 1];
  }

  /** Joined items lie one after the other, with one comma between two of them. */
  lemma {:induction false} JoinLays(items: seq<Bytes>, i: nat)
    requires i < |items|
    ensures var joined, at := Join(items), JoinedAt(items, i);
      && |joined| == TotalBytes(items) + |items| - 1 && at + |items[i]| <= |joined|
      && joined[at..at + |items[i]|] == items[i]
      && (i + 1 < |items| ==> at + |items[i]| < |joined| && joined[at + |items[i]|] == COMMA)
    decreases items
  {
    if |items| == 1 {
      assert items[1..] == [] && items[..0] == [];
    } else {
      JoinLays(items[1..], if i > 0 then i - 1 else 0);
      if i > 0 {
        JoinedAtNext(items, i);
        LaysBehind(items[0], Join(items[1..]), JoinedAt(items[1..], i - 1), items[i]);
      } else {
        assert items[..0] == [];
      }
    }
  }

  lemma {:induction false} LaysBehind(first: Bytes, rest: Bytes, at: nat, item: Bytes)
    requires at + |item| <= |rest| && rest[at..at + |item|] == item
    ensures var joined, from := first + [COMMA] + rest, |first| + 1 + at;
      && joined[from..from + |item|] == item
      && (at + |item| < |rest| ==> joined[from + |item|] == rest[at + |item|])
  {
  }

  /** Deletes the entries below a threshold, one by one. */
  method DropBelow(states: map<int, SeqState>, threshold: int) returns (kept: map<int, SeqState>)
    ensures kept == DroppedBelow(states, threshold)
  {
    kept := states;
    var todo := states.Keys;
    while todo != {}
      invariant todo <= states.Keys && kept.Keys <= states.Keys
      invariant forall s :: s in states && (s in todo || s >= threshold) ==> s in kept
      invariant forall s :: s in kept ==> s in todo || s >= threshold
      invariant forall s :: s in kept ==> kept[s] == states[s]
      decreases todo
    {
      Sets.SomeNumber(todo);
      var oldSeq :| oldSeq in todo;
      if oldSeq < threshold { kept := kept - {oldSeq}; }
      todo := todo - {oldSeq};
    }
    ghost var wanted := DroppedBelow(states, threshold);
    assert kept.Keys <= wanted.Keys && wanted.Keys <= kept.Keys;
    assert forall s :: s in kept ==> kept[s] == wanted[s];
  }

  // ---- The producer object ----

  class IdempotentProducer {
    const maxInFlight: nat
    const maxBatchBytes: nat
    var epoch: int
    var nextSeq: nat
    var closed: bool
    var pendingBatch: seq<Bytes>
    var batchBytes: nat
    var inFlight: nat
    var seqState: map<int, map<int, SeqState>>

    ghost function State(): Client
      reads this
    {
      Client(epoch, nextSeq, pendingBatch, inFlight, seqState)
    }

    ghost predicate Valid()
      reads this
    {
      batchBytes == TotalBytes(pendingBatch)
    }

    constructor (startEpoch: int, pipeline: nat, batchLimit: nat)
      ensures Valid() && !closed && State() == Client(startEpoch, 0, [], 0, map[])
      ensures maxInFlight == pipeline && maxBatchBytes == batchLimit
    {
      maxInFlight, maxBatchBytes := pipeline, batchLimit;
      epoch, nextSeq, closed := startEpoch, 0, false;
      pendingBatch, batchBytes, inFlight, seqState := [], 0, 0, map[];
    }

    /** Adds one item; a full batch is sent at once if the pipeline has room. */
    method Append(data: Bytes) returns (accepted: bool, batch: Option<Batch>)
      requires Valid()
      modifies this
      ensures Valid() && closed == old(closed)
      ensures accepted == !closed
      ensures var grown := old(State()).(pending := old(pendingBatch) + [data]);
        if !accepted then batch == None && State() == old(State())
        else if TotalBytes(grown.pending) >= maxBatchBytes then (State(), batch) == TakeBatch(grown, maxInFlight)
        else batch == None && State() == grown
    {
      if closed { return false, None; }
      TotalConcat(pendingBatch, [data]);
      assert [data][1..] == [];
      pendingBatch := pendingBatch + [data];
      batchBytes := batchBytes + |data|;
      if batchBytes >= maxBatchBytes {
        batch := SendCurrentBatchLocked();
      } else {
        batch := None;
      }
      accepted := true;
    }

    method SendCurrentBatchLocked() returns (batch: Option<Batch>)
      requires Valid()
      modifies this
      ensures Valid() && closed == old(closed)
      ensures (State(), batch) == TakeBatch(old(State()), maxInFlight)
    {
      if |pendingBatch| == 0 { return None; }
      if inFlight >= maxInFlight { return None; }
      batch := Some(Batch(epoch, nextSeq, pendingBatch));
      pendingBatch, batchBytes := [], 0;
      nextSeq := nextSeq + 1;
      inFlight := inFlight + 1;
    }

    /** Records the completion of a sequence and forgets old entries of its epoch. */
    method SignalSeqComplete(e: int, seqNo: int, failed: bool)
      requires Valid()
      modifies this`seqState
      ensures Valid() && State() == Signal(old(State()), e, seqNo, failed, maxInFlight)
    {
      var epochMap := if e in seqState then seqState[e] else map[];
      epochMap := epochMap[seqNo := SeqState(true, failed)];
      var cleanupThreshold := seqNo - maxInFlight * 3;
      if cleanupThreshold > 0 { epochMap := DropBelow(epochMap, cleanupThreshold); }
      seqState := seqState[e := epochMap];
    }

    /** The result of a sequence if it has one; otherwise the caller is registered as a waiter. */
    method WaitForSeq(e: int, seqNo: int) returns (result: Option<bool>)
      requires Valid()
      modifies this`seqState
      ensures Valid() && (State(), result) == Await(old(State()), e, seqNo)
    {
      var epochMap := if e in seqState then seqState[e] else map[];
      if seqNo in epochMap && epochMap[seqNo].resolved {
        seqState := seqState[e := epochMap];
        return Some(epochMap[seqNo].failed);
      }
      if seqNo !in epochMap { epochMap := epochMap[seqNo := SeqState(false, false)]; }
      assert epochMap == epochMap[seqNo := epochMap[seqNo]];
      seqState := seqState[e := epochMap];
      return None;
    }

    /** A batch has finished, after its completion was signalled. */
    method BatchFinished()
      requires Valid() && inFlight > 0
      modifies this`inFlight
      ensures Valid() && State() == old(State()).(inFlight := old(inFlight) - 1)
    {
      inFlight := inFlight - 1;
    }

    /** A new session, after a flush; items appended since then stay pending. */
    method Restart()
      requires Valid()
      modifies this`epoch, this`nextSeq
      ensures Valid() && State() == old(State()).(epoch := old(epoch) + 1, nextSeq := 0)
    {
      epoch := epoch + 1;
      nextSeq := 0;
    }
  }
}
