/** The records the stores are built from. */
module StoreTypes {
  import opened Wrappers
  import opened Offsets

  newtype Byte = x: int | 0 <= x < 256

  type Bytes = seq<Byte>

  datatype Error =
    | NotFound
    | Exists
    | ConfigMismatch
    | SequenceConflict
    | ContentTypeMismatch
    | EmptyJsonArray
    | InvalidJson
    | StreamClosed
    | StaleEpoch
    | InvalidEpochSeq
    | ProducerSeqGap
    | PartialProducer
    | StreamSoftDeleted
    | InvalidForkOffset
    | InvalidForkSubOffset
    | RefCountUnderflow
    | MessageTooLarge
    | SegmentUnreadable

  datatype Message = Message(data: Bytes, offset: Offset)

  datatype ProducerState = ProducerState(epoch: int, lastSeq: int)

  datatype ClosedBy = ClosedBy(producerId: string, epoch: int, seqNo: int)

  datatype Metadata = Metadata(
    contentType: string,
    currentOffset: Offset,
    lastSeq: string,
    ttlSeconds: Option<int>,
    expiresAt: Option<int>,
    producers: map<string, ProducerState>,
    closed: bool,
    closedBy: Option<ClosedBy>,
    forkedFrom: string,
    forkOffset: Offset,
    forkOffsetRequested: Option<Offset>,
    forkSubOffset: nat,
    refCount: int,
    softDeleted: bool)

  /**
   * One generation of a stream. `created` is a logical stamp taken at creation; it stands for the
   * identity of the object the source allocates, so a stream deleted and created again differs in it.
   */
  datatype Stream = Stream(meta: Metadata, messages: seq<Message>, created: nat)

  type Streams = map<string, Stream>

  /**
   * A request body together with what the JSON library makes of it: None when it is not valid JSON,
   * otherwise the elements of a top-level array, or the one value. Bodies and elements are not empty.
   */
  datatype RawBody = RawBody(raw: Bytes, json: Option<seq<Bytes>>)

  predicate NonEmptyParts(parts: seq<Bytes>) {
    forall i :: 0 <= i < |parts| ==> |parts[i]| > 0
  }

  predicate NonEmptyBody(b: RawBody) {
    |b.raw| > 0 && (b.json.Some? ==> NonEmptyParts(b.json.value))
  }

  type Body = b: RawBody | NonEmptyBody(b) witness RawBody([0], None)

  datatype CreateOptions = CreateOptions(
    contentType: string,
    ttlSeconds: Option<int>,
    expiresAt: Option<int>,
    initialData: Option<Body>,
    closed: bool,
    forkedFrom: string,
    forkOffset: Option<Offset>,
    forkSubOffset: Option<nat>)

  datatype AppendOptions = AppendOptions(
    streamSeq: string,
    contentType: string,
    close: bool,
    producerId: string,
    producerEpoch: Option<int>,
    producerSeq: Option<int>)

  predicate HasProducerHeaders(o: AppendOptions) {
    o.producerId != "" || o.producerEpoch.Some? || o.producerSeq.Some?
  }

  predicate HasAllProducerHeaders(o: AppendOptions) {
    o.producerId != "" && o.producerEpoch.Some? && o.producerSeq.Some?
  }

  datatype ProducerResult = NoProducer | Accepted | Duplicate

  datatype AppendResult = AppendResult(
    offset: Offset,
    producerResult: ProducerResult,
    currentEpoch: int,
    expectedSeq: int,
    receivedSeq: int,
    lastSeq: int,
    streamClosed: bool)

  const BLANK_RESULT := AppendResult(ZERO_OFFSET, NoProducer, 0, 0, 0, 0, false)

  /** What an append or a close answers: the result record and the error, if any. */
  datatype Outcome = Outcome(result: AppendResult, error: Option<Error>)
}
