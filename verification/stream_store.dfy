/**
 * What every public operation of the stream stores computes, as functions from state to state.
 * The in-memory and the file store differ in how far one message moves the tail, so the functions
 * take that as a parameter.
 */
module StreamStore {
  import opened Wrappers
  import opened Offsets
  import opened StoreTypes
  import Text

  /**
   * What tells stores apart. A message advances the tail by its length plus a frame header, or by one position.
   * A store either sweeps expired streams in the background, or lets a read mark the expired stream it meets.
   */
  datatype Kind = Framed(overhead: nat, sweeps: bool) | Unit

  function SizeOf(z: Kind, data: Bytes): nat {
    match z
    case Framed(overhead, _) => overhead + |data|
    case Unit => 1
  }

  datatype State = State(streams: Streams, clock: nat)

  const EMPTY_STATE := State(map[], 0)

  // ---- Logs ----

  /** The messages that appending `parts` after `from` adds; each carries the offset of its end. */
  function Frame(z: Kind, from: Offset, parts: seq<Bytes>): seq<Message>
    decreases parts
  {
    if parts == [] then []
    else
      var end := Add(from, SizeOf(z, parts[0]));
      [Message(parts[0], end)] + Frame(z, end, parts[1..])
  }

  /** The tail after appending `parts` at `from`. */
  function Tail(z: Kind, from: Offset, parts: seq<Bytes>): Offset
    decreases parts
  {
    if parts == [] then from
    else Tail(z, Add(from, SizeOf(z, parts[0])), parts[1..])
  }

  function Extend(z: Kind, st: Stream, parts: seq<Bytes>): Stream {
    st.(meta := st.meta.(currentOffset := Tail(z, st.meta.currentOffset, parts)),
        messages := st.messages + Frame(z, st.meta.currentOffset, parts))
  }

  /** The messages a body becomes: one for a binary stream, the flattened values for a JSON one. */
  function Split(isJson: bool, body: Body, allowEmpty: bool): (r: Result<seq<Bytes>, Error>)
    ensures r.Ok? ==> NonEmptyParts(r.value)
  {
    if !isJson then Ok([body.raw])
    else match body.json
      case None => Err(InvalidJson)
      case Some(parts) => if parts == [] && !allowEmpty then Err(EmptyJsonArray) else Ok(parts)
  }

  function After(ms: seq<Message>, o: Offset): seq<Message> {
    if ms == [] then []
    else (if ms[0].offset.byteOffset > o.byteOffset then [ms[0]] else []) + After(ms[1..], o)
  }

  function UpTo(ms: seq<Message>, cap: Offset): seq<Message> {
    if ms == [] then []
    else (if LessThanOrEqual(ms[0].offset, cap) then [ms[0]] else []) + UpTo(ms[1..], cap)
  }

  // ---- Reading across the fork chain ----

  /** A fork is younger than its source, when the source is present. */
  predicate Younger(m: Streams, p: string)
    requires p in m
  {
    m[p].meta.forkedFrom in m && m[p].meta.forkedFrom != "" ==> m[m[p].meta.forkedFrom].created < m[p].created
  }

  ghost predicate Ordered(m: Streams) {
    forall p {:trigger Younger(m, p)} :: p in m ==> Younger(m, p)
  }

  function Inherited(m: Streams, p: string, o: Offset): seq<Message>
    requires Ordered(m) && p in m
    decreases m[p].created, 0
  {
    var meta := m[p].meta;
    assert Younger(m, p);
    if meta.forkedFrom != "" && LessThan(o, meta.forkOffset) && meta.forkedFrom in m
    then UpTo(View(m, meta.forkedFrom, o), meta.forkOffset)
    else []
  }

  /** What reading stream `p` from offset `o` returns. */
  function View(m: Streams, p: string, o: Offset): seq<Message>
    requires Ordered(m) && p in m
    decreases m[p].created, 1
  {
    Inherited(m, p, o) + After(m[p].messages, o)
  }

  // ---- Deletion ----

  function WithRefCount(st: Stream, n: int): Stream {
    st.(meta := st.meta.(refCount := n))
  }

  function SetRefCount(m: Streams, p: string, n: int): (m': Streams)
    requires p in m
    ensures m'.Keys == m.Keys
  {
    m[p := WithRefCount(m[p], n)]
  }

  function SetSoftDeleted(m: Streams, p: string): (m': Streams)
    requires p in m
    ensures m'.Keys == m.Keys
  {
    m[p := m[p].(meta := m[p].meta.(softDeleted := true))]
  }

  /** Two generations with the same place in the fork graph. */
  predicate SameLinks(a: Stream, b: Stream) {
    a.created == b.created && a.meta.forkedFrom == b.meta.forkedFrom
  }

  /** Removes a stream and every soft-deleted ancestor left without forks; true means underflow. */
  function Cascade(m: Streams, p: string): (r: (Streams, bool))
    ensures r.0.Keys <= m.Keys
    ensures forall q :: q in r.0 ==> SameLinks(m[q], r.0[q])
    decreases |m|
  {
    if p !in m then (m, false)
    else
      var rest := m - {p};
      var source := m[p].meta.forkedFrom;
      assert |rest| < |m| by { assert m.Keys == rest.Keys + {p}; assert |m.Keys| == |rest.Keys| + 1; }
      if source == "" || source !in rest then (rest, false)
      else
        var n := rest[source].meta.refCount - 1;
        if n < 0 then (SetRefCount(rest, source, 0), true)
        else
          var released := SetRefCount(rest, source, n);
          assert |released.Keys| == |rest.Keys|;
          if n == 0 && released[source].meta.softDeleted then Cascade(released, source)
          else (released, false)
  }

  function Delete(s: State, path: string): (State, Option<Error>) {
    if path !in s.streams then (s, Some(NotFound))
    else if s.streams[path].meta.softDeleted then (s, Some(StreamSoftDeleted))
    else if s.streams[path].meta.refCount > 0 then
      (s.(streams := SetSoftDeleted(s.streams, path)), None)
    else
      var (rest, underflow) := Cascade(s.streams, path);
      (s.(streams := rest), if underflow then Some(RefCountUnderflow) else None)
  }

  // ---- Creation ----

  predicate ConfigMatches(meta: Metadata, opts: CreateOptions) {
    && Text.ContentTypeMatches(meta.contentType, opts.contentType)
    && meta.ttlSeconds == opts.ttlSeconds
    && meta.expiresAt == opts.expiresAt
    && meta.closed == opts.closed
    && meta.forkedFrom == opts.forkedFrom
    && (opts.forkedFrom != "" ==>
      && (opts.forkOffset.Some? ==>
        (match meta.forkOffsetRequested case Some(o) => o case None => meta.forkOffset) == opts.forkOffset.value)
      && meta.forkSubOffset == SubOffset(opts))
  }

  datatype Claim = Free | Settled(outcome: Result<bool, Error>)

  /** The first half of Create: what becomes of a stream already at the path. */
  function Reclaim(m: Streams, path: string, opts: CreateOptions, expired: set<string>): (r: (Streams, Claim))
    ensures Ordered(m) ==> Ordered(r.0)
    ensures r.1.Free? ==> path !in r.0
  {
    if path !in m then (m, Free)
    else if path in expired then
      CascadeOrdered(m, path);
      if m[path].meta.refCount > 0 then (SetSoftDeleted(m, path), Settled(Err(Exists)))
      else
        CascadeRemoves(m, path);
        var (rest, underflow) := Cascade(m, path);
        (rest, if underflow then Settled(Err(RefCountUnderflow)) else Free)
    else if m[path].meta.softDeleted then (m, Settled(Err(Exists)))
    else if ConfigMatches(m[path].meta, opts) then (m, Settled(Ok(false)))
    else (m, Settled(Err(ConfigMismatch)))
  }

  lemma {:induction false} CascadeOrdered(m: Streams, p: string)
    ensures Ordered(m) ==> Ordered(Cascade(m, p).0)
    ensures p in m && Ordered(m) ==> Ordered(SetSoftDeleted(m, p))
  {
    var left := Cascade(m, p).0;
    if Ordered(m) {
      forall q | q in left ensures Younger(left, q) {
        assert Younger(m, q);
      }
      if p in m {
        var marked := SetSoftDeleted(m, p);
        forall q | q in marked ensures Younger(marked, q) {
          assert Younger(m, q);
        }
      }
    }
  }

  lemma {:induction false} CascadeRemoves(m: Streams, p: string)
    requires p in m
    ensures p !in Cascade(m, p).0
  {
    var rest := m - {p};
    var source := m[p].meta.forkedFrom;
    if source != "" && source in rest && rest[source].meta.refCount - 1 >= 0 {
      var released := SetRefCount(rest, source, rest[source].meta.refCount - 1);
      assert p !in released.Keys;
    }
  }

  /** Where a fork starts, and the bytes of the source message it is cut into, if any. */
  datatype ForkPoint = ForkPoint(offset: Offset, prefix: Bytes)

  /**
   * Cuts a fork `k` messages (JSON) or `k` bytes (binary) into `rest`, the source's messages after `at`.
   * Without a sub-offset the fork starts at `at`.
   */
  function CutInto(isJson: bool, rest: seq<Message>, at: Offset, k: nat): Result<ForkPoint, Error> {
    if k == 0 then Ok(ForkPoint(at, []))
    else if isJson then
      if |rest| < k then Err(InvalidForkSubOffset) else Ok(ForkPoint(rest[k - 1].offset, []))
    else if rest == [] || |rest[0].data| < k then Err(InvalidForkSubOffset)
    else Ok(ForkPoint(at, rest[0].data[..k]))
  }

  /** Checks the source and the offset a fork asks for, and resolves a missing offset to the tail. */
  function ForkTarget(m: Streams, opts: CreateOptions, expired: set<string>): (r: Result<Offset, Error>)
    ensures r.Ok? ==> opts.forkedFrom in m
  {
    var source := opts.forkedFrom;
    if source !in m then Err(NotFound)
    else
      var meta := m[source].meta;
      if meta.softDeleted then Err(StreamSoftDeleted)
      else if source in expired then Err(NotFound)
      else if opts.contentType != "" && !Text.EqualFold(opts.contentType, meta.contentType) then
        Err(ContentTypeMismatch)
      else
        var at := match opts.forkOffset case Some(o) => o case None => meta.currentOffset;
        if LessThan(at, ZERO_OFFSET) || LessThan(meta.currentOffset, at) then Err(InvalidForkOffset) else Ok(at)
  }

  function SubOffset(opts: CreateOptions): nat {
    match opts.forkSubOffset case Some(k) => k case None => 0
  }

  function ResolveFork(m: Streams, opts: CreateOptions, expired: set<string>): (r: Result<ForkPoint, Error>)
    requires Ordered(m)
    ensures r.Ok? ==> opts.forkedFrom in m
  {
    match ForkTarget(m, opts, expired)
    case Err(e) => Err(e)
    case Ok(at) =>
      CutInto(Text.IsJson(m[opts.forkedFrom].meta.contentType), View(m, opts.forkedFrom, at), at, SubOffset(opts))
  }

  function ForkExpiry(opts: CreateOptions, source: Metadata): (Option<int>, Option<int>) {
    if opts.ttlSeconds.Some? then (opts.ttlSeconds, None)
    else if opts.expiresAt.Some? then (None, opts.expiresAt)
    else if source.ttlSeconds.Some? then (source.ttlSeconds, None)
    else (None, source.expiresAt)
  }

  function RootMeta(opts: CreateOptions): Metadata {
    Metadata(Text.OrDefault(opts.contentType), ZERO_OFFSET, "", opts.ttlSeconds, opts.expiresAt, map[],
             opts.closed, None, "", ZERO_OFFSET, None, 0, 0, false)
  }

  function ForkMeta(opts: CreateOptions, source: Metadata, at: Offset): Metadata {
    var (ttl, expiresAt) := ForkExpiry(opts, source);
    Metadata(if opts.contentType == "" then source.contentType else opts.contentType, at, "", ttl, expiresAt,
             map[], opts.closed, None, opts.forkedFrom, at, opts.forkOffset, SubOffset(opts), 0, false)
  }

  /** A new stream before its initial data; a prefix becomes its first own message. */
  function Blank(z: Kind, meta: Metadata, prefix: Bytes, stamp: nat): Stream {
    var st := Stream(meta, [], stamp);
    if prefix == [] then st else Extend(z, st, [prefix])
  }

  function Initialise(z: Kind, st: Stream, initial: Option<Body>): Result<Stream, Error> {
    match initial
    case None => Ok(st)
    case Some(body) =>
      match Split(Text.IsJson(st.meta.contentType), body, true)
      case Err(e) => Err(e)
      case Ok(parts) => Ok(Extend(z, st, parts))
  }

  /** The stream a Create at a free path makes: a root, or a fork of its source. */
  function NewStream(z: Kind, s: State, opts: CreateOptions, expired: set<string>): (r: Result<Stream, Error>)
    requires Ordered(s.streams)
  {
    if opts.forkedFrom == "" then Initialise(z, Blank(z, RootMeta(opts), [], s.clock), opts.initialData)
    else match ResolveFork(s.streams, opts, expired)
      case Err(e) => Err(e)
      case Ok(fork) =>
        var meta := ForkMeta(opts, s.streams[opts.forkedFrom].meta, fork.offset);
        Initialise(z, Blank(z, meta, fork.prefix, s.clock), opts.initialData)
  }

  /** Adds a stream, with one more reference on its source. */
  function Insert(m: Streams, path: string, st: Stream): Streams {
    var source := st.meta.forkedFrom;
    (if source != "" && source in m then SetRefCount(m, source, m[source].meta.refCount + 1) else m)[path := st]
  }

  /** The second half of Create: a new root or fork at a free path. */
  function Launch(z: Kind, s: State, path: string, opts: CreateOptions, expired: set<string>)
    : (State, Result<bool, Error>)
    requires Ordered(s.streams)
  {
    match NewStream(z, s, opts, expired)
    case Err(e) => (s, Err(e))
    case Ok(st) => (State(Insert(s.streams, path, st), s.clock + 1), Ok(true))
  }

  /** Creates a stream; the boolean says whether it is new. */
  function Create(z: Kind, s: State, path: string, opts: CreateOptions, expired: set<string>)
    : (State, Result<bool, Error>)
    requires Ordered(s.streams)
  {
    var (m, claim) := Reclaim(s.streams, path, opts, expired);
    if claim.Settled? then (s.(streams := m), claim.outcome)
    else Launch(z, s.(streams := m), path, opts, expired)
  }

  // ---- Appending and closing ----

  /** The answer of producer validation, the state to store when accepted, and the error if rejected. */
  datatype Verdict = Verdict(result: AppendResult, state: Option<ProducerState>, error: Option<Error>)

  function ValidateProducer(producers: map<string, ProducerState>, id: string, epoch: int, seqNo: int): Verdict {
    if id !in producers then
      if seqNo != 0 then Verdict(BLANK_RESULT.(expectedSeq := 0, receivedSeq := seqNo), None, Some(ProducerSeqGap))
      else Verdict(BLANK_RESULT.(producerResult := Accepted, lastSeq := 0), Some(ProducerState(epoch, 0)), None)
    else
      var state := producers[id];
      if epoch < state.epoch then Verdict(BLANK_RESULT.(currentEpoch := state.epoch), None, Some(StaleEpoch))
      else if epoch > state.epoch then
        if seqNo != 0 then Verdict(BLANK_RESULT, None, Some(InvalidEpochSeq))
        else Verdict(BLANK_RESULT.(producerResult := Accepted, lastSeq := 0), Some(ProducerState(epoch, 0)), None)
      else if seqNo <= state.lastSeq then
        Verdict(BLANK_RESULT.(producerResult := Duplicate, lastSeq := state.lastSeq), None, None)
      else if seqNo == state.lastSeq + 1 then
        Verdict(BLANK_RESULT.(producerResult := Accepted, lastSeq := seqNo), Some(ProducerState(epoch, seqNo)), None)
      else
        Verdict(BLANK_RESULT.(expectedSeq := state.lastSeq + 1, receivedSeq := seqNo), None, Some(ProducerSeqGap))
  }

  /** The stream after an accepted append: new messages, Stream-Seq, producer state and closure. */
  function Commit(z: Kind, st: Stream, parts: seq<Bytes>, opts: AppendOptions, state: Option<ProducerState>): Stream {
    var grown := Extend(z, st, parts);
    var meta := grown.meta;
    grown.(meta := meta.(
      lastSeq := if opts.streamSeq != "" then opts.streamSeq else meta.lastSeq,
      producers := if state.Some? then meta.producers[opts.producerId := state.value] else meta.producers,
      closed := meta.closed || opts.close,
      closedBy := if opts.close && HasAllProducerHeaders(opts)
        then Some(ClosedBy(opts.producerId, opts.producerEpoch.value, opts.producerSeq.value))
        else meta.closedBy))
  }

  /** What an existing stream decides about an append: an answer without effect, or messages to commit. */
  datatype Admission = Answer(outcome: Outcome) | Admit(parts: seq<Bytes>, verdict: Verdict)

  function AppendVerdict(meta: Metadata, opts: AppendOptions): Verdict {
    if HasAllProducerHeaders(opts)
    then ValidateProducer(meta.producers, opts.producerId, opts.producerEpoch.value, opts.producerSeq.value)
    else Verdict(BLANK_RESULT, None, None)
  }

  function AdmitAppend(meta: Metadata, expired: bool, body: Body, opts: AppendOptions): (r: Admission)
    ensures r.Admit? ==> NonEmptyParts(r.parts)
  {
    if meta.softDeleted then Answer(Outcome(BLANK_RESULT, Some(StreamSoftDeleted)))
    else if expired then Answer(Outcome(BLANK_RESULT, Some(NotFound)))
    else if meta.closed then
      if HasAllProducerHeaders(opts)
        && meta.closedBy == Some(ClosedBy(opts.producerId, opts.producerEpoch.value, opts.producerSeq.value))
      then Answer(Outcome(AppendResult(meta.currentOffset, Duplicate, 0, 0, 0, opts.producerSeq.value, true), None))
      else Answer(Outcome(BLANK_RESULT.(offset := meta.currentOffset, streamClosed := true), Some(StreamClosed)))
    else if opts.contentType != "" && !Text.ContentTypeMatches(meta.contentType, opts.contentType) then
      Answer(Outcome(BLANK_RESULT, Some(ContentTypeMismatch)))
    else
      var verdict := AppendVerdict(meta, opts);
      if verdict.error.Some? then Answer(Outcome(verdict.result.(offset := meta.currentOffset), verdict.error))
      else if verdict.result.producerResult == Duplicate then
        Answer(Outcome(BLANK_RESULT.(offset := meta.currentOffset, producerResult := Duplicate,
                                     lastSeq := verdict.result.lastSeq), None))
      else if opts.streamSeq != "" && meta.lastSeq != "" && Text.LessOrEqual(opts.streamSeq, meta.lastSeq) then
        Answer(Outcome(BLANK_RESULT, Some(SequenceConflict)))
      else match Split(Text.IsJson(meta.contentType), body, false)
        case Err(e) => Answer(Outcome(BLANK_RESULT, Some(e)))
        case Ok(parts) => Admit(parts, verdict)
  }

  function Append(z: Kind, s: State, path: string, body: Body, opts: AppendOptions, expired: set<string>)
    : (State, Outcome)
  {
    if HasProducerHeaders(opts) && !HasAllProducerHeaders(opts) then
      (s, Outcome(BLANK_RESULT, Some(PartialProducer)))
    else if path !in s.streams then (s, Outcome(BLANK_RESULT, Some(NotFound)))
    else
      var st := s.streams[path];
      match AdmitAppend(st.meta, path in expired, body, opts)
      case Answer(outcome) => (s, outcome)
      case Admit(parts, verdict) =>
        var st' := Commit(z, st, parts, opts, verdict.state);
        (s.(streams := s.streams[path := st']),
         Outcome(verdict.result.(offset := st'.meta.currentOffset, streamClosed := opts.close), None))
  }

  /** Closing without data; the boolean says whether the stream was closed already. */
  function Close(s: State, path: string, expired: set<string>): (State, Result<(Offset, bool), Error>) {
    if path !in s.streams || path in expired then (s, Err(NotFound))
    else
      var st := s.streams[path];
      (s.(streams := s.streams[path := st.(meta := st.meta.(closed := true))]),
       Ok((st.meta.currentOffset, st.meta.closed)))
  }

  function CloseWithProducer(s: State, path: string, id: string, epoch: int, seqNo: int, expired: set<string>)
    : (State, Outcome)
  {
    if path !in s.streams || path in expired then (s, Outcome(BLANK_RESULT, Some(NotFound)))
    else
      var st := s.streams[path];
      var meta := st.meta;
      var tuple := ClosedBy(id, epoch, seqNo);
      if meta.closed then
        if meta.closedBy == Some(tuple)
        then (s, Outcome(AppendResult(meta.currentOffset, Duplicate, 0, 0, 0, seqNo, true), None))
        else (s, Outcome(BLANK_RESULT.(offset := meta.currentOffset, streamClosed := true), Some(StreamClosed)))
      else
        var verdict := ValidateProducer(meta.producers, id, epoch, seqNo);
        var result := verdict.result.(offset := meta.currentOffset);
        if verdict.error.Some? || result.producerResult == Duplicate then (s, Outcome(result, verdict.error))
        else
          var meta' := meta.(producers := meta.producers[id := verdict.state.value], closed := true,
                             closedBy := Some(tuple));
          (s.(streams := s.streams[path := st.(meta := meta')]), Outcome(result.(streamClosed := true), None))
  }

  // ---- Reading and sweeping ----

  /** Whether a read that returned `ms` from `o` reached the tail. */
  predicate UpToDate(meta: Metadata, ms: seq<Message>, o: Offset) {
    if ms != [] then ms[|ms| - 1].offset == meta.currentOffset
    else o == meta.currentOffset || meta.currentOffset == ZERO_OFFSET
  }

  /** What a read answers. */
  function Read(s: State, path: string, o: Offset, expired: set<string>): Result<(seq<Message>, bool), Error>
    requires Ordered(s.streams)
  {
    if path !in s.streams || path in expired || s.streams[path].meta.softDeleted then Err(NotFound)
    else
      var ms := View(s.streams, path, o);
      Ok((ms, UpToDate(s.streams[path].meta, ms, o)))
  }

  /** What a read that marks leaves behind: an expired stream that still has forks becomes soft-deleted. */
  function MarkExpired(s: State, path: string, expired: set<string>): State {
    if path in s.streams && path in expired && s.streams[path].meta.refCount > 0
    then s.(streams := SetSoftDeleted(s.streams, path)) else s
  }

  /** What a read leaves behind: the file store's leaves everything as it is. */
  function AfterRead(sweeps: bool, s: State, path: string, expired: set<string>): State {
    if sweeps then s else MarkExpired(s, path, expired)
  }

  /** The file store's background cleanup of expired streams, in the order it meets them. */
  function Sweep(m: Streams, victims: seq<string>): Streams {
    if victims == [] then m
    else
      var p := victims[0];
      if p !in m then Sweep(m, victims[1..])
      else if m[p].meta.refCount > 0 then Sweep(SetSoftDeleted(m, p), victims[1..])
      else Sweep(Cascade(m, p).0, victims[1..])
  }

  /** The in-memory store never sweeps. */
  function AfterSweep(sweeps: bool, s: State, victims: seq<string>): State {
    if sweeps then s.(streams := Sweep(s.streams, victims)) else s
  }

  predicate Sweeps(z: Kind) {
    z.Framed? && z.sweeps
  }

  // ---- Runs ----

  datatype Op =
    | CreateOp(path: string, create: CreateOptions)
    | AppendOp(path: string, body: Body, append: AppendOptions)
    | CloseOp(path: string)
    | CloseProducerOp(path: string, producerId: string, epoch: int, seqNo: int)
    | DeleteOp(path: string)
    | ReadOp(path: string, from: Offset)
    | SweepOp(victims: seq<string>)

  /** One public call, with the set of streams past their expiry at that moment. */
  datatype Event = Event(op: Op, expired: set<string>)

  function Step(z: Kind, s: State, e: Event): State
    requires Ordered(s.streams)
  {
    match e.op
    case CreateOp(path, opts) => Create(z, s, path, opts, e.expired).0
    case AppendOp(path, body, opts) => Append(z, s, path, body, opts, e.expired).0
    case CloseOp(path) => Close(s, path, e.expired).0
    case CloseProducerOp(path, id, epoch, seqNo) => CloseWithProducer(s, path, id, epoch, seqNo, e.expired).0
    case DeleteOp(path) => Delete(s, path).0
    case ReadOp(path, from) => AfterRead(Sweeps(z), s, path, e.expired)
    case SweepOp(victims) => AfterSweep(Sweeps(z), s, victims)
  }
}
