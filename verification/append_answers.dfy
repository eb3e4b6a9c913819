/** What appends are answered with, in terms of the log they leave and of what was accepted before. */
module AppendAnswers {
  import opened Wrappers
  import opened Offsets
  import opened StoreTypes
  import opened StreamStore
  import opened StoreInvariant
  import opened ForkReading
  import opened Resuming
  import opened ProducerDedup
  import opened StreamSequences
  import opened Closing
  import opened Logs
  import Text

  // ---- What an accepted append adds ----

  function Joined(parts: seq<Bytes>): Bytes {
    if parts == [] then [] else parts[0] + Joined(parts[1..])
  }

  /** How far messages move the tail: their bytes and a frame header each, or one position each. */
  function Volume(z: Kind, parts: seq<Bytes>): nat {
    match z
    case Framed(overhead, _) => overhead * |parts| + |Joined(parts)|
    case Unit => |parts|
  }

  lemma {:induction false} TailIsVolume(z: Kind, from: Offset, parts: seq<Bytes>)
    ensures Tail(z, from, parts) == Add(from, Volume(z, parts))
    decreases parts
  {
    if parts != [] {
      TailIsVolume(z, Add(from, SizeOf(z, parts[0])), parts[1..]);
      if z.Framed? { assert z.overhead * |parts| == z.overhead + z.overhead * |parts[1..]|; }
    }
  }

  /** The messages a body stands for: the values of a JSON body, or all of a binary one. */
  function Payload(contentType: string, body: Body): seq<Bytes> {
    if Text.IsJson(contentType) then (if body.json.Some? then body.json.value else []) else [body.raw]
  }

  /** The append takes effect. */
  predicate Accepted(outcome: Outcome) {
    outcome.error.None? && outcome.result.producerResult != Duplicate
  }

  lemma {:induction false} AcceptedCommit(z: Kind, s: State, p: string, body: Body, opts: AppendOptions,
                                          expired: set<string>)
    requires Accepted(Append(z, s, p, body, opts, expired).1)
    ensures p in s.streams
    ensures var admission := AdmitAppend(s.streams[p].meta, p in expired, body, opts);
      && admission.Admit? && admission.parts == Payload(s.streams[p].meta.contentType, body) && admission.parts != []
      && admission.verdict == AppendVerdict(s.streams[p].meta, opts)
      && Append(z, s, p, body, opts, expired).0 ==
        s.(streams := s.streams[p := Commit(z, s.streams[p], admission.parts, opts, admission.verdict.state)])
  {
    if HasAllProducerHeaders(opts) {
      AcceptedTuple(s.streams[p].meta.producers, opts.producerId, opts.producerEpoch.value, opts.producerSeq.value);
    }
    SomeParts(Text.IsJson(s.streams[p].meta.contentType), body);
  }

  /**
   * An accepted append answers with the new tail, which lies past the old one by the size of its messages. It says
   * whether it closed the stream, and confirms the sequence number of a producer. No other stream changes.
   */
  lemma {:induction false} AcceptedAnswer(z: Kind, s: State, p: string, body: Body, opts: AppendOptions,
                                          expired: set<string>)
    requires Accepted(Append(z, s, p, body, opts, expired).1)
    ensures var (s', outcome) := Append(z, s, p, body, opts, expired);
      && p in s.streams && OnlyAt(s, s', p)
      && var st, st' := s.streams[p], s'.streams[p];
      && var numbered := HasAllProducerHeaders(opts);
      && st'.meta.currentOffset == Add(st.meta.currentOffset, Volume(z, Payload(st.meta.contentType, body)))
      && st'.meta.closed == opts.close && st'.meta.contentType == st.meta.contentType
      && outcome.result == AppendResult(
           st'.meta.currentOffset, if numbered then ProducerResult.Accepted else NoProducer, 0, 0, 0,
           if numbered then opts.producerSeq.value else 0, opts.close)
      && st'.meta.producers == if numbered then st.meta.producers[
           opts.producerId := ProducerState(opts.producerEpoch.value, opts.producerSeq.value)] else st.meta.producers
  {
    AcceptedCommit(z, s, p, body, opts, expired);
    TailIsVolume(z, s.streams[p].meta.currentOffset, Payload(s.streams[p].meta.contentType, body));
    if HasAllProducerHeaders(opts) {
      AcceptedTuple(s.streams[p].meta.producers, opts.producerId, opts.producerEpoch.value, opts.producerSeq.value);
    }
  }

  lemma {:induction false} AcceptedOpen(meta: Metadata, expired: bool, body: Body, opts: AppendOptions)
    requires AdmitAppend(meta, expired, body, opts).Admit?
    ensures !meta.softDeleted && !expired && !meta.closed
  {
  }

  /**
   * What an append wrote can be read at once: a read from the old tail returns the messages of the body, the last of
   * them at the offset the append answered with, and says that this is all. Reads from further back return what they
   * returned before, and then these messages.
   */
  lemma {:induction false} WrittenIsRead(z: Kind, s: State, p: string, body: Body, opts: AppendOptions,
                                         expired: set<string>, o: Offset)
    requires Inv(z, s) && Ordered(s.streams) && Accepted(Append(z, s, p, body, opts, expired).1)
    requires p in s.streams && o.readSeq == 0 && o.byteOffset <= s.streams[p].meta.currentOffset.byteOffset
    ensures var (s', outcome) := Append(z, s, p, body, opts, expired);
      && Ordered(s'.streams) && p in s'.streams
      && var ms := View(s'.streams, p, s.streams[p].meta.currentOffset);
      && Datas(ms) == Payload(s.streams[p].meta.contentType, body)
      && ms != [] && ms[|ms| - 1].offset == outcome.result.offset
      && View(s'.streams, p, o) == View(s.streams, p, o) + ms
      && Read(s', p, o, {}) == Ok((View(s.streams, p, o) + ms, true))
      && Read(s', p, outcome.result.offset, {}) == Ok(([], true))
  {
    AcceptedGrows(z, s, p, body, opts, expired);
    AcceptedAnswer(z, s, p, body, opts, expired);
    GrownReads(z, s, Append(z, s, p, body, opts, expired).0, p, Payload(s.streams[p].meta.contentType, body), o);
  }

  lemma {:induction false} GrownReads(z: Kind, s: State, s': State, p: string, parts: seq<Bytes>, o: Offset)
    requires Later(z, s, s') && SameGeneration(s, s', p) && parts != [] && NonEmptyParts(parts)
    requires !s'.streams[p].meta.softDeleted
    requires var tail := s.streams[p].meta.currentOffset;
      && o.readSeq == 0 && o.byteOffset <= tail.byteOffset
      && s'.streams[p].messages == s.streams[p].messages + Frame(z, tail, parts)
      && s'.streams[p].meta.currentOffset == Tail(z, tail, parts)
    ensures var ms, tail' := View(s'.streams, p, s.streams[p].meta.currentOffset), s'.streams[p].meta.currentOffset;
      && Datas(ms) == parts && ms != [] && ms[|ms| - 1].offset == tail'
      && View(s'.streams, p, o) == View(s.streams, p, o) + ms
      && Read(s', p, o, {}) == Ok((View(s.streams, p, o) + ms, true))
      && Read(s', p, tail', {}) == Ok(([], true))
  {
    var tail, tail' := s.streams[p].meta.currentOffset, s'.streams[p].meta.currentOffset;
    assert tail.readSeq == 0 by {
      assert StreamOk(z, s, p);
      ChainedBounds(z, s.streams[p].meta.forkOffset, s.streams[p].messages, tail);
    }
    ReadPast(z, s, s', p, parts, tail);
    ReadPast(z, s, s', p, parts, o);
    NothingPastTail(z, s, p);
    assert [] + Frame(z, tail, parts) == Frame(z, tail, parts);
    ReadsToTail(s', p, o);
    NothingPastTail(z, s', p);
    ReadsToTail(s', p, tail');
  }

  lemma {:induction false} AcceptedGrows(z: Kind, s: State, p: string, body: Body, opts: AppendOptions,
                                         expired: set<string>)
    requires Inv(z, s) && Ordered(s.streams) && Accepted(Append(z, s, p, body, opts, expired).1)
    ensures var s' := Append(z, s, p, body, opts, expired).0;
      && Later(z, s, s') && p in s.streams && SameGeneration(s, s', p) && !s'.streams[p].meta.softDeleted
      && var st, st' := s.streams[p], s'.streams[p];
      && var parts := Payload(st.meta.contentType, body);
      && parts != [] && NonEmptyParts(parts)
      && st'.messages == st.messages + Frame(z, st.meta.currentOffset, parts)
      && st'.meta.currentOffset == Tail(z, st.meta.currentOffset, parts)
  {
    AcceptedCommit(z, s, p, body, opts, expired);
    AcceptedOpen(s.streams[p].meta, p in expired, body, opts);
    AppendOk(z, s, p, body, opts, expired);
    GraphOrdered(Append(z, s, p, body, opts, expired).0.streams);
  }

  lemma {:induction false} ReadsToTail(s: State, p: string, o: Offset)
    requires Ordered(s.streams) && p in s.streams && !s.streams[p].meta.softDeleted
    requires Next(View(s.streams, p, o), o) == s.streams[p].meta.currentOffset
    ensures Read(s, p, o, {}) == Ok((View(s.streams, p, o), true))
  {
  }

  /** A read from an offset up to the old tail, after messages were added to the log. */
  lemma {:induction false} ReadPast(z: Kind, s: State, s': State, p: string, parts: seq<Bytes>, o: Offset)
    requires Later(z, s, s') && SameGeneration(s, s', p) && parts != [] && NonEmptyParts(parts)
    requires var tail := s.streams[p].meta.currentOffset;
      && o.readSeq == 0 && o.byteOffset <= tail.byteOffset
      && s'.streams[p].messages == s.streams[p].messages + Frame(z, tail, parts)
      && s'.streams[p].meta.currentOffset == Tail(z, tail, parts)
    ensures var tail := s.streams[p].meta.currentOffset;
      && View(s'.streams, p, o) == View(s.streams, p, o) + Frame(z, tail, parts)
      && Datas(Frame(z, tail, parts)) == parts && Frame(z, tail, parts) != []
      && Frame(z, tail, parts)[|Frame(z, tail, parts)| - 1].offset == Tail(z, tail, parts)
  {
    var tail := s.streams[p].meta.currentOffset;
    var more := Frame(z, tail, parts);
    InheritedStable(z, s, s', p, o);
    FrameChained(z, tail, parts);
    assert StreamOk(z, s, p);
    ChainedBounds(z, s.streams[p].meta.forkOffset, s.streams[p].messages, tail);
    ChainedBounds(z, tail, more, Tail(z, tail, parts));
    AfterConcat(s.streams[p].messages, more, o);
    AfterAll(more, o);
    Associative(Inherited(s.streams, p, o), After(s.streams[p].messages, o), more);
  }

  lemma {:induction false} NothingPastTail(z: Kind, s: State, p: string)
    requires Inv(z, s) && Ordered(s.streams) && p in s.streams
    ensures View(s.streams, p, s.streams[p].meta.currentOffset) == []
  {
    var tail := s.streams[p].meta.currentOffset;
    ViewBounds(z, s, p, tail);
    FirstWithin(View(s.streams, p, tail), tail.byteOffset, tail.byteOffset);
  }

  // ---- Why an append is refused ----

  /** Some of the three producer headers are there, but not all. */
  predicate Partial(opts: AppendOptions) {
    && (opts.producerId != "" || opts.producerEpoch.Some? || opts.producerSeq.Some?)
    && (opts.producerId == "" || opts.producerEpoch.None? || opts.producerSeq.None?)
  }

  /** The stream can be written to, and the request names its media type or none. */
  predicate Open(s: State, p: string, opts: AppendOptions, expired: set<string>) {
    && p in s.streams && p !in expired && !s.streams[p].meta.softDeleted && !s.streams[p].meta.closed
    && (opts.contentType == "" || Text.ContentTypeMatches(s.streams[p].meta.contentType, opts.contentType))
  }

  /** The refusals that do not depend on the producer, on the Stream-Seq or on the body. */
  lemma {:induction false} RefusedBefore(z: Kind, s: State, p: string, body: Body, opts: AppendOptions,
                                         expired: set<string>)
    ensures var (s', outcome) := Append(z, s, p, body, opts, expired);
      var there := p in s.streams && p !in expired && !s.streams[p].meta.softDeleted;
      var closing := p in s.streams && NamesCloser(s.streams[p].meta.closedBy, opts);
      && (outcome.error == Some(PartialProducer) <==> Partial(opts))
      && (outcome.error == Some(StreamSoftDeleted) <==>
        !Partial(opts) && p in s.streams && s.streams[p].meta.softDeleted)
      && (outcome.error == Some(NotFound) <==>
        !Partial(opts) && (p !in s.streams || (p in expired && !s.streams[p].meta.softDeleted)))
      && (outcome.error == Some(StreamClosed) <==>
        !Partial(opts) && there && s.streams[p].meta.closed && !closing)
      && (outcome.error == Some(ContentTypeMismatch) <==>
        !Partial(opts) && there && !s.streams[p].meta.closed && !Open(s, p, opts, expired))
      && (!Accepted(outcome) ==> s' == s)
  {
    if p in s.streams && HasAllProducerHeaders(opts) {
      AcceptedTuple(s.streams[p].meta.producers, opts.producerId, opts.producerEpoch.value, opts.producerSeq.value);
    }
  }

  /** The last accepted tuple of a producer lets this one in. */
  predicate InTurn(producers: map<string, ProducerState>, opts: AppendOptions) {
    HasAllProducerHeaders(opts) ==>
      NextOk(Find(producers, opts.producerId), opts.producerEpoch.value, opts.producerSeq.value)
  }

  /** The append reaches the point where its body is looked at. */
  predicate ReachesBody(s: State, p: string, opts: AppendOptions, expired: set<string>) {
    && !Partial(opts) && Open(s, p, opts, expired) && InTurn(s.streams[p].meta.producers, opts)
    && (opts.streamSeq == "" || Above(s.streams[p].meta.lastSeq, opts.streamSeq))
  }

  /**
   * An append is accepted exactly when its producer headers are complete or absent, the stream is there and open, the
   * media types agree, its tuple and its Stream-Seq are next, and its body is JSON with at least one value, or need
   * not be.
   */
  lemma {:induction false} AcceptedExactly(z: Kind, s: State, p: string, body: Body, opts: AppendOptions,
                                           expired: set<string>)
    ensures var outcome := Append(z, s, p, body, opts, expired).1;
      var reached := ReachesBody(s, p, opts, expired);
      var json := reached && Text.IsJson(s.streams[p].meta.contentType);
      && (Accepted(outcome) <==> reached && (json ==> body.json.Some? && body.json.value != []))
      && (outcome.error == Some(InvalidJson) <==> json && body.json.None?)
      && (outcome.error == Some(EmptyJsonArray) <==> json && body.json == Some([]))
  {
    if Partial(opts) || !Open(s, p, opts, expired) {
      RefusedBefore(z, s, p, body, opts, expired);
    } else {
      OpenAccepts(z, s, p, body, opts, expired);
    }
  }

  lemma {:induction false} OpenAccepts(z: Kind, s: State, p: string, body: Body, opts: AppendOptions,
                                       expired: set<string>)
    requires Open(s, p, opts, expired) && !Partial(opts)
    ensures var outcome, meta := Append(z, s, p, body, opts, expired).1, s.streams[p].meta;
      var reached := InTurn(meta.producers, opts) && (opts.streamSeq == "" || Above(meta.lastSeq, opts.streamSeq));
      && (Accepted(outcome) <==>
        reached && (Text.IsJson(meta.contentType) ==> body.json.Some? && body.json.value != []))
      && (outcome.error == Some(InvalidJson) <==> reached && Text.IsJson(meta.contentType) && body.json.None?)
      && (outcome.error == Some(EmptyJsonArray) <==> reached && Text.IsJson(meta.contentType) && body.json == Some([]))
  {
    NotAbove(s.streams[p].meta.lastSeq, opts.streamSeq);
    if HasAllProducerHeaders(opts) {
      AcceptedTuple(s.streams[p].meta.producers, opts.producerId, opts.producerEpoch.value, opts.producerSeq.value);
    }
  }

  // ---- What a producer is told ----

  /** What the last accepted tuple of a producer makes of another one; None when that is the next. */
  function Told(last: Option<ProducerState>, tail: Offset, epoch: int, seqNo: int): Option<Outcome> {
    var blank := BLANK_RESULT.(offset := tail);
    if NextOk(last, epoch, seqNo) then None
    else if last.Some? && epoch < last.value.epoch then
      Some(Outcome(blank.(currentEpoch := last.value.epoch), Some(StaleEpoch)))
    else if last.Some? && epoch > last.value.epoch then Some(Outcome(blank, Some(InvalidEpochSeq)))
    else if last.Some? && seqNo <= last.value.lastSeq then
      Some(Outcome(blank.(producerResult := Duplicate, lastSeq := last.value.lastSeq), None))
    else Some(Outcome(blank.(expectedSeq := NextIn(last, epoch), receivedSeq := seqNo), Some(ProducerSeqGap)))
  }

  lemma {:induction false} ToldByVerdict(producers: map<string, ProducerState>, tail: Offset, id: string, epoch: int,
                                         seqNo: int)
    ensures var v, told := ValidateProducer(producers, id, epoch, seqNo), Told(Find(producers, id), tail, epoch, seqNo);
      && (told.Some? <==> v.error.Some? || v.result.producerResult == Duplicate)
      && (told.Some? ==> Outcome(v.result.(offset := tail), v.error) == told.value)
  {
  }

  lemma {:induction false} AppendTold(z: Kind, s: State, p: string, body: Body, opts: AppendOptions,
                                      expired: set<string>)
    requires Open(s, p, opts, expired) && HasAllProducerHeaders(opts)
    ensures var told := Told(Find(s.streams[p].meta.producers, opts.producerId), s.streams[p].meta.currentOffset,
                             opts.producerEpoch.value, opts.producerSeq.value);
      told.Some? ==> Append(z, s, p, body, opts, expired) == (s, told.value)
  {
    ToldByVerdict(s.streams[p].meta.producers, s.streams[p].meta.currentOffset, opts.producerId,
                  opts.producerEpoch.value, opts.producerSeq.value);
  }

  lemma {:induction false} CloseTold(s: State, p: string, id: string, epoch: int, seqNo: int, expired: set<string>)
    requires p in s.streams && p !in expired && !s.streams[p].meta.closed
    ensures var told := Told(Find(s.streams[p].meta.producers, id), s.streams[p].meta.currentOffset, epoch, seqNo);
      told.Some? ==> CloseWithProducer(s, p, id, epoch, seqNo, expired) == (s, told.value)
  {
    ToldByVerdict(s.streams[p].meta.producers, s.streams[p].meta.currentOffset, id, epoch, seqNo);
  }

  /**
   * After any run, a producer whose append or close is not the next of its tuples is told where it stands by the last
   * tuple the run accepted from it: a newer epoch by its number, a gap by the number that was expected, a repetition by
   * the last number, all of them with the tail; and nothing changes.
   */
  lemma {:induction false} TellsTheLast(z: Kind, s: State, events: seq<Event>, p: string, body: Body,
                                        opts: AppendOptions, expired: set<string>)
    requires Inv(z, s) && p in s.streams && HasAllProducerHeaders(opts)
    requires var s' := Run(z, s, events);
      p in s'.streams && s'.streams[p].created == s.streams[p].created && Open(s', p, opts, expired)
    ensures var s' := Run(z, s, events);
      var id, epoch, seqNo := opts.producerId, opts.producerEpoch.value, opts.producerSeq.value;
      var tuples := TuplesOf(History(z, s, events, p, s.streams[p].created), id);
      var last := LastState(Find(s.streams[p].meta.producers, id), tuples);
      var told := Told(last, s'.streams[p].meta.currentOffset, epoch, seqNo);
      && (told.Some? ==>
        && Append(z, s', p, body, opts, expired) == (s', told.value)
        && CloseWithProducer(s', p, id, epoch, seqNo, expired) == (s', told.value))
      && (told.None? ==> CloseWithProducer(s', p, id, epoch, seqNo, expired).1.result.producerResult ==
                         ProducerResult.Accepted)
  {
    var s' := Run(z, s, events);
    Dedup(z, s, events, p, opts.producerId);
    AppendTold(z, s', p, body, opts, expired);
    CloseTold(s', p, opts.producerId, opts.producerEpoch.value, opts.producerSeq.value, expired);
    AcceptedTuple(s'.streams[p].meta.producers, opts.producerId, opts.producerEpoch.value, opts.producerSeq.value);
  }

  // ---- Whether a read reached the tail ----

  /** A read says that it reached the tail exactly when it ends there, or when the stream never held anything. */
  lemma {:induction false} UpToDateExact(z: Kind, s: State, p: string, o: Offset, expired: set<string>)
    requires Inv(z, s) && Ordered(s.streams) && p in s.streams && o.readSeq == 0
    requires Read(s, p, o, expired).Ok?
    ensures var (ms, upToDate) := Read(s, p, o, expired).value;
      var st := s.streams[p];
      var tail := st.meta.currentOffset;
      && ms == View(s.streams, p, o)
      && (upToDate <==> Next(ms, o) == tail || tail == ZERO_OFFSET)
      && (upToDate && o.byteOffset <= tail.byteOffset ==> View(s.streams, p, Next(ms, o)) == [])
      && (o.byteOffset <= tail.byteOffset && (st.messages != [] || st.meta.forkedFrom == "") ==> upToDate)
      && (tail.byteOffset < o.byteOffset ==> ms == [] && (upToDate <==> tail == ZERO_OFFSET))
  {
    var st, ms := s.streams[p], View(s.streams, p, o);
    var tail := st.meta.currentOffset;
    assert StreamOk(z, s, p);
    ViewBounds(z, s, p, o);
    ChainedBounds(z, st.meta.forkOffset, st.messages, tail);
    NothingPastTail(z, s, p);
    if st.messages != [] && o.byteOffset < tail.byteOffset { LastOwn(st.messages, o, tail); }
  }

  /** A log that ends past the offset ends what is read from there. */
  lemma {:induction false} LastOwn(ms: seq<Message>, o: Offset, tail: Offset)
    requires ms != [] && ms[|ms| - 1].offset == tail && o.byteOffset < tail.byteOffset
    ensures After(ms, o) != [] && After(ms, o)[|After(ms, o)| - 1].offset == tail
  {
    if |ms| > 1 { LastOwn(ms[1..], o, tail); }
  }
}
