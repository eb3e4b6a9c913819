/**
 * The Stream-Seqs that writers give to appends: over any run, on one generation of a stream, they strictly increase.
 */
module StreamSequences {
  import opened Wrappers
  import opened StoreTypes
  import opened StreamStore
  import opened StoreInvariant
  import opened Untouched
  import opened ProducerDedup
  import Text

  /** `seqNo` may follow `last`: there is none before it, or it lies above that in byte order. */
  predicate Above(last: string, seqNo: string) {
    last == "" || Text.Less(last, seqNo)
  }

  lemma {:induction false} NotAbove(last: string, seqNo: string)
    ensures Above(last, seqNo) <==> !(last != "" && Text.LessOrEqual(seqNo, last))
  {
    Text.LessTotal(last, seqNo);
    if Text.Less(last, seqNo) && Text.Less(seqNo, last) { Text.LessTransitive(last, seqNo, last); }
    Text.LessIrreflexive(last);
  }

  // ---- Appends that changed the log ----

  /** The Stream-Seq of an append to `p`; none for any other call. */
  function SeqOf(e: Event, p: string): string {
    if e.op.AppendOp? && e.op.path == p then e.op.append.streamSeq else ""
  }

  /** The call adds messages to the generation stamped `created` of `p`. */
  ghost predicate Grows(z: Kind, s: State, e: Event, p: string, created: nat)
    requires Ordered(s.streams)
  {
    var s' := Step(z, s, e);
    && p in s.streams && s.streams[p].created == created
    && p in s'.streams && s'.streams[p].created == created && s'.streams[p].messages != s.streams[p].messages
  }

  /** The Stream-Seqs of all calls of a run that added messages to this generation, in order. */
  ghost function Seqs(z: Kind, s: State, events: seq<Event>, p: string, created: nat): seq<string>
    requires Inv(z, s)
    decreases events
  {
    if events == [] then []
    else
      GraphOrdered(s.streams);
      StepOk(z, s, events[0]);
      var rest := Seqs(z, Step(z, s, events[0]), events[1..], p, created);
      if Grows(z, s, events[0], p, created) && SeqOf(events[0], p) != "" then [SeqOf(events[0], p)] + rest else rest
  }

  /** Each text lies above the one before it. */
  predicate Ascending(last: string, seqs: seq<string>)
    decreases seqs
  {
    seqs == [] || (Above(last, seqs[0]) && Ascending(seqs[0], seqs[1..]))
  }

  function LastOf(last: string, seqs: seq<string>): string {
    if seqs == [] then last else seqs[|seqs| - 1]
  }

  /** An append either adds messages, and then its Stream-Seq is taken over, or leaves the stream alone. */
  lemma {:induction false} AppendSeq(z: Kind, s: State, e: Event, p: string)
    requires Ordered(s.streams) && p in s.streams && e.op.AppendOp? && e.op.path == p
    ensures var st, st' := s.streams[p], Step(z, s, e).streams[p];
      && p in Step(z, s, e).streams && st'.created == st.created
      && (st'.messages == st.messages ==> st' == st)
      && (st'.messages != st.messages && SeqOf(e, p) == "" ==> st'.meta.lastSeq == st.meta.lastSeq)
      && (st'.messages != st.messages && SeqOf(e, p) != "" ==>
        st'.meta.lastSeq == SeqOf(e, p) && Above(st.meta.lastSeq, SeqOf(e, p)))
  {
    var st, opts := s.streams[p], e.op.append;
    if HasProducerHeaders(opts) && !HasAllProducerHeaders(opts) { return; }
    match AdmitAppend(st.meta, p in e.expired, e.op.body, opts) {
      case Answer(_) =>
      case Admit(parts, verdict) =>
        AdmittedSeq(st.meta, p in e.expired, e.op.body, opts);
        CommitSeq(z, st, parts, opts, verdict.state);
    }
  }

  lemma {:induction false} AdmittedSeq(meta: Metadata, expired: bool, body: Body, opts: AppendOptions)
    requires AdmitAppend(meta, expired, body, opts).Admit?
    ensures AdmitAppend(meta, expired, body, opts).parts != []
    ensures opts.streamSeq == "" || Above(meta.lastSeq, opts.streamSeq)
  {
    NotAbove(meta.lastSeq, opts.streamSeq);
    SomeParts(Text.IsJson(meta.contentType), body);
  }

  lemma {:induction false} CommitSeq(z: Kind, st: Stream, parts: seq<Bytes>, opts: AppendOptions,
                                     state: Option<ProducerState>)
    requires parts != [] && NonEmptyParts(parts)
    ensures var st' := Commit(z, st, parts, opts, state);
      && st'.created == st.created && st'.messages != st.messages
      && st'.meta.lastSeq == if opts.streamSeq != "" then opts.streamSeq else st.meta.lastSeq
  {
    CommitContent(z, st, parts, opts, state);
    assert ContentOf(Commit(z, st, parts, opts, state)).data == ContentOf(st).data + parts;
  }

  /** A body that an append may carry becomes one message at least. */
  lemma {:induction false} SomeParts(isJson: bool, body: Body)
    ensures Split(isJson, body, false).Ok? ==> Split(isJson, body, false).value != []
  {
  }

  lemma {:induction false} StepSeq(z: Kind, s: State, e: Event, p: string)
    requires Inv(z, s) && Ordered(s.streams) && p in s.streams && p in Step(z, s, e).streams
    requires Step(z, s, e).streams[p].created == s.streams[p].created
    ensures var last, seqNo := s.streams[p].meta.lastSeq, SeqOf(e, p);
      if Grows(z, s, e, p, s.streams[p].created) && seqNo != ""
      then Above(last, seqNo) && Step(z, s, e).streams[p].meta.lastSeq == seqNo
      else Step(z, s, e).streams[p].meta.lastSeq == last
  {
    if e.op.AppendOp? && e.op.path == p {
      AppendSeq(z, s, e, p);
    } else if !Writes(e, p) {
      StepSame(z, s, e, p);
    }
  }

  /**
   * Over any run, on a generation that survives it, the Stream-Seqs of the appends that added messages strictly
   * increase in byte order from the one the stream had, and the stream keeps the last of them.
   */
  lemma {:induction false} SeqsAscend(z: Kind, s: State, events: seq<Event>, p: string)
    requires Inv(z, s) && p in s.streams
    requires p in Run(z, s, events).streams && Run(z, s, events).streams[p].created == s.streams[p].created
    ensures var last, seqs := s.streams[p].meta.lastSeq, Seqs(z, s, events, p, s.streams[p].created);
      Ascending(last, seqs) && Run(z, s, events).streams[p].meta.lastSeq == LastOf(last, seqs)
    decreases events
  {
    if events != [] {
      GraphOrdered(s.streams);
      StepOk(z, s, events[0]);
      var s1 := Step(z, s, events[0]);
      ThereAllAlong(z, s, s1, Run(z, s1, events[1..]), p);
      StepSeq(z, s, events[0], p);
      SeqsAscend(z, s1, events[1..], p);
      var rest := Seqs(z, s1, events[1..], p, s.streams[p].created);
      assert ([SeqOf(events[0], p)] + rest)[1..] == rest;
    }
  }

  /** Ascending means strictly increasing, however far apart. */
  lemma {:induction false} AscendingIncreases(last: string, seqs: seq<string>, i: nat, j: nat)
    requires Ascending(last, seqs) && i < j < |seqs| && seqs[i] != ""
    ensures Text.Less(seqs[i], seqs[j])
    decreases seqs
  {
    if i > 0 {
      AscendingIncreases(seqs[0], seqs[1..], i - 1, j - 1);
    } else if j > 1 {
      NeverEmpty(seqs[0], seqs[1]);
      AscendingIncreases(seqs[0], seqs[1..], 0, j - 1);
      Text.LessTransitive(seqs[0], seqs[1], seqs[j]);
    }
  }

  lemma {:induction false} NeverEmpty(a: string, b: string)
    requires Text.Less(a, b)
    ensures b != ""
  {
  }

  // ---- Refusals ----

  /** What the append would be answered without its Stream-Seq shows that it passed the checks before that one. */
  predicate Passed(outcome: Outcome) {
    match outcome.error
    case None => outcome.result.producerResult != Duplicate
    case Some(e) => e == InvalidJson || e == EmptyJsonArray
  }

  function Unnumbered(opts: AppendOptions): AppendOptions {
    opts.(streamSeq := "")
  }

  lemma {:induction false} ConflictExact(z: Kind, s: State, p: string, body: Body, opts: AppendOptions,
                                         expired: set<string>)
    ensures var (s0, plain) := Append(z, s, p, body, Unnumbered(opts), expired);
      var (s1, outcome) := Append(z, s, p, body, opts, expired);
      && (!Passed(plain) ==> (s1, outcome) == (s0, plain))
      && (Passed(plain) ==> p in s.streams)
      && (Passed(plain) && opts.streamSeq != "" && !Above(s.streams[p].meta.lastSeq, opts.streamSeq) ==>
        (s1, outcome) == (s, Outcome(BLANK_RESULT, Some(SequenceConflict))))
      && (Passed(plain) && (opts.streamSeq == "" || Above(s.streams[p].meta.lastSeq, opts.streamSeq)) ==>
        outcome == plain)
  {
    if p in s.streams {
      NotAbove(s.streams[p].meta.lastSeq, opts.streamSeq);
      SameVerdict(s.streams[p].meta, opts);
      if HasAllProducerHeaders(opts) {
        AcceptedTuple(s.streams[p].meta.producers, opts.producerId, opts.producerEpoch.value, opts.producerSeq.value);
      }
    }
  }

  lemma {:induction false} SameVerdict(meta: Metadata, opts: AppendOptions)
    ensures AppendVerdict(meta, Unnumbered(opts)) == AppendVerdict(meta, opts)
    ensures HasProducerHeaders(Unnumbered(opts)) == HasProducerHeaders(opts)
    ensures HasAllProducerHeaders(Unnumbered(opts)) == HasAllProducerHeaders(opts)
  {
  }

  /**
   * After any run, an append with a Stream-Seq that passes the checks before that of its Stream-Seq is answered with a
   * conflict, and changes nothing, exactly when its Stream-Seq is not above that of the last append that added messages
   * and carried one.
   */
  lemma {:induction false} ConflictAfterRun(z: Kind, s: State, events: seq<Event>, p: string, body: Body,
                                            opts: AppendOptions, expired: set<string>)
    requires Inv(z, s) && p in s.streams && opts.streamSeq != ""
    requires p in Run(z, s, events).streams && Run(z, s, events).streams[p].created == s.streams[p].created
    requires Passed(Append(z, Run(z, s, events), p, body, Unnumbered(opts), expired).1)
    ensures var s' := Run(z, s, events);
      var last := LastOf(s.streams[p].meta.lastSeq, Seqs(z, s, events, p, s.streams[p].created));
      var r := Append(z, s', p, body, opts, expired);
      && (r.1.error == Some(SequenceConflict) <==> !Above(last, opts.streamSeq))
      && (r.1.error == Some(SequenceConflict) ==> r == (s', Outcome(BLANK_RESULT, Some(SequenceConflict))))
  {
    SeqsAscend(z, s, events, p);
    ConflictExact(z, Run(z, s, events), p, body, opts, expired);
  }
}
