/** The checks both stores run on an append before they touch the log. */
module AppendChecks {
  import opened Wrappers
  import opened StoreTypes
  import opened StreamStore
  import Text

  /** What becomes of an append that passed the checks. */
  function Admitted(meta: Metadata, body: Body, verdict: Verdict): Admission {
    match Split(Text.IsJson(meta.contentType), body, false)
    case Err(e) => Answer(Outcome(BLANK_RESULT, Some(e)))
    case Ok(parts) => Admit(parts, verdict)
  }

  /** An answer without effect, or none when the body may be split and committed. */
  method CheckAppend(meta: Metadata, expired: bool, body: Body, opts: AppendOptions)
    returns (answer: Option<Outcome>, verdict: Verdict)
    ensures answer.Some? ==> AdmitAppend(meta, expired, body, opts) == Answer(answer.value)
    ensures answer.None? ==> verdict == AppendVerdict(meta, opts)
    ensures answer.None? ==> AdmitAppend(meta, expired, body, opts) == Admitted(meta, body, verdict)
    ensures answer.None? ==> !meta.closed && (verdict.state.Some? ==> HasAllProducerHeaders(opts))
  {
    verdict := Verdict(BLANK_RESULT, None, None);
    if meta.softDeleted { return Some(Outcome(BLANK_RESULT, Some(StreamSoftDeleted))), verdict; }
    if expired { return Some(Outcome(BLANK_RESULT, Some(NotFound))), verdict; }
    if meta.closed {
      if HasAllProducerHeaders(opts) && meta.closedBy.Some?
        && meta.closedBy.value.producerId == opts.producerId
        && meta.closedBy.value.epoch == opts.producerEpoch.value
        && meta.closedBy.value.seqNo == opts.producerSeq.value
      {
        var result := AppendResult(meta.currentOffset, Duplicate, 0, 0, 0, opts.producerSeq.value, true);
        return Some(Outcome(result, None)), verdict;
      }
      var closed := BLANK_RESULT.(offset := meta.currentOffset, streamClosed := true);
      return Some(Outcome(closed, Some(StreamClosed))), verdict;
    }
    if opts.contentType != "" && !Text.ContentTypeMatches(meta.contentType, opts.contentType) {
      return Some(Outcome(BLANK_RESULT, Some(ContentTypeMismatch))), verdict;
    }
    if HasAllProducerHeaders(opts) {
      verdict := ValidateProducer(meta.producers, opts.producerId, opts.producerEpoch.value, opts.producerSeq.value);
      if verdict.error.Some? {
        return Some(Outcome(verdict.result.(offset := meta.currentOffset), verdict.error)), verdict;
      }
      if verdict.result.producerResult == Duplicate {
        var result := BLANK_RESULT.(offset := meta.currentOffset, producerResult := Duplicate,
                                    lastSeq := verdict.result.lastSeq);
        return Some(Outcome(result, None)), verdict;
      }
    }
    if opts.streamSeq != "" && meta.lastSeq != "" && Text.LessOrEqual(opts.streamSeq, meta.lastSeq) {
      return Some(Outcome(BLANK_RESULT, Some(SequenceConflict))), verdict;
    }
    return None, verdict;
  }
}
