/** The in-memory store: a map of streams changed in place by each call. */
module MemoryStores {
  import opened Wrappers
  import opened Offsets
  import opened StoreTypes
  import opened StreamStore
  import opened StoreInvariant
  import opened Logs
  import opened AppendChecks
  import ForkGraph
  import opened Framing
  import opened Resuming
  import Text

  /** Messages advance the tail by their length alone. */
  const MEMORY: Kind := Framed(0, false)

  class MemoryStore {
    var streams: Streams
    var clock: nat

    ghost function Abstract(): State
      reads this
    {
      State(streams, clock)
    }

    /** Every public call keeps this. */
    ghost predicate Valid()
      reads this
    {
      Inv(MEMORY, Abstract()) && Ordered(streams)
    }

    constructor ()
      ensures Valid() && Abstract() == EMPTY_STATE
    {
      streams, clock := map[], 0;
    }

    // ---- Reading ----

    method ReadOwnMessages(st: Stream, offset: Offset) returns (messages: seq<Message>)
      ensures messages == After(st.messages, offset)
    {
      messages := [];
      for i := 0 to |st.messages|
        invariant messages == After(st.messages[..i], offset)
      {
        AfterSnoc(st.messages, i, offset);
        if st.messages[i].offset.byteOffset > offset.byteOffset {
          messages := messages + [st.messages[i]];
        }
      }
      assert st.messages[..|st.messages|] == st.messages;
    }

    /** Reads across the fork chain, capping what each source contributes at the fork point. */
    method ReadForkedStream(path: string, offset: Offset) returns (messages: seq<Message>)
      requires Ordered(streams) && path in streams
      ensures messages == View(streams, path, offset)
      decreases streams[path].created
    {
      var st := streams[path];
      if st.meta.forkedFrom == "" {
        messages := ReadOwnMessages(st, offset);
        return;
      }
      assert Younger(streams, path);
      var inherited: seq<Message> := [];
      if LessThan(offset, st.meta.forkOffset) {
        if st.meta.forkedFrom in streams {
          var sourceMessages := ReadForkedStream(st.meta.forkedFrom, offset);
          for i := 0 to |sourceMessages|
            invariant inherited == UpTo(sourceMessages[..i], st.meta.forkOffset)
          {
            UpToSnoc(sourceMessages, i, st.meta.forkOffset);
            if LessThanOrEqual(sourceMessages[i].offset, st.meta.forkOffset) {
              inherited := inherited + [sourceMessages[i]];
            }
          }
          assert sourceMessages[..|sourceMessages|] == sourceMessages;
        }
      }
      var own := ReadOwnMessages(st, offset);
      if |inherited| == 0 { return own; }
      if |own| == 0 { return inherited; }
      messages := inherited + own;
    }

    method Read(path: string, offset: Offset, expired: set<string>)
      returns (r: Result<(seq<Message>, bool), Error>)
      requires Valid()
      modifies this`streams
      ensures Valid() && Abstract() == MarkExpired(old(Abstract()), path, expired)
      ensures r == StreamStore.Read(old(Abstract()), path, offset, expired)
    {
      ReadOk(MEMORY, Abstract(), path, expired);
      GraphOrdered(MarkExpired(Abstract(), path, expired).streams);
      if path !in streams { return Err(NotFound); }
      var st := streams[path];
      if path in expired {
        if st.meta.refCount > 0 {
          streams := streams[path := st.(meta := st.meta.(softDeleted := true))];
        }
        return Err(NotFound);
      }
      if st.meta.softDeleted { return Err(NotFound); }
      var messages := ReadForkedStream(path, offset);
      var upToDate;
      if |messages| > 0 {
        upToDate := messages[|messages| - 1].offset == st.meta.currentOffset;
      } else {
        upToDate := offset == st.meta.currentOffset || st.meta.currentOffset == ZERO_OFFSET;
      }
      return Ok((messages, upToDate));
    }

    // ---- Deleting ----

    /** Removes a stream and then every soft-deleted source whose count drops to zero. */
    method DeleteWithCascade(path: string) returns (underflow: bool)
      modifies this`streams
      ensures (streams, underflow) == Cascade(old(streams), path)
      decreases |streams.Keys|
    {
      if path !in streams { return false; }
      var forkedFrom := streams[path].meta.forkedFrom;
      ForkGraph.Shrinks(streams, path);
      streams := streams - {path};
      if forkedFrom != "" && forkedFrom in streams {
        var count := streams[forkedFrom].meta.refCount - 1;
        ghost var rest := streams;
        streams := streams[forkedFrom := WithRefCount(streams[forkedFrom], count)];
        assert streams.Keys == rest.Keys;
        if count < 0 {
          streams := streams[forkedFrom := WithRefCount(streams[forkedFrom], 0)];
          assert streams == SetRefCount(rest, forkedFrom, 0);
          return true;
        }
        if count == 0 && streams[forkedFrom].meta.softDeleted {
          underflow := DeleteWithCascade(forkedFrom);
          return;
        }
      }
      return false;
    }

    method Delete(path: string) returns (error: Option<Error>)
      requires Valid()
      modifies this`streams
      ensures Valid() && (Abstract(), error) == StreamStore.Delete(old(Abstract()), path)
      ensures error != Some(RefCountUnderflow)
    {
      DeleteOk(MEMORY, Abstract(), path);
      GraphOrdered(StreamStore.Delete(Abstract(), path).0.streams);
      if path !in streams { return Some(NotFound); }
      var st := streams[path];
      if st.meta.softDeleted { return Some(StreamSoftDeleted); }
      if st.meta.refCount > 0 {
        streams := streams[path := st.(meta := st.meta.(softDeleted := true))];
        return None;
      }
      var underflow := DeleteWithCascade(path);
      return if underflow then Some(RefCountUnderflow) else None;
    }

    // ---- Appending ----

    /** The stream with the body's messages appended; each message ends where its bytes end. */
    method AppendToStream(st: Stream, body: Body, allowEmpty: bool) returns (r: Result<Stream, Error>)
      ensures r == match Split(Text.IsJson(st.meta.contentType), body, allowEmpty)
        case Err(e) => Err(e)
        case Ok(parts) => Ok(Extend(MEMORY, st, parts))
    {
      var parts := [body.raw];
      if Text.IsJson(st.meta.contentType) {
        if body.json.None? { return Err(InvalidJson); }
        parts := body.json.value;
        if parts == [] && !allowEmpty { return Err(EmptyJsonArray); }
      }
      var messages, current := st.messages, st.meta.currentOffset;
      for i := 0 to |parts|
        invariant messages == st.messages + Frame(MEMORY, st.meta.currentOffset, parts[..i])
        invariant current == Tail(MEMORY, st.meta.currentOffset, parts[..i])
      {
        FrameSnoc(MEMORY, st.meta.currentOffset, parts, i);
        current := Add(current, |parts[i]|);
        messages := messages + [Message(parts[i], current)];
      }
      assert parts[..|parts|] == parts;
      return Ok(st.(messages := messages, meta := st.meta.(currentOffset := current)));
    }

    method Append(path: string, body: Body, opts: AppendOptions, expired: set<string>) returns (outcome: Outcome)
      requires Valid()
      modifies this`streams
      ensures Valid()
      ensures (Abstract(), outcome) == StreamStore.Append(MEMORY, old(Abstract()), path, body, opts, expired)
    {
      AppendOk(MEMORY, Abstract(), path, body, opts, expired);
      GraphOrdered(StreamStore.Append(MEMORY, Abstract(), path, body, opts, expired).0.streams);
      if HasProducerHeaders(opts) && !HasAllProducerHeaders(opts) {
        return Outcome(BLANK_RESULT, Some(PartialProducer));
      }
      if path !in streams { return Outcome(BLANK_RESULT, Some(NotFound)); }
      var st := streams[path];
      var answer, verdict := CheckAppend(st.meta, path in expired, body, opts);
      if answer.Some? { return answer.value; }
      var appended := AppendToStream(st, body, false);
      if appended.Err? { return Outcome(BLANK_RESULT, Some(appended.error)); }
      st := appended.value;
      if opts.streamSeq != "" { st := st.(meta := st.meta.(lastSeq := opts.streamSeq)); }
      if verdict.state.Some? {
        st := st.(meta := st.meta.(producers := st.meta.producers[opts.producerId := verdict.state.value]));
      }
      if opts.close {
        st := st.(meta := st.meta.(closed := true));
        if HasAllProducerHeaders(opts) {
          st := st.(meta := st.meta.(
            closedBy := Some(ClosedBy(opts.producerId, opts.producerEpoch.value, opts.producerSeq.value))));
        }
      }
      streams := streams[path := st];
      return Outcome(verdict.result.(offset := st.meta.currentOffset, streamClosed := opts.close), None);
    }

    // ---- Closing ----

    method CloseStream(path: string, expired: set<string>) returns (r: Result<(Offset, bool), Error>)
      requires Valid()
      modifies this`streams
      ensures Valid() && (Abstract(), r) == Close(old(Abstract()), path, expired)
    {
      CloseOk(MEMORY, Abstract(), path, expired);
      GraphOrdered(Close(Abstract(), path, expired).0.streams);
      if path !in streams { return Err(NotFound); }
      if path in expired { return Err(NotFound); }
      var st := streams[path];
      streams := streams[path := st.(meta := st.meta.(closed := true))];
      return Ok((st.meta.currentOffset, st.meta.closed));
    }

    method CloseStreamWithProducer(path: string, id: string, epoch: int, seqNo: int, expired: set<string>)
      returns (outcome: Outcome)
      requires Valid()
      modifies this`streams
      ensures Valid()
      ensures (Abstract(), outcome) == CloseWithProducer(old(Abstract()), path, id, epoch, seqNo, expired)
    {
      CloseWithProducerOk(MEMORY, Abstract(), path, id, epoch, seqNo, expired);
      GraphOrdered(CloseWithProducer(Abstract(), path, id, epoch, seqNo, expired).0.streams);
      if path !in streams || path in expired { return Outcome(BLANK_RESULT, Some(NotFound)); }
      var st := streams[path];
      var meta := st.meta;
      if meta.closed {
        if meta.closedBy == Some(ClosedBy(id, epoch, seqNo)) {
          return Outcome(AppendResult(meta.currentOffset, Duplicate, 0, 0, 0, seqNo, true), None);
        }
        return Outcome(BLANK_RESULT.(offset := meta.currentOffset, streamClosed := true), Some(StreamClosed));
      }
      var verdict := ValidateProducer(meta.producers, id, epoch, seqNo);
      var result := verdict.result.(offset := meta.currentOffset);
      if verdict.error.Some? { return Outcome(result, verdict.error); }
      if result.producerResult == Duplicate { return Outcome(result, None); }
      meta := meta.(producers := meta.producers[id := verdict.state.value]);
      meta := meta.(closed := true, closedBy := Some(ClosedBy(id, epoch, seqNo)));
      streams := streams[path := st.(meta := meta)];
      return Outcome(result.(streamClosed := true), None);
    }

    // ---- Creating ----

    method ResolveForkSubOffset(source: string, at: Offset, k: nat) returns (r: Result<ForkPoint, Error>)
      requires Ordered(streams) && source in streams && k > 0
      ensures r == CutInto(Text.IsJson(streams[source].meta.contentType), View(streams, source, at), at, k)
    {
      var sourceMessages := ReadForkedStream(source, at);
      if Text.IsJson(streams[source].meta.contentType) {
        if |sourceMessages| < k { return Err(InvalidForkSubOffset); }
        return Ok(ForkPoint(sourceMessages[k - 1].offset, []));
      }
      if |sourceMessages| == 0 { return Err(InvalidForkSubOffset); }
      var first := sourceMessages[0].data;
      if |first| < k { return Err(InvalidForkSubOffset); }
      return Ok(ForkPoint(at, first[..k]));
    }

    /** Creates a stream, or answers for the one already there; a fork takes a reference on its source. */
    method Create(path: string, opts: CreateOptions, expired: set<string>) returns (r: Result<bool, Error>)
      requires Valid()
      modifies this`streams, this`clock
      ensures Valid()
      ensures (Abstract(), r) == StreamStore.Create(MEMORY, old(Abstract()), path, opts, expired)
      ensures r != Err(RefCountUnderflow)
    {
      ghost var before := Abstract();
      CreateOk(MEMORY, before, path, opts, expired);
      GraphOrdered(StreamStore.Create(MEMORY, before, path, opts, expired).0.streams);
      if path in streams {
        var existing := streams[path];
        if path in expired {
          if existing.meta.refCount > 0 {
            streams := streams[path := existing.(meta := existing.meta.(softDeleted := true))];
            return Err(Exists);
          }
          var underflow := DeleteWithCascade(path);
          if underflow { return Err(RefCountUnderflow); }
        } else if existing.meta.softDeleted {
          return Err(Exists);
        } else if ConfigMatches(existing.meta, opts) {
          return Ok(false);
        } else {
          return Err(ConfigMismatch);
        }
      }
      ghost var reclaimed := Abstract();
      assert reclaimed.streams == Reclaim(before.streams, path, opts, expired).0;
      r := CreateFresh(path, opts, expired);
    }

    /** Checks what a fork asks of its source and resolves where it is cut. */
    method ResolveForkPoint(opts: CreateOptions, expired: set<string>) returns (r: Result<ForkPoint, Error>)
      requires Ordered(streams)
      ensures r == ResolveFork(streams, opts, expired)
    {
      if opts.forkedFrom !in streams { return Err(NotFound); }
      var source := streams[opts.forkedFrom].meta;
      if source.softDeleted { return Err(StreamSoftDeleted); }
      if opts.forkedFrom in expired { return Err(NotFound); }
      if opts.contentType != "" && !Text.EqualFold(opts.contentType, source.contentType) {
        return Err(ContentTypeMismatch);
      }
      var at := match opts.forkOffset case Some(o) => o case None => source.currentOffset;
      if LessThan(at, ZERO_OFFSET) || LessThan(source.currentOffset, at) { return Err(InvalidForkOffset); }
      if opts.forkSubOffset.Some? && opts.forkSubOffset.value > 0 {
        r := ResolveForkSubOffset(opts.forkedFrom, at, opts.forkSubOffset.value);
        return;
      }
      return Ok(ForkPoint(at, []));
    }

    /** The new stream's record, with a prefix as its first message and then the initial data. */
    method BuildStream(meta: Metadata, prefix: Bytes, initial: Option<Body>) returns (r: Result<Stream, Error>)
      ensures r == Initialise(MEMORY, Blank(MEMORY, meta, prefix, clock), initial)
    {
      var st := Stream(meta, [], clock);
      if |prefix| > 0 {
        var end := Add(st.meta.currentOffset, |prefix|);
        OnePart(MEMORY, st.meta.currentOffset, prefix);
        st := st.(messages := [Message(prefix, end)], meta := st.meta.(currentOffset := end));
      }
      assert st == Blank(MEMORY, meta, prefix, clock);
      if initial.Some? {
        r := AppendToStream(st, initial.value, true);
        return;
      }
      return Ok(st);
    }

    /** The second half of Create, at a path that holds no stream. */
    method CreateFresh(path: string, opts: CreateOptions, expired: set<string>) returns (r: Result<bool, Error>)
      requires Ordered(streams) && path !in streams
      modifies this`streams, this`clock
      ensures (Abstract(), r) == Launch(MEMORY, old(Abstract()), path, opts, expired)
    {
      var meta := RootMeta(opts);
      var prefix: Bytes := [];
      if opts.forkedFrom != "" {
        var fork := ResolveForkPoint(opts, expired);
        if fork.Err? { return Err(fork.error); }
        var source := streams[opts.forkedFrom].meta;
        meta, prefix := ForkMeta(opts, source, fork.value.offset), fork.value.prefix;
        streams := SetRefCount(streams, opts.forkedFrom, source.refCount + 1);
      }
      var built := BuildStream(meta, prefix, opts.initialData);
      if built.Err? {
        if opts.forkedFrom != "" {
          streams := SetRefCount(streams, opts.forkedFrom, streams[opts.forkedFrom].meta.refCount - 1);
          assert streams == old(streams);
        }
        return Err(built.error);
      }
      BuiltLinks(meta, prefix, clock, opts.initialData);
      streams := streams[path := built.value];
      clock := clock + 1;
      return Ok(true);
    }
  }

  lemma {:induction false} BuiltLinks(meta: Metadata, prefix: Bytes, stamp: nat, initial: Option<Body>)
    ensures var r := Initialise(MEMORY, Blank(MEMORY, meta, prefix, stamp), initial);
      r.Ok? ==> r.value.meta.forkedFrom == meta.forkedFrom
  {
  }
}
