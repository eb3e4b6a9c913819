/** The file store: cached metadata, segment files and durable records, changed step by step. */
module FileStores {
  import opened Wrappers
  import opened Offsets
  import opened StoreTypes
  import opened StreamStore
  import opened Logs
  import opened Framing
  import opened StoreInvariant
  import opened AppendChecks
  import opened BboltStores
  import opened FileLayouts
  import opened ChainReads
  import opened FileCreation
  import opened FileRecovery
  import ForkGraph
  import Resuming
  import Segments
  import Text

  class FileStore {
    var metaCache: map<string, Metadata>
    var dirCache: map<string, string>
    var files: map<string, Bytes>
    const metaStore: BboltMetadataStore

    /** The state of streams and messages that the caches, files and records stand for. */
    ghost var model: State

    ghost function Layout(): FileLayouts.Layout
      reads this, metaStore
    {
      FileLayouts.Layout(metaCache, dirCache, files, metaStore.records)
    }

    /**
     * Every public call keeps this: the reachable-state invariant, and write-through agreement of the
     * cache, the segments and the durable records.
     */
    ghost predicate Valid()
      reads this, metaStore
    {
      Inv(FILE, model) && Ordered(model.streams) && Stored(Layout(), model)
    }

    /** A store over existing records and files, with nothing loaded yet. */
    constructor (store: BboltMetadataStore, disk: map<string, Bytes>)
      ensures metaStore == store && files == disk && metaCache == map[] && dirCache == map[]
      ensures model == EMPTY_STATE && (store.records == map[] ==> Valid())
    {
      metaCache, dirCache, files := map[], map[], disk;
      metaStore := store;
      model := EMPTY_STATE;
    }

    // ---- Starting ----

    method LoadCache() returns (ok: bool)
      requires metaCache == map[] && dirCache == map[] && Named(metaStore.records)
      modifies this`metaCache, this`dirCache
      ensures ok <==> Readable(metaStore.records)
      ensures ok ==> metaCache == LoadedMetas(metaStore.records) && dirCache == LoadedDirs(metaStore.records)
    {
      var todo := metaStore.records.Keys;
      while todo != {}
        invariant todo <= metaStore.records.Keys
        invariant metaCache.Keys == dirCache.Keys == metaStore.records.Keys - todo
        invariant forall p {:trigger LoadedAt(metaStore.records, metaCache, dirCache, p)} ::
          p in metaCache ==> LoadedAt(metaStore.records, metaCache, dirCache, p)
        decreases todo
      {
        var path :| path in todo;
        var rec := metaStore.records[path];
        assert NamedAt(metaStore.records, path);
        var meta := DecodeRecord(rec);
        if meta.Err? {
          assert !Decodes(metaStore.records, path);
          return false;
        }
        ghost var metas, dirs := metaCache, dirCache;
        metaCache := metaCache[rec.path := meta.value];
        dirCache := dirCache[rec.path := rec.directoryName];
        forall p | p in metaCache ensures LoadedAt(metaStore.records, metaCache, dirCache, p) {
          if p != path { assert LoadedAt(metaStore.records, metas, dirs, p); }
        }
        todo := todo - {path};
      }
      AllLoaded(metaStore.records, metaCache, dirCache);
      return true;
    }

    /** Makes the loaded forks decide every reference count, in the cache and in the records. */
    method ReconcileRefCounts()
      requires metaCache.Keys == dirCache.Keys == metaStore.records.Keys
      modifies this`metaCache, metaStore
      ensures metaCache == Repaired(old(metaCache))
      ensures metaStore.records == RepairedRecords(old(metaStore.records), old(metaCache), dirCache)
    {
      ghost var loaded, records := metaCache, metaStore.records;
      var counts := CountForks(metaCache);
      var todo := metaCache.Keys;
      while todo != {}
        invariant todo <= loaded.Keys
        invariant RepairedBut(loaded, records, dirCache, todo, metaCache, metaStore.records)
        decreases todo
      {
        var path :| path in todo;
        assert CountRight(counts, loaded, loaded.Keys, path);
        RepairStep(loaded, records, dirCache, todo, metaCache, metaStore.records, path);
        RepairOne(path, CountOf(counts, path));
        todo := todo - {path};
      }
      RepairComplete(loaded, records, dirCache, metaCache, metaStore.records);
    }

    method RepairOne(path: string, want: int)
      requires path in metaCache && path in dirCache && path in metaStore.records
      modifies this`metaCache, metaStore
      ensures metaCache == old(metaCache)[path := old(metaCache)[path].(refCount := want)]
      ensures metaStore.records == old(metaStore.records)[path :=
        if old(metaCache)[path].refCount == want then old(metaStore.records)[path]
        else EncodeRecord(path, metaCache[path], dirCache[path])]
    {
      var meta := metaCache[path];
      if meta.refCount != want {
        meta := meta.(refCount := want);
        metaCache := metaCache[path := meta];
        metaStore.Put(path, meta, dirCache[path]);
      }
    }

    /** Opens a store: loads the records and repairs the counts; a record that cannot be decoded stops it. */
    method Start() returns (ok: bool)
      requires metaCache == map[] && dirCache == map[] && Named(metaStore.records)
      modifies this`metaCache, this`dirCache, metaStore
      ensures ok <==> Readable(old(metaStore.records))
      ensures ok ==> Started(old(metaStore.records), Layout()) && files == old(files)
    {
      ok := LoadCache();
      if ok { RepairLoaded(metaStore.records); }
    }

    method RepairLoaded(ghost records: Records)
      requires Readable(records) && metaStore.records == records
      requires metaCache == LoadedMetas(records) && dirCache == LoadedDirs(records)
      modifies this`metaCache, metaStore
      ensures Started(records, Layout())
    {
      LoadedKeys(records);
      ReconcileRefCounts();
    }

    /** Reopening after an orderly run rebuilds the store as it was, but for fractions of a second of expiry. */
    method Reopen(ghost l: FileLayouts.Layout, ghost s: State) returns (ok: bool)
      requires metaCache == map[] && dirCache == map[]
      requires Orderly(l, s)
      requires l.records == metaStore.records && l.files == files
      modifies this`metaCache, this`dirCache, this`model, metaStore
      ensures ok && Valid() && model == Reopened(s)
      ensures metaStore.records == old(metaStore.records)
    {
      StoredRecords(l, s);
      KeyedNamed(l.records);
      ok := Start();
      StartedClean(l, s, Layout());
      Adopt(Reopened(s));
    }

    /** Takes a state that is laid out here as the state this store stands for. */
    ghost method Adopt(s: State)
      requires Inv(FILE, s) && Ordered(s.streams) && Stored(Layout(), s)
      modifies this`model
      ensures Valid() && model == s
    {
      model := s;
    }

    // ---- Reading ----

    method ReadFromSegment(dir: string, offset: Offset) returns (r: Result<seq<Message>, Error>)
      requires dir in files
      ensures r == SegmentAt(files[dir], offset)
    {
      var reader := new Segments.SegmentFile.Open(files[dir]);
      var messages, _, error := reader.ReadMessages(offset);
      return if error.None? then Ok(messages) else Err(SegmentUnreadable);
    }

    /** A fork's own messages: its segment's physical positions start at zero and are moved to logical offsets. */
    method ReadOwnSegment(path: string, offset: Offset) returns (r: Result<seq<Message>, Error>)
      requires Valid() && path in model.streams
      ensures AllFit(model.streams)
      ensures r == OwnAt(SegmentOf(model.streams, path), model.streams[path].meta.forkOffset, offset)
    {
      SegmentStored(Layout(), model, path);
      r := ReadShifted(dirCache[path], metaCache[path].forkOffset, offset);
    }

    method ReadShifted(dirName: string, forkOffset: Offset, offset: Offset) returns (r: Result<seq<Message>, Error>)
      requires dirName in files
      ensures r == OwnAt(files[dirName], forkOffset, offset)
    {
      var readOwnOffset := offset;
      if LessThan(readOwnOffset, forkOffset) { readOwnOffset := forkOffset; }
      if readOwnOffset.byteOffset < forkOffset.byteOffset { return Err(SegmentUnreadable); }
      var physicalOffset := Offset(readOwnOffset.readSeq, readOwnOffset.byteOffset - forkOffset.byteOffset);
      var raw := ReadFromSegment(dirName, physicalOffset);
      if raw.Err? { return raw; }
      var own := Translate(raw.value, forkOffset.byteOffset);
      return Ok(own);
    }

    /** What the source chain contributes to a fork, capped at the fork point. */
    method ReadInherited(path: string, offset: Offset) returns (r: Result<seq<Message>, Error>)
      requires Valid() && path in model.streams
      ensures AllFit(model.streams) && r == SourceRead(model.streams, path, offset)
      decreases model.streams[path].created, 0
    {
      SegmentsStored(Layout(), model);
      assert Entry(Layout(), model, path) && Younger(model.streams, path);
      var meta := metaCache[path];
      if meta.forkedFrom == "" || !LessThan(offset, meta.forkOffset) || meta.forkedFrom !in metaCache {
        return Ok([]);
      }
      var source := ReadForkedStream(meta.forkedFrom, offset);
      if source.Err? { return source; }
      var kept := CapAt(source.value, meta.forkOffset);
      return Ok(kept);
    }

    /** Reads across the fork chain: what the sources contribute, then the stream's own segment. */
    method ReadForkedStream(path: string, offset: Offset) returns (r: Result<seq<Message>, Error>)
      requires Valid() && path in model.streams
      ensures AllFit(model.streams) && r == ChainRead(model.streams, path, offset)
      decreases model.streams[path].created, 1
    {
      SegmentsStored(Layout(), model);
      assert Entry(Layout(), model, path);
      if metaCache[path].forkedFrom == "" {
        r := ReadFromSegment(dirCache[path], offset);
        return;
      }
      var inherited := ReadInherited(path, offset);
      if inherited.Err? { return inherited; }
      var own := ReadOwnSegment(path, offset);
      if own.Err? { return own; }
      if |inherited.value| == 0 { assert [] + own.value == own.value; return own; }
      if |own.value| == 0 { assert inherited.value + [] == inherited.value; return inherited; }
      return Ok(inherited.value + own.value);
    }

    /**
     * A read leaves the store as it is; an expired stream is not marked here. From a boundary it is the specified
     * read, and from any other offset it starts in the middle of a frame.
     */
    method Read(path: string, offset: Offset, expired: set<string>) returns (r: Result<(seq<Message>, bool), Error>)
      requires Valid()
      ensures AllFit(model.streams) && r == FileRead(model.streams, path, offset, expired)
      ensures AsksBoundary(model.streams, path, offset) ==> r == StreamStore.Read(model, path, offset, expired)
    {
      SegmentsStored(Layout(), model);
      FileReadAtBoundary(model, path, offset, expired);
      if path !in metaCache { return Err(NotFound); }
      assert Entry(Layout(), model, path);
      if path in expired { return Err(NotFound); }
      if metaCache[path].softDeleted { return Err(NotFound); }
      if Compare(offset, metaCache[path].currentOffset) == 0 { return Ok(([], true)); }
      r := ReadMessages(path, offset);
    }

    method ReadMessages(path: string, offset: Offset) returns (r: Result<(seq<Message>, bool), Error>)
      requires Valid() && path in model.streams
      ensures AllFit(model.streams)
      ensures r == Answered(ChainRead(model.streams, path, offset), model.streams[path].meta, offset)
    {
      assert Entry(Layout(), model, path);
      var read := ReadForkedStream(path, offset);
      if read.Err? { return Err(read.error); }
      var messages, tail := read.value, metaCache[path].currentOffset;
      var upToDate;
      if |messages| > 0 {
        upToDate := messages[|messages| - 1].offset == tail;
      } else {
        upToDate := offset == tail || tail == ZERO_OFFSET;
      }
      return Ok((messages, upToDate));
    }

    // ---- Appending ----

    /**
     * Writes the body's messages to the segment. A message over the size limit stops the writing and leaves the
     * frames before it in the file, although the append is refused.
     */
    method AppendToStream(meta: Metadata, dir: string, body: Body, allowEmpty: bool) returns (r: Result<Offset, Error>)
      requires dir in files
      modifies this`files
      ensures match Split(Text.IsJson(meta.contentType), body, allowEmpty)
        case Err(e) => r == Err(e) && files == old(files)
        case Ok(parts) =>
          && files == old(files)[dir := old(files)[dir] + Segments.EncodeAll(parts[..Segments.Fitting(parts)])]
          && r == if Segments.Fits(parts) then Ok(Tail(FILE, meta.currentOffset, parts)) else Err(MessageTooLarge)
    {
      var parts := [body.raw];
      if Text.IsJson(meta.contentType) {
        if body.json.None? { return Err(InvalidJson); }
        parts := body.json.value;
        if parts == [] && !allowEmpty { return Err(EmptyJsonArray); }
      }
      var file := new Segments.SegmentFile.Open(files[dir]);
      var end := WriteMessages(file, parts, meta.currentOffset);
      files := files[dir := file.bytes];
      return if end.Some? then Ok(end.value) else Err(MessageTooLarge);
    }

    /** The durable half of an append: one transaction, whose result is the record of the committed stream. */
    method Persist(path: string, meta: Metadata, opts: AppendOptions, state: Option<ProducerState>)
      requires path in metaStore.records
      modifies metaStore
      ensures metaStore.records == old(metaStore.records)[path :=
        if state.Some? || opts.close
        then WithAppendState(old(metaStore.records)[path], meta.currentOffset, opts.streamSeq, opts.producerId, state,
                             opts.close, meta.closedBy)
        else WithOffset(old(metaStore.records)[path], meta.currentOffset, opts.streamSeq)]
    {
      if state.Some? || opts.close {
        var _ := metaStore.UpdateAppendState(path, meta.currentOffset, opts.streamSeq, opts.producerId, state,
                                             opts.close, meta.closedBy);
      } else {
        var _ := metaStore.UpdateOffset(path, meta.currentOffset, opts.streamSeq);
      }
    }

    /**
     * Appends as specified, but for a body with a message over the size limit. That append is refused and changes no
     * metadata; the frames of the messages before the large one stay in the segment, which from then on is not the
     * encoding of the stream's messages.
     */
    method Append(path: string, body: Body, opts: AppendOptions, expired: set<string>) returns (outcome: Outcome)
      requires Valid()
      modifies this`metaCache, this`files, this`model, metaStore
      ensures var large := TooLarge(old(model), path, body, opts, expired);
        match large
        case None => Valid() && (model, outcome) == StreamStore.Append(FILE, old(model), path, body, opts, expired)
        case Some(parts) => model == old(model) && LeftBehind(old(Layout()), model, path, parts, Layout(), outcome)
    {
      AppendOk(FILE, model, path, body, opts, expired);
      GraphOrdered(StreamStore.Append(FILE, model, path, body, opts, expired).0.streams);
      if HasProducerHeaders(opts) && !HasAllProducerHeaders(opts) {
        return Outcome(BLANK_RESULT, Some(PartialProducer));
      }
      if path !in metaCache { return Outcome(BLANK_RESULT, Some(NotFound)); }
      assert Entry(Layout(), model, path);
      var meta, dirName := metaCache[path], dirCache[path];
      var answer, verdict := CheckAppend(meta, path in expired, body, opts);
      if answer.Some? { return answer.value; }
      outcome := CommitAppend(path, body, opts, verdict);
    }

    /** The metadata after an append whose last message ends at `tail`. */
    method Advance(meta: Metadata, tail: Offset, opts: AppendOptions, state: Option<ProducerState>, ghost st: Stream,
                   ghost parts: seq<Bytes>)
      returns (r: Metadata)
      requires meta == st.meta && tail == Tail(FILE, meta.currentOffset, parts)
      ensures r == Commit(FILE, st, parts, opts, state).meta
    {
      r := meta.(currentOffset := tail);
      if opts.streamSeq != "" { r := r.(lastSeq := opts.streamSeq); }
      if state.Some? { r := r.(producers := r.producers[opts.producerId := state.value]); }
      if opts.close {
        r := r.(closed := true);
        if HasAllProducerHeaders(opts) {
          r := r.(closedBy := Some(ClosedBy(opts.producerId, opts.producerEpoch.value, opts.producerSeq.value)));
        }
      }
    }

    /** Caches and persists the metadata of an append whose messages are in the segment already. */
    method Record(path: string, meta: Metadata, opts: AppendOptions, state: Option<ProducerState>,
                  ghost before: FileLayouts.Layout, ghost parts: seq<Bytes>)
      requires Stored(before, model) && path in model.streams && NonEmptyParts(parts) && Segments.Fits(parts)
      requires state.Some? ==> HasAllProducerHeaders(opts)
      requires meta == Commit(FILE, model.streams[path], parts, opts, state).meta
      requires path in before.dirs && before.dirs[path] in before.files
      requires Layout() == before.(files := before.files[before.dirs[path] :=
        before.files[before.dirs[path]] + Segments.EncodeAll(parts)])
      modifies this`metaCache, this`model, metaStore
      ensures Stored(Layout(), model)
      ensures model == old(model).(streams := old(model).streams[path :=
        Commit(FILE, old(model).streams[path], parts, opts, state)])
    {
      ghost var st, dir := model.streams[path], before.dirs[path];
      ghost var st' := Commit(FILE, st, parts, opts, state);
      assert Entry(before, model, path);
      CommitRecord(path, st, dir, parts, opts, state);
      CommitStored(before, model, path, parts, opts, state);
      metaCache := metaCache[path := meta];
      Persist(path, meta, opts, state);
      model := model.(streams := model.streams[path := st']);
      assert Layout() == Updated(before, path, meta, files[dir], EncodeRecord(path, meta, dir));
    }

    /** The rest of Append, once every check has passed. */
    method CommitAppend(path: string, body: Body, opts: AppendOptions, verdict: Verdict) returns (outcome: Outcome)
      requires Stored(Layout(), model) && path in model.streams
      requires verdict.state.Some? ==> HasAllProducerHeaders(opts)
      modifies this`metaCache, this`files, this`model, metaStore
      ensures match Admitted(old(model).streams[path].meta, body, verdict)
        case Answer(answer) => Stored(Layout(), model) && model == old(model) && outcome == answer
        case Admit(parts, _) =>
          if Segments.Fits(parts)
          then Stored(Layout(), model) && Committed(old(model), path, parts, opts, verdict, model, outcome)
          else model == old(model) && LeftBehind(old(Layout()), model, path, parts, Layout(), outcome)
    {
      assert Entry(Layout(), model, path);
      ghost var before, st := Layout(), model.streams[path];
      var meta := metaCache[path];
      ghost var split := Split(Text.IsJson(meta.contentType), body, false);
      if split.Ok? {
        Segments.FittingAll(split.value);
        assert split.value[..|split.value|] == split.value;
      }
      var appended := AppendToStream(meta, dirCache[path], body, false);
      if appended.Err? {
        if split.Ok? { LeftoversStored(before, model, path, split.value); }
        return Outcome(BLANK_RESULT, Some(appended.error));
      }
      meta := Advance(meta, appended.value, opts, verdict.state, st, split.value);
      Record(path, meta, opts, verdict.state, before, split.value);
      return Outcome(verdict.result.(offset := meta.currentOffset, streamClosed := opts.close), None);
    }

    // ---- Closing ----

    /** Caches new metadata of a stream whose record was, or is about to be, brought up to date. */
    method Recache(path: string, meta: Metadata, ghost before: FileLayouts.Layout)
      requires Stored(before, model) && path in model.streams && path in before.dirs
      requires Layout() == before.(records := before.records[path := EncodeRecord(path, meta, before.dirs[path])])
      modifies this`metaCache, this`model
      ensures Stored(Layout(), model)
      ensures model == old(model).(streams := old(model).streams[path := old(model).streams[path].(meta := meta)])
    {
      UpdateMetaStored(before, model, path, meta, EncodeRecord(path, meta, before.dirs[path]));
      metaCache := metaCache[path := meta];
      model := model.(streams := model.streams[path := model.streams[path].(meta := meta)]);
      assert Layout() == before.(metas := before.metas[path := meta],
        records := before.records[path := EncodeRecord(path, meta, before.dirs[path])]);
    }

    method CloseStream(path: string, expired: set<string>) returns (r: Result<(Offset, bool), Error>)
      requires Valid()
      modifies this`metaCache, this`model, metaStore
      ensures Valid() && (model, r) == Close(old(model), path, expired)
    {
      CloseOk(FILE, model, path, expired);
      GraphOrdered(Close(model, path, expired).0.streams);
      if path !in metaCache { return Err(NotFound); }
      if path in expired { return Err(NotFound); }
      assert Entry(Layout(), model, path);
      ghost var before := Layout();
      var meta := metaCache[path];
      var alreadyClosed := meta.closed;
      var _ := metaStore.SetClosed(path, true, None);
      Recache(path, meta.(closed := true), before);
      return Ok((meta.currentOffset, alreadyClosed));
    }

    /**
     * A producer's close, deduplicated by its tuple. With an empty producer id, which the HTTP handler never passes,
     * the record is left without the producer's state, and no longer agrees with the cache.
     */
    method CloseStreamWithProducer(path: string, id: string, epoch: int, seqNo: int, expired: set<string>)
      returns (outcome: Outcome)
      requires Valid()
      modifies this`metaCache, this`model, metaStore
      ensures (model, outcome) == CloseWithProducer(old(model), path, id, epoch, seqNo, expired)
      ensures Inv(FILE, model) && Ordered(model.streams)
      ensures id != "" || model == old(model) ==> Valid()
      ensures id == "" && model != old(model) ==> ClosedUnnamed(old(Layout()), old(model), path, Layout(), model)
    {
      ProducerCloseOk(model, path, id, epoch, seqNo, expired);
      if path !in metaCache || path in expired { return Outcome(BLANK_RESULT, Some(NotFound)); }
      assert Entry(Layout(), model, path);
      var meta := metaCache[path];
      if meta.closed {
        if meta.closedBy == Some(ClosedBy(id, epoch, seqNo)) {
          return Outcome(AppendResult(meta.currentOffset, Duplicate, 0, 0, 0, seqNo, true), None);
        }
        return Outcome(BLANK_RESULT.(offset := meta.currentOffset, streamClosed := true), Some(StreamClosed));
      }
      var verdict := ValidateProducer(meta.producers, id, epoch, seqNo);
      var result := verdict.result.(offset := meta.currentOffset);
      if verdict.error.Some? { return Outcome(result, verdict.error); }
      if result.producerResult == Duplicate { return Outcome(result, None); }
      CommitClose(path, id, verdict.state.value, ClosedBy(id, epoch, seqNo));
      return Outcome(result.(streamClosed := true), None);
    }

    /** Records a producer's close: its state, the closure and who closed, in one transaction. */
    method CommitClose(path: string, id: string, state: ProducerState, closedBy: ClosedBy)
      requires Stored(Layout(), model) && path in model.streams && !model.streams[path].meta.closed
      requires id in model.streams[path].meta.producers ==> model.streams[path].meta.producers[id] != state
      modifies this`metaCache, this`model, metaStore
      ensures var st := old(model).streams[path];
        var meta := st.meta.(producers := st.meta.producers[id := state], closed := true, closedBy := Some(closedBy));
        model == old(model).(streams := old(model).streams[path := st.(meta := meta)])
      ensures id != "" ==> Stored(Layout(), model)
      ensures id == "" ==> ClosedUnnamed(old(Layout()), old(model), path, Layout(), model)
    {
      assert Entry(Layout(), model, path);
      ghost var before, st := Layout(), model.streams[path];
      var meta := metaCache[path];
      meta := meta.(producers := meta.producers[id := state]);
      meta := meta.(closed := true, closedBy := Some(closedBy));
      var _ := metaStore.UpdateAppendState(path, meta.currentOffset, "", id, Some(state), true, meta.closedBy);
      metaCache := metaCache[path := meta];
      model := model.(streams := model.streams[path := st.(meta := meta)]);
      if id != "" {
        UpdateMetaStored(before, old(model), path, meta, EncodeRecord(path, meta, before.dirs[path]));
        assert Layout() == before.(metas := before.metas[path := meta],
          records := before.records[path := EncodeRecord(path, meta, before.dirs[path])]);
      } else {
        UnnamedClose(before, old(model), path, state, closedBy);
        assert Layout() == before.(metas := before.metas[path := meta],
          records := before.records[path := UnnamedRecord(path, meta, st.meta.producers, before.dirs[path])]);
      }
    }

    // ---- Deleting ----

    /** Removes one stream: its record, its cache entries and its directory. */
    method DeleteStreamUnlocked(path: string)
      requires Stored(Layout(), model) && path in model.streams
      modifies this`metaCache, this`dirCache, this`files, this`model, metaStore
      ensures files.Keys <= old(files).Keys
      ensures Stored(Layout(), model)
      ensures model == old(model).(streams := old(model).streams - {path})
    {
      ghost var before := Layout();
      RemoveStored(before, model, path);
      var dirName := dirCache[path];
      var _ := metaStore.Delete(path);
      metaCache, dirCache := metaCache - {path}, dirCache - {path};
      files := files - {dirName};
      model := model.(streams := model.streams - {path});
      assert Layout() == Removed(before, path);
    }

    /** Takes one reference off a source, in its record and in the cache. */
    method DecrementSource(path: string) returns (underflow: bool, collect: bool)
      requires Stored(Layout(), model) && path in model.streams
      requires model.streams[path].meta.refCount > 0
      modifies this`metaCache, this`model, metaStore
      ensures Stored(Layout(), model)
      ensures var n := old(model).streams[path].meta.refCount - 1;
        && model == old(model).(streams := SetRefCount(old(model).streams, path, n))
        && !underflow && collect == (n == 0 && old(model).streams[path].meta.softDeleted)
    {
      assert Entry(Layout(), model, path);
      ghost var before := Layout();
      var parent := metaCache[path];
      var released := metaStore.DecrementRefCount(path);
      if released.None? { return false, false; }
      var newRefCount, softDeleted := released.value.0, released.value.1;
      parent := parent.(refCount := newRefCount);
      Recache(path, parent, before);
      if newRefCount < 0 { return true, false; }
      return false, newRefCount == 0 && (softDeleted || parent.softDeleted);
    }

    /** Removes a stream and then every soft-deleted source whose count drops to zero. */
    method DeleteWithCascade(path: string) returns (underflow: bool)
      requires Stored(Layout(), model) && !Cascade(model.streams, path).1
      modifies this`metaCache, this`dirCache, this`files, this`model, metaStore
      ensures files.Keys <= old(files).Keys
      ensures Stored(Layout(), model) && !underflow
      ensures model == old(model).(streams := Cascade(old(model).streams, path).0)
      decreases |model.streams.Keys|, 0
    {
      if path !in metaCache { return false; }
      assert Entry(Layout(), model, path);
      CascadeStep(model.streams, path);
      ForkGraph.Shrinks(model.streams, path);
      var forkedFrom := metaCache[path].forkedFrom;
      DeleteStreamUnlocked(path);
      if forkedFrom != "" && forkedFrom in metaCache {
        underflow := ReleaseSource(forkedFrom);
        return;
      }
      return false;
    }

    /** Takes a reference off a source and, when it was the last one on a soft-deleted source, removes that too. */
    method ReleaseSource(source: string) returns (underflow: bool)
      requires Stored(Layout(), model) && source in model.streams
      requires model.streams[source].meta.refCount > 0 && !AfterRelease(model.streams, source).1
      modifies this`metaCache, this`dirCache, this`files, this`model, metaStore
      ensures files.Keys <= old(files).Keys
      ensures Stored(Layout(), model) && !underflow
      ensures model == old(model).(streams := AfterRelease(old(model).streams, source).0)
      decreases |model.streams.Keys|, 1
    {
      ReleaseKeys(model.streams, source);
      var collect;
      underflow, collect := DecrementSource(source);
      if underflow || !collect { return; }
      underflow := DeleteWithCascade(source);
    }

    /** Marks a stream that forks still read from. */
    method MarkSoftDeleted(path: string)
      requires Stored(Layout(), model) && path in model.streams
      modifies this`metaCache, this`model, metaStore
      ensures Stored(Layout(), model)
      ensures model == old(model).(streams := SetSoftDeleted(old(model).streams, path))
    {
      assert Entry(Layout(), model, path);
      ghost var before := Layout();
      var _ := metaStore.SoftDelete(path);
      Recache(path, metaCache[path].(softDeleted := true), before);
    }

    method Delete(path: string) returns (error: Option<Error>)
      requires Valid()
      modifies this`metaCache, this`dirCache, this`files, this`model, metaStore
      ensures Valid() && (model, error) == StreamStore.Delete(old(model), path)
      ensures error != Some(RefCountUnderflow)
    {
      DeleteOk(FILE, model, path);
      GraphOrdered(StreamStore.Delete(model, path).0.streams);
      if path !in metaCache { return Some(NotFound); }
      assert Entry(Layout(), model, path);
      var meta := metaCache[path];
      if meta.softDeleted { return Some(StreamSoftDeleted); }
      if meta.refCount > 0 {
        MarkSoftDeleted(path);
        return None;
      }
      var underflow := DeleteWithCascade(path);
      return if underflow then Some(RefCountUnderflow) else None;
    }

    /** Removes or marks one expired stream, unless an earlier cascade removed it. */
    method CleanupOne(path: string)
      requires Valid()
      modifies this`metaCache, this`dirCache, this`files, this`model, metaStore
      ensures Valid() && model == old(model).(streams := Sweep(old(model).streams, [path]))
    {
      SweepOneOk(model, path);
      if path !in metaCache { return; }
      assert Entry(Layout(), model, path);
      if metaCache[path].refCount > 0 {
        MarkSoftDeleted(path);
        return;
      }
      var _ := DeleteWithCascade(path);
    }

    /** Sweeps the cached streams that have expired, in the order the cache yields them. */
    method CleanupExpiredStreams(expired: set<string>) returns (expiredPaths: seq<string>)
      requires Valid()
      modifies this`metaCache, this`dirCache, this`files, this`model, metaStore
      ensures Valid()
      ensures forall p :: p in expiredPaths <==> p in old(metaCache) && p in expired
      ensures model == old(model).(streams := Sweep(old(model).streams, expiredPaths))
    {
      expiredPaths := [];
      var cached := metaCache.Keys;
      while cached != {}
        invariant cached <= metaCache.Keys
        invariant forall p :: p in expiredPaths <==> p in metaCache && p in expired && p !in cached
        decreases cached
      {
        var p :| p in cached;
        if p in expired { expiredPaths := expiredPaths + [p]; }
        cached := cached - {p};
      }
      for i := 0 to |expiredPaths|
        invariant Valid()
        invariant model.clock == old(model).clock
        invariant Sweep(model.streams, expiredPaths[i..]) == Sweep(old(model).streams, expiredPaths)
      {
        SweepNext(model.streams, expiredPaths[i..]);
        CleanupOne(expiredPaths[i]);
        assert expiredPaths[i..][1..] == expiredPaths[i + 1..];
      }
    }

    // ---- Creating ----

    method ResolveForkSubOffset(source: string, at: Offset, k: nat) returns (r: Result<ForkPoint, Error>)
      requires Valid() && source in model.streams && k > 0
      ensures AllFit(model.streams) && r == FileCut(model.streams, source, at, k)
    {
      assert Entry(Layout(), model, source);
      var read := ReadForkedStream(source, at);
      if read.Err? { return Err(read.error); }
      var sourceMessages := read.value;
      if Text.IsJson(metaCache[source].contentType) {
        if |sourceMessages| < k { return Err(InvalidForkSubOffset); }
        return Ok(ForkPoint(sourceMessages[k - 1].offset, []));
      }
      if |sourceMessages| == 0 { return Err(InvalidForkSubOffset); }
      var first := sourceMessages[0].data;
      if |first| < k { return Err(InvalidForkSubOffset); }
      return Ok(ForkPoint(at, first[..k]));
    }

    /** Checks what a fork asks of its source and resolves where it is cut. */
    method ResolveForkPoint(opts: CreateOptions, expired: set<string>) returns (r: Result<ForkPoint, Error>)
      requires Valid()
      ensures AllFit(model.streams) && r == FileFork(model.streams, opts, expired)
    {
      SegmentsStored(Layout(), model);
      var target := CheckForkSource(opts, expired);
      if target.Err? { return Err(target.error); }
      if opts.forkSubOffset.Some? && opts.forkSubOffset.value > 0 {
        r := ResolveForkSubOffset(opts.forkedFrom, target.value, opts.forkSubOffset.value);
        return;
      }
      return Ok(ForkPoint(target.value, []));
    }

    /** The checks on the source, and the offset asked for, or its tail. */
    method CheckForkSource(opts: CreateOptions, expired: set<string>) returns (r: Result<Offset, Error>)
      requires Stored(Layout(), model)
      ensures r == ForkTarget(model.streams, opts, expired)
    {
      if opts.forkedFrom !in metaCache { return Err(NotFound); }
      assert Entry(Layout(), model, opts.forkedFrom);
      var source := metaCache[opts.forkedFrom];
      if source.softDeleted { return Err(StreamSoftDeleted); }
      if opts.forkedFrom in expired { return Err(NotFound); }
      if opts.contentType != "" && !Text.EqualFold(opts.contentType, source.contentType) {
        return Err(ContentTypeMismatch);
      }
      var at := match opts.forkOffset case Some(o) => o case None => source.currentOffset;
      if LessThan(at, ZERO_OFFSET) || LessThan(source.currentOffset, at) { return Err(InvalidForkOffset); }
      return Ok(at);
    }

    /** Adds one to the number of forks of a source, in its record and in the cache. */
    method IncrementSource(path: string)
      requires Stored(Layout(), model) && path in model.streams
      modifies this`metaCache, this`model, metaStore
      ensures Stored(Layout(), model)
      ensures model ==
        old(model).(streams := SetRefCount(old(model).streams, path, old(model).streams[path].meta.refCount + 1))
    {
      assert Entry(Layout(), model, path);
      ghost var before := Layout();
      var meta := metaCache[path];
      var _ := metaStore.IncrementRefCount(path);
      Recache(path, meta.(refCount := meta.refCount + 1), before);
    }

    /** Takes the reference back when the fork cannot be created after all. */
    method RollbackSource(path: string)
      requires Stored(Layout(), model) && path in model.streams
      modifies this`metaCache, this`model, metaStore
      ensures Stored(Layout(), model)
      ensures model ==
        old(model).(streams := SetRefCount(old(model).streams, path, old(model).streams[path].meta.refCount - 1))
    {
      assert Entry(Layout(), model, path);
      ghost var before := Layout();
      var meta := metaCache[path];
      var _ := metaStore.DecrementRefCount(path);
      Recache(path, meta.(refCount := meta.refCount - 1), before);
    }

    /** Materializes the prefix of a binary fork as the first message of its segment. */
    method WritePrefix(meta: Metadata, prefix: Bytes, dir: string) returns (tail: Offset)
      requires dir in files && files[dir] == [] && |prefix| <= Segments.MAX_MESSAGE_SIZE
      modifies this`files
      ensures files == old(files)[dir := if prefix == [] then [] else Segments.Encode(prefix)]
      ensures tail == if prefix == [] then meta.currentOffset
                      else Add(meta.currentOffset, Segments.LENGTH_PREFIX_SIZE + |prefix|)
    {
      if |prefix| == 0 { return meta.currentOffset; }
      var writer := new Segments.SegmentFile.Open(files[dir]);
      var _ := writer.WriteMessage(prefix);
      assert [] + Segments.Encode(prefix) == Segments.Encode(prefix);
      files := files[dir := writer.bytes];
      return Add(meta.currentOffset, Segments.LENGTH_PREFIX_SIZE + |prefix|);
    }

    /** Writes the initial data of a new stream, if any. */
    method WriteInitial(meta: Metadata, initial: Option<Body>, dir: string, ghost blank: Stream)
      returns (r: Result<Metadata, Error>)
      requires dir in files && meta == blank.meta && Holds(files[dir], blank)
      modifies this`files
      ensures dir in files && files == old(files)[dir := files[dir]]
      ensures match InitialiseSized(blank, initial)
        case Err(e) => r == Err(e)
        case Ok(st) => r == Ok(st.meta) && Holds(files[dir], st)
    {
      if initial.None? { return Ok(meta); }
      ghost var split := Split(Text.IsJson(meta.contentType), initial.value, true);
      if split.Ok? && Segments.Fits(split.value) {
        HoldsExtended(files[dir], blank, split.value);
        Segments.FittingAll(split.value);
        assert split.value[..|split.value|] == split.value;
      }
      var appended := AppendToStream(meta, dir, initial.value, true);
      if appended.Err? { return Err(appended.error); }
      return Ok(meta.(currentOffset := appended.value));
    }

    /** Fills a new segment: first the materialized prefix, then the initial data. */
    method BuildSegment(meta: Metadata, prefix: Bytes, initial: Option<Body>, dir: string, ghost stamp: nat)
      returns (r: Result<Metadata, Error>)
      requires dir in files && files[dir] == []
      requires |prefix| <= Segments.MAX_MESSAGE_SIZE
      modifies this`files
      ensures dir in files && files == old(files)[dir := files[dir]]
      ensures match InitialiseSized(Blank(FILE, meta, prefix, stamp), initial)
        case Err(e) => r == Err(e)
        case Ok(st) => r == Ok(st.meta) && Holds(files[dir], st)
    {
      ghost var blank := Blank(FILE, meta, prefix, stamp);
      BlankHolds(meta, prefix, stamp);
      var tail := WritePrefix(meta, prefix, dir);
      var built := meta.(currentOffset := tail);
      assert built == blank.meta && Holds(files[dir], blank);
      r := WriteInitial(built, initial, dir, blank);
    }

    /** Stores the record of a new stream whose segment is written, and caches it. */
    method Register(path: string, meta: Metadata, dirName: string, ghost before: FileLayouts.Layout, ghost st: Stream)
      requires Stored(before, model) && path !in model.streams && dirName !in before.files
      requires dirName in files && Layout() == before.(files := before.files[dirName := files[dirName]])
      requires meta == st.meta && Holds(files[dirName], st)
      modifies this`metaCache, this`dirCache, this`model, metaStore
      ensures Stored(Layout(), model)
      ensures model == State(old(model).streams[path := st], old(model).clock + 1)
    {
      AddStored(before, model, path, st, dirName, files[dirName], model.clock + 1);
      metaStore.Put(path, meta, dirName);
      metaCache := metaCache[path := meta];
      dirCache := dirCache[path := dirName];
      model := State(model.streams[path := st], model.clock + 1);
      assert Layout() == Added(before, path, meta, dirName, files[dirName]);
    }

    /** Makes the directory and segment of a new stream, then its record and cache entries. */
    method PlaceStream(path: string, meta: Metadata, prefix: Bytes, initial: Option<Body>, dirName: string)
      returns (r: Result<bool, Error>)
      requires Stored(Layout(), model) && path !in model.streams && dirName !in files
      requires |prefix| <= Segments.MAX_MESSAGE_SIZE
      modifies this`metaCache, this`dirCache, this`files, this`model, metaStore
      ensures Stored(Layout(), model)
      ensures (model, r) ==
        Placed(old(model), old(model), path, InitialiseSized(Blank(FILE, meta, prefix, old(model).clock), initial))
    {
      ghost var before, clock := Layout(), model.clock;
      files := files[dirName := []];
      var built := BuildSegment(meta, prefix, initial, dirName, clock);
      SetTwice(before.files, dirName, [], files[dirName]);
      if built.Err? {
        DropNew(before.files, dirName, files[dirName]);
        files := files - {dirName};
        assert Layout() == before;
        return Err(built.error);
      }
      Register(path, built.value, dirName, before, InitialiseSized(Blank(FILE, meta, prefix, clock), initial).value);
      return Ok(true);
    }

    /** Creates a fork whose source is counted already, or gives the reference back. */
    method PlaceFork(path: string, source: string, meta: Metadata, prefix: Bytes, initial: Option<Body>,
                     dirName: string) returns (r: Result<bool, Error>)
      requires Stored(Layout(), model) && path !in model.streams && dirName !in files && source in model.streams
      requires |prefix| <= Segments.MAX_MESSAGE_SIZE
      modifies this`metaCache, this`dirCache, this`files, this`model, metaStore
      ensures Stored(Layout(), model)
      ensures var m := old(model).streams;
        var rolled := old(model).(streams := SetRefCount(m, source, m[source].meta.refCount - 1));
        (model, r) == Placed(rolled, old(model), path,
                             InitialiseSized(Blank(FILE, meta, prefix, old(model).clock), initial))
    {
      r := PlaceStream(path, meta, prefix, initial, dirName);
      if r.Err? { RollbackSource(source); }
    }

    /** Creates a fork whose fork point is resolved: the reference on its source is taken first. */
    method CreateFork(path: string, opts: CreateOptions, fork: ForkPoint, dirName: string)
      returns (r: Result<bool, Error>)
      requires Stored(Layout(), model) && path !in model.streams && dirName !in files
      requires opts.forkedFrom in model.streams && |fork.prefix| <= Segments.MAX_MESSAGE_SIZE
      modifies this`metaCache, this`dirCache, this`files, this`model, metaStore
      ensures Stored(Layout(), model)
      ensures (model, r) == LaunchedFork(old(model), path, opts, fork)
    {
      assert Entry(Layout(), model, opts.forkedFrom);
      var meta := ForkMeta(opts, metaCache[opts.forkedFrom], fork.offset);
      ghost var start := model;
      IncrementSource(opts.forkedFrom);
      CountedFork(start, model, path, opts, fork);
      r := PlaceFork(path, opts.forkedFrom, meta, fork.prefix, opts.initialData, dirName);
    }

    /** The second half of Create, at a path that holds no stream. */
    method CreateFresh(path: string, opts: CreateOptions, expired: set<string>, dirName: string)
      returns (r: Result<bool, Error>)
      requires Valid() && path !in model.streams && dirName !in files && AllFit(model.streams)
      modifies this`metaCache, this`dirCache, this`files, this`model, metaStore
      ensures Stored(Layout(), model)
      ensures (model, r) == FileLaunch(old(model), path, opts, expired)
    {
      if opts.forkedFrom == "" {
        LaunchRoot(model, path, opts, expired);
        r := PlaceStream(path, RootMeta(opts), [], opts.initialData, dirName);
        return;
      }
      var fork := ResolveForkPoint(opts, expired);
      if fork.Err? { return Err(fork.error); }
      FileForkOk(model, opts, expired);
      r := CreateFork(path, opts, fork.value, dirName);
    }

    /**
     * Creates a stream, or answers for the one already there. The directory name is the unique name drawn for
     * the new stream. When the initial data holds a message over the size limit, nothing is created.
     */
    method Create(path: string, opts: CreateOptions, expired: set<string>, dirName: string)
      returns (r: Result<bool, Error>)
      requires Valid() && dirName !in files
      modifies this`metaCache, this`dirCache, this`files, this`model, metaStore
      ensures Valid()
      ensures AllFit(old(model).streams) && (model, r) == FileCreate(old(model), path, opts, expired)
      ensures AsksAtBoundary(old(model).streams, opts) ==> (model, r) == CreateSized(old(model), path, opts, expired)
      ensures r != Err(RefCountUnderflow)
    {
      SegmentsStored(Layout(), model);
      FileCreateOk(model, path, opts, expired);
      if AsksAtBoundary(model.streams, opts) { FileCreateAtBoundary(model, path, opts, expired); }
      ReclaimFit(model.streams, path, opts, expired);
      var settled := ReclaimPath(path, opts, expired);
      if settled.Some? { return settled.value; }
      r := CreateFresh(path, opts, expired, dirName);
    }

    /** The first half of Create: what becomes of a stream already at the path. */
    method ReclaimPath(path: string, opts: CreateOptions, expired: set<string>)
      returns (settled: Option<Result<bool, Error>>)
      requires Valid()
      modifies this`metaCache, this`dirCache, this`files, this`model, metaStore
      ensures Valid() && files.Keys <= old(files).Keys
      ensures var (m, claim) := Reclaim(old(model).streams, path, opts, expired);
        && model == old(model).(streams := m)
        && settled == if claim.Settled? then Some(claim.outcome) else None
    {
      ReclaimKeeps(model, path, opts, expired);
      if path !in metaCache { return None; }
      assert Entry(Layout(), model, path);
      var existing := metaCache[path];
      if path in expired {
        settled := ReclaimExpired(path);
        return;
      }
      if existing.softDeleted { return Some(Err(Exists)); }
      if ConfigMatches(existing, opts) { return Some(Ok(false)); }
      return Some(Err(ConfigMismatch));
    }

    /** Marks an expired stream that forks still read from, and removes any other. */
    method ReclaimExpired(path: string) returns (settled: Option<Result<bool, Error>>)
      requires Stored(Layout(), model) && path in model.streams
      requires model.streams[path].meta.refCount <= 0 ==> !Cascade(model.streams, path).1
      modifies this`metaCache, this`dirCache, this`files, this`model, metaStore
      ensures Stored(Layout(), model) && files.Keys <= old(files).Keys
      ensures var m := old(model).streams;
        if m[path].meta.refCount > 0
        then model == old(model).(streams := SetSoftDeleted(m, path)) && settled == Some(Err(Exists))
        else model == old(model).(streams := Cascade(m, path).0) && settled == None
    {
      assert Entry(Layout(), model, path);
      if metaCache[path].refCount > 0 {
        MarkSoftDeleted(path);
        return Some(Err(Exists));
      }
      var underflow := DeleteWithCascade(path);
      if underflow { return Some(Err(RefCountUnderflow)); }
      return None;
    }
  }

  /** The layout after an accepted append is a layout of the committed stream. */
  lemma {:induction false} CommitStored(l: FileLayouts.Layout, s: State, path: string, parts: seq<Bytes>,
                                        opts: AppendOptions, state: Option<ProducerState>)
    requires Stored(l, s) && path in s.streams && NonEmptyParts(parts) && Segments.Fits(parts)
    requires path in l.dirs && l.dirs[path] in l.files
    ensures var st, dir := Commit(FILE, s.streams[path], parts, opts, state), l.dirs[path];
      Stored(Updated(l, path, st.meta, l.files[dir] + Segments.EncodeAll(parts), EncodeRecord(path, st.meta, dir)),
             s.(streams := s.streams[path := st]))
  {
    assert Entry(l, s, path);
    var st, dir := Commit(FILE, s.streams[path], parts, opts, state), l.dirs[path];
    HoldsCommitted(l.files[dir], s.streams[path], parts, opts, state);
    UpdateStored(l, s, path, st, l.files[dir] + Segments.EncodeAll(parts), EncodeRecord(path, st.meta, dir));
  }

  /** The messages of an append that is admitted and has one over the size limit. */
  function TooLarge(s: State, path: string, body: Body, opts: AppendOptions, expired: set<string>): Option<seq<Bytes>> {
    if (HasProducerHeaders(opts) && !HasAllProducerHeaders(opts)) || path !in s.streams then None
    else match AdmitAppend(s.streams[path].meta, path in expired, body, opts)
      case Answer(_) => None
      case Admit(parts, _) => if Segments.Fits(parts) then None else Some(parts)
  }

  /** The layout with the frames of a refused append left in a segment. */
  ghost function WithLeftovers(l: FileLayouts.Layout, dir: string, parts: seq<Bytes>): FileLayouts.Layout
    requires dir in l.files
  {
    l.(files := l.files[dir := l.files[dir] + Segments.EncodeAll(parts[..Segments.Fitting(parts)])])
  }

  /** What an admitted append makes of the state, and what it answers. */
  predicate Committed(s: State, path: string, parts: seq<Bytes>, opts: AppendOptions, verdict: Verdict, s': State,
                      outcome: Outcome)
    requires path in s.streams
  {
    var st := Commit(FILE, s.streams[path], parts, opts, verdict.state);
    && s' == s.(streams := s.streams[path := st])
    && outcome == Outcome(verdict.result.(offset := st.meta.currentOffset, streamClosed := opts.close), None)
  }

  lemma {:induction false} ProducerCloseOk(s: State, path: string, id: string, epoch: int, seqNo: int,
                                           expired: set<string>)
    requires Inv(FILE, s)
    ensures var s' := CloseWithProducer(s, path, id, epoch, seqNo, expired).0;
      Inv(FILE, s') && Ordered(s'.streams)
  {
    CloseWithProducerOk(FILE, s, path, id, epoch, seqNo, expired);
    GraphOrdered(CloseWithProducer(s, path, id, epoch, seqNo, expired).0.streams);
  }

  /** The record of a close by a producer without a name: everything but the producer's state. */
  function UnnamedRecord(path: string, meta: Metadata, producers: map<string, ProducerState>, dir: string): Record {
    EncodeRecord(path, meta.(producers := producers), dir)
  }

  /** The cache has the producer's state and the record does not. */
  ghost predicate ClosedUnnamed(l: FileLayouts.Layout, s: State, path: string, l': FileLayouts.Layout, s': State) {
    && path in s.streams && path in s'.streams && path in l.dirs
    && (var meta := s'.streams[path].meta;
        l' == l.(metas := l.metas[path := meta],
                 records := l.records[path := UnnamedRecord(path, meta, s.streams[path].meta.producers, l.dirs[path])]))
    && !Stored(l', s')
  }

  lemma {:induction false} UnnamedClose(l: FileLayouts.Layout, s: State, path: string, state: ProducerState,
                                        closedBy: ClosedBy)
    requires Stored(l, s) && path in s.streams
    requires "" in s.streams[path].meta.producers ==> s.streams[path].meta.producers[""] != state
    ensures path in l.dirs
    ensures var st := s.streams[path];
      var meta := st.meta.(producers := st.meta.producers["" := state], closed := true, closedBy := Some(closedBy));
      ClosedUnnamed(l, s, path, l.(metas := l.metas[path := meta],
        records := l.records[path := UnnamedRecord(path, meta, st.meta.producers, l.dirs[path])]),
        s.(streams := s.streams[path := st.(meta := meta)]))
  {
    assert Entry(l, s, path);
    var st := s.streams[path];
    var meta := st.meta.(producers := st.meta.producers["" := state], closed := true, closedBy := Some(closedBy));
    var s' := s.(streams := s.streams[path := st.(meta := meta)]);
    var l' := l.(metas := l.metas[path := meta],
                 records := l.records[path := UnnamedRecord(path, meta, st.meta.producers, l.dirs[path])]);
    assert meta.producers[""] == state && l'.records[path].producers == st.meta.producers;
    assert !Entry(l', s', path);
  }

  /** The append was refused, and left frames behind; the store is still as laid out unless there are any. */
  ghost predicate LeftBehind(l: FileLayouts.Layout, s: State, path: string, parts: seq<Bytes>, l': FileLayouts.Layout,
                             outcome: Outcome)
  {
    && outcome == Outcome(BLANK_RESULT, Some(MessageTooLarge))
    && path in l.dirs && l.dirs[path] in l.files && l' == WithLeftovers(l, l.dirs[path], parts)
    && (Stored(l', s) <==> Segments.Fitting(parts) == 0)
  }

  /** Leftovers break the agreement of segment and log, unless there are none. */
  lemma {:induction false} LeftoversStored(l: FileLayouts.Layout, s: State, path: string, parts: seq<Bytes>)
    requires Stored(l, s) && path in s.streams && NonEmptyParts(parts)
    ensures path in l.dirs && l.dirs[path] in l.files
    ensures Stored(WithLeftovers(l, l.dirs[path], parts), s) <==> Segments.Fitting(parts) == 0
  {
    assert Entry(l, s, path);
    var l' := WithLeftovers(l, l.dirs[path], parts);
    var kept := parts[..Segments.Fitting(parts)];
    if kept == [] {
      assert l.files[l.dirs[path]] + [] == l.files[l.dirs[path]];
      assert l' == l;
    } else {
      Segments.EncodedNonEmpty(kept);
      assert |l'.files[l.dirs[path]]| > |l.files[l.dirs[path]]|;
      assert !Entry(l', s, path);
    }
  }

  /**
   * Reading a root stream after an append was refused for a message over the size limit: the messages before that one
   * are returned after the stream's own, at offsets past the tail, although they were never appended.
   */
  lemma {:induction false} LeftoversRead(l: FileLayouts.Layout, s: State, path: string, parts: seq<Bytes>)
    requires Inv(FILE, s) && Stored(l, s) && path in s.streams && s.streams[path].meta.forkedFrom == ""
    requires NonEmptyParts(parts)
    ensures path in l.dirs && l.dirs[path] in l.files
    ensures var st, kept := s.streams[path], parts[..Segments.Fitting(parts)];
      var read := Segments.ReadAll(WithLeftovers(l, l.dirs[path], parts).files[l.dirs[path]], ZERO_OFFSET);
      read.0 == st.messages + Frame(FILE, st.meta.currentOffset, kept) && read.2 == None
  {
    var st, kept := s.streams[path], parts[..Segments.Fitting(parts)];
    assert Entry(l, s, path) && StoreInvariant.StreamOk(FILE, s, path);
    var own := Datas(st.messages);
    ChainedIsFrame(FILE, ZERO_OFFSET, st.messages, st.meta.currentOffset);
    Segments.EncodeConcat(own, kept);
    EncodedReads(own + kept, ZERO_OFFSET);
    FrameConcat(FILE, ZERO_OFFSET, own, kept);
  }

  lemma {:induction false} OneFits(small: Bytes, large: Bytes)
    requires 0 < |small| <= Segments.MAX_MESSAGE_SIZE < |large|
    ensures NonEmptyParts([small, large]) && Segments.Fitting([small, large]) == 1 && [small, large][..1] == [small]
  {
    assert [small, large][1..] == [large] && Segments.Fitting([large]) == 0;
  }

  /** The smallest such append: a message that fits, and then one that does not. */
  lemma {:induction false} LargeAfterSmall(l: FileLayouts.Layout, s: State, path: string, small: Bytes, large: Bytes)
    requires Inv(FILE, s) && Stored(l, s) && path in s.streams && s.streams[path].meta.forkedFrom == ""
    requires 0 < |small| <= Segments.MAX_MESSAGE_SIZE < |large|
    ensures path in l.dirs && l.dirs[path] in l.files
    ensures var l' := WithLeftovers(l, l.dirs[path], [small, large]);
      var end := Add(s.streams[path].meta.currentOffset, Segments.LENGTH_PREFIX_SIZE + |small|);
      && !Stored(l', s)
      && Segments.ReadAll(l'.files[l.dirs[path]], ZERO_OFFSET).0 == s.streams[path].messages + [Message(small, end)]
  {
    var parts := [small, large];
    OneFits(small, large);
    LeftoversStored(l, s, path, parts);
    LeftoversRead(l, s, path, parts);
    OneFrame(s.streams[path].meta.currentOffset, small);
  }

  lemma {:induction false} OneFrame(from: Offset, part: Bytes)
    ensures Frame(FILE, from, [part]) == [Message(part, Add(from, Segments.LENGTH_PREFIX_SIZE + |part|))]
  {
    Resuming.OnePart(FILE, from, part);
  }

  lemma {:induction false} BlankHolds(meta: Metadata, prefix: Bytes, stamp: nat)
    requires |prefix| <= Segments.MAX_MESSAGE_SIZE
    ensures var blank := Blank(FILE, meta, prefix, stamp);
      && Holds(if prefix == [] then [] else Segments.Encode(prefix), blank)
      && blank.meta == if prefix == [] then meta
           else meta.(currentOffset := Add(meta.currentOffset, Segments.LENGTH_PREFIX_SIZE + |prefix|))
  {
    var base := Stream(meta, [], stamp);
    if prefix != [] {
      Segments.EncodeOne(prefix);
      HoldsExtended([], base, [prefix]);
      Resuming.OnePart(FILE, meta.currentOffset, prefix);
      assert [] + Segments.EncodeAll([prefix]) == Segments.Encode(prefix);
      assert [prefix][1..] == [];
    }
  }

  lemma {:induction false} ReclaimKeeps(s: State, path: string, opts: CreateOptions, expired: set<string>)
    requires Inv(FILE, s) && Ordered(s.streams)
    ensures var m := Reclaim(s.streams, path, opts, expired).0;
      Inv(FILE, s.(streams := m)) && Ordered(m)
    ensures path in s.streams && s.streams[path].meta.refCount <= 0 ==> !Cascade(s.streams, path).1
  {
    var m := Reclaim(s.streams, path, opts, expired).0;
    ReclaimOk(FILE, s, path, opts, expired);
    GraphOrdered(m);
    if path in s.streams && s.streams[path].meta.refCount <= 0 { SweepOneOk(s, path); }
  }

  /** What releasing one reference on a source leaves. */
  function AfterRelease(m: Streams, source: string): (Streams, bool)
    requires source in m
  {
    var n := m[source].meta.refCount - 1;
    var released := SetRefCount(m, source, n);
    if n == 0 && m[source].meta.softDeleted then Cascade(released, source) else (released, false)
  }

  lemma {:induction false} ReleaseKeys(m: Streams, source: string)
    requires source in m
    ensures SetRefCount(m, source, m[source].meta.refCount - 1).Keys == m.Keys
  {
  }

  /** One step of the cascade: the stream goes, and its source, if still there, is released. */
  lemma {:induction false} CascadeStep(m: Streams, p: string)
    requires p in m && !Cascade(m, p).1
    ensures var rest := m - {p};
      var source := m[p].meta.forkedFrom;
      && (source == "" || source !in rest ==> Cascade(m, p).0 == rest)
      && (source != "" && source in rest ==>
        rest[source].meta.refCount > 0 && Cascade(m, p) == AfterRelease(rest, source))
  {
  }

  lemma {:induction false} SweepOneOk(s: State, p: string)
    requires Inv(FILE, s)
    ensures var m := Sweep(s.streams, [p]);
      Inv(FILE, s.(streams := m)) && Ordered(m)
    ensures p !in s.streams ==> Sweep(s.streams, [p]) == s.streams
    ensures p in s.streams && s.streams[p].meta.refCount > 0 ==>
      Sweep(s.streams, [p]) == SetSoftDeleted(s.streams, p)
    ensures p in s.streams && s.streams[p].meta.refCount <= 0 ==>
      !Cascade(s.streams, p).1 && Sweep(s.streams, [p]) == Cascade(s.streams, p).0
  {
    SweepOk(FILE, s, [p]);
    GraphOrdered(Sweep(s.streams, [p]));
    SweepOne(s.streams, p);
    if p in s.streams && s.streams[p].meta.refCount <= 0 {
      assert s.streams[p].meta.refCount == |ForkGraph.Children(s.streams, p)|;
      CascadeOk(FILE, s, p);
    }
  }

  lemma {:induction false} SweepOne(m: Streams, p: string)
    ensures Sweep(m, [p]) ==
      if p !in m then m else if m[p].meta.refCount > 0 then SetSoftDeleted(m, p) else Cascade(m, p).0
  {
    assert [p][1..] == [];
  }

  lemma {:induction false} SweepNext(m: Streams, victims: seq<string>)
    requires victims != []
    ensures Sweep(m, victims) == Sweep(Sweep(m, [victims[0]]), victims[1..])
  {
    SweepOne(m, victims[0]);
  }

  // ---- Loops over the cache ----

  predicate LoadedAt(records: Records, metas: Metas, dirs: map<string, string>, p: string) {
    p in records && p in metas && p in dirs
    && DecodeRecord(records[p]) == Ok(metas[p]) && dirs[p] == records[p].directoryName
  }

  lemma {:induction false} AllLoaded(records: Records, metas: Metas, dirs: map<string, string>)
    requires metas.Keys == dirs.Keys == records.Keys
    requires forall p {:trigger LoadedAt(records, metas, dirs, p)} :: p in metas ==> LoadedAt(records, metas, dirs, p)
    ensures Readable(records) && metas == LoadedMetas(records) && dirs == LoadedDirs(records)
  {
    forall p | p in records ensures Decodes(records, p) {
      assert LoadedAt(records, metas, dirs, p);
    }
    forall p | p in records ensures metas[p] == LoadedMetas(records)[p] && dirs[p] == LoadedDirs(records)[p] {
      assert LoadedAt(records, metas, dirs, p);
    }
    SameMap(metas, LoadedMetas(records));
    SameMap(dirs, LoadedDirs(records));
  }

  /** The layout of a store just started on these records: everything loaded, and the counts repaired. */
  ghost predicate Started(records: Records, l: FileLayouts.Layout) {
    && Readable(records)
    && l.metas == Repaired(LoadedMetas(records))
    && l.dirs == LoadedDirs(records)
    && l.records == RepairedRecords(records, LoadedMetas(records), LoadedDirs(records))
  }

  /** Starting on the records and files of an orderly run gives the layout of the reopened state. */
  lemma {:induction false} StartedClean(l: FileLayouts.Layout, s: State, l': FileLayouts.Layout)
    requires Orderly(l, s)
    requires Started(l.records, l') && l'.files == l.files
    ensures l'.records == l.records && Stored(l', Reopened(s))
    ensures Inv(FILE, Reopened(s)) && Ordered(Reopened(s).streams)
  {
    CleanReopen(l, s);
    GraphOrdered(Reopened(s).streams);
    NothingToRepair(l.records);
    assert l' == LoadedLayout(l.files, l.records);
  }

  /** Where repair stands for the stream at `p`: done, or still as loaded. */
  predicate RepairedSoFar(loaded: Metas, records: Records, dirs: map<string, string>, todo: set<string>, cached: Metas,
                          stored: Records, p: string)
    requires loaded.Keys == dirs.Keys == records.Keys
  {
    p in loaded && p in cached && p in stored
    && (if p in todo then cached[p] == loaded[p] && stored[p] == records[p]
        else cached[p] == Repaired(loaded)[p] && stored[p] == RepairedRecords(records, loaded, dirs)[p])
  }

  /** Everything outside `todo` is repaired, and everything inside is as loaded. */
  ghost predicate RepairedBut(loaded: Metas, records: Records, dirs: map<string, string>, todo: set<string>,
                              cached: Metas, stored: Records)
  {
    && loaded.Keys == dirs.Keys == records.Keys == cached.Keys == stored.Keys
    && (forall p {:trigger RepairedSoFar(loaded, records, dirs, todo, cached, stored, p)} ::
      p in loaded ==> RepairedSoFar(loaded, records, dirs, todo, cached, stored, p))
  }

  /** Repairing one stream leaves the others where they stood. */
  lemma {:induction false} RepairElsewhere(loaded: Metas, records: Records, dirs: map<string, string>,
                                           todo: set<string>, cached: Metas, stored: Records, path: string,
                                           meta: Metadata, rec: Record, p: string)
    requires loaded.Keys == dirs.Keys == records.Keys && p != path
    requires RepairedSoFar(loaded, records, dirs, todo, cached, stored, p)
    ensures RepairedSoFar(loaded, records, dirs, todo - {path}, cached[path := meta], stored[path := rec], p)
  {
    assert p in todo - {path} <==> p in todo;
  }

  lemma {:induction false} RepairHere(loaded: Metas, records: Records, dirs: map<string, string>, todo: set<string>,
                                      cached: Metas, stored: Records, path: string)
    requires loaded.Keys == dirs.Keys == records.Keys && path in todo
    requires RepairedSoFar(loaded, records, dirs, todo, cached, stored, path)
    ensures var want := |ForksAmong(loaded, loaded.Keys, path)|;
      var meta := cached[path].(refCount := want);
      RepairedSoFar(loaded, records, dirs, todo - {path}, cached[path := meta],
                    stored[path := if cached[path].refCount == want then stored[path]
                                   else EncodeRecord(path, meta, dirs[path])], path)
  {
    assert Repaired(loaded)[path] == loaded[path].(refCount := |ForksAmong(loaded, loaded.Keys, path)|);
  }

  lemma {:induction false} DropNew<T>(m: map<string, T>, k: string, v: T)
    requires k !in m
    ensures m[k := v] - {k} == m
  {
  }

  lemma {:induction false} SetTwice<T>(m: map<string, T>, k: string, v: T, w: T)
    ensures m[k := v][k := w] == m[k := w]
  {
  }

  lemma {:induction false} KeysKept<T>(m: map<string, T>, p: string, v: T)
    requires p in m
    ensures m[p := v].Keys == m.Keys
  {
  }

  lemma {:induction false} RepairStep(loaded: Metas, records: Records, dirs: map<string, string>, todo: set<string>,
                                      cached: Metas, stored: Records, path: string)
    requires RepairedBut(loaded, records, dirs, todo, cached, stored) && path in todo && path in loaded
    ensures path in cached && path in stored && path in dirs
    ensures var want := |ForksAmong(loaded, loaded.Keys, path)|;
      var meta := cached[path].(refCount := want);
      RepairedBut(loaded, records, dirs, todo - {path}, cached[path := meta],
                  stored[path := if cached[path].refCount == want then stored[path]
                                 else EncodeRecord(path, meta, dirs[path])])
  {
    var want := |ForksAmong(loaded, loaded.Keys, path)|;
    var meta := cached[path].(refCount := want);
    var rec := if cached[path].refCount == want then stored[path] else EncodeRecord(path, meta, dirs[path]);
    KeysKept(cached, path, meta);
    KeysKept(stored, path, rec);
    forall p | p in loaded
      ensures RepairedSoFar(loaded, records, dirs, todo - {path}, cached[path := meta], stored[path := rec], p)
    {
      assert RepairedSoFar(loaded, records, dirs, todo, cached, stored, p);
      if p == path {
        RepairHere(loaded, records, dirs, todo, cached, stored, path);
      } else {
        RepairElsewhere(loaded, records, dirs, todo, cached, stored, path, meta, rec, p);
      }
    }
  }

  lemma {:induction false} RepairComplete(loaded: Metas, records: Records, dirs: map<string, string>, cached: Metas,
                                          stored: Records)
    requires RepairedBut(loaded, records, dirs, {}, cached, stored)
    ensures cached == Repaired(loaded) && stored == RepairedRecords(records, loaded, dirs)
  {
    var r, t := Repaired(loaded), RepairedRecords(records, loaded, dirs);
    assert r.Keys == cached.Keys && t.Keys == stored.Keys;
    forall p | p in loaded ensures cached[p] == r[p] && stored[p] == t[p] {
      assert RepairedSoFar(loaded, records, dirs, {}, cached, stored, p);
      RepairedAt(loaded, records, dirs, cached, stored, p);
    }
    SameMap(cached, r);
    SameMap(stored, t);
  }

  lemma {:induction false} RepairedAt(loaded: Metas, records: Records, dirs: map<string, string>, cached: Metas,
                                      stored: Records, p: string)
    requires loaded.Keys == dirs.Keys == records.Keys && p in loaded
    requires RepairedSoFar(loaded, records, dirs, {}, cached, stored, p)
    ensures cached[p] == Repaired(loaded)[p] && stored[p] == RepairedRecords(records, loaded, dirs)[p]
  {
  }

  lemma {:induction false} SameMap<T>(a: map<string, T>, b: map<string, T>)
    requires a.Keys == b.Keys && forall p :: p in a ==> a[p] == b[p]
    ensures a == b
  {
  }

  function CountOf(counts: map<string, int>, p: string): int {
    if p in counts then counts[p] else 0
  }

  /** The count of `p` is the number of its forks among the streams counted so far. */
  predicate CountRight(counts: map<string, int>, metas: Metas, done: set<string>, p: string) {
    CountOf(counts, p) == |ForksAmong(metas, done, p)|
  }

  /** The counts once the stream at `c` is counted with the others. */
  function Counting(counts: map<string, int>, metas: Metas, c: string): map<string, int>
    requires c in metas
  {
    var source := metas[c].forkedFrom;
    if source != "" && source in metas then counts[source := CountOf(counts, source) + 1] else counts
  }

  lemma {:induction false} CountStep(counts: map<string, int>, metas: Metas, done: set<string>, c: string, p: string)
    requires c in metas && c !in done && p in metas && CountRight(counts, metas, done, p)
    ensures CountRight(Counting(counts, metas, c), metas, done + {c}, p)
  {
    ForksGrow(metas, done, c, p);
  }

  ghost predicate CountsRight(counts: map<string, int>, metas: Metas, done: set<string>) {
    forall p {:trigger CountRight(counts, metas, done, p)} :: p in metas ==> CountRight(counts, metas, done, p)
  }

  lemma {:induction false} CountNext(counts: map<string, int>, metas: Metas, done: set<string>, c: string)
    requires CountsRight(counts, metas, done) && c in metas && c !in done
    ensures CountsRight(Counting(counts, metas, c), metas, done + {c})
  {
    forall p | p in metas ensures CountRight(Counting(counts, metas, c), metas, done + {c}, p) {
      assert CountRight(counts, metas, done, p);
      CountStep(counts, metas, done, c, p);
    }
  }

  lemma {:induction false} CountNone(metas: Metas)
    ensures CountsRight(map[], metas, {})
  {
    forall p | p in metas ensures CountRight(map[], metas, {}, p) {
      assert ForksAmong(metas, {}, p) == {};
    }
  }

  method CountForks(metas: Metas) returns (counts: map<string, int>)
    ensures CountsRight(counts, metas, metas.Keys)
  {
    counts := map[];
    var todo, done := metas.Keys, {};
    CountNone(metas);
    while todo != {}
      invariant todo + done == metas.Keys && todo !! done
      invariant CountsRight(counts, metas, done)
      decreases todo
    {
      var path :| path in todo;
      CountNext(counts, metas, done, path);
      var source := metas[path].forkedFrom;
      if source != "" && source in metas { counts := counts[source := CountOf(counts, source) + 1]; }
      todo, done := todo - {path}, done + {path};
    }
    assert done == metas.Keys;
  }

  // ---- Loops over messages ----

  /** Writes messages one frame at a time; the result is the tail after them, or none at one that is too large. */
  method WriteMessages(file: Segments.SegmentFile, parts: seq<Bytes>, start: Offset) returns (end: Option<Offset>)
    modifies file
    ensures file.bytes == old(file.bytes) + Segments.EncodeAll(parts[..Segments.Fitting(parts)])
    ensures end == if Segments.Fits(parts) then Some(Tail(FILE, start, parts)) else None
  {
    var current := start;
    Segments.FittingAll(parts);
    assert file.bytes + [] == file.bytes;
    for i := 0 to |parts|
      invariant i <= Segments.Fitting(parts) && Segments.Fits(parts[..i])
      invariant file.bytes == old(file.bytes) + Segments.EncodeAll(parts[..i])
      invariant current == Tail(FILE, start, parts[..i])
    {
      var written := file.WriteMessage(parts[i]);
      if written.None? {
        Segments.FittingStops(parts, i);
        return None;
      }
      Segments.FittingContinues(parts, i);
      Segments.EncodeSnoc(parts, i);
      FrameSnoc(FILE, start, parts, i);
      current := Add(current, written.value);
    }
    assert parts[..|parts|] == parts;
    return Some(current);
  }

  method CapAt(messages: seq<Message>, cap: Offset) returns (kept: seq<Message>)
    ensures kept == UpTo(messages, cap)
  {
    kept := [];
    for i := 0 to |messages|
      invariant kept == UpTo(messages[..i], cap)
    {
      UpToSnoc(messages, i, cap);
      if LessThanOrEqual(messages[i].offset, cap) { kept := kept + [messages[i]]; }
    }
    assert messages[..|messages|] == messages;
  }

  /** Moves physical offsets to logical ones. */
  method Translate(raw: seq<Message>, distance: nat) returns (messages: seq<Message>)
    ensures messages == Shift(raw, distance)
  {
    messages := [];
    for i := 0 to |raw|
      invariant messages == Shift(raw[..i], distance)
    {
      ShiftSnoc(raw, i, distance);
      var o := Offset(raw[i].offset.readSeq, raw[i].offset.byteOffset + distance);
      messages := messages + [Message(raw[i].data, o)];
    }
    assert raw[..|raw|] == raw;
  }
}
