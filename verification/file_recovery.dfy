/** Starting a file store again: loading records, repairing reference counts, and recovering torn segments. */
module FileRecovery {
  import opened Wrappers
  import opened Offsets
  import opened OffsetText
  import opened StoreTypes
  import opened StreamStore
  import opened StoreInvariant
  import opened BboltStores
  import opened FileLayouts
  import ForkGraph
  import Logs
  import Segments
  import Sets

  type Metas = map<string, Metadata>

  // ---- Loading ----

  /** A record carries fork fields only for a fork, as Put writes it. */
  predicate Canonical(rec: Record) {
    rec.forkedFrom == "" ==> rec.forkOffset == "" && rec.forkOffsetRequested == "" && rec.forkSubOffset == 0
  }

  predicate NamedAt(records: Records, p: string)
    requires p in records
  {
    records[p].path == p
  }

  /** Every record lies under its own path. */
  ghost predicate Named(records: Records) {
    forall p {:trigger NamedAt(records, p)} :: p in records ==> NamedAt(records, p)
  }

  predicate KeyedAt(records: Records, p: string)
    requires p in records
  {
    NamedAt(records, p) && Canonical(records[p])
  }

  predicate Decodes(records: Records, p: string)
    requires p in records
  {
    DecodeRecord(records[p]).Ok?
  }

  ghost predicate Keyed(records: Records) {
    forall p {:trigger KeyedAt(records, p)} :: p in records ==> KeyedAt(records, p)
  }

  lemma {:induction false} KeyedNamed(records: Records)
    requires Keyed(records)
    ensures Named(records)
  {
    forall p | p in records ensures NamedAt(records, p) { assert KeyedAt(records, p); }
  }

  ghost predicate Readable(records: Records) {
    forall p {:trigger Decodes(records, p)} :: p in records ==> Decodes(records, p)
  }

  function MetaAt(records: Records, p: string): Metadata
    requires p in records && Decodes(records, p)
  {
    DecodeRecord(records[p]).value
  }

  function LoadedMetas(records: Records): Metas
    requires Readable(records)
  {
    map p | p in records :: MetaAt(records, p)
  }

  function LoadedDirs(records: Records): map<string, string> {
    map p | p in records :: records[p].directoryName
  }

  lemma {:induction false} LoadedKeys(records: Records)
    requires Readable(records)
    ensures LoadedMetas(records).Keys == LoadedDirs(records).Keys == records.Keys
  {
  }

  /** Decoding never yields an offset that is not a pair of uint64 values, nor one that storing would change. */
  lemma {:induction false} DecodedIsDurable(rec: Record)
    requires Canonical(rec) && DecodeRecord(rec).Ok?
    ensures OffsetsInRange(DecodeRecord(rec).value)
    ensures Durable(DecodeRecord(rec).value) == DecodeRecord(rec).value
  {
    var meta := DecodeRecord(rec).value;
    assert InRange(ZERO_OFFSET);
    if rec.expiresAt.Some? { assert rec.expiresAt.value * SECOND / SECOND == rec.expiresAt.value; }
  }

  // ---- Reference counts ----

  /** The streams among `done` forked from `p`. */
  function ForksAmong(m: Metas, done: set<string>, p: string): set<string> {
    set c | c in done && c in m && m[c].forkedFrom == p && p != ""
  }

  function Repaired(m: Metas): Metas {
    map p | p in m :: m[p].(refCount := |ForksAmong(m, m.Keys, p)|)
  }

  lemma {:induction false} ForksGrow(m: Metas, done: set<string>, c: string, p: string)
    requires c in m && c !in done
    ensures |ForksAmong(m, done + {c}, p)| ==
      |ForksAmong(m, done, p)| + (if m[c].forkedFrom == p && p != "" then 1 else 0)
  {
    if m[c].forkedFrom == p && p != "" {
      Sets.OneMore(ForksAmong(m, done, p), ForksAmong(m, done + {c}, p), c);
    } else {
      Sets.Same(ForksAmong(m, done, p), ForksAmong(m, done + {c}, p));
    }
  }

  /** The records after repair: a stream whose count was wrong is stored again. */
  function RepairedRecords(records: Records, m: Metas, dirs: map<string, string>): Records
    requires m.Keys == dirs.Keys == records.Keys
  {
    map p | p in records ::
      if m[p].refCount == Repaired(m)[p].refCount then records[p] else EncodeRecord(p, Repaired(m)[p], dirs[p])
  }

  /**
   * After loading and repair, for any records whatsoever, each stored and each cached count is the number of
   * loaded forks, and no other field a reader sees has changed.
   */
  lemma {:induction false} RepairIsDurable(records: Records, p: string)
    requires Keyed(records) && Readable(records) && p in records
    ensures var m := LoadedMetas(records);
      var stored := RepairedRecords(records, m, LoadedDirs(records))[p];
      && DecodeRecord(stored) == Ok(m[p].(refCount := |ForksAmong(m, m.Keys, p)|))
      && stored.directoryName == records[p].directoryName && stored.path == p
  {
    var m := LoadedMetas(records);
    assert KeyedAt(records, p) && Decodes(records, p);
    var n := |ForksAmong(m, m.Keys, p)|;
    StoredCount(p, records[p], n);
    assert Repaired(m)[p] == m[p].(refCount := n);
  }

  /** One record with its count put right, stored again only if the count was wrong. */
  lemma {:induction false} StoredCount(p: string, rec: Record, n: int)
    requires rec.path == p && Canonical(rec) && DecodeRecord(rec).Ok?
    ensures var meta := DecodeRecord(rec).value;
      var stored := if meta.refCount == n then rec else EncodeRecord(p, meta.(refCount := n), rec.directoryName);
      && DecodeRecord(stored) == Ok(meta.(refCount := n))
      && stored.directoryName == rec.directoryName && stored.path == p
  {
    RepairedRecord(p, rec, n);
  }

  lemma {:induction false} NothingToRepair(records: Records)
    requires Keyed(records) && Readable(records)
    requires Repaired(LoadedMetas(records)) == LoadedMetas(records)
    ensures RepairedRecords(records, LoadedMetas(records), LoadedDirs(records)) == records
  {
  }

  /** Repairing twice changes nothing more. */
  lemma {:induction false} RepairTwice(m: Metas)
    ensures Repaired(Repaired(m)) == Repaired(m)
  {
    var r := Repaired(m);
    forall p | p in m ensures r[p].(refCount := |ForksAmong(r, r.Keys, p)|) == r[p] {
      Sets.Same(ForksAmong(r, r.Keys, p), ForksAmong(m, m.Keys, p));
    }
  }

  /** Writing back a repaired count changes the stored count and nothing else that a reader of the record sees. */
  lemma {:induction false} RepairedRecord(p: string, rec: Record, n: int)
    requires rec.path == p && Canonical(rec) && DecodeRecord(rec).Ok?
    ensures var meta := DecodeRecord(rec).value.(refCount := n);
      var rec' := EncodeRecord(p, meta, rec.directoryName);
      DecodeRecord(rec') == Ok(meta) && rec'.directoryName == rec.directoryName && rec'.path == p
  {
    DecodedIsDurable(rec);
    RecordRoundTrip(p, DecodeRecord(rec).value.(refCount := n), rec.directoryName);
  }

  // ---- Reopening after an orderly run ----

  /** The state after its metadata went through storage: whole-second expiry, everything else as it was. */
  function Reopened(s: State): State {
    s.(streams := map p | p in s.streams :: s.streams[p].(meta := Durable(s.streams[p].meta)))
  }

  predicate StoredInRange(s: State, p: string)
    requires p in s.streams
  {
    OffsetsInRange(s.streams[p].meta)
  }

  ghost predicate AllInRange(s: State) {
    forall p {:trigger StoredInRange(s, p)} :: p in s.streams ==> StoredInRange(s, p)
  }

  /** What an orderly run leaves behind: a reachable state, laid out, with uint64 offsets. */
  ghost predicate Orderly(l: Layout, s: State) {
    Inv(FILE, s) && Stored(l, s) && AllInRange(s)
  }

  /** The layout the store has right after loading. */
  function LoadedLayout(files: map<string, Bytes>, records: Records): Layout
    requires Readable(records)
  {
    FileLayouts.Layout(LoadedMetas(records), LoadedDirs(records), files, records)
  }

  lemma {:induction false} StoredRecords(l: Layout, s: State)
    requires Orderly(l, s)
    ensures Keyed(l.records) && Readable(l.records)
    ensures forall p :: p in s.streams ==>
      p in l.records && DecodeRecord(l.records[p]) == Ok(Durable(s.streams[p].meta))
      && p in l.dirs && l.records[p].directoryName == l.dirs[p]
  {
    forall p | p in s.streams
      ensures p in l.records && l.records[p].path == p && Canonical(l.records[p])
      ensures DecodeRecord(l.records[p]) == Ok(Durable(s.streams[p].meta))
      ensures p in l.dirs && l.records[p].directoryName == l.dirs[p]
    {
      assert Entry(l, s, p) && StoredInRange(s, p);
      RecordRoundTrip(p, s.streams[p].meta, l.dirs[p]);
    }
    forall p | p in l.records ensures KeyedAt(l.records, p) && Decodes(l.records, p) {
      assert p in l.records.Keys;
    }
  }

  /** Only the fraction of a second of an expiry time is lost. */
  lemma {:induction false} DurableLoss(st: Stream)
    requires LogOk(FILE, st)
    ensures Durable(st.meta) == st.meta.(expiresAt := Durable(st.meta).expiresAt)
    ensures LogOk(FILE, st.(meta := Durable(st.meta)))
  {
  }

  lemma {:induction false} ReopenedOk(s: State)
    requires Inv(FILE, s)
    ensures Inv(FILE, Reopened(s))
  {
    forall p | p in s.streams ensures StreamOk(FILE, Reopened(s), p) {
      ReopenedStream(s, p);
    }
    ReopenedGraph(s.streams, Reopened(s).streams);
  }

  /** The fork graph depends on links, counts and marks only. */
  predicate SameNode(a: Stream, b: Stream) {
    SameLinks(a, b) && a.meta.refCount == b.meta.refCount && a.meta.softDeleted == b.meta.softDeleted
  }

  lemma {:induction false} ReopenedGraph(m: Streams, r: Streams)
    requires ForkGraph.Graph(m) && m.Keys == r.Keys
    requires forall p {:trigger r[p]} :: p in m ==> SameNode(m[p], r[p])
    ensures ForkGraph.Graph(r)
  {
    forall p | p in r ensures ForkGraph.LinkOk(r, p) {
      assert ForkGraph.LinkOk(m, p) && SameNode(m[p], r[p]);
      if r[p].meta.forkedFrom in r { assert SameNode(m[r[p].meta.forkedFrom], r[r[p].meta.forkedFrom]); }
    }
    forall p | p in r ensures r[p].meta.refCount == |ForkGraph.Children(r, p)| {
      SameChildren(m, r, p);
      assert m[p].meta.refCount == |ForkGraph.Children(m, p)|;
    }
  }

  lemma {:induction false} ReopenedStream(s: State, p: string)
    requires Inv(FILE, s) && p in s.streams
    ensures StreamOk(FILE, Reopened(s), p)
  {
    assert StreamOk(FILE, s, p);
    DurableLoss(s.streams[p]);
    var source := s.streams[p].meta.forkedFrom;
    if source in s.streams {
      assert StreamOk(FILE, s, source);
      DurableLoss(s.streams[source]);
    }
  }

  lemma {:induction false} SameChildren(m: Streams, r: Streams, p: string)
    requires m.Keys == r.Keys && forall q :: q in m ==> m[q].meta.forkedFrom == r[q].meta.forkedFrom
    ensures ForkGraph.Children(r, p) == ForkGraph.Children(m, p)
  {
  }

  /**
   * Reopening a store after an orderly run rebuilds the same offsets, producer states, closure and fork graph:
   * loading gives the cached metadata back, and repair finds nothing to do.
   */
  lemma {:induction false} CleanReopen(l: Layout, s: State)
    requires Orderly(l, s)
    ensures Keyed(l.records) && Readable(l.records)
    ensures Stored(LoadedLayout(l.files, l.records), Reopened(s)) && Inv(FILE, Reopened(s))
    ensures Repaired(LoadedMetas(l.records)) == LoadedMetas(l.records)
  {
    StoredRecords(l, s);
    ReopenedOk(s);
    var l', s' := LoadedLayout(l.files, l.records), Reopened(s);
    forall p | p in s'.streams ensures Entry(l', s', p) {
      assert Entry(l, s, p);
      DurableTwice(p, s.streams[p].meta, l.dirs[p]);
    }
    forall p, q ensures Apart(l'.dirs, p, q) {
      assert Apart(l.dirs, p, q);
    }
    CountsStand(l'.metas, s');
  }

  lemma {:induction false} CountsStand(m: Metas, s: State)
    requires Inv(FILE, s) && m.Keys == s.streams.Keys
    requires forall p :: p in m ==> m[p] == s.streams[p].meta
    ensures Repaired(m) == m
  {
    forall p | p in m ensures m[p].refCount == |ForksAmong(m, m.Keys, p)| {
      assert ForkGraph.LinkOk(s.streams, p);
      Sets.Same(ForksAmong(m, m.Keys, p), ForkGraph.Children(s.streams, p));
    }
  }

  // ---- Recovering segments ----

  /** What recovery makes of one record: none when its segment is missing, else the offset of its whole frames. */
  function RecoveredRecord(rec: Record, files: map<string, Bytes>): Option<Record> {
    if rec.directoryName !in files then None
    else
      var end := Offset(0, Segments.ScanLength(files[rec.directoryName]));
      var current := ParseOffset(rec.currentOffset);
      if current == Ok(end) then Some(rec) else Some(WithOffset(rec, end, ""))
  }

  function RecoveredFile(bytes: Bytes): Bytes {
    bytes[..Segments.ScanLength(bytes)]
  }

  lemma {:induction false} RecoveredFileStable(bytes: Bytes)
    ensures Segments.ScanLength(RecoveredFile(bytes)) == Segments.ScanLength(bytes)
    ensures RecoveredFile(RecoveredFile(bytes)) == RecoveredFile(bytes)
  {
    Segments.RecoveryIdempotent(bytes);
  }

  /**
   * A root stream recovers: wherever the write of its frames was torn, and whatever offset the record had,
   * the segment is left with the longest run of whole messages and the record with their exact tail.
   */
  lemma {:induction false} RootRecovers(path: string, meta: Metadata, dir: string, written: seq<Bytes>, cut: nat,
                                        files: map<string, Bytes>)
    requires meta.forkedFrom == "" && meta.forkOffset == ZERO_OFFSET && InRange(meta.currentOffset)
    requires Segments.Fits(written) && cut <= |Segments.EncodeAll(written)|
    requires dir in files && files[dir] == Segments.EncodeAll(written)[..cut]
    ensures var kept := written[..Segments.WholeCount(written, cut)];
      && RecoveredFile(files[dir]) == Segments.EncodeAll(kept)
      && RecoveredRecord(EncodeRecord(path, meta, dir), files) ==
        Some(EncodeRecord(path, meta.(currentOffset := Tail(FILE, ZERO_OFFSET, kept)), dir))
  {
    Segments.TornWrite(written, cut);
    TailIsLength(ZERO_OFFSET, written[..Segments.WholeCount(written, cut)]);
    ParseString(meta.currentOffset);
  }

  lemma {:induction false} HeldIsWhole(bytes: Bytes, st: Stream)
    requires Holds(bytes, st)
    ensures Segments.ScanLength(bytes) == |bytes|
  {
    Segments.ScanEncoded(Logs.Datas(st.messages), []);
    assert bytes + [] == bytes;
  }

  lemma {:induction false} RecoveredEncoding(path: string, meta: Metadata, dir: string, files: map<string, Bytes>)
    requires InRange(meta.currentOffset) && dir in files
    ensures RecoveredRecord(EncodeRecord(path, meta, dir), files) ==
      Some(EncodeRecord(path, meta.(currentOffset := Offset(0, Segments.ScanLength(files[dir]))), dir))
  {
    ParseString(meta.currentOffset);
  }

  /** What recovery makes of a stream that nothing happened to: the length of its segment becomes its tail. */
  lemma {:induction false} RecoveredWhole(l: Layout, s: State, p: string)
    requires Orderly(l, s) && p in s.streams
    ensures Entry(l, s, p)
    ensures RecoveredRecord(l.records[p], l.files) ==
      Some(EncodeRecord(p, s.streams[p].meta.(currentOffset := Offset(0, |l.files[l.dirs[p]]|)), l.dirs[p]))
  {
    assert Entry(l, s, p) && StoredInRange(s, p);
    HeldIsWhole(l.files[l.dirs[p]], s.streams[p]);
    RecoveredEncoding(p, s.streams[p].meta, l.dirs[p], l.files);
  }

  /**
   * Recovery takes the physical length of a segment for the logical tail. After an orderly run it leaves a record
   * as it is exactly when the stream's own messages start at the beginning of the log.
   */
  lemma {:induction false} RecoveredTailExact(l: Layout, s: State, p: string)
    requires Orderly(l, s) && p in s.streams
    ensures p in l.records
    ensures RecoveredRecord(l.records[p], l.files) == Some(l.records[p]) <==>
      s.streams[p].meta.forkOffset == ZERO_OFFSET
  {
    RecoveredWhole(l, s, p);
    TailOfSegment(l, s, p);
    var st, end := s.streams[p], Offset(0, |l.files[l.dirs[p]]|);
    assert StreamOk(FILE, s, p);
    assert st.meta.currentOffset == end <==> st.meta.forkOffset == ZERO_OFFSET;
    if String(end) == String(st.meta.currentOffset) { StringInjective(end, st.meta.currentOffset); }
  }

  /** A fork with nothing of its own recovers with an empty log, its tail at the start and below its fork point. */
  lemma {:induction false} EmptyForkLost(l: Layout, s: State, p: string)
    requires Orderly(l, s) && p in s.streams
    requires s.streams[p].messages == [] && s.streams[p].meta.forkOffset != ZERO_OFFSET
    ensures p in l.records && RecoveredRecord(l.records[p], l.files).Some?
    ensures DecodeRecord(RecoveredRecord(l.records[p], l.files).value) ==
      Ok(Durable(s.streams[p].meta.(currentOffset := ZERO_OFFSET)))
    ensures LessThan(ZERO_OFFSET, s.streams[p].meta.forkOffset)
  {
    RecoveredWhole(l, s, p);
    assert StreamOk(FILE, s, p) && StoredInRange(s, p);
    RecordRoundTrip(p, s.streams[p].meta.(currentOffset := ZERO_OFFSET), l.dirs[p]);
  }

  method RecoverSegment(bytes: Bytes) returns (recovered: Bytes, offset: Offset)
    ensures recovered == RecoveredFile(bytes) && offset == Offset(0, Segments.ScanLength(bytes))
  {
    var file := new Segments.SegmentFile.Open(bytes);
    var discarded;
    offset, discarded := file.Recover();
    recovered := file.bytes;
    RecoveredFileStable(bytes);
  }

  /** Where a record's segment stands once the records in `done` have been recovered. */
  predicate FileRecovered(records: Records, done: set<string>, before: map<string, Bytes>, after: map<string, Bytes>,
                          dir: string)
  {
    dir in before && dir in after
    && after[dir] == (if exists p :: p in done && p in records && records[p].directoryName == dir
                      then RecoveredFile(before[dir]) else before[dir])
  }

  /** What recovery has made of the record at `p`. */
  predicate RecordRecovered(before: Records, files: map<string, Bytes>, after: Records, p: string)
    requires p in before
  {
    match RecoveredRecord(before[p], files)
    case None => p !in after
    case Some(rec) => p in after && after[p] == rec
  }

  lemma {:induction false} FileStep(records: Records, done: set<string>, before: map<string, Bytes>,
                                    after: map<string, Bytes>, path: string, dir: string)
    requires path in records && FileRecovered(records, done, before, after, dir)
    requires records[path].directoryName in after
    requires FileRecovered(records, done, before, after, records[path].directoryName)
    ensures var own := records[path].directoryName;
      FileRecovered(records, done + {path}, before, after[own := RecoveredFile(after[own])], dir)
  {
    var own := records[path].directoryName;
    RecoveredFileStable(before[own]);
    if dir == own { assert path in done + {path}; }
  }

  lemma {:induction false} FileSkip(records: Records, done: set<string>, before: map<string, Bytes>,
                                    after: map<string, Bytes>, path: string, dir: string)
    requires path in records && FileRecovered(records, done, before, after, dir)
    requires records[path].directoryName !in before
    ensures FileRecovered(records, done + {path}, before, after, dir)
  {
  }

  /** Scanning a file again, recovered or not, finds the same whole frames. */
  lemma {:induction false} ScanStable(records: Records, done: set<string>, before: map<string, Bytes>,
                                      after: map<string, Bytes>, dir: string)
    requires FileRecovered(records, done, before, after, dir)
    ensures Segments.ScanLength(after[dir]) == Segments.ScanLength(before[dir])
  {
    RecoveredFileStable(before[dir]);
  }

  /** Recovers one stream: its segment, and its record if the segment's length says otherwise. */
  method RecoverOne(store: BboltMetadataStore, path: string, files: map<string, Bytes>)
    returns (recovered: map<string, Bytes>)
    requires path in store.records
    modifies store
    ensures RecordRecovered(old(store.records), files, store.records, path)
    ensures forall q :: q != path ==> (q in store.records <==> q in old(store.records))
    ensures forall q :: q != path && q in store.records ==> store.records[q] == old(store.records)[q]
    ensures var dir := old(store.records)[path].directoryName;
      recovered == if dir in files then files[dir := RecoveredFile(files[dir])] else files
  {
    var rec := store.records[path];
    if rec.directoryName !in files {
      var _ := store.Delete(path);
      return files;
    }
    var bytes, trueOffset := RecoverSegment(files[rec.directoryName]);
    recovered := files[rec.directoryName := bytes];
    if ParseOffset(rec.currentOffset) != Ok(trueOffset) {
      var _ := store.UpdateOffset(path, trueOffset, "");
    }
  }

  /**
   * Recovers every stream: truncates torn segments, corrects offsets, drops records without a segment. It stops
   * at a record it cannot decode; then the streams before that one are recovered, and the others are as they were.
   */
  method RecoverStore(store: BboltMetadataStore, files: map<string, Bytes>)
    returns (recovered: map<string, Bytes>, done: set<string>, ok: bool)
    modifies store
    ensures ok <==> Readable(old(store.records))
    ensures recovered.Keys == files.Keys && done <= old(store.records).Keys
    ensures ok ==> done == old(store.records).Keys
    ensures forall dir {:trigger FileRecovered(old(store.records), done, files, recovered, dir)} ::
      dir in files ==> FileRecovered(old(store.records), done, files, recovered, dir)
    ensures forall p {:trigger RecordRecovered(old(store.records), files, store.records, p)} ::
      p in done ==> RecordRecovered(old(store.records), files, store.records, p)
    ensures forall p :: p in old(store.records) && p !in done ==>
      p in store.records && store.records[p] == old(store.records)[p]
  {
    ghost var start := store.records;
    recovered, done, ok := files, {}, true;
    var todo := store.records.Keys;
    while todo != {}
      invariant todo + done == start.Keys && todo !! done
      invariant recovered.Keys == files.Keys && ok
      invariant forall p {:trigger Decodes(start, p)} :: p in done ==> Decodes(start, p)
      invariant forall dir {:trigger FileRecovered(start, done, files, recovered, dir)} ::
        dir in files ==> FileRecovered(start, done, files, recovered, dir)
      invariant forall p :: p in todo ==> p in store.records && store.records[p] == start[p]
      invariant forall p {:trigger RecordRecovered(start, files, store.records, p)} ::
        p in done ==> RecordRecovered(start, files, store.records, p)
      decreases todo
    {
      var path :| path in todo;
      if DecodeRecord(store.records[path]).Err? {
        assert !Decodes(start, path);
        ok := false;
        return;
      }
      assert Decodes(start, path);
      ghost var was, then_ := recovered, store.records;
      ghost var own := start[path].directoryName;
      recovered := RecoverOne(store, path, recovered);
      forall dir | dir in files ensures FileRecovered(start, done + {path}, files, recovered, dir) {
        assert FileRecovered(start, done, files, was, dir);
        if own in files {
          assert FileRecovered(start, done, files, was, own);
          FileStep(start, done, files, was, path, dir);
        } else {
          FileSkip(start, done, files, was, path, dir);
        }
      }
      forall p | p in done + {path} ensures RecordRecovered(start, files, store.records, p) {
        if p != path {
          assert RecordRecovered(start, files, then_, p);
        } else if own in files {
          assert FileRecovered(start, done, files, was, own);
          ScanStable(start, done, files, was, own);
        }
      }
      todo, done := todo - {path}, done + {path};
    }
    assert done == start.Keys;
  }
}
