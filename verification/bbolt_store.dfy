/** Durable stream metadata: one record per path, each operation one atomic read and write of a record. */
module BboltStores {
  import opened Wrappers
  import opened Offsets
  import opened OffsetText
  import opened StoreTypes

  /** Instants are counted in nanoseconds and stored in whole seconds. */
  const SECOND: int := 1_000_000_000

  datatype Record = Record(
    path: string,
    contentType: string,
    currentOffset: string,
    lastSeq: string,
    ttlSeconds: Option<int>,
    expiresAt: Option<int>,
    directoryName: string,
    producers: map<string, ProducerState>,
    closed: bool,
    closedBy: Option<ClosedBy>,
    forkedFrom: string,
    forkOffset: string,
    forkOffsetRequested: string,
    forkSubOffset: nat,
    refCount: int,
    softDeleted: bool)

  type Records = map<string, Record>

  /** The record Put writes: offsets as text, expiry in seconds, fork fields for forks only. */
  function EncodeRecord(path: string, meta: Metadata, dir: string): Record {
    var isFork := meta.forkedFrom != "";
    Record(path, meta.contentType, String(meta.currentOffset), meta.lastSeq, meta.ttlSeconds,
           match meta.expiresAt case None => None case Some(t) => Some(t / SECOND),
           dir, meta.producers, meta.closed, meta.closedBy, meta.forkedFrom,
           if isFork then String(meta.forkOffset) else "",
           if isFork && meta.forkOffsetRequested.Some? then String(meta.forkOffsetRequested.value) else "",
           if isFork then meta.forkSubOffset else 0,
           meta.refCount, meta.softDeleted)
  }

  /** What Get and ForEach rebuild from a record. */
  function DecodeRecord(rec: Record): Result<Metadata, OffsetError> {
    match ParseOffset(rec.currentOffset)
    case Err(e) => Err(e)
    case Ok(current) =>
      match ParseOffset(rec.forkOffset)
      case Err(e) => Err(e)
      case Ok(fork) =>
        match if rec.forkOffsetRequested == "" then Ok(ZERO_OFFSET) else ParseOffset(rec.forkOffsetRequested)
        case Err(e) => Err(e)
        case Ok(requested) =>
          Ok(Metadata(rec.contentType, current, rec.lastSeq, rec.ttlSeconds,
                      match rec.expiresAt case None => None case Some(t) => Some(t * SECOND),
                      rec.producers, rec.closed, rec.closedBy, rec.forkedFrom, fork,
                      if rec.forkOffsetRequested == "" then None else Some(requested),
                      rec.forkSubOffset, rec.refCount, rec.softDeleted))
  }

  /** What survives storing: no fraction of a second, and fork fields for forks only. */
  function Durable(meta: Metadata): Metadata {
    var whole := meta.(expiresAt := match meta.expiresAt case None => None case Some(t) => Some(t / SECOND * SECOND));
    if meta.forkedFrom != "" then whole
    else whole.(forkOffset := ZERO_OFFSET, forkOffsetRequested := None, forkSubOffset := 0)
  }

  /** Every stored offset is a pair of uint64 values. */
  predicate OffsetsInRange(meta: Metadata) {
    && InRange(meta.currentOffset)
    && (meta.forkedFrom != "" ==>
      InRange(meta.forkOffset) && (meta.forkOffsetRequested.Some? ==> InRange(meta.forkOffsetRequested.value)))
  }

  /** A record gives back its metadata exactly when its offsets are uint64 values. */
  lemma {:induction false} RecordRoundTrip(path: string, meta: Metadata, dir: string)
    ensures DecodeRecord(EncodeRecord(path, meta, dir)).Ok? <==> OffsetsInRange(meta)
    ensures OffsetsInRange(meta) ==> DecodeRecord(EncodeRecord(path, meta, dir)) == Ok(Durable(meta))
  {
    ParseString(meta.currentOffset);
    if meta.forkedFrom != "" {
      ParseString(meta.forkOffset);
      if meta.forkOffsetRequested.Some? { ParseString(meta.forkOffsetRequested.value); }
    }
  }

  /** Storing again what was read back changes nothing. */
  lemma {:induction false} DurableTwice(path: string, meta: Metadata, dir: string)
    ensures Durable(Durable(meta)) == Durable(meta)
    ensures EncodeRecord(path, Durable(meta), dir) == EncodeRecord(path, meta, dir)
  {
    if meta.expiresAt.Some? {
      var t := meta.expiresAt.value;
      assert t / SECOND * SECOND / SECOND == t / SECOND;
    }
  }

  // ---- The partial updates, as changes of a record ----

  function WithOffset(rec: Record, offset: Offset, lastSeq: string): Record {
    rec.(currentOffset := String(offset), lastSeq := if lastSeq != "" then lastSeq else rec.lastSeq)
  }

  function WithAppendState(rec: Record, offset: Offset, lastSeq: string, producerId: string,
                           state: Option<ProducerState>, closed: bool, closedBy: Option<ClosedBy>): Record {
    WithOffset(rec, offset, lastSeq).(
      producers := if producerId != "" && state.Some? then rec.producers[producerId := state.value] else rec.producers,
      closed := rec.closed || closed,
      closedBy := if closed && closedBy.Some? then closedBy else rec.closedBy)
  }

  function WithClosed(rec: Record, closed: bool, closedBy: Option<ClosedBy>): Record {
    rec.(closed := closed, closedBy := if closedBy.Some? then closedBy else rec.closedBy)
  }

  class BboltMetadataStore {
    var records: Records

    constructor ()
      ensures records == map[]
    {
      records := map[];
    }

    method Put(path: string, meta: Metadata, dir: string)
      modifies this
      ensures records == old(records)[path := EncodeRecord(path, meta, dir)]
    {
      var isFork := meta.forkedFrom != "";
      var rec := Record(path, meta.contentType, String(meta.currentOffset), meta.lastSeq, meta.ttlSeconds, None,
                        dir, meta.producers, meta.closed, meta.closedBy, meta.forkedFrom, "", "", 0,
                        meta.refCount, meta.softDeleted);
      if meta.expiresAt.Some? {
        rec := rec.(expiresAt := Some(meta.expiresAt.value / SECOND));
      }
      if meta.forkedFrom != "" {
        rec := rec.(forkOffset := String(meta.forkOffset));
        if meta.forkOffsetRequested.Some? {
          rec := rec.(forkOffsetRequested := String(meta.forkOffsetRequested.value));
        }
        rec := rec.(forkSubOffset := meta.forkSubOffset);
      }
      records := records[path := rec];
    }

    method Get(path: string) returns (r: Option<(Result<Metadata, OffsetError>, string)>)
      ensures r == if path in records then Some((DecodeRecord(records[path]), records[path].directoryName)) else None
    {
      if path !in records { return None; }
      var rec := records[path];
      return Some((DecodeRecord(rec), rec.directoryName));
    }

    method Delete(path: string) returns (found: bool)
      modifies this
      ensures found == (path in old(records)) && records == old(records) - {path}
    {
      found := path in records;
      records := records - {path};
    }

    method UpdateOffset(path: string, offset: Offset, lastSeq: string) returns (found: bool)
      modifies this
      ensures found == (path in old(records))
      ensures records == if found then old(records)[path := WithOffset(old(records)[path], offset, lastSeq)]
                         else old(records)
    {
      if path !in records { return false; }
      var rec := records[path];
      rec := rec.(currentOffset := String(offset));
      if lastSeq != "" { rec := rec.(lastSeq := lastSeq); }
      records := records[path := rec];
      return true;
    }

    /** Offset, sequence, producer state and closure in one transaction. */
    method UpdateAppendState(path: string, offset: Offset, lastSeq: string, producerId: string,
                             state: Option<ProducerState>, closed: bool, closedBy: Option<ClosedBy>)
      returns (found: bool)
      modifies this
      ensures found == (path in old(records))
      ensures records ==
        if found then old(records)[path :=
          WithAppendState(old(records)[path], offset, lastSeq, producerId, state, closed, closedBy)]
        else old(records)
    {
      if path !in records { return false; }
      var rec := records[path];
      rec := rec.(currentOffset := String(offset));
      if lastSeq != "" { rec := rec.(lastSeq := lastSeq); }
      if producerId != "" && state.Some? {
        rec := rec.(producers := rec.producers[producerId := state.value]);
      }
      if closed {
        rec := rec.(closed := true);
        if closedBy.Some? { rec := rec.(closedBy := closedBy); }
      }
      records := records[path := rec];
      return true;
    }

    method SetClosed(path: string, closed: bool, closedBy: Option<ClosedBy>) returns (found: bool)
      modifies this
      ensures found == (path in old(records))
      ensures records == if found then old(records)[path := WithClosed(old(records)[path], closed, closedBy)]
                         else old(records)
    {
      if path !in records { return false; }
      var rec := records[path];
      rec := rec.(closed := closed);
      if closedBy.Some? { rec := rec.(closedBy := closedBy); }
      records := records[path := rec];
      return true;
    }

    method IncrementRefCount(path: string) returns (found: bool)
      modifies this
      ensures found == (path in old(records))
      ensures records ==
        if found then old(records)[path := old(records)[path].(refCount := old(records)[path].refCount + 1)]
        else old(records)
    {
      if path !in records { return false; }
      var rec := records[path];
      records := records[path := rec.(refCount := rec.refCount + 1)];
      return true;
    }

    /** Returns the new count and whether the stream is soft-deleted. */
    method DecrementRefCount(path: string) returns (r: Option<(int, bool)>)
      modifies this
      ensures r.Some? == (path in old(records))
      ensures r.Some? ==> (
        && r.value == (old(records)[path].refCount - 1, old(records)[path].softDeleted)
        && records == old(records)[path := old(records)[path].(refCount := r.value.0)])
      ensures r.None? ==> records == old(records)
    {
      if path !in records { return None; }
      var rec := records[path];
      rec := rec.(refCount := rec.refCount - 1);
      records := records[path := rec];
      return Some((rec.refCount, rec.softDeleted));
    }

    method SoftDelete(path: string) returns (found: bool)
      modifies this
      ensures found == (path in old(records))
      ensures records == if found then old(records)[path := old(records)[path].(softDeleted := true)]
                         else old(records)
    {
      if path !in records { return false; }
      var rec := records[path];
      records := records[path := rec.(softDeleted := true)];
      return true;
    }
  }
}
