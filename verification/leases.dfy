/** When a stream counts as expired, and what a restart makes of that: the time of its last access is not stored. */
module Leases {
  import opened Wrappers
  import opened Offsets
  import opened StoreTypes
  import opened StreamStore
  import opened BboltStores
  import opened FileRecovery

  /** The instant that a time nobody set stands for, the start of the year 1, in nanoseconds before 1970. */
  const ZERO_TIME: int := -62_135_596_800 * SECOND

  const HALF_INT64: int := 0x8000_0000_0000_0000

  /** A number of seconds as a duration in nanoseconds, in 64 bits. */
  function Duration(seconds: int): (d: int)
    ensures -HALF_INT64 <= d < HALF_INT64
    ensures -HALF_INT64 <= seconds * SECOND < HALF_INT64 ==> d == seconds * SECOND
  {
    (seconds * SECOND + HALF_INT64) % (2 * HALF_INT64) - HALF_INT64
  }

  predicate IsExpired(meta: Metadata, lastAccess: int, now: int) {
    || (meta.expiresAt.Some? && now > meta.expiresAt.value)
    || (meta.ttlSeconds.Some? && now > lastAccess + Duration(meta.ttlSeconds.value))
  }

  /** A lease lasts up to and including its last instant, counted from the last access or as a time of day. */
  lemma {:induction false} LeaseEnds(meta: Metadata, lastAccess: int, now: int)
    requires meta.ttlSeconds.Some? ==> -HALF_INT64 <= meta.ttlSeconds.value * SECOND < HALF_INT64
    ensures IsExpired(meta, lastAccess, now) <==>
      || (meta.expiresAt.Some? && meta.expiresAt.value < now)
      || (meta.ttlSeconds.Some? && meta.ttlSeconds.value * SECOND < now - lastAccess)
  {
  }

  /** A stream without a time to live whose expiry, in whole seconds, is not past. */
  predicate KeepsLease(meta: Metadata, now: int) {
    meta.ttlSeconds.None? && (meta.expiresAt.Some? ==> now <= meta.expiresAt.value / SECOND * SECOND)
  }

  lemma {:induction false} TtlPast(meta: Metadata, now: int)
    requires now >= 0 && meta.ttlSeconds.Some?
    ensures IsExpired(Durable(meta), ZERO_TIME, now)
  {
    assert ZERO_TIME + HALF_INT64 < 0;
  }

  /**
   * A restart leaves it as it is whether a stream counts as expired, at any time since 1970, exactly when it was
   * expired anyway, or has no time to live and no expiry within the second that storing cuts off.
   */
  lemma {:induction false} LeaseAfterReopening(meta: Metadata, lastAccess: int, now: int)
    requires now >= 0 && lastAccess >= ZERO_TIME
    ensures IsExpired(Durable(meta), ZERO_TIME, now) == IsExpired(meta, lastAccess, now) <==>
      IsExpired(meta, lastAccess, now) || KeepsLease(meta, now)
    ensures IsExpired(meta, lastAccess, now) ==> IsExpired(Durable(meta), ZERO_TIME, now)
  {
    if meta.ttlSeconds.Some? { TtlPast(meta, now); }
    if meta.expiresAt.Some? {
      var t := meta.expiresAt.value;
      assert t / SECOND * SECOND <= t;
    }
  }

  // ---- A whole store ----

  /** The streams that count as expired, for the times of their last accesses. */
  function ExpiredAt(m: Streams, access: map<string, int>, now: int): set<string>
    requires m.Keys <= access.Keys
  {
    set p | p in m && IsExpired(m[p].meta, access[p], now)
  }

  function NoAccess(m: Streams): map<string, int> {
    map p | p in m :: ZERO_TIME
  }

  /** After a restart, the streams that were expired are, and all those that do not keep their lease. */
  lemma {:induction false} ExpiredAfterReopening(s: State, access: map<string, int>, now: int)
    requires now >= 0 && s.streams.Keys <= access.Keys && forall p :: p in access ==> access[p] >= ZERO_TIME
    ensures Reopened(s).streams.Keys == s.streams.Keys
    ensures ExpiredAt(Reopened(s).streams, NoAccess(Reopened(s).streams), now) ==
      ExpiredAt(s.streams, access, now) + set p | p in s.streams && !KeepsLease(s.streams[p].meta, now)
  {
    var r := Reopened(s).streams;
    assert r.Keys == s.streams.Keys;
    forall p | p in s.streams
      ensures IsExpired(r[p].meta, ZERO_TIME, now) <==>
        IsExpired(s.streams[p].meta, access[p], now) || !KeepsLease(s.streams[p].meta, now)
    {
      LeaseAfterReopening(s.streams[p].meta, access[p], now);
    }
  }

  /** The failing lease: a stream read this very moment, with an hour to live, cannot be read after a restart. */
  lemma {:induction false} HourLost(s: State, p: string, o: Offset, access: map<string, int>, now: int)
    requires now >= 0 && Ordered(s.streams) && Ordered(Reopened(s).streams) && s.streams.Keys <= access.Keys
    requires p in s.streams && access[p] == now && forall q :: q in access ==> access[q] >= ZERO_TIME
    requires s.streams[p].meta.ttlSeconds == Some(3600) && s.streams[p].meta.expiresAt == None
    ensures p !in ExpiredAt(s.streams, access, now)
    ensures Reopened(s).streams.Keys == s.streams.Keys
    ensures Read(Reopened(s), p, o, ExpiredAt(Reopened(s).streams, NoAccess(Reopened(s).streams), now)) == Err(NotFound)
  {
    ExpiredAfterReopening(s, access, now);
    assert Duration(3600) == 3600 * SECOND;
  }
}
