/**
 * A crash in the middle of a deletion. A deletion removes the records of the streams it dooms one by one; a crash after
 * any number of them leaves the rest, with whatever counts were stored by then.
 */
module DeletionCrashes {
  import opened Wrappers
  import opened StoreTypes
  import opened StreamStore
  import opened ForkGraph
  import opened StoreInvariant
  import opened BboltStores
  import opened FileLayouts
  import opened FileRecovery
  import opened FileStores
  import opened Tombstones
  import Sets

  // ---- The order of a deletion ----

  /** The map without `f`, and with one reference less on its source. */
  function Forget(m: Streams, f: string): (left: Streams)
    requires f in m
    ensures left.Keys == m.Keys - {f}
  {
    var rest, p := m - {f}, m[f].meta.forkedFrom;
    if p != "" && p in rest then SetRefCount(rest, p, rest[p].meta.refCount - 1) else rest
  }

  /** Removing `f` leaves its source marked and without forks. */
  predicate GoesOn(m: Streams, f: string)
    requires f in m
  {
    var p := m[f].meta.forkedFrom;
    p != "" && p in Forget(m, f) && Forget(m, f)[p].meta.refCount == 0 && Forget(m, f)[p].meta.softDeleted
  }

  /** The streams that deleting `f` removes, in the order in which their records go. */
  ghost function Order(m: Streams, f: string): (order: seq<string>)
    requires f in m
    ensures |order| > 0
    decreases |m.Keys|
  {
    Shrinks(m, f);
    [f] + (if GoesOn(m, f) then Order(Forget(m, f), m[f].meta.forkedFrom) else [])
  }

  /** The map after the first `k` of them went. */
  ghost function Stage(m: Streams, f: string, k: nat): Streams
    requires f in m && k <= |Order(m, f)|
    decreases k
  {
    if k == 0 then m
    else if k == 1 then Forget(m, f)
    else Stage(Forget(m, f), m[f].meta.forkedFrom, k - 1)
  }

  ghost function Gone(m: Streams, f: string, k: nat): set<string>
    requires f in m && k <= |Order(m, f)|
  {
    set q | q in Order(m, f)[..k]
  }

  /** The last stage is what the whole cascade leaves. */
  lemma {:induction false} CascadeIsLastStage(m: Streams, f: string)
    requires f in m && !Cascade(m, f).1
    ensures Cascade(m, f).0 == Stage(m, f, |Order(m, f)|)
    decreases |m.Keys|
  {
    Shrinks(m, f);
    if GoesOn(m, f) { CascadeIsLastStage(Forget(m, f), m[f].meta.forkedFrom); }
  }

  lemma {:induction false} StageKeys(m: Streams, f: string, k: nat)
    requires f in m && k <= |Order(m, f)|
    ensures Stage(m, f, k).Keys == m.Keys - Gone(m, f, k)
    ensures forall q :: q in Stage(m, f, k) ==> Stage(m, f, k)[q] == WithRefCount(m[q], Stage(m, f, k)[q].meta.refCount)
    decreases k
  {
    if k > 1 {
      var m', p := Forget(m, f), m[f].meta.forkedFrom;
      StageKeys(m', p, k - 1);
      assert Order(m, f)[..k] == [f] + Order(m', p)[..k - 1];
      assert Gone(m, f, k) == {f} + Gone(m', p, k - 1);
    } else if k == 1 {
      assert Order(m, f)[..1] == [f];
      assert Gone(m, f, 1) == {f};
    } else {
      assert Gone(m, f, 0) == {};
    }
  }

  lemma {:induction false} ForgetSame(m: Streams, m': Streams, f: string)
    requires m.Keys == m'.Keys && f in m && forall q :: q in m ==> SameNode(m[q], m'[q])
    ensures m[f].meta.forkedFrom == m'[f].meta.forkedFrom && Forget(m, f).Keys == Forget(m', f).Keys
    ensures forall q :: q in Forget(m, f) ==> SameNode(Forget(m, f)[q], Forget(m', f)[q])
    ensures GoesOn(m, f) <==> GoesOn(m', f)
  {
    var p := m[f].meta.forkedFrom;
    assert SameNode(m[f], m'[f]);
    if p in Forget(m, f) { assert SameNode(m[p], m'[p]); }
  }

  /** Maps that agree on links, counts and marks lose the same streams in the same order. */
  lemma {:induction false} OrderSame(m: Streams, m': Streams, f: string)
    requires m.Keys == m'.Keys && f in m && forall q :: q in m ==> SameNode(m[q], m'[q])
    ensures Order(m, f) == Order(m', f)
    decreases |m.Keys|
  {
    Shrinks(m, f);
    ForgetSame(m, m', f);
    if GoesOn(m, f) { OrderSame(Forget(m, f), Forget(m', f), m[f].meta.forkedFrom); }
  }

  // ---- What each stage is ----

  /** A reachable state, but that `f`, which has no forks, may carry a mark. */
  ghost predicate Going(z: Kind, s: State, f: string) {
    Removable(s.streams, f) && (forall p {:trigger StreamOk(z, s, p)} :: p in s.streams ==> StreamOk(z, s, p))
  }

  lemma {:induction false} ForgetStreams(z: Kind, s: State, f: string)
    requires Going(z, s, f)
    ensures var s' := s.(streams := Forget(s.streams, f));
      forall q {:trigger StreamOk(z, s', q)} :: q in s'.streams ==> StreamOk(z, s', q)
  {
    var s' := s.(streams := Forget(s.streams, f));
    forall q | q in s'.streams ensures StreamOk(z, s', q) {
      assert StreamOk(z, s, q);
    }
  }

  /** Removing one record leads on to the source, or to a reachable state. */
  lemma {:induction false} ForgetOk(z: Kind, s: State, f: string)
    requires Going(z, s, f)
    ensures var s' := s.(streams := Forget(s.streams, f));
      if GoesOn(s.streams, f) then Going(z, s', s.streams[f].meta.forkedFrom) else Inv(z, s')
  {
    var m, p := s.streams, s.streams[f].meta.forkedFrom;
    ForgetStreams(z, s, f);
    if p == "" {
      StopGraph(m, f, Forget(m, f));
    } else {
      assert LinkOk(m, f) && Younger(m, f);
      ReleaseKeeps(m, f);
      assert Forget(m, f) == Release(m, f);
      if GoesOn(m, f) {
        assert Forget(m, f)[p].meta.refCount == |Children(Forget(m, f), p)|;
      } else {
        StopGraph(m, f, Forget(m, f));
      }
    }
  }

  lemma {:induction false} StageOk(z: Kind, s: State, f: string, k: nat)
    requires Going(z, s, f) && 0 < k <= |Order(s.streams, f)|
    ensures var s' := s.(streams := Stage(s.streams, f, k));
      if k == |Order(s.streams, f)| then Inv(z, s')
      else
        var p := Order(s.streams, f)[k];
        Going(z, s', p) && s'.streams[p].meta.softDeleted
    decreases k
  {
    ForgetOk(z, s, f);
    var m, p := s.streams, s.streams[f].meta.forkedFrom;
    if k > 1 {
      StageOk(z, s.(streams := Forget(m, f)), p, k - 1);
    } else if GoesOn(m, f) {
      assert Order(m, f)[1] == Order(Forget(m, f), p)[0] == p;
    }
  }

  /** The stream a cut-off deletion would have removed next is a tombstone without forks, and no reachable one. */
  lemma {:induction false} GoingHaunted(z: Kind, s: State, p: string)
    requires Going(z, s, p) && s.streams[p].meta.softDeleted
    ensures Haunted(z, s, p) && !Inv(z, s)
  {
    var u := Unmarked(s, p);
    assert s.streams[p].meta.refCount == |Children(s.streams, p)|;
    UpdateKeepsChildren(s.streams, p, u.streams[p]);
    forall q | q in u.streams ensures u.streams[q].meta.refCount == |Children(u.streams, q)| {
      assert s.streams[q].meta.refCount == |Children(s.streams, q)|;
    }
    UnmarkedStreams(z, s, p);
  }

  lemma {:induction false} UnmarkedStreams(z: Kind, s: State, p: string)
    requires p in s.streams && forall q {:trigger StreamOk(z, s, q)} :: q in s.streams ==> StreamOk(z, s, q)
    ensures forall q {:trigger StreamOk(z, Unmarked(s, p), q)} ::
      q in Unmarked(s, p).streams ==> StreamOk(z, Unmarked(s, p), q)
  {
    forall q | q in Unmarked(s, p).streams ensures StreamOk(z, Unmarked(s, p), q) {
      assert StreamOk(z, s, q);
    }
  }

  // ---- What starting again makes of the records ----

  /** A record with any count at all. */
  predicate SameButCount(rec: Record, left: Record) {
    left == rec.(refCount := left.refCount)
  }

  predicate RecordLeft(records: Records, left: Records, p: string)
    requires p in left
  {
    p in records && SameButCount(records[p], left[p])
  }

  /** The records that are left when those in `gone` were deleted. */
  ghost predicate RecordsLeft(records: Records, gone: set<string>, left: Records) {
    && left.Keys == records.Keys - gone
    && (forall p {:trigger RecordLeft(records, left, p)} :: p in left ==> RecordLeft(records, left, p))
  }

  predicate StreamLeft(s: State, a: State, q: string)
    requires q in a.streams
  {
    && q in s.streams && a.streams[q].messages == s.streams[q].messages
    && a.streams[q].meta == Durable(s.streams[q].meta).(refCount := a.streams[q].meta.refCount)
  }

  /** The streams in `gone` are gone, and those left count the forks that are left. */
  ghost predicate StreamsLeft(s: State, gone: set<string>, a: State) {
    && a.streams.Keys == s.streams.Keys - gone && Counted(a.streams)
    && (forall q {:trigger StreamLeft(s, a, q)} :: q in a.streams ==> StreamLeft(s, a, q))
  }

  lemma {:induction false} CountDecodes(p: string, meta: Metadata, dir: string, rec: Record)
    requires OffsetsInRange(meta) && SameButCount(EncodeRecord(p, meta, dir), rec)
    ensures DecodeRecord(rec) == Ok(Durable(meta).(refCount := rec.refCount)) && rec.directoryName == dir
    ensures rec.path == p && Canonical(rec)
    ensures forall n: int {:trigger rec.(refCount := n)} ::
      EncodeRecord(p, Durable(meta).(refCount := n), dir) == rec.(refCount := n)
  {
    var counted := meta.(refCount := rec.refCount);
    assert rec == EncodeRecord(p, counted, dir);
    RecordRoundTrip(p, counted, dir);
    forall n: int {:trigger rec.(refCount := n)}
      ensures EncodeRecord(p, Durable(meta).(refCount := n), dir) == rec.(refCount := n)
    {
      DurableTwice(p, meta.(refCount := n), dir);
    }
  }

  /** One record left behind: it decodes to the stored metadata, with its own count. */
  lemma {:induction false} LeftDecodes(l: FileLayouts.Layout, s: State, gone: set<string>, left: Records, q: string)
    requires Orderly(l, s) && RecordsLeft(l.records, gone, left) && q in left
    ensures q in s.streams && q in l.dirs
    ensures DecodeRecord(left[q]) == Ok(Durable(s.streams[q].meta).(refCount := left[q].refCount))
    ensures left[q].directoryName == l.dirs[q] && KeyedAt(left, q)
    ensures forall n: int {:trigger left[q].(refCount := n)} ::
      EncodeRecord(q, Durable(s.streams[q].meta).(refCount := n), l.dirs[q]) == left[q].(refCount := n)
  {
    assert RecordLeft(l.records, left, q) && q in l.records.Keys;
    assert Entry(l, s, q) && StoredInRange(s, q);
    CountDecodes(q, s.streams[q].meta, l.dirs[q], left[q]);
  }

  /** After a crash the remaining records can be loaded. */
  lemma {:induction false} ReadableLeft(l: FileLayouts.Layout, s: State, gone: set<string>, left: Records)
    requires Orderly(l, s) && RecordsLeft(l.records, gone, left)
    ensures Keyed(left) && Readable(left)
  {
    forall p | p in left ensures KeyedAt(left, p) && Decodes(left, p) {
      LeftDecodes(l, s, gone, left, p);
    }
  }

  lemma {:induction false} LeftLoads(l: FileLayouts.Layout, s: State, gone: set<string>, left: Records, q: string)
    requires Orderly(l, s) && RecordsLeft(l.records, gone, left) && q in left && Readable(left)
    ensures q in s.streams && q in l.dirs
    ensures LoadedMetas(left)[q] == Durable(s.streams[q].meta).(refCount := left[q].refCount)
    ensures LoadedDirs(left)[q] == l.dirs[q]
  {
    LeftDecodes(l, s, gone, left, q);
  }

  /** The forks that repair counts are those that are left. */
  lemma {:induction false} CountedLeft(m: Metas, a: State, q: string)
    requires m.Keys == a.streams.Keys && q in a.streams && Counted(a.streams)
    requires forall c :: c in m ==> m[c].forkedFrom == a.streams[c].meta.forkedFrom
    ensures |ForksAmong(m, m.Keys, q)| == a.streams[q].meta.refCount
  {
    assert a.streams[q].meta.refCount == |Children(a.streams, q)|;
    Sets.Same(ForksAmong(m, m.Keys, q), Children(a.streams, q));
  }

  lemma {:induction false} LinksLeft(l: FileLayouts.Layout, s: State, gone: set<string>, left: Records, a: State)
    requires Orderly(l, s) && RecordsLeft(l.records, gone, left) && StreamsLeft(s, gone, a) && Readable(left)
    ensures LoadedMetas(left).Keys == LoadedDirs(left).Keys == left.Keys == a.streams.Keys
    ensures forall c :: c in left ==> LoadedMetas(left)[c].forkedFrom == a.streams[c].meta.forkedFrom
  {
    assert Stored(l, s);
    LoadedKeys(left);
    forall c | c in left ensures LoadedMetas(left)[c].forkedFrom == a.streams[c].meta.forkedFrom {
      assert c in a.streams.Keys && StreamLeft(s, a, c);
      LeftLoads(l, s, gone, left, c);
    }
  }

  lemma {:induction false} RepairedLeft(l: FileLayouts.Layout, s: State, gone: set<string>, left: Records, a: State,
                                        q: string)
    requires Orderly(l, s) && RecordsLeft(l.records, gone, left) && StreamsLeft(s, gone, a) && Readable(left)
    requires q in a.streams
    ensures q in left && q in LoadedMetas(left)
    ensures Repaired(LoadedMetas(left))[q] == a.streams[q].meta
  {
    LinksLeft(l, s, gone, left, a);
    assert q in left.Keys && StreamLeft(s, a, q);
    CountedLeft(LoadedMetas(left), a, q);
    LeftLoads(l, s, gone, left, q);
  }

  lemma {:induction false} EntryLeft(l: FileLayouts.Layout, s: State, gone: set<string>, left: Records, a: State,
                                     l': FileLayouts.Layout, q: string)
    requires Orderly(l, s) && RecordsLeft(l.records, gone, left) && StreamsLeft(s, gone, a)
    requires Started(left, l') && q in a.streams
    requires q in l.dirs && l.dirs[q] in l.files && l.dirs[q] in l'.files
    requires l'.files[l.dirs[q]] == l.files[l.dirs[q]]
    ensures Entry(l', a, q)
  {
    LinksLeft(l, s, gone, left, a);
    RepairedLeft(l, s, gone, left, a, q);
    LeftDecodes(l, s, gone, left, q);
    LeftLoads(l, s, gone, left, q);
    assert StreamLeft(s, a, q);
    var n := a.streams[q].meta.refCount;
    assert left[q].(refCount := n) == EncodeRecord(q, a.streams[q].meta, l.dirs[q]);
    assert Entry(l, s, q);
  }

  lemma {:induction false} ApartLeft(l: FileLayouts.Layout, s: State, gone: set<string>, left: Records, q: string,
                                     q': string)
    requires Orderly(l, s) && RecordsLeft(l.records, gone, left) && Readable(left)
    ensures Apart(LoadedDirs(left), q, q')
  {
    var dirs := LoadedDirs(left);
    assert Stored(l, s) && Apart(l.dirs, q, q');
    if q in dirs { LeftLoads(l, s, gone, left, q); }
    if q' in dirs { LeftLoads(l, s, gone, left, q'); }
  }

  /** The segments of the streams that are left. */
  predicate FilesLeft(l: FileLayouts.Layout, gone: set<string>, files: map<string, Bytes>) {
    forall q :: q in l.dirs && q !in gone && l.dirs[q] in l.files ==>
      l.dirs[q] in files && files[l.dirs[q]] == l.files[l.dirs[q]]
  }

  /** Starting on the records that are left lays out the streams that are left, with their forks counted right. */
  lemma {:induction false} StartedOnLeft(l: FileLayouts.Layout, s: State, gone: set<string>, left: Records, a: State,
                                         l': FileLayouts.Layout)
    requires Orderly(l, s) && RecordsLeft(l.records, gone, left) && StreamsLeft(s, gone, a)
    requires Started(left, l') && FilesLeft(l, gone, l'.files)
    ensures Stored(l', a)
  {
    LinksLeft(l, s, gone, left, a);
    forall q | q in a.streams ensures Entry(l', a, q) {
      assert q in s.streams.Keys - gone && Entry(l, s, q);
      EntryLeft(l, s, gone, left, a, l', q);
    }
    forall q, q' ensures Apart(l'.dirs, q, q') {
      ApartLeft(l, s, gone, left, q, q');
    }
  }

  // ---- Crashes ----

  lemma {:induction false} ReopenedOrder(s: State, f: string)
    requires f in s.streams
    ensures f in Reopened(s).streams && Order(Reopened(s).streams, f) == Order(s.streams, f)
  {
    OrderSame(s.streams, Reopened(s).streams, f);
  }

  lemma {:induction false} StageLeft(s: State, f: string, k: nat)
    requires f in s.streams && f in Reopened(s).streams && Order(Reopened(s).streams, f) == Order(s.streams, f)
    requires k <= |Order(s.streams, f)|
    requires Counted(Stage(Reopened(s).streams, f, k))
    ensures StreamsLeft(s, Gone(s.streams, f, k), Reopened(s).(streams := Stage(Reopened(s).streams, f, k)))
  {
    var r := Reopened(s).streams;
    var a := Reopened(s).(streams := Stage(r, f, k));
    StageKeys(r, f, k);
    assert Gone(r, f, k) == Gone(s.streams, f, k);
    forall q | q in a.streams ensures StreamLeft(s, a, q) {
      assert a.streams[q] == WithRefCount(r[q], a.streams[q].meta.refCount);
    }
  }

  /** A stage of the deletion of `f`: the last is what the deletion leaves, and any other has a tombstone. */
  lemma {:induction false} StageExact(z: Kind, s: State, f: string, k: nat)
    requires Inv(z, s) && f in s.streams && s.streams[f].meta.refCount == 0 && 0 < k <= |Order(s.streams, f)|
    ensures var a, order := s.(streams := Stage(s.streams, f, k)), Order(s.streams, f);
      && Counted(a.streams)
      && (Inv(z, a) <==> k == |order|)
      && (k == |order| ==> a == Delete(s, f).0)
      && (k < |order| ==> Haunted(z, a, order[k]))
  {
    assert s.streams[f].meta.refCount == |Children(s.streams, f)|;
    StageOk(z, s, f, k);
    if k == |Order(s.streams, f)| {
      CascadeOk(z, s, f);
      CascadeIsLastStage(s.streams, f);
    } else {
      GoingHaunted(z, s.(streams := Stage(s.streams, f, k)), Order(s.streams, f)[k]);
    }
  }

  lemma {:induction false} ReopenedLeaf(s: State, f: string)
    requires f in s.streams
    ensures f in Reopened(s).streams && Reopened(s).streams[f].meta.refCount == s.streams[f].meta.refCount
  {
  }

  /**
   * A crash while `f` is deleted, after the first `k` records of the cascade went and with any counts in the others:
   * starting again counts all forks right. The state is then a reachable one exactly when the whole cascade was done,
   * and it is the state the deletion leaves; otherwise the stream whose record would have gone next is a tombstone
   * without forks.
   */
  lemma {:induction false} CrashExact(l: FileLayouts.Layout, s: State, f: string, k: nat, left: Records,
                                      l': FileLayouts.Layout)
    requires Orderly(l, s) && f in s.streams && s.streams[f].meta.refCount == 0
    requires 0 < k <= |Order(s.streams, f)| && RecordsLeft(l.records, Gone(s.streams, f, k), left)
    requires Started(left, l') && FilesLeft(l, Gone(s.streams, f, k), l'.files)
    ensures f in Reopened(s).streams && Order(Reopened(s).streams, f) == Order(s.streams, f)
    ensures var a := Reopened(s).(streams := Stage(Reopened(s).streams, f, k));
      && Stored(l', a)
      && (Inv(FILE, a) <==> k == |Order(s.streams, f)|)
      && (k == |Order(s.streams, f)| ==> a == Delete(Reopened(s), f).0)
      && (k < |Order(s.streams, f)| ==> Haunted(FILE, a, Order(s.streams, f)[k]))
  {
    var r := Reopened(s);
    ReopenedOk(s);
    ReopenedOrder(s, f);
    ReopenedLeaf(s, f);
    StageExact(FILE, r, f, k);
    StageLeft(s, f, k);
    StartedOnLeft(l, s, Gone(s.streams, f, k), left, r.(streams := Stage(r.streams, f, k)), l');
  }
}
