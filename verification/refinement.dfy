/**
 * The stores refine the simple log: reading through the fork chain at byte offsets gives what eager copies
 * addressed by message count give, after any run, for every sizing.
 */
module Refinement {
  import opened Wrappers
  import opened Offsets
  import opened StoreTypes
  import opened StreamStore
  import opened ForkGraph
  import opened Logs
  import opened StoreInvariant
  import opened Resuming
  import opened Framing
  import opened SimpleLog

  /** Metadata without positions. */
  function Erase(meta: Metadata): Metadata {
    meta.(currentOffset := ZERO_OFFSET, forkOffset := ZERO_OFFSET, forkOffsetRequested := None)
  }

  /** A fork's requested offset, as a byte offset and as a message count within the copied part. */
  predicate RequestRefines(z: Kind, log: seq<Bytes>, k: nat, bytes: Option<Offset>, count: Option<Offset>)
    requires k <= |log|
  {
    match (bytes, count)
    case (None, None) => true
    case (Some(o), Some(r)) => r.readSeq == 0 && r.byteOffset <= k && o == At(z, log, r.byteOffset)
    case _ => false
  }

  /** `st` holds the part of the log `su` that lies past its fork point, at byte offsets. */
  predicate StreamRefines(z: Kind, st: Stream, su: Stream) {
    var log := Datas(su.messages);
    var k := su.meta.forkOffset.byteOffset;
    && st.created == su.created
    && Erase(st.meta) == Erase(su.meta)
    && Chained(Unit, ZERO_OFFSET, su.messages, su.meta.currentOffset)
    && su.meta.forkOffset.readSeq == 0
    && k <= |log|
    && st.meta.forkOffset == At(z, log, k)
    && Datas(st.messages) == log[k..]
    && RequestRefines(z, log, k, st.meta.forkOffsetRequested, su.meta.forkOffsetRequested)
  }

  /** The copied part of a fork's log is still the beginning of its source's log. */
  predicate Copied(a: Streams, p: string)
    requires p in a
  {
    var log, k := Datas(a[p].messages), a[p].meta.forkOffset.byteOffset;
    var source := a[p].meta.forkedFrom;
    && (source == "" ==> k == 0)
    && (source != "" ==> source in a && k <= |Datas(a[source].messages)| && k <= |log|
                         && log[..k] == Datas(a[source].messages)[..k])
  }

  predicate Refined(z: Kind, s: Streams, a: Streams, p: string)
    requires p in s && p in a
  {
    StreamRefines(z, s[p], a[p]) && Copied(a, p)
  }

  ghost predicate Refines(z: Kind, s: State, a: State) {
    && s.clock == a.clock
    && s.streams.Keys == a.streams.Keys
    && (forall p {:trigger Refined(z, s.streams, a.streams, p)} :: p in s.streams ==>
      Refined(z, s.streams, a.streams, p))
  }

  // ---- Reading ----

  lemma {:induction false} LogFacts(z: Kind, st: Stream, su: Stream)
    requires StreamRefines(z, st, su) && LogOk(z, st)
    ensures var log := Datas(su.messages);
      var k := su.meta.forkOffset.byteOffset;
      && NonEmptyParts(log)
      && su.messages == Frame(Unit, ZERO_OFFSET, log)
      && su.meta.currentOffset == Offset(0, |log|)
      && st.messages == Frame(z, At(z, log, k), log[k..])
      && st.meta.currentOffset == At(z, log, |log|)
      && Frame(z, ZERO_OFFSET, log) == Frame(z, ZERO_OFFSET, log[..k]) + st.messages
  {
    var log := Datas(su.messages);
    var k := su.meta.forkOffset.byteOffset;
    ChainedIsFrame(Unit, ZERO_OFFSET, su.messages, su.meta.currentOffset);
    UnitTail(ZERO_OFFSET, log);
    ChainedIsFrame(z, st.meta.forkOffset, st.messages, st.meta.currentOffset);
    SplitLog(z, log, k);
  }

  /** A log laid out from the start, split at its `k`-th position. */
  lemma {:induction false} SplitLog(z: Kind, log: seq<Bytes>, k: nat)
    requires NonEmptyParts(log) && k <= |log|
    ensures Tail(z, At(z, log, k), log[k..]) == At(z, log, |log|)
    ensures Frame(z, ZERO_OFFSET, log) == Frame(z, ZERO_OFFSET, log[..k]) + Frame(z, At(z, log, k), log[k..])
  {
    assert log == log[..k] + log[k..] && log[..|log|] == log;
    FrameConcat(z, ZERO_OFFSET, log[..k], log[k..]);
  }

  /** Reading a stream from the start returns its whole simple log, at byte offsets. */
  lemma {:induction false} ViewIsLog(z: Kind, s: State, a: State, p: string)
    requires Inv(z, s) && Ordered(s.streams) && Refines(z, s, a) && p in s.streams
    ensures View(s.streams, p, ZERO_OFFSET) == Frame(z, ZERO_OFFSET, Datas(a.streams[p].messages))
    decreases s.streams[p].created, 1
  {
    InheritedPrefix(z, s, a, p);
    assert StreamOk(z, s, p) && Refined(z, s.streams, a.streams, p);
    LogFacts(z, s.streams[p], a.streams[p]);
    AfterOwn(z, s, p);
  }

  /** What a fork inherits is the copied part of its simple log. */
  lemma {:induction false} InheritedPrefix(z: Kind, s: State, a: State, p: string)
    requires Inv(z, s) && Ordered(s.streams) && Refines(z, s, a) && p in s.streams
    ensures Refined(z, s.streams, a.streams, p)
    ensures Inherited(s.streams, p, ZERO_OFFSET)
      == Frame(z, ZERO_OFFSET, Datas(a.streams[p].messages)[..a.streams[p].meta.forkOffset.byteOffset])
    decreases s.streams[p].created, 0
  {
    assert StreamOk(z, s, p) && LinkOk(s.streams, p) && Younger(s.streams, p);
    assert Refined(z, s.streams, a.streams, p);
    var su := a.streams[p];
    var log, k := Datas(su.messages), su.meta.forkOffset.byteOffset;
    var source := su.meta.forkedFrom;
    assert source == s.streams[p].meta.forkedFrom by {
      assert Erase(s.streams[p].meta).forkedFrom == Erase(su.meta).forkedFrom;
    }
    ChainedIsFrame(Unit, ZERO_OFFSET, su.messages, su.meta.currentOffset);
    AtMonotone(z, log, 0, k);
    if source != "" && k > 0 {
      ViewIsLog(z, s, a, source);
      InheritedIsCopy(z, s, a, source, log, k);
    } else {
      assert log[..k] == [];
    }
  }

  lemma {:induction false} InheritedIsCopy(z: Kind, s: State, a: State, source: string, log: seq<Bytes>, k: nat)
    requires Inv(z, s) && Ordered(s.streams) && Refines(z, s, a) && source in s.streams
    requires View(s.streams, source, ZERO_OFFSET) == Frame(z, ZERO_OFFSET, Datas(a.streams[source].messages))
    requires k <= |log| && k <= |Datas(a.streams[source].messages)|
    requires log[..k] == Datas(a.streams[source].messages)[..k]
    ensures UpTo(View(s.streams, source, ZERO_OFFSET), At(z, log, k)) == Frame(z, ZERO_OFFSET, log[..k])
  {
    assert StreamOk(z, s, source) && Refined(z, s.streams, a.streams, source);
    LogFacts(z, s.streams[source], a.streams[source]);
    FrameSplit(z, Datas(a.streams[source].messages), k);
  }

  /** Reading from the `i`-th position returns the payloads from the `i`-th on. */
  lemma {:induction false} ViewFrom(z: Kind, s: State, a: State, p: string, i: nat)
    requires Inv(z, s) && Ordered(s.streams) && Refines(z, s, a) && p in s.streams
    requires i <= |Datas(a.streams[p].messages)|
    ensures var log := Datas(a.streams[p].messages);
      && NonEmptyParts(log)
      && View(s.streams, p, At(z, log, i)) == Frame(z, At(z, log, i), log[i..])
      && Datas(View(s.streams, p, At(z, log, i))) == SimpleRead(a, p, i)
  {
    assert StreamOk(z, s, p) && Refined(z, s.streams, a.streams, p);
    var log := Datas(a.streams[p].messages);
    LogFacts(z, s.streams[p], a.streams[p]);
    ViewIsLog(z, s, a, p);
    AtMonotone(z, log, 0, i);
    ViewSplit(z, s, p, ZERO_OFFSET, At(z, log, i));
    FrameSplit(z, log, i);
    var low := Frame(z, ZERO_OFFSET, log[..i]);
    var tail := View(s.streams, p, At(z, log, i));
    assert low + tail == low + Frame(z, At(z, log, i), log[i..]);
    assert tail == (low + tail)[|low|..];
    FrameChained(z, At(z, log, i), log[i..]);
  }
}
