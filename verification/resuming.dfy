/** Reading on from the last offset received, and forks cut between or inside messages. */
module Resuming {
  import opened Wrappers
  import opened Offsets
  import opened StoreTypes
  import opened StreamStore
  import opened ForkGraph
  import opened Logs
  import opened StoreInvariant
  import opened ForkReading
  import Text

  ghost predicate Sorted(ms: seq<Message>) {
    forall i, j :: 0 <= i < j < |ms| ==> ms[i].offset.byteOffset < ms[j].offset.byteOffset
  }

  lemma {:induction false} ChainedSorted(z: Kind, from: Offset, ms: seq<Message>, end: Offset)
    requires Chained(z, from, ms, end)
    ensures Sorted(ms)
    decreases ms
  {
    if ms != [] {
      ChainedSorted(z, ms[0].offset, ms[1..], end);
      ChainedBounds(z, ms[0].offset, ms[1..], end);
      forall i, j | 0 <= i < j < |ms| ensures ms[i].offset.byteOffset < ms[j].offset.byteOffset {
        assert ms[j] == ms[1..][j - 1];
        if i > 0 { assert ms[i] == ms[1..][i - 1]; }
      }
    }
  }

  /** Messages of one read sequence in order of their offsets split at any offset past the start. */
  lemma {:induction false} SortedSplit(ms: seq<Message>, o: Offset, at: Offset)
    requires Sorted(ms) && at.readSeq == 0 && o.byteOffset <= at.byteOffset
    requires forall i :: 0 <= i < |ms| ==> ms[i].offset.readSeq == 0
    ensures After(ms, o) == UpTo(After(ms, o), at) + After(ms, at)
  {
    if ms != [] {
      assert forall i :: 0 <= i < |ms[1..]| ==> ms[1..][i] == ms[i + 1];
      if ms[0].offset.byteOffset <= at.byteOffset {
        SortedSplit(ms[1..], o, at);
        var tail := After(ms[1..], o);
        assert After(ms, at) == After(ms[1..], at);
        if ms[0].offset.byteOffset > o.byteOffset {
          assert After(ms, o) == [ms[0]] + tail;
          assert After(ms, o)[1..] == tail;
          assert UpTo(After(ms, o), at) == [ms[0]] + UpTo(tail, at);
          assert [ms[0]] + (UpTo(tail, at) + After(ms, at)) == ([ms[0]] + UpTo(tail, at)) + After(ms, at);
        } else {
          assert After(ms, o) == tail;
        }
      } else {
        AfterAll(ms, at);
        AfterAll(ms, o);
        UpToNone(ms, at);
      }
    }
  }

  /** Offsets returned by one read strictly increase, across fork boundaries too. */
  lemma {:induction false} ViewSorted(z: Kind, s: State, p: string, o: Offset)
    requires Inv(z, s) && Ordered(s.streams) && p in s.streams
    ensures Sorted(View(s.streams, p, o))
    decreases s.streams[p].created
  {
    assert StreamOk(z, s, p) && LinkOk(s.streams, p) && Younger(s.streams, p);
    var st := s.streams[p];
    OwnSorted(z, st, o);
    if st.meta.forkedFrom != "" && LessThan(o, st.meta.forkOffset) {
      var before := View(s.streams, st.meta.forkedFrom, o);
      ViewSorted(z, s, st.meta.forkedFrom, o);
      ViewBounds(z, s, st.meta.forkedFrom, o);
      UpToSorted(before, st.meta.forkOffset);
      CapBounds(before, st.meta.forkOffset);
      SortedConcat(UpTo(before, st.meta.forkOffset), After(st.messages, o), st.meta.forkOffset);
    }
  }

  /** A stream's own messages are sorted and lie past its fork point. */
  lemma {:induction false} OwnSorted(z: Kind, st: Stream, o: Offset)
    requires LogOk(z, st)
    ensures var own := After(st.messages, o);
      Sorted(own)
      && forall i :: 0 <= i < |own| ==> own[i].offset.readSeq == 0 && LessThan(st.meta.forkOffset, own[i].offset)
  {
    ChainedSorted(z, st.meta.forkOffset, st.messages, st.meta.currentOffset);
    ChainedBounds(z, st.meta.forkOffset, st.messages, st.meta.currentOffset);
    AfterSorted(st.messages, o);
    FilterBounds(st.messages, o);
  }

  lemma {:induction false} SortedConcat(a: seq<Message>, b: seq<Message>, mid: Offset)
    requires Sorted(a) && Sorted(b)
    requires forall i :: 0 <= i < |a| ==> a[i].offset.readSeq == 0 && LessThanOrEqual(a[i].offset, mid)
    requires forall i :: 0 <= i < |b| ==> b[i].offset.readSeq == 0 && LessThan(mid, b[i].offset)
    ensures Sorted(a + b)
  {
    var c := a + b;
    forall i, j | 0 <= i < j < |c| ensures c[i].offset.byteOffset < c[j].offset.byteOffset {
      if j < |a| {
        assert c[i] == a[i] && c[j] == a[j];
      } else if i >= |a| {
        assert c[i] == b[i - |a|] && c[j] == b[j - |a|];
      } else {
        assert c[i] == a[i] && c[j] == b[j - |a|];
        assert LessThanOrEqual(a[i].offset, mid) && LessThan(mid, b[j - |a|].offset);
      }
    }
  }

  lemma {:induction false} AfterSorted(ms: seq<Message>, o: Offset)
    requires Sorted(ms)
    ensures Sorted(After(ms, o))
  {
    if ms != [] {
      assert forall i :: 0 <= i < |ms[1..]| ==> ms[1..][i] == ms[i + 1];
      AfterSorted(ms[1..], o);
      FilterBounds(ms[1..], o);
    }
  }

  lemma {:induction false} UpToSorted(ms: seq<Message>, cap: Offset)
    requires Sorted(ms)
    ensures Sorted(UpTo(ms, cap))
  {
    if ms != [] {
      assert forall i :: 0 <= i < |ms[1..]| ==> ms[1..][i] == ms[i + 1];
      UpToSorted(ms[1..], cap);
      CapBounds(ms[1..], cap);
    }
  }

  lemma {:induction false} SplitBelow(before: seq<Message>, late: seq<Message>, own: seq<Message>, at: Offset,
                                      fork: Offset)
    requires before == UpTo(before, at) + late && LessThanOrEqual(at, fork) && UpTo(own, at) == []
    ensures UpTo(before, fork) + own == UpTo(UpTo(before, fork) + own, at) + (UpTo(late, fork) + own)
  {
    var low, high := UpTo(before, at), UpTo(late, fork);
    UpToConcat(low, late, fork);
    UpToTwiceWider(before, at, fork);
    UpToTwice(before, fork, at);
    UpToConcat(UpTo(before, fork), own, at);
    assert UpTo(before, fork) == low + high;
    assert UpTo(UpTo(before, fork) + own, at) == low + [];
    assert low + [] == low && (low + high) + own == low + (high + own);
  }

  lemma {:induction false} SplitAbove(before: seq<Message>, own: seq<Message>, late: seq<Message>, at: Offset,
                                      fork: Offset)
    requires own == UpTo(own, at) + late && LessThanOrEqual(fork, at)
    ensures UpTo(before, fork) + own == UpTo(UpTo(before, fork) + own, at) + late
  {
    UpToTwiceWider(before, fork, at);
    UpToConcat(UpTo(before, fork), own, at);
  }

  lemma {:induction false} OwnSplit(z: Kind, st: Stream, o: Offset, at: Offset)
    requires LogOk(z, st) && at.readSeq == 0 && o.byteOffset <= at.byteOffset
    ensures After(st.messages, o) == UpTo(After(st.messages, o), at) + After(st.messages, at)
  {
    var fork := st.meta.forkOffset;
    ChainedSorted(z, fork, st.messages, st.meta.currentOffset);
    ChainedBounds(z, fork, st.messages, st.meta.currentOffset);
    SortedSplit(st.messages, o, at);
  }

  lemma {:induction false} OwnIsLate(z: Kind, st: Stream, o: Offset, at: Offset)
    requires LogOk(z, st) && at.readSeq == 0 && o.byteOffset <= at.byteOffset
    requires LessThan(at, st.meta.forkOffset)
    ensures After(st.messages, o) == st.messages == After(st.messages, at)
    ensures UpTo(st.messages, at) == []
  {
    ChainedBounds(z, st.meta.forkOffset, st.messages, st.meta.currentOffset);
    AfterAll(st.messages, o);
    AfterAll(st.messages, at);
    UpToNone(st.messages, at);
  }

  /** A read from `o` is what it returns up to any later offset `at`, followed by a read from `at`. */
  lemma {:induction false} ViewSplit(z: Kind, s: State, p: string, o: Offset, at: Offset)
    requires Inv(z, s) && Ordered(s.streams) && p in s.streams
    requires o.readSeq == at.readSeq == 0 && o.byteOffset <= at.byteOffset
    ensures View(s.streams, p, o) == UpTo(View(s.streams, p, o), at) + View(s.streams, p, at)
    decreases s.streams[p].created
  {
    assert StreamOk(z, s, p) && LinkOk(s.streams, p) && Younger(s.streams, p);
    var st := s.streams[p];
    var fork, source := st.meta.forkOffset, st.meta.forkedFrom;
    var own, late := After(st.messages, o), After(st.messages, at);
    OwnSplit(z, st, o, at);
    if source == "" || !LessThan(o, fork) {
      assert Inherited(s.streams, p, o) == [] && Inherited(s.streams, p, at) == [];
      assert View(s.streams, p, o) == own && View(s.streams, p, at) == late;
    } else {
      var before := View(s.streams, source, o);
      assert View(s.streams, p, o) == UpTo(before, fork) + own;
      if LessThan(at, fork) {
        ViewSplit(z, s, source, o, at);
        OwnIsLate(z, st, o, at);
        var after := View(s.streams, source, at);
        assert View(s.streams, p, at) == UpTo(after, fork) + late;
        SplitBelow(before, after, own, at, fork);
      } else {
        assert Inherited(s.streams, p, at) == [];
        assert View(s.streams, p, at) == late;
        SplitAbove(before, own, late, at, fork);
      }
    }
  }

  lemma {:induction false} UpToTwiceWider(ms: seq<Message>, cap: Offset, wider: Offset)
    requires LessThanOrEqual(cap, wider)
    ensures UpTo(UpTo(ms, cap), wider) == UpTo(ms, cap)
  {
    CapBounds(ms, cap);
    UpToAll(UpTo(ms, cap), wider);
  }

  /** The offset a reader continues from. */
  function Next(ms: seq<Message>, o: Offset): Offset {
    if ms == [] then o else ms[|ms| - 1].offset
  }

  /** Reading again from the last offset received continues the earlier read without gap or repetition. */
  lemma {:induction false} Resume(z: Kind, s: State, s': State, p: string, o: Offset)
    requires Later(z, s, s') && SameGeneration(s, s', p) && o.readSeq == 0
    ensures View(s'.streams, p, o)
      == View(s.streams, p, o) + View(s'.streams, p, Next(View(s.streams, p, o), o))
    ensures Next(View(s.streams, p, o), o).readSeq == 0
  {
    var ms := View(s.streams, p, o);
    if ms != [] {
      var at := Next(ms, o);
      ViewBounds(z, s, p, o);
      ViewSorted(z, s, p, o);
      ViewSplit(z, s', p, o, at);
      CappedViewStable(z, s, s', p, o, at);
      UpToAll(ms, at);
    }
  }

  /** What a reader receives that reads once in each state, each time from the last offset it got. */
  function Follow(states: seq<State>, p: string, o: Offset): seq<Message>
    requires forall i :: 0 <= i < |states| ==> Ordered(states[i].streams) && p in states[i].streams
    decreases |states|
  {
    if states == [] then []
    else
      var ms := View(states[0].streams, p, o);
      ms + Follow(states[1..], p, Next(ms, o))
  }

  /** The states a reader of `p` may see, one after the other. */
  ghost predicate Timeline(z: Kind, states: seq<State>, p: string) {
    && (forall i :: 0 <= i < |states| ==> Inv(z, states[i]) && Ordered(states[i].streams) && p in states[i].streams)
    && (forall i :: 0 <= i < |states| - 1 ==>
      Keeps(states[i], states[i + 1]) && SameGeneration(states[i], states[i + 1], p))
  }

  /**
   * Resumable reading: within one generation, the pieces read while the log grows concatenate to one read
   * of the final log.
   */
  lemma {:induction false} FollowIsOneRead(z: Kind, states: seq<State>, p: string, o: Offset)
    requires Timeline(z, states, p) && states != [] && o.readSeq == 0
    ensures Follow(states, p, o) == View(states[|states| - 1].streams, p, o)
    decreases |states|
  {
    var ms := View(states[0].streams, p, o);
    var rest := states[1..];
    if rest == [] {
      assert Follow(rest, p, Next(ms, o)) == [];
    } else {
      assert forall i :: 0 <= i < |rest| ==> rest[i] == states[i + 1];
      assert Timeline(z, rest, p);
      LastIsLater(z, states, p);
      Resume(z, states[0], states[|states| - 1], p, o);
      FollowIsOneRead(z, rest, p, Next(ms, o));
    }
  }

  lemma {:induction false} LastIsLater(z: Kind, states: seq<State>, p: string)
    requires Timeline(z, states, p) && states != []
    ensures Keeps(states[0], states[|states| - 1]) && SameGeneration(states[0], states[|states| - 1], p)
    decreases |states|
  {
    if |states| == 1 {
      UnchangedOk(z, states[0]);
    } else {
      var front := states[..|states| - 1];
      assert Timeline(z, front, p);
      LastIsLater(z, front, p);
      var before := states[|states| - 2];
      assert front[|front| - 1] == before;
      assert Keeps(before, states[|states| - 2 + 1]) && SameGeneration(before, states[|states| - 2 + 1], p);
      forall q | q in states[0].streams ensures states[0].streams[q].created < states[0].clock {
        assert StreamOk(z, states[0], q);
      }
      KeepsTransitive(states[0], before, states[|states| - 1]);
    }
  }

  // ---- Sub-offset forks ----

  function Flatten(ms: seq<Message>): Bytes {
    if ms == [] then [] else ms[0].data + Flatten(ms[1..])
  }

  lemma {:induction false} BytesAssociative(a: Bytes, b: Bytes, c: Bytes)
    ensures (a + b) + c == a + (b + c)
  {
  }

  lemma {:induction false} FlattenConcat(a: seq<Message>, b: seq<Message>)
    ensures Flatten(a + b) == Flatten(a) + Flatten(b)
  {
    if a == [] {
      assert a + b == b && [] + Flatten(b) == Flatten(b);
    } else {
      FlattenConcat(a[1..], b);
      FrontOfConcat(a, b);
      BytesAssociative(a[0].data, Flatten(a[1..]), Flatten(b));
    }
  }

  /** The first `k` messages of a sorted run are those up to the offset of the `k`-th. */
  lemma {:induction false} UpToKth(ms: seq<Message>, k: nat)
    requires Sorted(ms) && 0 < k <= |ms|
    requires forall i :: 0 <= i < |ms| ==> ms[i].offset.readSeq == 0
    ensures UpTo(ms, ms[k - 1].offset) == ms[..k]
  {
    var cap := ms[k - 1].offset;
    assert ms == ms[..k] + ms[k..];
    UpToConcat(ms[..k], ms[k..], cap);
    UpToAll(ms[..k], cap);
    UpToNone(ms[k..], cap);
  }

  /** Where a fork asked for at `(at, k)` is cut, and exactly when the request is refused. */
  lemma {:induction false} JsonCut(z: Kind, s: State, source: string, at: Offset, k: nat)
    requires Inv(z, s) && Ordered(s.streams) && source in s.streams && k > 0 && at.readSeq == 0
    ensures var all := View(s.streams, source, ZERO_OFFSET);
      var rest := View(s.streams, source, at);
      var r := CutInto(true, rest, at, k);
      && (r.Ok? <==> k <= |rest|)
      && (r.Ok? ==> UpTo(all, r.value.offset) == UpTo(all, at) + rest[..k])
  {
    var all := View(s.streams, source, ZERO_OFFSET);
    var rest := View(s.streams, source, at);
    if k <= |rest| {
      var cut := rest[k - 1].offset;
      ViewBounds(z, s, source, at);
      ViewSorted(z, s, source, at);
      ViewSplit(z, s, source, ZERO_OFFSET, at);
      UpToConcat(UpTo(all, at), rest, cut);
      UpToTwiceWider(all, at, cut);
      UpToKth(rest, k);
    }
  }

  /** The messages that the initial data of a stream of this content type becomes. */
  function InitialParts(contentType: string, initial: Option<Body>): (r: seq<Bytes>)
    ensures NonEmptyParts(r)
  {
    match initial
    case None => []
    case Some(body) =>
      match Split(Text.IsJson(contentType), body, true)
      case Err(_) => []
      case Ok(parts) => parts
  }

  /** The own messages of a new stream: a prefix, if any, and then its initial data. */
  lemma {:induction false} OwnAtFirst(z: Kind, meta: Metadata, prefix: Bytes, stamp: nat, initial: Option<Body>)
    requires Initialise(z, Blank(z, meta, prefix, stamp), initial).Ok?
    ensures var own := Initialise(z, Blank(z, meta, prefix, stamp), initial).value.messages;
      var first := if prefix == [] then [] else [Message(prefix, Add(meta.currentOffset, SizeOf(z, prefix)))];
      |first| <= |own| && own[..|first|] == first && Datas(own[|first|..]) == InitialParts(meta.contentType, initial)
  {
    var blank := Blank(z, meta, prefix, stamp);
    if prefix != [] { OnePart(z, meta.currentOffset, prefix); }
    if initial.Some? { FrameChained(z, blank.meta.currentOffset, InitialParts(meta.contentType, initial)); }
  }

  /** A JSON fork at `(at, k)` reads the source's messages up to `at`, the next `k`, and then its initial data. */
  lemma {:induction false} JsonForkCut(z: Kind, s: State, path: string, opts: CreateOptions, expired: set<string>,
                                       k: nat, at: Offset)
    requires Inv(z, s) && Ordered(s.streams) && path !in s.streams && opts.forkedFrom in s.streams
    requires opts.forkedFrom != "" && opts.forkOffset == Some(at) && opts.forkSubOffset == Some(k) && k > 0
    requires at.readSeq == 0
    requires Text.IsJson(s.streams[opts.forkedFrom].meta.contentType)
    requires Launch(z, s, path, opts, expired).1 == Ok(true)
    ensures var s1 := Launch(z, s, path, opts, expired).0;
      var rest := View(s.streams, opts.forkedFrom, at);
      && path in s1.streams && Ordered(s1.streams) && k <= |rest|
      && var own := s1.streams[path].messages;
      && Datas(own) == InitialParts(s1.streams[path].meta.contentType, opts.initialData)
      && View(s1.streams, path, ZERO_OFFSET)
         == UpTo(View(s.streams, opts.forkedFrom, ZERO_OFFSET), at) + rest[..k] + own
  {
    var s1 := Launch(z, s, path, opts, expired).0;
    LaunchedFork(z, s, path, opts, expired);
    JsonCut(z, s, opts.forkedFrom, at, k);
    NewForkOwn(z, s, path, opts, expired);
    AfterOwn(z, s1, path);
    ForkReads(z, s, s1, s1, path, ZERO_OFFSET);
    var own := s1.streams[path].messages;
    assert own[0..] == own;
  }

  lemma {:induction false} NewForkOwn(z: Kind, s: State, path: string, opts: CreateOptions, expired: set<string>)
    requires Ordered(s.streams) && path !in s.streams && opts.forkedFrom != "" && opts.forkedFrom in s.streams
    requires Launch(z, s, path, opts, expired).1 == Ok(true)
    ensures ResolveFork(s.streams, opts, expired).Ok?
    ensures path in Launch(z, s, path, opts, expired).0.streams
    ensures var fork := ResolveFork(s.streams, opts, expired).value;
      var st := Launch(z, s, path, opts, expired).0.streams[path];
      var first := if fork.prefix == [] then [] else [Message(fork.prefix, Add(fork.offset, SizeOf(z, fork.prefix)))];
      && |first| <= |st.messages| && st.messages[..|first|] == first
      && Datas(st.messages[|first|..]) == InitialParts(st.meta.contentType, opts.initialData)
  {
    var fork := ResolveFork(s.streams, opts, expired).value;
    OwnAtFirst(z, ForkMeta(opts, s.streams[opts.forkedFrom].meta, fork.offset), fork.prefix, s.clock, opts.initialData);
  }

  lemma {:induction false} LaunchedFork(z: Kind, s: State, path: string, opts: CreateOptions, expired: set<string>)
    requires Inv(z, s) && Ordered(s.streams) && path !in s.streams && opts.forkedFrom != ""
    requires Launch(z, s, path, opts, expired).1 == Ok(true)
    ensures var s1 := Launch(z, s, path, opts, expired).0;
      && path in s1.streams && Later(z, s, s1) && Later(z, s1, s1)
      && SameGeneration(s, s1, opts.forkedFrom)
      && s1.streams[path].meta.forkedFrom == opts.forkedFrom
      && ResolveFork(s.streams, opts, expired).Ok?
      && s1.streams[path].meta.forkOffset == ResolveFork(s.streams, opts, expired).value.offset
      && s1.streams[path].meta.forkOffset.byteOffset
         <= s.streams[opts.forkedFrom].meta.currentOffset.byteOffset
  {
    var s1 := Launch(z, s, path, opts, expired).0;
    ForkStart(z, s, path, opts, expired, s1);
    LaunchKeeps(z, s, path, opts, expired);
    UnchangedOk(z, s1);
    GraphOrdered(s1.streams);
    ForkPointOk(z, s, opts, expired);
    var fork := ResolveFork(s.streams, opts, expired).value;
    LaunchOk(z, ForkMeta(opts, s.streams[opts.forkedFrom].meta, fork.offset), fork.prefix, s.clock, opts.initialData);
  }

  /** A binary fork at `(at, k)` reads the source's bytes up to `at`, the next `k`, and then its initial data. */
  lemma {:induction false} BinaryForkCut(z: Kind, s: State, path: string, opts: CreateOptions, expired: set<string>,
                                         k: nat, at: Offset)
    requires Inv(z, s) && Ordered(s.streams) && path !in s.streams && opts.forkedFrom in s.streams
    requires opts.forkedFrom != "" && opts.forkOffset == Some(at) && opts.forkSubOffset == Some(k) && k > 0
    requires at.readSeq == 0
    requires !Text.IsJson(s.streams[opts.forkedFrom].meta.contentType)
    requires Launch(z, s, path, opts, expired).1 == Ok(true)
    ensures var s1 := Launch(z, s, path, opts, expired).0;
      var all := View(s.streams, opts.forkedFrom, ZERO_OFFSET);
      var rest := View(s.streams, opts.forkedFrom, at);
      && path in s1.streams && Ordered(s1.streams) && k <= |Flatten(rest)|
      && var own := s1.streams[path].messages;
      && own != [] && Datas(own[1..]) == InitialParts(s1.streams[path].meta.contentType, opts.initialData)
      && Flatten(View(s1.streams, path, ZERO_OFFSET)) == Flatten(UpTo(all, at)) + Flatten(rest)[..k] + Flatten(own[1..])
  {
    var s1 := Launch(z, s, path, opts, expired).0;
    var all := View(s.streams, opts.forkedFrom, ZERO_OFFSET);
    var rest := View(s.streams, opts.forkedFrom, at);
    LaunchedFork(z, s, path, opts, expired);
    ForkReads(z, s, s1, s1, path, ZERO_OFFSET);
    PrefixMessage(z, s, path, opts, expired, k, at);
    AfterOwn(z, s1, path);
    var own := s1.streams[path].messages;
    assert View(s1.streams, path, ZERO_OFFSET) == UpTo(all, at) + own;
    FlattenConcat(UpTo(all, at), own);
    FlattenPrefix(rest, k);
    BytesAssociative(Flatten(UpTo(all, at)), own[0].data, Flatten(own[1..]));
  }

  lemma {:induction false} FlattenPrefix(ms: seq<Message>, k: nat)
    requires |ms| > 0 && k <= |ms[0].data|
    ensures k <= |Flatten(ms)| && Flatten(ms)[..k] == ms[0].data[..k]
  {
  }

  /** The bytes a binary fork is cut after become its first own message. */
  lemma {:induction false} PrefixMessage(z: Kind, s: State, path: string, opts: CreateOptions, expired: set<string>,
                                         k: nat, at: Offset)
    requires Ordered(s.streams) && path !in s.streams && opts.forkedFrom in s.streams
    requires opts.forkedFrom != "" && opts.forkOffset == Some(at) && opts.forkSubOffset == Some(k) && k > 0
    requires !Text.IsJson(s.streams[opts.forkedFrom].meta.contentType)
    requires Launch(z, s, path, opts, expired).1 == Ok(true)
    ensures var rest := View(s.streams, opts.forkedFrom, at);
      && |rest| > 0 && k <= |rest[0].data|
      && path in Launch(z, s, path, opts, expired).0.streams
      && var st := Launch(z, s, path, opts, expired).0.streams[path];
      && st.messages != [] && st.messages[0].data == rest[0].data[..k]
      && Datas(st.messages[1..]) == InitialParts(st.meta.contentType, opts.initialData)
  {
    NewForkOwn(z, s, path, opts, expired);
    var st := Launch(z, s, path, opts, expired).0.streams[path];
    assert st.messages[..1][0] == st.messages[0];
  }

  lemma {:induction false} OnePart(z: Kind, at: Offset, part: Bytes)
    ensures Frame(z, at, [part]) == [Message(part, Add(at, SizeOf(z, part)))]
    ensures Tail(z, at, [part]) == Add(at, SizeOf(z, part))
  {
    assert [part][1..] == [];
  }

  lemma {:induction false} AfterOwn(z: Kind, s: State, p: string)
    requires Inv(z, s) && p in s.streams
    ensures After(s.streams[p].messages, ZERO_OFFSET) == s.streams[p].messages
  {
    assert StreamOk(z, s, p);
    var st := s.streams[p];
    ChainedBounds(z, st.meta.forkOffset, st.messages, st.meta.currentOffset);
    AfterAll(st.messages, ZERO_OFFSET);
  }
}
