/** Positions of the messages of a log laid out from the start, for any sizing. */
module Framing {
  import opened Offsets
  import opened StoreTypes
  import opened StreamStore
  import opened Logs
  import opened Resuming

  /** The offset after the first `k` payloads of a log. */
  function At(z: Kind, log: seq<Bytes>, k: nat): Offset
    requires k <= |log|
  {
    Tail(z, ZERO_OFFSET, log[..k])
  }

  lemma {:induction false} FrameConcat(z: Kind, from: Offset, a: seq<Bytes>, b: seq<Bytes>)
    ensures Frame(z, from, a + b) == Frame(z, from, a) + Frame(z, Tail(z, from, a), b)
    ensures Tail(z, from, a + b) == Tail(z, Tail(z, from, a), b)
    decreases a
  {
    if a == [] {
      assert a + b == b;
    } else {
      assert (a + b)[1..] == a[1..] + b;
      FrameConcat(z, Add(from, SizeOf(z, a[0])), a[1..], b);
    }
  }

  lemma {:induction false} TailBounds(z: Kind, from: Offset, log: seq<Bytes>)
    requires NonEmptyParts(log)
    ensures Tail(z, from, log).readSeq == from.readSeq
    ensures Tail(z, from, log).byteOffset >= from.byteOffset
    ensures log != [] ==> Tail(z, from, log).byteOffset > from.byteOffset
    decreases log
  {
    if log != [] { TailBounds(z, Add(from, SizeOf(z, log[0])), log[1..]); }
  }

  /** Positions grow strictly with the message count. */
  lemma {:induction false} AtMonotone(z: Kind, log: seq<Bytes>, i: nat, j: nat)
    requires NonEmptyParts(log) && i <= j <= |log|
    ensures At(z, log, i).readSeq == At(z, log, j).readSeq == 0
    ensures At(z, log, i).byteOffset <= At(z, log, j).byteOffset
    ensures i < j ==> At(z, log, i).byteOffset < At(z, log, j).byteOffset
  {
    assert log[..j] == log[..i] + log[i..j];
    FrameConcat(z, ZERO_OFFSET, log[..i], log[i..j]);
    TailBounds(z, ZERO_OFFSET, log[..i]);
    TailBounds(z, At(z, log, i), log[i..j]);
  }

  lemma {:induction false} AtInjective(z: Kind, log: seq<Bytes>, i: nat, j: nat)
    requires NonEmptyParts(log) && i <= |log| && j <= |log|
    ensures At(z, log, i) == At(z, log, j) <==> i == j
    ensures LessThan(At(z, log, i), At(z, log, j)) <==> i < j
  {
    if i <= j { AtMonotone(z, log, i, j); } else { AtMonotone(z, log, j, i); }
  }

  /** Splitting a laid-out log at its `k`-th position. */
  lemma {:induction false} FrameSplit(z: Kind, log: seq<Bytes>, k: nat)
    requires NonEmptyParts(log) && k <= |log|
    ensures Frame(z, ZERO_OFFSET, log) == Frame(z, ZERO_OFFSET, log[..k]) + Frame(z, At(z, log, k), log[k..])
    ensures UpTo(Frame(z, ZERO_OFFSET, log), At(z, log, k)) == Frame(z, ZERO_OFFSET, log[..k])
    ensures After(Frame(z, ZERO_OFFSET, log), At(z, log, k)) == Frame(z, At(z, log, k), log[k..])
  {
    var at := At(z, log, k);
    var low, high := Frame(z, ZERO_OFFSET, log[..k]), Frame(z, at, log[k..]);
    assert log == log[..k] + log[k..];
    FrameConcat(z, ZERO_OFFSET, log[..k], log[k..]);
    FrameChained(z, ZERO_OFFSET, log[..k]);
    FrameChained(z, at, log[k..]);
    ChainedBounds(z, ZERO_OFFSET, low, at);
    ChainedBounds(z, at, high, Tail(z, at, log[k..]));
    UpToConcat(low, high, at);
    AfterConcat(low, high, at);
    UpToAll(low, at);
    UpToNone(high, at);
    AfterNone(low, at);
    AfterAll(high, at);
  }

  /** The `j`-th message past position `k` ends at position `k + j + 1`. */
  lemma {:induction false} FrameIndex(z: Kind, log: seq<Bytes>, k: nat, j: nat)
    requires k + j < |log|
    ensures |Frame(z, At(z, log, k), log[k..])| == |log| - k
    ensures Frame(z, At(z, log, k), log[k..])[j] == Message(log[k + j], At(z, log, k + j + 1))
  {
    FrameAt(z, At(z, log, k), log[k..], j);
    assert log[..k + j + 1] == log[..k] + log[k..][..j + 1];
    FrameConcat(z, ZERO_OFFSET, log[..k], log[k..][..j + 1]);
  }

  lemma {:induction false} FrameAt(z: Kind, from: Offset, parts: seq<Bytes>, j: nat)
    requires j < |parts|
    ensures |Frame(z, from, parts)| == |parts|
    ensures Frame(z, from, parts)[j] == Message(parts[j], Tail(z, from, parts[..j + 1]))
    decreases parts
  {
    var end := Add(from, SizeOf(z, parts[0]));
    assert parts[..j + 1][1..] == parts[1..][..j];
    FrameLength(z, end, parts[1..]);
    if j > 0 {
      FrameAt(z, end, parts[1..], j - 1);
    } else {
      assert parts[1..][..0] == [];
    }
  }

  lemma {:induction false} FrameLength(z: Kind, from: Offset, parts: seq<Bytes>)
    ensures |Frame(z, from, parts)| == |parts|
    decreases parts
  {
    if parts != [] { FrameLength(z, Add(from, SizeOf(z, parts[0])), parts[1..]); }
  }

  /** At one position per message, positions are message counts. */
  lemma {:induction false} UnitTail(from: Offset, parts: seq<Bytes>)
    ensures Tail(Unit, from, parts) == Offset(from.readSeq, from.byteOffset + |parts|)
    decreases parts
  {
    if parts != [] { UnitTail(Add(from, 1), parts[1..]); }
  }

  lemma {:induction false} FrameSnoc(z: Kind, from: Offset, parts: seq<Bytes>, i: nat)
    requires i < |parts|
    ensures var end := Add(Tail(z, from, parts[..i]), SizeOf(z, parts[i]));
      && Tail(z, from, parts[..i + 1]) == end
      && Frame(z, from, parts[..i + 1]) == Frame(z, from, parts[..i]) + [Message(parts[i], end)]
  {
    assert parts[..i + 1] == parts[..i] + [parts[i]];
    FrameConcat(z, from, parts[..i], [parts[i]]);
    OnePart(z, Tail(z, from, parts[..i]), parts[i]);
  }
}
