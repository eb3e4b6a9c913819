/** Runs of messages with strictly increasing end offsets, and filtering them by offset. */
module Logs {
  import opened Offsets
  import opened StoreTypes
  import opened StreamStore

  /** `ms` fills the positions from `from` to `end`, each message ending where its bytes end. */
  predicate Chained(z: Kind, from: Offset, ms: seq<Message>, end: Offset)
    decreases ms
  {
    if ms == [] then from == end
    else
      && |ms[0].data| > 0
      && ms[0].offset == Add(from, SizeOf(z, ms[0].data))
      && Chained(z, ms[0].offset, ms[1..], end)
  }

  function Datas(ms: seq<Message>): (r: seq<Bytes>)
    ensures |r| == |ms|
    ensures forall i :: 0 <= i < |ms| ==> r[i] == ms[i].data
  {
    if ms == [] then [] else [ms[0].data] + Datas(ms[1..])
  }

  lemma {:induction false} DatasConcat(a: seq<Message>, b: seq<Message>)
    ensures Datas(a + b) == Datas(a) + Datas(b)
  {
  }

  lemma {:induction false} FrameChained(z: Kind, from: Offset, parts: seq<Bytes>)
    requires NonEmptyParts(parts)
    ensures Chained(z, from, Frame(z, from, parts), Tail(z, from, parts))
    ensures Datas(Frame(z, from, parts)) == parts
    decreases parts
  {
    if parts != [] {
      var end := Add(from, SizeOf(z, parts[0]));
      FrameChained(z, end, parts[1..]);
      assert Frame(z, from, parts)[1..] == Frame(z, end, parts[1..]);
    }
  }

  /** A chained run is the framing of its payloads. */
  lemma {:induction false} ChainedIsFrame(z: Kind, from: Offset, ms: seq<Message>, end: Offset)
    requires Chained(z, from, ms, end)
    ensures ms == Frame(z, from, Datas(ms)) && end == Tail(z, from, Datas(ms))
    ensures NonEmptyParts(Datas(ms))
    decreases ms
  {
    if ms != [] {
      ChainedIsFrame(z, ms[0].offset, ms[1..], end);
      assert Datas(ms) == [ms[0].data] + Datas(ms[1..]);
      assert Datas(ms)[1..] == Datas(ms[1..]);
      assert ms == [ms[0]] + ms[1..];
    }
  }

  lemma {:induction false} ChainedConcat(z: Kind, from: Offset, a: seq<Message>, mid: Offset, b: seq<Message>,
                                         end: Offset)
    requires Chained(z, from, a, mid) && Chained(z, mid, b, end)
    ensures Chained(z, from, a + b, end)
    decreases a
  {
    if a == [] {
      assert a + b == b;
    } else {
      ChainedConcat(z, a[0].offset, a[1..], mid, b, end);
      assert (a + b)[1..] == a[1..] + b;
    }
  }

  lemma {:induction false} ChainedSplit(z: Kind, from: Offset, a: seq<Message>, mid: Offset, b: seq<Message>,
                                        end: Offset)
    requires Chained(z, from, a, mid) && Chained(z, from, a + b, end)
    ensures Chained(z, mid, b, end)
    decreases a
  {
    if a == [] {
      assert a + b == b;
    } else {
      assert (a + b)[1..] == a[1..] + b;
      ChainedSplit(z, a[0].offset, a[1..], mid, b, end);
    }
  }

  lemma {:induction false} ChainedBounds(z: Kind, from: Offset, ms: seq<Message>, end: Offset)
    requires Chained(z, from, ms, end)
    ensures from.readSeq == end.readSeq && from.byteOffset <= end.byteOffset
    ensures ms != [] ==> ms[|ms| - 1].offset == end && from.byteOffset < end.byteOffset
    ensures forall i :: 0 <= i < |ms| ==>
      ms[i].offset.readSeq == from.readSeq && from.byteOffset < ms[i].offset.byteOffset <= end.byteOffset
    decreases ms
  {
    if ms != [] {
      ChainedBounds(z, ms[0].offset, ms[1..], end);
      forall i | 0 <= i < |ms|
        ensures ms[i].offset.readSeq == from.readSeq && from.byteOffset < ms[i].offset.byteOffset <= end.byteOffset
      {
        if i > 0 { assert ms[i] == ms[1..][i - 1]; }
      }
    }
  }

  // ---- Filtering ----

  lemma {:induction false} FirstWithin(ms: seq<Message>, low: nat, high: nat)
    requires forall i :: 0 <= i < |ms| ==> low < ms[i].offset.byteOffset <= high
    ensures ms == [] || low < ms[0].offset.byteOffset <= high
  {
  }

  lemma {:induction false} FrontOfConcat(a: seq<Message>, b: seq<Message>)
    requires a != []
    ensures (a + b)[0] == a[0] && (a + b)[1..] == a[1..] + b
  {
  }

  lemma {:induction false} Associative(a: seq<Message>, b: seq<Message>, c: seq<Message>)
    ensures (a + b) + c == a + (b + c)
  {
  }

  lemma {:induction false} AfterConcat(a: seq<Message>, b: seq<Message>, o: Offset)
    ensures After(a + b, o) == After(a, o) + After(b, o)
  {
    if a == [] {
      assert a + b == b;
    } else {
      FrontOfConcat(a, b);
      AfterConcat(a[1..], b, o);
      Associative(if a[0].offset.byteOffset > o.byteOffset then [a[0]] else [], After(a[1..], o), After(b, o));
    }
  }

  lemma {:induction false} UpToConcat(a: seq<Message>, b: seq<Message>, cap: Offset)
    ensures UpTo(a + b, cap) == UpTo(a, cap) + UpTo(b, cap)
  {
    if a == [] {
      assert a + b == b;
    } else {
      FrontOfConcat(a, b);
      UpToConcat(a[1..], b, cap);
      Associative(if LessThanOrEqual(a[0].offset, cap) then [a[0]] else [], UpTo(a[1..], cap), UpTo(b, cap));
    }
  }

  lemma {:induction false} AfterAll(ms: seq<Message>, o: Offset)
    requires forall i :: 0 <= i < |ms| ==> o.byteOffset < ms[i].offset.byteOffset
    ensures After(ms, o) == ms
  {
    if ms != [] {
      assert forall i :: 0 <= i < |ms[1..]| ==> ms[1..][i] == ms[i + 1];
      AfterAll(ms[1..], o);
    }
  }

  lemma {:induction false} AfterNone(ms: seq<Message>, o: Offset)
    requires forall i :: 0 <= i < |ms| ==> ms[i].offset.byteOffset <= o.byteOffset
    ensures After(ms, o) == []
  {
    if ms != [] {
      assert forall i :: 0 <= i < |ms[1..]| ==> ms[1..][i] == ms[i + 1];
      AfterNone(ms[1..], o);
    }
  }

  lemma {:induction false} UpToAll(ms: seq<Message>, cap: Offset)
    requires forall i :: 0 <= i < |ms| ==> LessThanOrEqual(ms[i].offset, cap)
    ensures UpTo(ms, cap) == ms
  {
    if ms != [] {
      assert forall i :: 0 <= i < |ms[1..]| ==> ms[1..][i] == ms[i + 1];
      UpToAll(ms[1..], cap);
    }
  }

  lemma {:induction false} UpToNone(ms: seq<Message>, cap: Offset)
    requires forall i :: 0 <= i < |ms| ==> !LessThanOrEqual(ms[i].offset, cap)
    ensures UpTo(ms, cap) == []
  {
    if ms != [] {
      assert forall i :: 0 <= i < |ms[1..]| ==> ms[1..][i] == ms[i + 1];
      UpToNone(ms[1..], cap);
    }
  }

  lemma {:induction false} UpToTwice(ms: seq<Message>, cap: Offset, lower: Offset)
    requires LessThanOrEqual(lower, cap)
    ensures UpTo(UpTo(ms, cap), lower) == UpTo(ms, lower)
  {
    if ms != [] {
      UpToTwice(ms[1..], cap, lower);
      var first := if LessThanOrEqual(ms[0].offset, cap) then [ms[0]] else [];
      UpToConcat(first, UpTo(ms[1..], cap), lower);
      if first != [] {
        assert UpTo(first, lower) == if LessThanOrEqual(ms[0].offset, lower) then [ms[0]] else [];
      }
    }
  }

  lemma {:induction false} AfterUpTo(ms: seq<Message>, o: Offset, cap: Offset)
    ensures After(UpTo(ms, cap), o) == UpTo(After(ms, o), cap)
  {
    if ms != [] {
      AfterUpTo(ms[1..], o, cap);
      var kept := if LessThanOrEqual(ms[0].offset, cap) then [ms[0]] else [];
      var late := if ms[0].offset.byteOffset > o.byteOffset then [ms[0]] else [];
      AfterConcat(kept, UpTo(ms[1..], cap), o);
      UpToConcat(late, After(ms[1..], o), cap);
      if kept != [] { assert kept[1..] == []; }
      if late != [] { assert late[1..] == []; }
    }
  }

  // ---- Loops, one message at a time ----

  lemma {:induction false} AfterSnoc(ms: seq<Message>, i: nat, o: Offset)
    requires i < |ms|
    ensures After(ms[..i + 1], o)
      == After(ms[..i], o) + (if ms[i].offset.byteOffset > o.byteOffset then [ms[i]] else [])
  {
    assert ms[..i + 1] == ms[..i] + [ms[i]];
    AfterConcat(ms[..i], [ms[i]], o);
  }

  lemma {:induction false} UpToSnoc(ms: seq<Message>, i: nat, cap: Offset)
    requires i < |ms|
    ensures UpTo(ms[..i + 1], cap)
      == UpTo(ms[..i], cap) + (if LessThanOrEqual(ms[i].offset, cap) then [ms[i]] else [])
  {
    assert ms[..i + 1] == ms[..i] + [ms[i]];
    UpToConcat(ms[..i], [ms[i]], cap);
  }
}
