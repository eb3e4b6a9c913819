/** Printing, parsing and sorting offsets as text. */
module OffsetText {
  import opened Wrappers
  import opened Offsets
  import Text

  /** The values of a uint64 are those below this. */
  const UINT64: nat := 0x1_0000_0000_0000_0000

  /** The minimum width of a printed component. */
  const WIDTH: nat := 16

  const NOW_OFFSET := Offset(UINT64 - 1, UINT64 - 1)

  predicate InRange(o: Offset) {
    o.readSeq < UINT64 && o.byteOffset < UINT64
  }

  // ---- Decimal digits ----

  function Pow10(w: nat): (p: nat)
    ensures p >= 1
  {
    if w == 0 then 1 else 10 * Pow10(w - 1)
  }

  /** The last `w` decimal digits of `n`. */
  function Fixed(n: nat, w: nat): (s: string)
    ensures |s| == w
  {
    if w == 0 then "" else Fixed(n / 10, w - 1) + [('0' as int + n % 10) as char]
  }

  /** How many decimal digits `n` needs. */
  function DigitCount(n: nat): (w: nat)
    ensures w >= 1 && n < Pow10(w)
  {
    if n < 10 then 1 else 1 + DigitCount(n / 10)
  }

  /** The width one component is printed at: the minimum, or more when it needs more. */
  function PrintWidth(n: nat, minimum: nat): (w: nat)
    ensures w >= minimum && w >= 1 && n < Pow10(w)
  {
    var w := DigitCount(n);
    if w < minimum then PowMonotone(w, minimum); minimum else w
  }

  function Padded(n: nat, minimum: nat): string {
    Fixed(n, PrintWidth(n, minimum))
  }

  function Print(o: Offset, minimum: nat): string {
    Padded(o.readSeq, minimum) + "_" + Padded(o.byteOffset, minimum)
  }

  function String(o: Offset): string {
    Print(o, WIDTH)
  }

  predicate IsDigit(c: char) {
    '0' <= c <= '9'
  }

  predicate AllDigits(s: string) {
    forall i :: 0 <= i < |s| ==> IsDigit(s[i])
  }

  function Value(s: string): nat
    requires AllDigits(s)
  {
    if s == "" then 0 else 10 * Value(s[..|s| - 1]) + (s[|s| - 1] as int - '0' as int)
  }

  lemma {:induction false} FixedValue(n: nat, w: nat)
    requires n < Pow10(w)
    ensures AllDigits(Fixed(n, w)) && Value(Fixed(n, w)) == n
  {
    if w > 0 {
      FixedValue(n / 10, w - 1);
      assert Fixed(n, w)[..w - 1] == Fixed(n / 10, w - 1);
    }
  }

  lemma {:induction false} PowMonotone(v: nat, w: nat)
    requires v <= w
    ensures Pow10(v) <= Pow10(w)
  {
    if v < w { PowMonotone(v, w - 1); }
  }

  lemma {:induction false} PaddedValue(n: nat, minimum: nat)
    ensures AllDigits(Padded(n, minimum)) && Padded(n, minimum) != "" && Value(Padded(n, minimum)) == n
  {
    FixedValue(n, PrintWidth(n, minimum));
  }

  // ---- Parsing ----

  /** The position of the first underscore, or the length of the text. */
  function Underscore(s: string): (i: nat)
    ensures i <= |s| && (i < |s| ==> s[i] == '_')
    ensures forall j :: 0 <= j < i ==> s[j] != '_'
  {
    if s == "" || s[0] == '_' then 0 else 1 + Underscore(s[1..])
  }

  /** Digits, one underscore, digits. */
  predicate WellFormed(s: string) {
    var i := Underscore(s);
    0 < i < |s| - 1 && AllDigits(s[..i]) && AllDigits(s[i + 1..])
  }

  datatype OffsetError = InvalidFormat | OutOfRange

  function ParseOffset(s: string): Result<Offset, OffsetError> {
    if s == "" || s == "-1" then Ok(ZERO_OFFSET)
    else if s == "now" then Ok(NOW_OFFSET)
    else if !WellFormed(s) then Err(InvalidFormat)
    else
      var i := Underscore(s);
      var o := Offset(Value(s[..i]), Value(s[i + 1..]));
      if InRange(o) then Ok(o) else Err(OutOfRange)
  }

  /** The well-formed texts are the pairs of digit strings around an underscore. */
  lemma {:induction false} WellFormedPairs(s: string)
    ensures WellFormed(s) <==>
      exists a, b :: a != "" && b != "" && AllDigits(a) && AllDigits(b) && s == a + "_" + b
  {
    if WellFormed(s) {
      var i := Underscore(s);
      assert s == s[..i] + "_" + s[i + 1..];
    }
    if a, b :| a != "" && b != "" && AllDigits(a) && AllDigits(b) && s == a + "_" + b {
      UnderscoreOf(a, b);
    }
  }

  lemma {:induction false} UnderscoreOf(a: string, b: string)
    requires AllDigits(a)
    ensures Underscore(a + "_" + b) == |a|
    ensures (a + "_" + b)[..|a|] == a && (a + "_" + b)[|a| + 1..] == b
  {
    var s := a + "_" + b;
    var i := Underscore(s);
    assert s[|a|] == '_';
    assert forall j :: 0 <= j < |a| ==> IsDigit(s[j]);
  }

  /**
   * What a client may send as an offset: nothing or "-1" for the start, "now" for a position past every other, or a
   * pair of decimal numbers that fit in 64 bits each; anything else is refused, as malformed or as out of range.
   */
  lemma {:induction false} ParsesExactly(s: string, a: string, b: string)
    requires a != "" && b != "" && AllDigits(a) && AllDigits(b)
    ensures ParseOffset("") == ParseOffset("-1") == Ok(ZERO_OFFSET)
    ensures ParseOffset("now") == Ok(Offset(0xFFFF_FFFF_FFFF_FFFF, 0xFFFF_FFFF_FFFF_FFFF))
    ensures ParseOffset(a + "_" + b) ==
      if Value(a) <= 0xFFFF_FFFF_FFFF_FFFF && Value(b) <= 0xFFFF_FFFF_FFFF_FFFF then Ok(Offset(Value(a), Value(b)))
      else Err(OutOfRange)
    ensures s != "" && s != "-1" && s != "now" && !WellFormed(s) ==> ParseOffset(s) == Err(InvalidFormat)
  {
    UnderscoreOf(a, b);
    var text := a + "_" + b;
    assert text[0] == a[0] && IsDigit(a[0]);
  }

  /** How the scan stands after `i` characters. */
  predicate Scanned(s: string, i: int, count: int, pos: int)
    requires 0 <= i <= |s|
  {
    && (count == 0 ==> pos == -1 && AllDigits(s[..i]))
    && (count == 1 ==>
      (0 <= pos < i && s[pos] == '_' && AllDigits(s[..pos]) && AllDigits(s[pos + 1..i])))
  }

  lemma {:induction false} ScanDigit(s: string, i: int, count: int, pos: int)
    requires 0 <= i < |s| && Scanned(s, i, count, pos) && IsDigit(s[i])
    ensures Scanned(s, i + 1, count, pos)
  {
    assert s[..i + 1] == s[..i] + [s[i]];
    if count == 1 { assert s[pos + 1..i + 1] == s[pos + 1..i] + [s[i]]; }
  }

  lemma {:induction false} ScanEnd(s: string, count: int, pos: int)
    requires Scanned(s, |s|, count, pos) && 0 <= count <= 1
    ensures WellFormed(s) <==> count == 1 && 0 < pos < |s| - 1
  {
    if count == 1 { OneUnderscore(s, pos); } else { NoUnderscore(s); }
  }

  lemma {:induction false} OneUnderscore(s: string, pos: int)
    requires 0 <= pos < |s| && s[pos] == '_' && AllDigits(s[..pos]) && AllDigits(s[pos + 1..|s|])
    ensures WellFormed(s) <==> 0 < pos < |s| - 1
  {
    var low, high := s[..pos], s[pos + 1..];
    assert s[pos + 1..|s|] == high;
    UnderscoreOf(low, high);
    assert s == low + "_" + high;
  }

  lemma {:induction false} NoUnderscore(s: string)
    requires AllDigits(s[..|s|])
    ensures !WellFormed(s)
  {
    assert s[..|s|] == s;
    assert Underscore(s) < |s| ==> IsDigit(s[Underscore(s)]);
  }

  /** Checks the format character by character, counting underscores. */
  method IsValidOffsetFormat(s: string) returns (valid: bool)
    ensures valid <==> WellFormed(s)
  {
    if |s| < 3 { return false; }
    var underscoreCount, underscorePos := 0, -1;
    var i := 0;
    while i < |s|
      invariant 0 <= i <= |s| && 0 <= underscoreCount <= 1
      invariant Scanned(s, i, underscoreCount, underscorePos)
    {
      var c := s[i];
      if c == '_' {
        underscoreCount := underscoreCount + 1;
        if underscoreCount > 1 {
          if WellFormed(s) {
            DigitElsewhere(s, underscorePos);
            DigitElsewhere(s, i);
          }
          return false;
        }
        underscorePos := i;
      } else if c < '0' || c > '9' {
        if WellFormed(s) { DigitElsewhere(s, i); }
        return false;
      } else {
        ScanDigit(s, i, underscoreCount, underscorePos);
      }
      i := i + 1;
    }
    ScanEnd(s, underscoreCount, underscorePos);
    return underscoreCount == 1 && underscorePos > 0 && underscorePos < |s| - 1;
  }

  /** A well-formed text has digits everywhere but at its one underscore. */
  lemma {:induction false} DigitElsewhere(s: string, i: int)
    requires 0 <= i < |s| && WellFormed(s)
    ensures if i == Underscore(s) then s[i] == '_' else IsDigit(s[i])
  {
    var k := Underscore(s);
    if i < k {
      var low := s[..k];
      assert IsDigit(low[i]);
    } else if i > k {
      var high := s[k + 1..];
      assert IsDigit(high[i - k - 1]);
    }
  }

  // ---- Printing, parsing and sorting together ----

  /** A printed offset splits at its underscore into the digits of its components. */
  lemma {:induction false} PrintParts(o: Offset, minimum: nat)
    ensures var s := Print(o, minimum);
      && WellFormed(s) && IsDigit(s[0])
      && Value(s[..Underscore(s)]) == o.readSeq && Value(s[Underscore(s) + 1..]) == o.byteOffset
  {
    PaddedValue(o.readSeq, minimum);
    PaddedValue(o.byteOffset, minimum);
    UnderscoreOf(Padded(o.readSeq, minimum), Padded(o.byteOffset, minimum));
  }

  /** Parsing a printed offset gives it back exactly when both components are uint64 values. */
  lemma {:induction false} ParseString(o: Offset)
    ensures ParseOffset(String(o)) == Ok(o) <==> InRange(o)
    ensures !InRange(o) ==> ParseOffset(String(o)) == Err(OutOfRange)
    ensures String(o) != ""
  {
    PrintParts(o, WIDTH);
  }

  /** Equal texts come from equal offsets. */
  lemma {:induction false} StringInjective(a: Offset, b: Offset)
    requires String(a) == String(b)
    ensures a == b
  {
    PrintParts(a, WIDTH);
    PrintParts(b, WIDTH);
  }

  /** Fixed-width digits sort like the numbers they print, whatever follows them. */
  lemma {:induction false} FixedOrder(a: nat, b: nat, w: nat, x: string, y: string)
    requires a < Pow10(w) && b < Pow10(w)
    ensures Text.Less(Fixed(a, w) + x, Fixed(b, w) + y) <==> a < b || (a == b && Text.Less(x, y))
  {
    if w == 0 {
      assert "" + x == x && "" + y == y;
    } else {
      var da, db := ('0' as int + a % 10) as char, ('0' as int + b % 10) as char;
      FixedOrder(a / 10, b / 10, w - 1, [da] + x, [db] + y);
      assert Fixed(a, w) + x == Fixed(a / 10, w - 1) + ([da] + x);
      assert Fixed(b, w) + y == Fixed(b / 10, w - 1) + ([db] + y);
      assert ([da] + x)[1..] == x && ([db] + y)[1..] == y;
      assert da < db <==> a % 10 < b % 10;
    }
  }

  lemma {:induction false} CountOfSmall(n: nat, w: nat)
    requires w >= 1 && n < Pow10(w)
    ensures DigitCount(n) <= w
  {
    if n >= 10 && w > 1 { CountOfSmall(n / 10, w - 1); }
    assert Pow10(0) == 1;
  }

  /** Components of at most 16 digits. */
  predicate Narrow(o: Offset) {
    o.readSeq < Pow10(WIDTH) && o.byteOffset < Pow10(WIDTH)
  }

  lemma {:induction false} FixedPairOrder(a: Offset, b: Offset, w: nat)
    requires a.readSeq < Pow10(w) && a.byteOffset < Pow10(w)
    requires b.readSeq < Pow10(w) && b.byteOffset < Pow10(w)
    ensures Text.Less(Fixed(a.readSeq, w) + ("_" + Fixed(a.byteOffset, w)),
                      Fixed(b.readSeq, w) + ("_" + Fixed(b.byteOffset, w))) == LessThan(a, b)
  {
    var ta, tb := Fixed(a.byteOffset, w), Fixed(b.byteOffset, w);
    FixedOrder(a.byteOffset, b.byteOffset, w, "", "");
    assert ta + "" == ta && tb + "" == tb;
    assert ("_" + ta)[1..] == ta && ("_" + tb)[1..] == tb;
    FixedOrder(a.readSeq, b.readSeq, w, "_" + ta, "_" + tb);
  }

  lemma {:induction false} Associative(a: string, b: string, c: string)
    ensures a + b + c == a + (b + c)
  {
  }

  lemma {:induction false} PaddedNarrow(n: nat, w: nat)
    requires w >= 1 && n < Pow10(w)
    ensures Padded(n, w) == Fixed(n, w)
  {
    CountOfSmall(n, w);
  }

  lemma {:induction false} PrintNarrow(o: Offset, w: nat)
    requires w >= 1 && o.readSeq < Pow10(w) && o.byteOffset < Pow10(w)
    ensures Print(o, w) == Fixed(o.readSeq, w) + ("_" + Fixed(o.byteOffset, w))
  {
    PaddedNarrow(o.readSeq, w);
    PaddedNarrow(o.byteOffset, w);
    Associative(Fixed(o.readSeq, w), "_", Fixed(o.byteOffset, w));
  }

  /** Within 16 digits, the order of the texts is the order of the offsets. */
  lemma {:induction false} StringOrder(a: Offset, b: Offset)
    requires Narrow(a) && Narrow(b)
    ensures Text.Less(String(a), String(b)) <==> LessThan(a, b)
  {
    PrintNarrow(a, WIDTH);
    PrintNarrow(b, WIDTH);
    FixedPairOrder(a, b, WIDTH);
  }

  ghost predicate SortsBelow(bound: nat) {
    forall a: Offset, b: Offset {:trigger String(a), String(b)} ::
      a.readSeq < bound && a.byteOffset < bound && b.readSeq < bound && b.byteOffset < bound ==>
      (Text.Less(String(a), String(b)) <==> LessThan(a, b))
  }

  /** Sixteen digits is exactly how far the text order can be trusted. */
  lemma {:induction false} StringOrderBound(bound: nat)
    ensures SortsBelow(bound) <==> bound <= Pow10(WIDTH)
  {
    if bound <= Pow10(WIDTH) {
      forall a: Offset, b: Offset {:trigger String(a), String(b)}
        | a.readSeq < bound && a.byteOffset < bound && b.readSeq < bound && b.byteOffset < bound
        ensures Text.Less(String(a), String(b)) <==> LessThan(a, b)
      {
        StringOrder(a, b);
      }
    } else {
      var n := Pow10(WIDTH);
      WideSortsFirst(n, WIDTH);
      assert !Text.Less(String(Offset(n - 1, 0)), String(Offset(n, 0)));
    }
  }

  /** The first number with a digit more sorts before the last without. */
  lemma {:induction false} WideSortsFirst(n: nat, w: nat)
    requires n == Pow10(w) && w >= 1
    ensures !Text.Less(Print(Offset(n - 1, 0), w), Print(Offset(n, 0), w))
  {
    CountOfSmall(n - 1, w);
    CountOfSmall(n, w + 1);
    if DigitCount(n) <= w { PowMonotone(DigitCount(n), w); }
    var tail := "_" + Padded(0, w);
    var last := [('0' as int + n % 10) as char];
    FixedOrder(n - 1, n / 10, w, tail, last + tail);
    assert n == 10 * Pow10(w - 1);
    assert Print(Offset(n - 1, 0), w) == Fixed(n - 1, w) + tail;
    assert Fixed(n, w + 1) == Fixed(n / 10, w) + last;
    assert Print(Offset(n, 0), w) == Fixed(n / 10, w) + (last + tail);
  }

  /** "-1" sorts below every printed offset. */
  lemma {:induction false} StartSortsFirst(o: Offset)
    ensures Text.Less("-1", String(o)) && !Text.Less(String(o), "-1")
  {
    PrintParts(o, WIDTH);
  }
}
