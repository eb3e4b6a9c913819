/**
 * UTF-8 text over a network: each piece that arrives is decoded on its own, and what does not decode is replaced.
 * Table 3-7 of the Unicode Standard says which bytes may follow which.
 */
module Utf8 {
  import opened StoreTypes

  const REPLACEMENT := '\U{FFFD}'

  // ---- Encoding ----

  function Continuation(n: int): Byte {
    (0x80 + n % 0x40) as Byte
  }

  /** A character takes one to four bytes; all but the first are continuation bytes. */
  function EncodeChar(c: char): (b: Bytes)
    ensures 1 <= |b| <= 4
  {
    var n := c as int;
    if n < 0x80 then [n as Byte]
    else if n < 0x800 then [(0xC0 + n / 0x40) as Byte, Continuation(n)]
    else if n < 0x10000 then [(0xE0 + n / 0x1000) as Byte, Continuation(n / 0x40), Continuation(n)]
    else [(0xF0 + n / 0x40000) as Byte, Continuation(n / 0x1000), Continuation(n / 0x40), Continuation(n)]
  }

  function Encode(text: string): Bytes {
    if text == "" then [] else EncodeChar(text[0]) + Encode(text[1..])
  }

  predicate IsContinuation(b: Byte) {
    0x80 <= b < 0xC0
  }

  // ---- Decoding ----

  /** How many bytes a character takes that begins with `b`; none does when it is 0. */
  function Width(b: Byte): nat {
    if b < 0x80 then 1
    else if 0xC2 <= b < 0xE0 then 2
    else if 0xE0 <= b < 0xF0 then 3
    else if 0xF0 <= b < 0xF5 then 4
    else 0
  }

  /** The second byte must rule out overlong forms, surrogates, and numbers past the last character. */
  predicate SecondOk(first: Byte, second: Byte) {
    && IsContinuation(second)
    && (first == 0xE0 ==> second >= 0xA0) && (first == 0xED ==> second < 0xA0)
    && (first == 0xF0 ==> second >= 0x90) && (first == 0xF4 ==> second < 0x90)
  }

  /** How many bytes at the front of `b` are the start of a character, up to all of its bytes. */
  function Start(b: Bytes): (n: nat)
    requires b != []
    ensures n <= Width(b[0]) && n <= |b| && (Width(b[0]) > 0 ==> n > 0)
    ensures forall i :: 0 < i < n ==> IsContinuation(b[i])
  {
    var w := Width(b[0]);
    if w <= 1 then w
    else if |b| < 2 || !SecondOk(b[0], b[1]) then 1
    else if w == 2 || |b| < 3 || !IsContinuation(b[2]) then 2
    else if w == 3 || |b| < 4 || !IsContinuation(b[3]) then 3
    else 4
  }

  predicate Whole(b: Bytes) {
    b != [] && Width(b[0]) > 0 && Start(b) == Width(b[0])
  }

  function Low(b: Byte): int {
    b as int - 0x80
  }

  /** The number of the character that `b` begins with. */
  function Number(b: Bytes): int
    requires Whole(b)
  {
    var w, lead := Width(b[0]), b[0] as int;
    if w == 1 then lead
    else if w == 2 then (lead - 0xC0) * 0x40 + Low(b[1])
    else if w == 3 then (lead - 0xE0) * 0x1000 + Low(b[1]) * 0x40 + Low(b[2])
    else (lead - 0xF0) * 0x40000 + Low(b[1]) * 0x1000 + Low(b[2]) * 0x40 + Low(b[3])
  }

  /** The first character of `b`, or a replacement for a broken start of one, and how many bytes it stands for. */
  function First(b: Bytes): (r: (char, nat))
    requires b != []
    ensures 0 < r.1 <= |b|
  {
    if Whole(b) then (Number(b) as char, Start(b))
    else (REPLACEMENT, if Start(b) == 0 then 1 else Start(b))
  }

  function DecodeLossy(b: Bytes): string
    decreases |b|
  {
    if b == [] then "" else [First(b).0] + DecodeLossy(b[First(b).1..])
  }

  // ---- Decoding gives encoded text back ----

  lemma {:induction false} Split2(n: int)
    requires 0x80 <= n < 0x800
    ensures 2 <= n / 0x40 < 0x20 && n / 0x40 * 0x40 + n % 0x40 == n
  {
  }

  lemma {:induction false} Split3(n: int)
    requires 0x800 <= n < 0x10000 && !(0xD800 <= n < 0xE000)
    ensures 0 <= n / 0x1000 < 0x10 && n / 0x1000 * 0x1000 + n / 0x40 % 0x40 * 0x40 + n % 0x40 == n
    ensures n / 0x1000 == 0 ==> n / 0x40 % 0x40 >= 0x20
    ensures n / 0x1000 == 0xD ==> n / 0x40 % 0x40 < 0x20
  {
  }

  lemma {:induction false} Split4(n: int)
    requires 0x10000 <= n < 0x110000
    ensures 0 <= n / 0x40000 <= 4
    ensures n / 0x40000 * 0x40000 + n / 0x1000 % 0x40 * 0x1000 + n / 0x40 % 0x40 * 0x40 + n % 0x40 == n
    ensures n / 0x40000 == 0 ==> n / 0x1000 % 0x40 >= 0x10
    ensures n / 0x40000 == 4 ==> n / 0x1000 % 0x40 < 0x10
  {
  }

  lemma {:induction false} EncodedIsWhole(c: char, b: Bytes)
    requires EncodeChar(c) <= b
    ensures Whole(b) && Start(b) == |EncodeChar(c)| && Number(b) == c as int
  {
    var n, e := c as int, EncodeChar(c);
    assert forall i :: 0 <= i < |e| ==> b[i] == e[i];
    if n < 0x80 {
    } else if n < 0x800 {
      Split2(n);
    } else if n < 0x10000 {
      Split3(n);
    } else {
      Split4(n);
    }
  }

  lemma {:induction false} FirstOfEncoded(c: char, rest: Bytes)
    ensures First(EncodeChar(c) + rest) == (c, |EncodeChar(c)|)
  {
    EncodedIsWhole(c, EncodeChar(c) + rest);
  }

  lemma {:induction false} DecodeStep(c: char, rest: Bytes)
    ensures DecodeLossy(EncodeChar(c) + rest) == [c] + DecodeLossy(rest)
  {
    FirstOfEncoded(c, rest);
    var b := EncodeChar(c) + rest;
    assert b[|EncodeChar(c)|..] == rest;
  }

  lemma {:induction false} BytesAssociative(a: Bytes, b: Bytes, c: Bytes)
    ensures (a + b) + c == a + (b + c)
  {
  }

  lemma {:induction false} TextAssociative(a: string, b: string, c: string)
    ensures (a + b) + c == a + (b + c)
  {
  }

  lemma {:induction false} DecodeThen(text: string, more: Bytes)
    ensures DecodeLossy(Encode(text) + more) == text + DecodeLossy(more)
  {
    if text == "" {
      assert Encode(text) + more == more;
    } else {
      var e, rest := EncodeChar(text[0]), Encode(text[1..]);
      DecodeStep(text[0], rest + more);
      BytesAssociative(e, rest, more);
      DecodeThen(text[1..], more);
      TextAssociative([text[0]], text[1..], DecodeLossy(more));
      assert [text[0]] + text[1..] == text;
    }
  }

  lemma {:induction false} DecodeEncoded(text: string)
    ensures DecodeLossy(Encode(text)) == text
  {
    DecodeThen(text, []);
    assert Encode(text) + [] == Encode(text);
  }

  // ---- Counting ----

  /** The bytes that are not continuation bytes; text has one for every character. */
  function Leads(b: Bytes): nat {
    if b == [] then 0 else (if IsContinuation(b[0]) then 0 else 1) + Leads(b[1..])
  }

  lemma {:induction false} LeadsConcat(a: Bytes, b: Bytes)
    ensures Leads(a + b) == Leads(a) + Leads(b)
  {
    if a == [] {
      assert a + b == b;
    } else {
      assert (a + b)[1..] == a[1..] + b;
      LeadsConcat(a[1..], b);
    }
  }

  lemma {:induction false} NoLeads(b: Bytes)
    requires forall i :: 0 <= i < |b| ==> IsContinuation(b[i])
    ensures Leads(b) == 0
  {
    if b != [] { NoLeads(b[1..]); }
  }

  lemma {:induction false} OneLead(c: char)
    ensures Leads(EncodeChar(c)) == 1
    ensures !IsContinuation(EncodeChar(c)[0])
    ensures forall i :: 0 < i < |EncodeChar(c)| ==> IsContinuation(EncodeChar(c)[i])
  {
    NoLeads(EncodeChar(c)[1..]);
  }

  lemma {:induction false} LeadsOfText(text: string)
    ensures Leads(Encode(text)) == |text|
  {
    if text != "" {
      OneLead(text[0]);
      LeadsConcat(EncodeChar(text[0]), Encode(text[1..]));
      LeadsOfText(text[1..]);
    }
  }

  /** Decoding yields at least one character for every lead byte, and one more for a stray byte at the front. */
  lemma {:induction false} DecodedLength(b: Bytes)
    ensures |DecodeLossy(b)| >= Leads(b)
    ensures b != [] && IsContinuation(b[0]) ==> |DecodeLossy(b)| > Leads(b)
    decreases |b|
  {
    if b != [] {
      var n := First(b).1;
      assert b == b[..n] + b[n..];
      LeadsConcat(b[..n], b[n..]);
      NoLeads(b[..n][1..]);
      DecodedLength(b[n..]);
    }
  }

  // ---- Pieces ----

  function Join(pieces: seq<Bytes>): Bytes {
    if pieces == [] then [] else pieces[0] + Join(pieces[1..])
  }

  /** What the client appends to its buffer as the pieces arrive. */
  function DecodePieces(pieces: seq<Bytes>): seq<string> {
    if pieces == [] then [] else [DecodeLossy(pieces[0])] + DecodePieces(pieces[1..])
  }

  function Concat(strings: seq<string>): string {
    if strings == [] then "" else strings[0] + Concat(strings[1..])
  }

  /** No piece begins in the middle of a character. */
  predicate CutBetween(pieces: seq<Bytes>) {
    forall i :: 0 <= i < |pieces| ==> pieces[i] == [] || !IsContinuation(pieces[i][0])
  }

  lemma {:induction false} JoinStarts(pieces: seq<Bytes>)
    requires CutBetween(pieces)
    ensures Join(pieces) == [] || !IsContinuation(Join(pieces)[0])
  {
    if pieces != [] { JoinStarts(pieces[1..]); }
  }

  lemma {:induction false} BoundaryInside(e: Bytes, tail: Bytes, a: Bytes, b: Bytes)
    requires e + tail == a + b && |a| < |e|
    ensures b != [] && b[0] == e[|a|]
  {
    assert (a + b)[|a|] == b[0];
  }

  lemma {:induction false} FirstCharWhole(c: char, tail: Bytes, a: Bytes, b: Bytes)
    requires EncodeChar(c) + tail == a + b && a != [] && (b == [] || !IsContinuation(b[0]))
    ensures |EncodeChar(c)| <= |a|
    ensures a == EncodeChar(c) + a[|EncodeChar(c)|..] && tail == a[|EncodeChar(c)|..] + b
  {
    var e := EncodeChar(c);
    OneLead(c);
    if |a| < |e| { BoundaryInside(e, tail, a, b); }
    assert (a + b)[..|e|] == a[..|e|] && (a + b)[|e|..] == a[|e|..] + b;
    assert (e + tail)[..|e|] == e && (e + tail)[|e|..] == tail;
  }

  lemma {:induction false} EncodeFront(text: string, j: nat)
    requires text != "" && j < |text|
    ensures Encode(text[..j + 1]) == EncodeChar(text[0]) + Encode(text[1..][..j])
    ensures text[1..][j..] == text[j + 1..]
  {
    assert text[..j + 1][0] == text[0] && text[..j + 1][1..] == text[1..][..j];
  }

  /** Encoded text cut before a byte that continues nothing is cut between two characters. */
  lemma {:induction false} CutText(text: string, a: Bytes, b: Bytes) returns (k: nat)
    requires Encode(text) == a + b && (b == [] || !IsContinuation(b[0]))
    ensures k <= |text| && a == Encode(text[..k]) && b == Encode(text[k..])
  {
    if a == [] {
      k := 0;
      assert text[..0] == "" && text[0..] == text && a + b == b;
    } else {
      var e := EncodeChar(text[0]);
      FirstCharWhole(text[0], Encode(text[1..]), a, b);
      var j := CutText(text[1..], a[|e|..], b);
      k := j + 1;
      EncodeFront(text, j);
    }
  }

  lemma {:induction false} CleanCuts(text: string, pieces: seq<Bytes>)
    requires Join(pieces) == Encode(text) && CutBetween(pieces)
    ensures Concat(DecodePieces(pieces)) == text
    decreases pieces
  {
    if pieces == [] {
      LeadsOfText(text);
    } else {
      var rest := pieces[1..];
      JoinStarts(rest);
      var k := CutText(text, pieces[0], Join(rest));
      DecodeEncoded(text[..k]);
      CleanCuts(text[k..], rest);
      assert DecodePieces(pieces)[1..] == DecodePieces(rest) && text[..k] + text[k..] == text;
    }
  }

  lemma {:induction false} PiecesLength(pieces: seq<Bytes>)
    ensures |Concat(DecodePieces(pieces))| >= Leads(Join(pieces))
    ensures !CutBetween(pieces) ==> |Concat(DecodePieces(pieces))| > Leads(Join(pieces))
    decreases pieces
  {
    if pieces != [] {
      DecodedLength(pieces[0]);
      LeadsConcat(pieces[0], Join(pieces[1..]));
      PiecesLength(pieces[1..]);
      assert DecodePieces(pieces)[1..] == DecodePieces(pieces[1..]);
      assert forall i :: 0 < i < |pieces| ==> pieces[i] == pieces[1..][i - 1];
    }
  }

  /** The pieces of a text decode to the text exactly when the network cuts it between characters only. */
  lemma {:induction false} PiecesDecode(text: string, pieces: seq<Bytes>)
    requires Join(pieces) == Encode(text)
    ensures Concat(DecodePieces(pieces)) == text <==> CutBetween(pieces)
  {
    if CutBetween(pieces) {
      CleanCuts(text, pieces);
    } else {
      PiecesLength(pieces);
      LeadsOfText(text);
    }
  }
}
