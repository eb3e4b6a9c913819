/** The event stream as bytes: the client decodes every piece the network delivers on its own. */
module SsePieces {
  import opened Wrappers
  import opened StoreTypes
  import opened SseFraming
  import opened Utf8

  /** What the client gets when the network delivers these pieces. */
  function ReceiveBytes(cfg: Config, p: Parser, pieces: seq<Bytes>): (Parser, seq<SseFraming.Outcome>) {
    Receive(cfg, p, DecodePieces(pieces))
  }

  /**
   * The client's chunks do not depend on where the network cuts the bytes of the text, as long as it cuts between
   * characters; and the text that reaches the parser is the text sent exactly then.
   */
  lemma {:induction false} ByteCuts(cfg: Config, p: Parser, text: string, pieces: seq<Bytes>)
    requires '\n' !in p.buffer && Join(pieces) == Encode(text)
    ensures Concat(DecodePieces(pieces)) == text <==> CutBetween(pieces)
    ensures CutBetween(pieces) ==> ReceiveBytes(cfg, p, pieces) == Drain(cfg, Push(p, text))
  {
    PiecesDecode(text, pieces);
    CutsDoNotMatter(cfg, p, DecodePieces(pieces));
  }

  // ---- A character cut in two ----

  /** The text `before`, `c` and `after`, cut behind the first byte of `c`. */
  function CutInside(before: string, c: char, after: string): seq<Bytes> {
    [Encode(before) + EncodeChar(c)[..1], EncodeChar(c)[1..] + Encode(after)]
  }

  lemma {:induction false} EncodeConcat(a: string, b: string)
    ensures Encode(a + b) == Encode(a) + Encode(b)
  {
    if a == "" {
      assert a + b == b;
    } else {
      assert (a + b)[1..] == a[1..] + b;
      EncodeConcat(a[1..], b);
      BytesAssociative(EncodeChar(a[0]), Encode(a[1..]), Encode(b));
    }
  }

  lemma {:induction false} JoinTwo(a: Bytes, b: Bytes)
    ensures Join([a, b]) == a + b
  {
    assert [a, b][1..] == [b] && [b][1..] == [];
    assert Join([b]) == b;
  }

  lemma {:induction false} ConcatTwo(a: Bytes, b: Bytes)
    ensures Concat(DecodePieces([a, b])) == DecodeLossy(a) + DecodeLossy(b)
  {
    var x, y := DecodeLossy(a), DecodeLossy(b);
    assert [a, b][1..] == [b] && [b][1..] == [];
    assert DecodePieces([b]) == [y] && DecodePieces([a, b]) == [x, y];
    assert [x, y][1..] == [y] && [y][1..] == [];
    assert Concat([y]) == y;
  }

  lemma {:induction false} Rejoin(x: Bytes, e: Bytes, y: Bytes)
    requires |e| > 0
    ensures (x + e[..1]) + (e[1..] + y) == (x + e) + y
  {
  }

  lemma {:induction false} CutJoins(before: string, c: char, after: string)
    ensures Join(CutInside(before, c, after)) == Encode(before + [c] + after)
  {
    var e := EncodeChar(c);
    JoinTwo(Encode(before) + e[..1], e[1..] + Encode(after));
    EncodeConcat(before + [c], after);
    EncodeConcat(before, [c]);
    assert [c][1..] == "" && Encode([c]) == e;
    Rejoin(Encode(before), e, Encode(after));
  }

  // ---- Any character, cut anywhere ----

  function Replacements(n: nat): string {
    if n == 0 then "" else [REPLACEMENT] + Replacements(n - 1)
  }

  /** The first bytes of a character, without the rest, are replaced by one character. */
  lemma {:induction false} FrontReplaced(c: char, k: nat)
    requires 0 < k < |EncodeChar(c)|
    ensures DecodeLossy(EncodeChar(c)[..k]) == [REPLACEMENT]
  {
    var e := EncodeChar(c);
    EncodedIsWhole(c, e);
    var front := e[..k];
    assert front[0] == e[0] && (k > 1 ==> front[1] == e[1]) && (k > 2 ==> front[2] == e[2]);
    assert Start(front) == k && !Whole(front);
    assert front[k..] == [];
  }

  /** Each continuation byte without its front is replaced by one more. */
  lemma {:induction false} RestReplaced(rest: Bytes, after: string)
    requires forall i :: 0 <= i < |rest| ==> IsContinuation(rest[i])
    ensures DecodeLossy(rest + Encode(after)) == Replacements(|rest|) + after
    decreases |rest|
  {
    if rest == [] {
      DecodeEncoded(after);
      assert rest + Encode(after) == Encode(after) && "" + after == after;
    } else {
      var all := rest + Encode(after);
      assert all[0] == rest[0] && all[1..] == rest[1..] + Encode(after);
      assert Width(all[0]) == 0 && First(all) == (REPLACEMENT, 1);
      RestReplaced(rest[1..], after);
    }
  }

  /** A character of `n` bytes, cut behind its first `k`, arrives as one replacement and one for each byte left. */
  lemma {:induction false} CutCharacter(before: string, c: char, k: nat, after: string)
    requires 0 < k < |EncodeChar(c)|
    ensures var e := EncodeChar(c);
      Concat(DecodePieces([Encode(before) + e[..k], e[k..] + Encode(after)])) ==
        before + [REPLACEMENT] + (Replacements(|e| - k) + after)
  {
    var e := EncodeChar(c);
    FrontReplaced(c, k);
    OneLead(c);
    RestReplaced(e[k..], after);
    DecodeThen(before, e[..k]);
    ConcatTwo(Encode(before) + e[..k], e[k..] + Encode(after));
  }

  /** A character of two bytes, cut in the middle, arrives as two replacement characters. */
  lemma {:induction false} TwoHalves(before: string, c: char, after: string)
    requires 0x80 <= c as int < 0x800
    ensures Concat(DecodePieces(CutInside(before, c, after))) == before + [REPLACEMENT, REPLACEMENT] + after
  {
    CutCharacter(before, c, 1, after);
    assert Replacements(1) == [REPLACEMENT];
    assert before + [REPLACEMENT] + ([REPLACEMENT] + after) == before + [REPLACEMENT, REPLACEMENT] + after;
  }

  lemma {:induction false} FrameOf(body: string)
    requires OneLiner(body)
    ensures FrameData(body) == "event: data\ndata:" + body + "\n\n"
  {
    OneLine(body);
    var line := "data:" + body + "\n";
    assert [body][1..] == [] && DataLines([body]) == line + "" == line;
    Regroup("event: data\n", "data:", body, "\n", "\n");
    assert "event: data\n" + "data:" == "event: data\ndata:";
    assert "\n" + "\n" == "\n\n";
    assert FrameData(body) == "event: data\n" + line + "\n";
  }

  lemma {:induction false} Regroup(a: string, b: string, body: string, c: string, d: string)
    ensures a + (b + body + c) + d == (a + b) + body + (c + d)
  {
  }

  lemma {:induction false} OneChunk(cfg: Config, p: Parser, body: string, frame: string)
    requires Between(p) && p.buffer == "" && !cfg.base64 && OneLiner(body) && body != "" && body[0] != ' '
    requires frame == FrameData(body)
    ensures Drain(cfg, Push(p, frame)) == (p, [Chunk(body, p.offset, p.upToDate, p.cursor)])
  {
    OneLine(body);
    assert Stripped([body]) == [body] by { assert [body][1..] == []; }
    DataEventParses(cfg, p, body, "");
    assert frame + "" == frame && p.buffer + frame == frame;
    AloneInBuffer(cfg, p, body, frame);
  }

  lemma {:induction false} AloneInBuffer(cfg: Config, p: Parser, body: string, frame: string)
    requires p.buffer == ""
    requires NextChunk(cfg, p.(buffer := frame)) == (p, Some(Chunk(body, p.offset, p.upToDate, p.cursor)))
    ensures Drain(cfg, p.(buffer := frame)) == (p, [Chunk(body, p.offset, p.upToDate, p.cursor)])
  {
    NothingToDrain(cfg, p);
    var chunk := Chunk(body, p.offset, p.upToDate, p.cursor);
    assert [chunk] + [] == [chunk];
    assert Drain(cfg, p.(buffer := frame)) == After([chunk], Drain(cfg, p));
  }

  /**
   * An event with a character of two bytes, cut between them: the client hands over two replacement characters,
   * where the event in one piece gives the character.
   */
  lemma {:induction false} SplitCharacter(cfg: Config, p: Parser, c: char, before: string, after: string)
    requires Between(p) && p.buffer == "" && !cfg.base64 && 0x80 <= c as int < 0x800
    requires before == "event: data\ndata:" && after == "\n\n"
    ensures Join(CutInside(before, c, after)) == Encode(FrameData([c]))
    ensures ReceiveBytes(cfg, p, CutInside(before, c, after)).1 ==
      [Chunk([REPLACEMENT, REPLACEMENT], p.offset, p.upToDate, p.cursor)]
    ensures REPLACEMENT as int == 0xFFFD
    ensures ReceiveBytes(cfg, p, [Encode(FrameData([c]))]).1 == [Chunk([c], p.offset, p.upToDate, p.cursor)]
  {
    FrameOf([c]);
    CutJoins(before, c, after);
    var broken := [REPLACEMENT, REPLACEMENT];
    FrameOf(broken);
    TwoHalves(before, c, after);
    FrameArrives(cfg, p, CutInside(before, c, after), broken);
    WholeFrame(cfg, p, c);
  }

  lemma {:induction false} FrameArrives(cfg: Config, p: Parser, pieces: seq<Bytes>, body: string)
    requires Between(p) && p.buffer == "" && !cfg.base64 && OneLiner(body) && body != "" && body[0] != ' '
    requires Concat(DecodePieces(pieces)) == FrameData(body)
    ensures ReceiveBytes(cfg, p, pieces).1 == [Chunk(body, p.offset, p.upToDate, p.cursor)]
  {
    CutsDoNotMatter(cfg, p, DecodePieces(pieces));
    OneChunk(cfg, p, body, FrameData(body));
  }

  lemma {:induction false} WholeFrame(cfg: Config, p: Parser, c: char)
    requires Between(p) && p.buffer == "" && !cfg.base64 && 0x80 <= c as int < 0x800
    ensures ReceiveBytes(cfg, p, [Encode(FrameData([c]))]).1 == [Chunk([c], p.offset, p.upToDate, p.cursor)]
  {
    var frame := FrameData([c]);
    DecodeEncoded(frame);
    assert [Encode(frame)][1..] == [] && DecodePieces([Encode(frame)]) == [frame];
    assert [frame][1..] == [] && Concat([frame]) == frame;
    FrameArrives(cfg, p, [Encode(frame)], [c]);
  }
}
