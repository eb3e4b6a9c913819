/** Segment files: length-prefixed frames one after the other, and recovery after a torn write. */
module Segments {
  import opened Wrappers
  import opened Offsets
  import opened StoreTypes
  import StreamStore

  const LENGTH_PREFIX_SIZE: nat := 4
  const MAX_MESSAGE_SIZE: nat := 64 * 1024 * 1024

  /** Each message advances the tail by its frame: header and data. */
  const FILE := StreamStore.Framed(LENGTH_PREFIX_SIZE, true)

  // ---- The frame format ----

  function BigEndian(n: nat): (r: Bytes)
    requires n < 0x1_0000_0000
    ensures |r| == LENGTH_PREFIX_SIZE
  {
    [(n / 0x100_0000) as Byte, (n / 0x1_0000 % 0x100) as Byte, (n / 0x100 % 0x100) as Byte, (n % 0x100) as Byte]
  }

  function FromBigEndian(b: Bytes): nat
    requires |b| == LENGTH_PREFIX_SIZE
  {
    b[0] as int * 0x100_0000 + b[1] as int * 0x1_0000 + b[2] as int * 0x100 + b[3] as int
  }

  /** The length prefix round-trips, in both directions. */
  lemma {:induction false} BigEndianRoundTrip(n: nat, b: Bytes)
    requires n < 0x1_0000_0000 && |b| == LENGTH_PREFIX_SIZE
    ensures FromBigEndian(BigEndian(n)) == n
    ensures FromBigEndian(b) < 0x1_0000_0000 && BigEndian(FromBigEndian(b)) == b
  {
    SplitNumber(n);
    JoinNumber(b[0] as int, b[1] as int, b[2] as int, b[3] as int);
  }

  lemma {:induction false} SplitNumber(n: nat)
    requires n < 0x1_0000_0000
    ensures n / 0x100_0000 * 0x100_0000 + n / 0x1_0000 % 0x100 * 0x1_0000 + n / 0x100 % 0x100 * 0x100 + n % 0x100 == n
  {
    assert n / 0x100 * 0x100 + n % 0x100 == n;
    assert n / 0x1_0000 == n / 0x100 / 0x100 && n / 0x100_0000 == n / 0x1_0000 / 0x100;
  }

  lemma {:induction false} JoinNumber(b0: nat, b1: nat, b2: nat, b3: nat)
    requires b0 < 0x100 && b1 < 0x100 && b2 < 0x100 && b3 < 0x100
    ensures var m := b0 * 0x100_0000 + b1 * 0x1_0000 + b2 * 0x100 + b3;
      m / 0x100_0000 == b0 && m / 0x1_0000 % 0x100 == b1 && m / 0x100 % 0x100 == b2 && m % 0x100 == b3
  {
    var m := b0 * 0x100_0000 + b1 * 0x1_0000 + b2 * 0x100 + b3;
    assert m / 0x100 == b0 * 0x1_0000 + b1 * 0x100 + b2;
    assert m / 0x1_0000 == b0 * 0x100 + b1;
  }

  /** Byte order is the order of the lengths: the first byte counts most. */
  lemma {:induction false} BigEndianOrder(a: Bytes, b: Bytes, k: nat)
    requires |a| == |b| == LENGTH_PREFIX_SIZE && k < LENGTH_PREFIX_SIZE && a[..k] == b[..k] && a[k] < b[k]
    ensures FromBigEndian(a) < FromBigEndian(b)
  {
    assert forall i :: 0 <= i < k ==> a[i] == a[..k][i] && b[i] == b[..k][i];
  }

  /** The four bytes that stand for a length. */
  ghost function Header(n: nat): (b: Bytes)
    requires n < 0x1_0000_0000
    ensures |b| == LENGTH_PREFIX_SIZE && FromBigEndian(b) == n
  {
    BigEndianRoundTrip(n, BigEndian(n));
    var b: Bytes :| |b| == LENGTH_PREFIX_SIZE && FromBigEndian(b) == n;
    b
  }

  /** They are the big-endian bytes, and no other bytes stand for the same length. */
  lemma {:induction false} HeaderIs(n: nat, b: Bytes)
    requires n < 0x1_0000_0000 && |b| == LENGTH_PREFIX_SIZE && FromBigEndian(b) == n
    ensures b == Header(n) == BigEndian(n)
  {
    BigEndianRoundTrip(n, b);
    BigEndianRoundTrip(n, Header(n));
  }

  /** One frame: the length of the data, then the data. */
  ghost function Encode(data: Bytes): Bytes
    requires |data| <= MAX_MESSAGE_SIZE
  {
    Header(|data|) + data
  }

  predicate Fits(messages: seq<Bytes>) {
    forall i :: 0 <= i < |messages| ==> |messages[i]| <= MAX_MESSAGE_SIZE
  }

  ghost function EncodeAll(messages: seq<Bytes>): Bytes
    requires Fits(messages)
  {
    if messages == [] then [] else Encode(messages[0]) + EncodeAll(messages[1..])
  }

  lemma {:induction false} EncodedNonEmpty(messages: seq<Bytes>)
    requires Fits(messages) && messages != []
    ensures |EncodeAll(messages)| > 0
  {
  }

  lemma {:induction false} EncodeConcat(a: seq<Bytes>, b: seq<Bytes>)
    requires Fits(a) && Fits(b)
    ensures Fits(a + b) && EncodeAll(a + b) == EncodeAll(a) + EncodeAll(b)
  {
    if a == [] {
      assert a + b == b;
    } else {
      assert (a + b)[1..] == a[1..] + b;
      EncodeConcat(a[1..], b);
    }
  }

  lemma {:induction false} EncodeOne(data: Bytes)
    requires |data| <= MAX_MESSAGE_SIZE
    ensures Fits([data]) && EncodeAll([data]) == Encode(data)
  {
    assert [data][1..] == [];
    assert Encode(data) + [] == Encode(data);
  }

  /** How many leading messages are within the size limit; writing stops at the next one. */
  function Fitting(messages: seq<Bytes>): (k: nat)
    ensures k <= |messages| && Fits(messages[..k])
    ensures k < |messages| ==> |messages[k]| > MAX_MESSAGE_SIZE
  {
    if messages == [] || |messages[0]| > MAX_MESSAGE_SIZE then 0
    else
      var k := Fitting(messages[1..]);
      assert forall i :: 0 < i < 1 + k ==> messages[i] == messages[1..][..k][i - 1];
      1 + k
  }

  lemma {:induction false} FittingAll(messages: seq<Bytes>)
    ensures Fitting(messages) == |messages| <==> Fits(messages)
  {
    var k := Fitting(messages);
    if k == |messages| { assert messages[..k] == messages; }
  }

  lemma {:induction false} FittingStops(messages: seq<Bytes>, i: nat)
    requires i < |messages| && i <= Fitting(messages) && |messages[i]| > MAX_MESSAGE_SIZE
    ensures Fitting(messages) == i && !Fits(messages)
  {
    if i > 0 { FittingStops(messages[1..], i - 1); }
  }

  lemma {:induction false} FittingContinues(messages: seq<Bytes>, i: nat)
    requires i < |messages| && i <= Fitting(messages) && |messages[i]| <= MAX_MESSAGE_SIZE
    ensures i < Fitting(messages)
  {
  }

  lemma {:induction false} EncodeSnoc(messages: seq<Bytes>, i: nat)
    requires i < |messages| && Fits(messages[..i]) && |messages[i]| <= MAX_MESSAGE_SIZE
    ensures Fits(messages[..i + 1]) && EncodeAll(messages[..i + 1]) == EncodeAll(messages[..i]) + Encode(messages[i])
  {
    assert messages[..i + 1] == messages[..i] + [messages[i]];
    EncodeOne(messages[i]);
    EncodeConcat(messages[..i], [messages[i]]);
  }

  /** The length of the whole frame that `b` starts with, if it does. */
  function FirstFrame(b: Bytes): (r: Option<nat>)
    ensures r.Some? ==> LENGTH_PREFIX_SIZE <= r.value <= |b|
  {
    if |b| < LENGTH_PREFIX_SIZE then None
    else
      var length := FromBigEndian(b[..LENGTH_PREFIX_SIZE]);
      if length > MAX_MESSAGE_SIZE || |b| < LENGTH_PREFIX_SIZE + length then None
      else Some(LENGTH_PREFIX_SIZE + length)
  }

  /** How many bytes of whole frames `b` starts with. */
  function ScanLength(b: Bytes): (n: nat)
    ensures n <= |b|
  {
    match FirstFrame(b)
    case None => 0
    case Some(n) => n + ScanLength(b[n..])
  }

  /** The messages of those whole frames. */
  function Decode(b: Bytes): (r: seq<Bytes>)
    ensures Fits(r)
  {
    match FirstFrame(b)
    case None => []
    case Some(n) => [b[LENGTH_PREFIX_SIZE..n]] + Decode(b[n..])
  }

  lemma {:induction false} FirstFrameOfEncode(data: Bytes, rest: Bytes)
    requires |data| <= MAX_MESSAGE_SIZE
    ensures FirstFrame(Encode(data) + rest) == Some(LENGTH_PREFIX_SIZE + |data|)
    ensures (Encode(data) + rest)[LENGTH_PREFIX_SIZE..LENGTH_PREFIX_SIZE + |data|] == data
    ensures (Encode(data) + rest)[LENGTH_PREFIX_SIZE + |data|..] == rest
  {
    var b := Encode(data) + rest;
    assert b[..LENGTH_PREFIX_SIZE] == Header(|data|);
  }

  lemma {:induction false} FrameIsEncoded(b: Bytes)
    requires FirstFrame(b).Some?
    ensures var n := FirstFrame(b).value;
      n - LENGTH_PREFIX_SIZE <= MAX_MESSAGE_SIZE && Encode(b[LENGTH_PREFIX_SIZE..n]) == b[..n]
  {
    var n := FirstFrame(b).value;
    HeaderIs(n - LENGTH_PREFIX_SIZE, b[..LENGTH_PREFIX_SIZE]);
    assert b[..LENGTH_PREFIX_SIZE] + b[LENGTH_PREFIX_SIZE..n] == b[..n];
  }

  // ---- Scanning ----

  /** Whole frames followed by bytes that start no frame: the scan finds exactly the frames. */
  lemma {:induction false} ScanEncoded(messages: seq<Bytes>, rest: Bytes)
    requires Fits(messages) && FirstFrame(rest).None?
    ensures ScanLength(EncodeAll(messages) + rest) == |EncodeAll(messages)|
    ensures Decode(EncodeAll(messages) + rest) == messages
  {
    if messages == [] {
      assert EncodeAll(messages) + rest == rest;
    } else {
      var tail := EncodeAll(messages[1..]) + rest;
      assert EncodeAll(messages) + rest == Encode(messages[0]) + tail;
      FirstFrameOfEncode(messages[0], tail);
      ScanEncoded(messages[1..], rest);
    }
  }

  /** How many of the messages lie whole within the first `cut` bytes of their encoding. */
  function WholeCount(messages: seq<Bytes>, cut: nat): (k: nat)
    requires Fits(messages)
    ensures k <= |messages|
  {
    if messages == [] || cut < LENGTH_PREFIX_SIZE + |messages[0]| then 0
    else 1 + WholeCount(messages[1..], cut - LENGTH_PREFIX_SIZE - |messages[0]|)
  }

  lemma {:induction false} WholeCountMaximal(messages: seq<Bytes>, cut: nat)
    requires Fits(messages) && cut <= |EncodeAll(messages)|
    ensures var k := WholeCount(messages, cut);
      && |EncodeAll(messages[..k])| <= cut
      && (k < |messages| ==> cut < |EncodeAll(messages[..k + 1])|)
  {
    if messages != [] && cut >= LENGTH_PREFIX_SIZE + |messages[0]| {
      var k := WholeCount(messages[1..], cut - LENGTH_PREFIX_SIZE - |messages[0]|);
      WholeCountMaximal(messages[1..], cut - LENGTH_PREFIX_SIZE - |messages[0]|);
      assert messages[..k + 1][1..] == messages[1..][..k];
      if k + 1 < |messages| { assert messages[..k + 2][1..] == messages[1..][..k + 1]; }
    } else if messages != [] {
      assert messages[..1][1..] == [];
    }
  }

  /** What a cut leaves of a frame starts no frame. */
  lemma {:induction false} PartialFrame(data: Bytes, cut: nat)
    requires |data| <= MAX_MESSAGE_SIZE && cut < |Encode(data)|
    ensures FirstFrame(Encode(data)[..cut]).None?
  {
    if cut >= LENGTH_PREFIX_SIZE {
      assert Encode(data)[..cut][..LENGTH_PREFIX_SIZE] == Header(|data|);
    }
  }

  /** Fewer bytes than the next frame has are the beginning of that frame. */
  lemma {:induction false} CutFrame(messages: seq<Bytes>, k: nat, size: nat)
    requires Fits(messages) && k < |messages| && size < |Encode(messages[k])|
    ensures |EncodeAll(messages[k..])| >= size
    ensures EncodeAll(messages[k..])[..size] == Encode(messages[k])[..size]
    ensures FirstFrame(EncodeAll(messages[k..])[..size]).None?
  {
    assert EncodeAll(messages[k..]) == Encode(messages[k]) + EncodeAll(messages[k..][1..]);
    PartialFrame(messages[k], size);
  }

  /** Past the whole messages, a cut leaves nothing or part of one frame. */
  lemma {:induction false} CutTail(messages: seq<Bytes>, k: nat, cut: nat)
    requires Fits(messages) && k <= |messages| && cut <= |EncodeAll(messages)|
    requires |EncodeAll(messages[..k])| <= cut
    requires k < |messages| ==> cut < |EncodeAll(messages[..k + 1])|
    ensures var whole := EncodeAll(messages[..k]);
      exists rest :: EncodeAll(messages)[..cut] == whole + rest && FirstFrame(rest).None?
  {
    var whole := EncodeAll(messages[..k]);
    var rest := EncodeAll(messages)[..cut][|whole|..];
    assert messages == messages[..k] + messages[k..];
    EncodeConcat(messages[..k], messages[k..]);
    assert EncodeAll(messages)[..cut] == whole + rest;
    if k < |messages| {
      assert messages[..k + 1] == messages[..k] + [messages[k]];
      EncodeOne(messages[k]);
      EncodeConcat(messages[..k], [messages[k]]);
      CutFrame(messages, k, cut - |whole|);
      assert rest == EncodeAll(messages[k..])[..cut - |whole|];
    }
  }

  /**
   * A torn write: wherever the encoding of a message list is cut, the scan returns the length of the longest
   * prefix of whole messages, and those messages are what the file holds.
   */
  lemma {:induction false} TornWrite(messages: seq<Bytes>, cut: nat)
    requires Fits(messages) && cut <= |EncodeAll(messages)|
    ensures var k := WholeCount(messages, cut);
      var torn := EncodeAll(messages)[..cut];
      && ScanLength(torn) == |EncodeAll(messages[..k])|
      && torn[..ScanLength(torn)] == EncodeAll(messages[..k])
      && Decode(torn) == messages[..k]
  {
    var k := WholeCount(messages, cut);
    WholeCountMaximal(messages, cut);
    CutTail(messages, k, cut);
    var whole := EncodeAll(messages[..k]);
    var rest :| EncodeAll(messages)[..cut] == whole + rest && FirstFrame(rest).None?;
    ScanEncoded(messages[..k], rest);
    assert (whole + rest)[..|whole|] == whole;
  }

  /** For any bytes at all, what the scan keeps is a well-formed sequence of frames. */
  lemma {:induction false} ScannedIsEncoded(b: Bytes)
    ensures EncodeAll(Decode(b)) == b[..ScanLength(b)]
    ensures FirstFrame(b[ScanLength(b)..]).None?
  {
    match FirstFrame(b) {
      case None => assert b[0..] == b;
      case Some(n) =>
        ScannedIsEncoded(b[n..]);
        FrameIsEncoded(b);
        assert b[..n] + b[n..][..ScanLength(b[n..])] == b[..ScanLength(b)];
        assert b[n..][ScanLength(b[n..])..] == b[ScanLength(b)..];
        assert Decode(b)[1..] == Decode(b[n..]);
    }
  }

  /** No longer sequence of whole messages is a prefix of the bytes. */
  lemma {:induction false} ScanIsLongest(b: Bytes, messages: seq<Bytes>)
    requires Fits(messages) && EncodeAll(messages) <= b
    ensures |EncodeAll(messages)| <= ScanLength(b)
    ensures messages <= Decode(b)
  {
    if messages != [] {
      var rest := b[|Encode(messages[0])|..];
      assert b == Encode(messages[0]) + rest;
      FirstFrameOfEncode(messages[0], rest);
      assert EncodeAll(messages[1..]) <= rest by {
        assert EncodeAll(messages[1..]) == EncodeAll(messages)[|Encode(messages[0])|..];
      }
      ScanIsLongest(rest, messages[1..]);
    }
  }

  /** Recovering twice changes nothing more. */
  lemma {:induction false} RecoveryIdempotent(b: Bytes)
    ensures ScanLength(b[..ScanLength(b)]) == ScanLength(b)
    ensures Decode(b[..ScanLength(b)]) == Decode(b)
  {
    ScannedIsEncoded(b);
    ScanEncoded(Decode(b), []);
    assert EncodeAll(Decode(b)) + [] == b[..ScanLength(b)];
  }

  // ---- Reading frames ----

  datatype ReadError = UnexpectedEof | Corrupted

  /** One ReadMessage at the front of `b`. A file that ends right after a header reads as its end. */
  datatype ReadOutcome = Eof | Failed(error: ReadError) | Read(data: Bytes)

  function ReadOne(b: Bytes): ReadOutcome {
    if |b| == 0 then Eof
    else if |b| < LENGTH_PREFIX_SIZE then Failed(UnexpectedEof)
    else
      var length := FromBigEndian(b[..LENGTH_PREFIX_SIZE]);
      if length > MAX_MESSAGE_SIZE then Failed(Corrupted)
      else if length > 0 && |b| == LENGTH_PREFIX_SIZE then Eof
      else if |b| < LENGTH_PREFIX_SIZE + length then Failed(UnexpectedEof)
      else Read(b[LENGTH_PREFIX_SIZE..LENGTH_PREFIX_SIZE + length])
  }

  /** The messages read from `b` until its end or an error, with the offsets they end at. */
  function ReadAll(b: Bytes, from: Offset): (seq<Message>, Offset, Option<ReadError>)
    decreases |b|
  {
    match ReadOne(b)
    case Eof => ([], from, None)
    case Failed(e) => ([], from, Some(e))
    case Read(data) =>
      var end := Add(from, LENGTH_PREFIX_SIZE + |data|);
      var (rest, last, error) := ReadAll(b[LENGTH_PREFIX_SIZE + |data|..], end);
      ([Message(data, end)] + rest, last, error)
  }

  /** A torn tail that a reader does not notice: nothing, or the header of a message and no more. */
  predicate SilentTail(rest: Bytes) {
    rest == [] ||
    (|rest| == LENGTH_PREFIX_SIZE && 0 < FromBigEndian(rest) <= MAX_MESSAGE_SIZE)
  }

  /** The rest begins with a header for more than a message may hold. */
  predicate Oversized(rest: Bytes) {
    LENGTH_PREFIX_SIZE <= |rest| && FromBigEndian(rest[..LENGTH_PREFIX_SIZE]) > MAX_MESSAGE_SIZE
  }

  /**
   * Reading any bytes returns the whole frames in them. It succeeds exactly when the tail is silent, and reports the
   * file as corrupted exactly when the tail begins with the header of an oversized message.
   */
  lemma {:induction false} ReadAllDecodes(b: Bytes, from: Offset)
    ensures ReadAll(b, from).0 == StreamStore.Frame(FILE, from, Decode(b))
    ensures ReadAll(b, from).1 == Add(from, ScanLength(b))
    ensures ReadAll(b, from).2.None? <==> SilentTail(b[ScanLength(b)..])
    ensures ReadAll(b, from).2 == Some(Corrupted) <==> Oversized(b[ScanLength(b)..])
    decreases |b|
  {
    match FirstFrame(b) {
      case None =>
        assert b[0..] == b;
        if |b| == LENGTH_PREFIX_SIZE { assert b[..LENGTH_PREFIX_SIZE] == b; }
      case Some(n) =>
        var end := Add(from, n);
        ReadAllDecodes(b[n..], end);
        assert b[n..][ScanLength(b[n..])..] == b[ScanLength(b)..];
        assert Decode(b)[1..] == Decode(b[n..]);
        assert ReadOne(b) == Read(b[LENGTH_PREFIX_SIZE..n]);
    }
  }

  /** A file that is one bare header, of any length that may be, reads as empty and without an error. */
  lemma {:induction false} BareHeaderReads(n: nat, from: Offset)
    requires 0 < n <= MAX_MESSAGE_SIZE
    ensures ReadAll(BigEndian(n), from) == ([], from, None) && |BigEndian(n)| == LENGTH_PREFIX_SIZE
    ensures ScanLength(BigEndian(n)) == 0
  {
    var b := BigEndian(n);
    BigEndianRoundTrip(n, b);
    assert b[..LENGTH_PREFIX_SIZE] == b;
  }

  /** After recovery, reading returns exactly the whole messages and no error. */
  lemma {:induction false} RecoveredReads(b: Bytes, from: Offset)
    ensures var kept := b[..ScanLength(b)];
      ReadAll(kept, from) == (StreamStore.Frame(FILE, from, Decode(b)), Add(from, |kept|), None)
  {
    var kept := b[..ScanLength(b)];
    RecoveryIdempotent(b);
    ReadAllDecodes(kept, from);
    assert kept[ScanLength(kept)..] == [];
  }

  /** The bytes from a position on, none when it lies past the end. */
  function From(b: Bytes, pos: nat): Bytes {
    if pos <= |b| then b[pos..] else []
  }

  function Prepend(messages: seq<Message>, r: (seq<Message>, Offset, Option<ReadError>))
    : (seq<Message>, Offset, Option<ReadError>)
  {
    (messages + r.0, r.1, r.2)
  }

  lemma {:induction false} ReadStep(b: Bytes, pos: nat, from: Offset, messages: seq<Message>)
    requires pos <= |b| && ReadOne(b[pos..]).Read?
    ensures var data := ReadOne(b[pos..]).data;
      var size := LENGTH_PREFIX_SIZE + |data|;
      var end := Add(from, size);
      && pos + size <= |b|
      && Prepend(messages, ReadAll(b[pos..], from))
        == Prepend(messages + [Message(data, end)], ReadAll(b[pos + size..], end))
  {
    var data := ReadOne(b[pos..]).data;
    var size := LENGTH_PREFIX_SIZE + |data|;
    var end := Add(from, size);
    assert b[pos..][size..] == b[pos + size..];
    var rest := ReadAll(b[pos + size..], end).0;
    assert messages + ([Message(data, end)] + rest) == (messages + [Message(data, end)]) + rest;
  }

  lemma {:induction false} ReadStop(b: Bytes, from: Offset, messages: seq<Message>)
    requires !ReadOne(b).Read?
    ensures var r := ReadOne(b);
      Prepend(messages, ReadAll(b, from)) == (messages, from, if r.Eof? then None else Some(r.error))
  {
    assert ReadAll(b, from).0 == [];
    assert messages + [] == messages;
  }

  // ---- The code over files ----

  class SegmentFile {
    var bytes: Bytes

    constructor Open(contents: Bytes)
      ensures bytes == contents
    {
      bytes := contents;
    }

    /** Appends one frame, or refuses a message over the size limit. */
    method WriteMessage(data: Bytes) returns (written: Option<nat>)
      modifies this
      ensures written.Some? <==> |data| <= MAX_MESSAGE_SIZE
      ensures written.Some? ==> bytes == old(bytes) + Encode(data) && written.value == |Encode(data)|
      ensures written.None? ==> bytes == old(bytes)
    {
      if |data| > MAX_MESSAGE_SIZE { return None; }
      var lenBuf := BigEndian(|data|);
      BigEndianRoundTrip(|data|, lenBuf);
      HeaderIs(|data|, lenBuf);
      bytes := bytes + lenBuf;
      bytes := bytes + data;
      assert bytes == old(bytes) + Encode(data);
      return Some(|lenBuf| + |data|);
    }

    /** Reads the frame at a position. */
    method ReadMessage(pos: nat) returns (r: ReadOutcome)
      requires pos <= |bytes|
      ensures r == ReadOne(bytes[pos..])
    {
      var available := |bytes| - pos;
      if available == 0 { return Eof; }
      if available < LENGTH_PREFIX_SIZE { return Failed(UnexpectedEof); }
      assert bytes[pos..][..LENGTH_PREFIX_SIZE] == bytes[pos..pos + LENGTH_PREFIX_SIZE];
      var length := FromBigEndian(bytes[pos..pos + LENGTH_PREFIX_SIZE]);
      if length > MAX_MESSAGE_SIZE { return Failed(Corrupted); }
      var start := pos + LENGTH_PREFIX_SIZE;
      if length == 0 { return Read([]); }
      if available == LENGTH_PREFIX_SIZE { return Eof; }
      if available < LENGTH_PREFIX_SIZE + length { return Failed(UnexpectedEof); }
      assert bytes[pos..][LENGTH_PREFIX_SIZE..LENGTH_PREFIX_SIZE + length] == bytes[start..start + length];
      return Read(bytes[start..start + length]);
    }

    /** Reads from a byte offset to the end; a start past the end of the file reads as empty. */
    method ReadMessages(start: Offset) returns (messages: seq<Message>, last: Offset, error: Option<ReadError>)
      ensures (messages, last, error) == ReadAll(From(bytes, start.byteOffset), start)
    {
      messages, last, error := [], start, None;
      if start.byteOffset > |bytes| {
        assert ReadAll([], start) == ([], start, None);
        return;
      }
      var pos := start.byteOffset;
      ghost var all := ReadAll(bytes[pos..], start);
      assert [] + all.0 == all.0;
      while true
        invariant pos <= |bytes| && last == Offset(start.readSeq, pos)
        invariant all == Prepend(messages, ReadAll(bytes[pos..], last))
        decreases |bytes| - pos
      {
        var r := ReadMessage(pos);
        if !r.Read? {
          ReadStop(bytes[pos..], last, messages);
          error := if r.Eof? then None else Some(r.error);
          return;
        }
        ReadStep(bytes, pos, last, messages);
        last := Add(last, LENGTH_PREFIX_SIZE + |r.data|);
        messages := messages + [Message(r.data, last)];
        pos := pos + LENGTH_PREFIX_SIZE + |r.data|;
      }
    }

    /** Skips from frame to frame and stops at the first that is not whole. */
    method Scan() returns (offset: Offset)
      ensures offset == Offset(0, ScanLength(bytes))
    {
      var pos := 0;
      assert bytes[0..] == bytes;
      while true
        invariant pos <= |bytes|
        invariant ScanLength(bytes) == pos + ScanLength(bytes[pos..])
        decreases |bytes| - pos
      {
        if |bytes| - pos < LENGTH_PREFIX_SIZE { break; }
        assert bytes[pos..][..LENGTH_PREFIX_SIZE] == bytes[pos..pos + LENGTH_PREFIX_SIZE];
        var length := FromBigEndian(bytes[pos..pos + LENGTH_PREFIX_SIZE]);
        if length > MAX_MESSAGE_SIZE { break; }
        if |bytes| - pos - LENGTH_PREFIX_SIZE < length { break; }
        assert bytes[pos..][LENGTH_PREFIX_SIZE + length..] == bytes[pos + LENGTH_PREFIX_SIZE + length..];
        pos := pos + LENGTH_PREFIX_SIZE + length;
      }
      return Offset(0, pos);
    }

    /** Truncates the file to its whole frames; a second call would leave it alone. */
    method Recover() returns (offset: Offset, discarded: nat)
      modifies this
      ensures bytes == old(bytes)[..ScanLength(old(bytes))]
      ensures bytes == EncodeAll(Decode(old(bytes)))
      ensures offset == Offset(0, |bytes|) && discarded == |old(bytes)| - |bytes|
      ensures ScanLength(bytes) == |bytes|
    {
      offset := Scan();
      ScannedIsEncoded(bytes);
      RecoveryIdempotent(bytes);
      discarded := 0;
      if |bytes| > offset.byteOffset {
        discarded := |bytes| - offset.byteOffset;
        bytes := bytes[..offset.byteOffset];
      }
    }
  }
}
