/**
 * What the file store reads from any offset at all: it seeks to the byte that the offset names, be it the first of a
 * frame or not. Reading messages and reading bytes agree exactly at the boundaries of messages.
 */
module ChainReads {
  import opened Wrappers
  import opened Offsets
  import opened StoreTypes
  import opened StreamStore
  import opened Logs
  import opened StoreInvariant
  import opened FileLayouts
  import Segments

  /** What reading a segment from a physical position returns. */
  function SegmentAt(bytes: Bytes, at: Offset): Result<seq<Message>, Error> {
    var all := Segments.ReadAll(Segments.From(bytes, at.byteOffset), at);
    if all.2.None? then Ok(all.0) else Err(SegmentUnreadable)
  }

  /**
   * A fork's own segment, read from a logical offset. With a later read sequence and fewer bytes than the fork point
   * the physical position wraps around, and the seek fails.
   */
  function OwnAt(bytes: Bytes, base: Offset, o: Offset): Result<seq<Message>, Error> {
    var at := if LessThan(o, base) then base else o;
    if at.byteOffset < base.byteOffset then Err(SegmentUnreadable)
    else
      match SegmentAt(bytes, Offset(at.readSeq, at.byteOffset - base.byteOffset))
      case Ok(ms) => Ok(Shift(ms, base.byteOffset))
      case Err(e) => Err(e)
  }

  /** A segment can hold every message of a stream. */
  predicate OwnFit(m: Streams, p: string)
    requires p in m
  {
    Segments.Fits(Datas(m[p].messages))
  }

  ghost predicate AllFit(m: Streams) {
    forall p {:trigger OwnFit(m, p)} :: p in m ==> OwnFit(m, p)
  }

  /** The segment of a stream. */
  ghost function SegmentOf(m: Streams, p: string): (bytes: Bytes)
    requires AllFit(m) && p in m
    ensures Holds(bytes, m[p])
  {
    assert OwnFit(m, p);
    Segments.EncodeAll(Datas(m[p].messages))
  }

  /** In a stored state these are the bytes in the files. */
  lemma {:induction false} SegmentsStored(l: Layout, s: State)
    requires Stored(l, s)
    ensures AllFit(s.streams)
    ensures forall p :: p in s.streams ==>
      p in l.dirs && l.dirs[p] in l.files && l.files[l.dirs[p]] == SegmentOf(s.streams, p)
  {
    forall p | p in s.streams ensures OwnFit(s.streams, p) { assert Entry(l, s, p); }
    forall p | p in s.streams
      ensures p in l.dirs && l.dirs[p] in l.files && l.files[l.dirs[p]] == SegmentOf(s.streams, p)
    {
      assert Entry(l, s, p);
    }
  }

  lemma {:induction false} SegmentStored(l: Layout, s: State, p: string)
    requires Stored(l, s) && p in s.streams
    ensures AllFit(s.streams) && p in l.metas && l.metas[p] == s.streams[p].meta
    ensures p in l.dirs && l.dirs[p] in l.files && l.files[l.dirs[p]] == SegmentOf(s.streams, p)
  {
    SegmentsStored(l, s);
    assert Entry(l, s, p);
  }

  /** What the source chain contributes, capped at the fork point. */
  ghost function SourceRead(m: Streams, p: string, o: Offset): Result<seq<Message>, Error>
    requires Ordered(m) && AllFit(m) && p in m
    decreases m[p].created, 0
  {
    var meta := m[p].meta;
    assert Younger(m, p);
    if meta.forkedFrom != "" && LessThan(o, meta.forkOffset) && meta.forkedFrom in m then
      match ChainRead(m, meta.forkedFrom, o)
      case Ok(ms) => Ok(UpTo(ms, meta.forkOffset))
      case Err(e) => Err(e)
    else Ok([])
  }

  /** The file store's read across the fork chain. */
  ghost function ChainRead(m: Streams, p: string, o: Offset): Result<seq<Message>, Error>
    requires Ordered(m) && AllFit(m) && p in m
    decreases m[p].created, 1
  {
    var meta := m[p].meta;
    if meta.forkedFrom == "" then SegmentAt(SegmentOf(m, p), o)
    else
      match SourceRead(m, p, o)
      case Err(e) => Err(e)
      case Ok(inherited) =>
        match OwnAt(SegmentOf(m, p), meta.forkOffset, o)
        case Err(e) => Err(e)
        case Ok(own) => Ok(inherited + own)
  }

  /** Messages read, with the flag that says whether they reach the tail. */
  function Answered(r: Result<seq<Message>, Error>, meta: Metadata, o: Offset): Result<(seq<Message>, bool), Error> {
    match r
    case Err(e) => Err(e)
    case Ok(ms) => Ok((ms, UpToDate(meta, ms, o)))
  }

  /** The answer to a read, made from what lies in the segments. */
  ghost function FileRead(m: Streams, path: string, o: Offset, expired: set<string>)
    : Result<(seq<Message>, bool), Error>
    requires Ordered(m) && AllFit(m)
  {
    if path !in m || path in expired || m[path].meta.softDeleted then Err(NotFound)
    else if o == m[path].meta.currentOffset then Ok(([], true))
    else Answered(ChainRead(m, path, o), m[path].meta, o)
  }

  // ---- From a boundary ----

  lemma {:induction false} OwnAtBoundary(st: Stream, bytes: Bytes, o: Offset)
    requires LogOk(FILE, st) && Holds(bytes, st) && o.readSeq == 0
    requires LessThan(o, st.meta.forkOffset) || OwnBoundary(st, o)
    ensures OwnAt(bytes, st.meta.forkOffset, o) == Ok(After(st.messages, o))
  {
    if LessThan(o, st.meta.forkOffset) {
      OwnFrom(st, o);
      SegmentRead(st, bytes, st.meta.forkOffset);
    } else {
      SegmentRead(st, bytes, o);
    }
  }

  /** From a boundary the bytes read are the messages, whatever chain the stream is at the end of. */
  lemma {:induction false} ChainAtBoundary(s: State, p: string, o: Offset)
    requires Inv(FILE, s) && Ordered(s.streams) && AllFit(s.streams) && p in s.streams
    requires Boundary(s.streams, p, o)
    ensures ChainRead(s.streams, p, o) == Ok(View(s.streams, p, o))
    decreases s.streams[p].created
  {
    var st := s.streams[p];
    assert StreamOk(FILE, s, p) && Younger(s.streams, p);
    ViewParts(s.streams, p, o);
    if st.meta.forkedFrom == "" {
      RootRead(st, SegmentOf(s.streams, p), o);
    } else {
      OwnAtBoundary(st, SegmentOf(s.streams, p), o);
      if LessThan(o, st.meta.forkOffset) && st.meta.forkedFrom in s.streams {
        ChainAtBoundary(s, st.meta.forkedFrom, o);
      }
    }
  }

  predicate AsksBoundary(m: Streams, path: string, o: Offset)
    requires Ordered(m)
  {
    path in m ==> Boundary(m, path, o)
  }

  lemma {:induction false} FileReadAtBoundary(s: State, path: string, o: Offset, expired: set<string>)
    requires Inv(FILE, s) && Ordered(s.streams) && AllFit(s.streams)
    ensures AsksBoundary(s.streams, path, o) ==> FileRead(s.streams, path, o, expired) == Read(s, path, o, expired)
  {
    if path in s.streams && Boundary(s.streams, path, o) {
      ChainAtBoundary(s, path, o);
      ReadAtTail(s, path);
    }
  }

  // ---- From inside a frame ----

  /** Where the frame of a message begins. */
  function Start(m: Message): int {
    m.offset.byteOffset - Segments.LENGTH_PREFIX_SIZE - |m.data|
  }

  /** A message whose frame lies between two positions. */
  predicate Lies(m: Message, readSeq: nat, at: nat, end: nat) {
    m.offset.readSeq == readSeq && at <= Start(m) && m.offset.byteOffset <= end
    && |m.data| <= Segments.MAX_MESSAGE_SIZE
  }

  predicate AllLie(ms: seq<Message>, readSeq: nat, at: nat, end: nat) {
    forall i :: 0 <= i < |ms| ==> Lies(ms[i], readSeq, at, end)
  }

  lemma {:induction false} ReadAllLies(b: Bytes, from: Offset)
    ensures AllLie(Segments.ReadAll(b, from).0, from.readSeq, from.byteOffset, from.byteOffset + |b|)
    decreases |b|
  {
    var first := Segments.ReadOne(b);
    if first.Read? {
      var size := Segments.LENGTH_PREFIX_SIZE + |first.data|;
      var end := Add(from, size);
      ReadAllLies(b[size..], end);
      var rest := Segments.ReadAll(b[size..], end).0;
      assert Segments.ReadAll(b, from).0 == [Message(first.data, end)] + rest;
    }
  }

  lemma {:induction false} ShiftLies(ms: seq<Message>, readSeq: nat, at: nat, end: nat, distance: nat)
    requires AllLie(ms, readSeq, at, end)
    ensures AllLie(Shift(ms, distance), readSeq, at + distance, end + distance)
  {
    if ms != [] {
      assert Lies(ms[0], readSeq, at, end);
      ShiftLies(ms[1..], readSeq, at, end, distance);
    }
  }

  lemma {:induction false} CappedLies(ms: seq<Message>, at: nat, end: nat, cap: Offset)
    requires AllLie(ms, cap.readSeq, at, end)
    ensures AllLie(UpTo(ms, cap), cap.readSeq, at, cap.byteOffset)
  {
    if ms != [] {
      assert Lies(ms[0], cap.readSeq, at, end);
      CappedLies(ms[1..], at, end, cap);
    }
  }

  lemma {:induction false} OwnAtLies(bytes: Bytes, base: Offset, o: Offset)
    requires base.readSeq == o.readSeq && o.byteOffset <= base.byteOffset + |bytes|
    ensures var r := OwnAt(bytes, base, o);
      r.Ok? ==> AllLie(r.value, base.readSeq, o.byteOffset, base.byteOffset + |bytes|)
  {
    var at := if LessThan(o, base) then base else o;
    var physical := Offset(at.readSeq, at.byteOffset - base.byteOffset);
    var rest := Segments.From(bytes, physical.byteOffset);
    ReadAllLies(rest, physical);
    var all := Segments.ReadAll(rest, physical).0;
    ShiftLies(all, physical.readSeq, physical.byteOffset, |bytes|, base.byteOffset);
  }

  /** The tail is where the segment ends. */
  lemma {:induction false} SegmentEnds(s: State, p: string)
    requires Inv(FILE, s) && AllFit(s.streams) && p in s.streams
    ensures s.streams[p].meta.currentOffset == Add(s.streams[p].meta.forkOffset, |SegmentOf(s.streams, p)|)
  {
    assert StreamOk(FILE, s, p);
    var st := s.streams[p];
    ChainedIsFrame(FILE, st.meta.forkOffset, st.messages, st.meta.currentOffset);
    assert OwnFit(s.streams, p);
    TailIsLength(st.meta.forkOffset, Datas(st.messages));
  }

  /** Messages that lie between two positions, or the one error there is. */
  predicate ReadLies(r: Result<seq<Message>, Error>, at: nat, end: nat) {
    match r
    case Ok(ms) => AllLie(ms, 0, at, end)
    case Err(e) => e == SegmentUnreadable
  }

  lemma {:induction false} BothLie(a: seq<Message>, b: seq<Message>, at: nat, middle: nat, end: nat)
    requires AllLie(a, 0, at, middle) && AllLie(b, 0, at, end) && middle <= end
    ensures AllLie(a + b, 0, at, end)
  {
    forall i | 0 <= i < |a + b| ensures Lies((a + b)[i], 0, at, end) {
      if i < |a| { assert Lies(a[i], 0, at, middle); } else { assert Lies(b[i - |a|], 0, at, end); }
    }
  }

  lemma {:induction false} SegmentLies(bytes: Bytes, o: Offset)
    requires o.readSeq == 0 && o.byteOffset <= |bytes|
    ensures ReadLies(SegmentAt(bytes, o), o.byteOffset, |bytes|)
  {
    ReadAllLies(Segments.From(bytes, o.byteOffset), o);
  }

  /** Whatever bytes a read starts at, what it takes for messages lies between there and the tail. */
  lemma {:induction false} ChainLies(s: State, p: string, o: Offset)
    requires Inv(FILE, s) && Ordered(s.streams) && AllFit(s.streams) && p in s.streams
    requires o.readSeq == 0 && o.byteOffset <= s.streams[p].meta.currentOffset.byteOffset
    ensures ReadLies(ChainRead(s.streams, p, o), o.byteOffset, s.streams[p].meta.currentOffset.byteOffset)
    decreases s.streams[p].created, 1
  {
    var meta := s.streams[p].meta;
    assert StreamOk(FILE, s, p);
    SegmentEnds(s, p);
    if meta.forkedFrom == "" {
      SegmentLies(SegmentOf(s.streams, p), o);
    } else {
      SourceLies(s, p, o);
      OwnAtLies(SegmentOf(s.streams, p), meta.forkOffset, o);
      var inherited, own := SourceRead(s.streams, p, o), OwnAt(SegmentOf(s.streams, p), meta.forkOffset, o);
      if inherited.Ok? && own.Ok? {
        BothLie(inherited.value, own.value, o.byteOffset, meta.forkOffset.byteOffset, meta.currentOffset.byteOffset);
      }
    }
  }

  lemma {:induction false} SourceLies(s: State, p: string, o: Offset)
    requires Inv(FILE, s) && Ordered(s.streams) && AllFit(s.streams) && p in s.streams && o.readSeq == 0
    ensures ReadLies(SourceRead(s.streams, p, o), o.byteOffset, s.streams[p].meta.forkOffset.byteOffset)
    decreases s.streams[p].created, 0
  {
    var meta := s.streams[p].meta;
    assert StreamOk(FILE, s, p) && Younger(s.streams, p);
    if meta.forkedFrom != "" && LessThan(o, meta.forkOffset) && meta.forkedFrom in s.streams {
      ChainLies(s, meta.forkedFrom, o);
      var source := ChainRead(s.streams, meta.forkedFrom, o);
      var end := s.streams[meta.forkedFrom].meta.currentOffset.byteOffset;
      if source.Ok? { CappedLies(source.value, o.byteOffset, end, meta.forkOffset); }
    }
  }

  /** The first of the stream's own messages past an offset that is no boundary: it begins before it. */
  lemma {:induction false} OwnStraddles(from: Offset, ms: seq<Message>, end: Offset, o: Offset)
    requires Chained(FILE, from, ms, end) && from.readSeq == o.readSeq
    requires from.byteOffset < o.byteOffset < end.byteOffset
    requires forall i :: 0 <= i < |ms| ==> ms[i].offset != o
    ensures After(ms, o) != [] && Start(After(ms, o)[0]) < o.byteOffset
    ensures forall i :: 0 <= i < |ms| && o.byteOffset < ms[i].offset.byteOffset ==>
      After(ms, o)[0].offset.byteOffset <= ms[i].offset.byteOffset
    decreases ms
  {
    ChainedBounds(FILE, from, ms, end);
    ChainedBounds(FILE, ms[0].offset, ms[1..], end);
    if ms[0].offset.byteOffset < o.byteOffset {
      OwnStraddles(ms[0].offset, ms[1..], end, o);
      assert forall i :: 0 < i < |ms| ==> ms[i] == ms[1..][i - 1];
    } else {
      assert Start(ms[0]) == from.byteOffset;
      assert forall i :: 0 < i < |ms| ==> ms[i] == ms[1..][i - 1];
    }
  }

  lemma {:induction false} LogStraddled(st: Stream, o: Offset)
    requires LogOk(FILE, st) && o.readSeq == 0
    requires !OwnBoundary(st, o) && !LessThan(o, st.meta.forkOffset)
    ensures After(st.messages, o) != [] && Start(After(st.messages, o)[0]) < o.byteOffset
  {
    OwnStraddles(st.meta.forkOffset, st.messages, st.meta.currentOffset, o);
  }

  /** A read from the second byte of a stream with one message of one byte: the message is passed over in silence. */
  lemma {:induction false} InsideHeader(s: State, p: string, x: Byte)
    requires Inv(FILE, s) && Ordered(s.streams) && AllFit(s.streams) && p in s.streams
    requires s.streams[p].meta.forkedFrom == "" && Datas(s.streams[p].messages) == [[x]]
    ensures ChainRead(s.streams, p, Offset(0, 1)) == Ok([])
    ensures View(s.streams, p, Offset(0, 1)) == s.streams[p].messages
  {
    var st, bytes := s.streams[p], SegmentOf(s.streams, p);
    assert StreamOk(FILE, s, p);
    ChainedBounds(FILE, ZERO_OFFSET, st.messages, st.meta.currentOffset);
    SegmentEnds(s, p);
    Segments.EncodeOne([x]);
    var header := Segments.Header(1);
    Segments.BigEndianRoundTrip(1, header);
    assert header == [0, 0, 0, 1];
    assert bytes == header + [x];
    assert bytes[1..] == [0, 0, 1, x] && bytes[1..][..Segments.LENGTH_PREFIX_SIZE] == bytes[1..];
    assert st.messages == [st.messages[0]] && st.messages[1..] == [];
    assert st.messages[0].data == [x] && st.messages[0].offset == Offset(0, 5);
    assert Inherited(s.streams, p, Offset(0, 1)) == [] && After(st.messages, Offset(0, 1)) == st.messages;
  }
}
