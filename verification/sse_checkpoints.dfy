/** The offset that the client hands over with data from a live connection, as a place to resume from. */
module SseCheckpoints {
  import opened Wrappers
  import opened Offsets
  import opened OffsetText
  import opened StreamStore
  import opened StoreInvariant
  import opened ForkReading
  import Resuming
  import SseDelivery
  import SseFraming
  import SseSessions
  import Utf8

  /** A reader at `o` that gets these messages from the stream is past them at another offset, in text as well. */
  lemma {:induction false} OffsetMoves(z: Kind, s: State, path: string, o: Offset)
    requires Inv(z, s) && Ordered(s.streams) && path in s.streams && View(s.streams, path, o) != []
    ensures var ms := View(s.streams, path, o); String(o) != String(ms[|ms| - 1].offset)
  {
    var ms := View(s.streams, path, o);
    var end := ms[|ms| - 1].offset;
    ViewBounds(z, s, path, o);
    assert o.byteOffset < end.byteOffset;
    if String(o) == String(end) { StringInjective(o, end); }
  }

  /**
   * A chunk of data comes with the offset before its data, and not with the one after: a client that saves that as its
   * checkpoint reads the same messages again when it resumes, whatever has been appended since.
   */
  lemma {:induction false} CheckpointRepeats(z: Kind, s: State, s': State, path: string, o: Offset,
                                             cfg: SseFraming.Config, w: SseSessions.Writer, p: SseFraming.Parser,
                                             events: seq<SseDelivery.SseEvent>, pieces: seq<string>)
    requires Later(z, s, s') && SameGeneration(s, s', path) && o.readSeq == 0 && View(s.streams, path, o) != []
    requires SseFraming.Between(p) && p.buffer == "" && p.offset == String(o)
    requires events != [] && events[0] == SseDelivery.Data(View(s.streams, path, o))
    requires SseSessions.AllUnderstood(cfg, w, events) && Utf8.Concat(pieces) == SseSessions.SessionText(w, events)
    ensures var ms, chunks := View(s.streams, path, o), SseFraming.Receive(cfg, p, pieces).1;
      && chunks != [] && chunks[0].Chunk? && Some(chunks[0].data) == SseSessions.Arrives(cfg, w.body(ms))
      && chunks[0].nextOffset == String(o) && chunks[0].nextOffset != String(ms[|ms| - 1].offset)
      && ms <= View(s'.streams, path, o)
  {
    SseSessions.FirstChunk(cfg, w, p, events, pieces, View(s.streams, path, o));
    OffsetMoves(z, s, path, o);
    Resuming.Resume(z, s, s', path, o);
  }
}
