/** Creating a stream at a free path: exactly when it succeeds, and what the new stream is and holds. */
module CreationAnswers {
  import opened Wrappers
  import opened Offsets
  import opened StoreTypes
  import opened StreamStore
  import opened StoreInvariant
  import opened Resuming
  import opened Logs
  import opened AppendAnswers
  import Framing
  import Tombstones
  import Text

  /** The initial data, if there is any, can become messages of a stream of this content type. */
  predicate DataFits(contentType: string, initial: Option<Body>) {
    initial.Some? && Text.IsJson(contentType) ==> initial.value.json.Some?
  }

  function FirstParts(contentType: string, initial: Option<Body>): seq<Bytes> {
    if initial.Some? then Payload(contentType, initial.value) else []
  }

  function OneMoreFork(st: Stream): Stream {
    WithRefCount(st, st.meta.refCount + 1)
  }

  /** All that a successful creation does: one new stream, and one more fork of its source. */
  ghost predicate Added(s: State, s': State, path: string, source: string) {
    && s'.clock == s.clock + 1 && s'.streams.Keys == s.streams.Keys + {path}
    && s'.streams[path].created == s.clock
    && (forall q :: q in s.streams && q != path ==>
      s'.streams[q] == if q == source && source != "" then OneMoreFork(s.streams[q]) else s.streams[q])
  }

  lemma {:induction false} DataBecomes(z: Kind, st: Stream, initial: Option<Body>)
    ensures var r, parts := Initialise(z, st, initial), FirstParts(st.meta.contentType, initial);
      && r.Ok? == DataFits(st.meta.contentType, initial)
      && (r.Err? ==> r.error == InvalidJson)
      && (r.Ok? ==>
        && NonEmptyParts(parts)
        && r.value == st.(meta := st.meta.(currentOffset := Tail(z, st.meta.currentOffset, parts)),
                          messages := st.messages + Frame(z, st.meta.currentOffset, parts)))
  {
    if initial.None? { assert st.messages + Frame(z, st.meta.currentOffset, []) == st.messages; }
  }

  /** A new stream holds the cut-off bytes, if any, and its initial data, and its tail lies past both. */
  lemma {:induction false} NewHolds(z: Kind, meta: Metadata, prefix: Bytes, stamp: nat, initial: Option<Body>)
    requires Initialise(z, Blank(z, meta, prefix, stamp), initial).Ok?
    ensures var st := Initialise(z, Blank(z, meta, prefix, stamp), initial).value;
      var own := (if prefix == [] then [] else [prefix]) + FirstParts(meta.contentType, initial);
      && Datas(st.messages) == own
      && st.meta == meta.(currentOffset := Add(meta.currentOffset, Volume(z, own)))
  {
    var blank, parts := Blank(z, meta, prefix, stamp), FirstParts(meta.contentType, initial);
    DataBecomes(z, blank, initial);
    if prefix == [] {
      assert [] + parts == parts && [] + Frame(z, meta.currentOffset, parts) == Frame(z, meta.currentOffset, parts);
      Laid(z, meta.currentOffset, parts);
    } else {
      OnePart(z, meta.currentOffset, prefix);
      Framing.FrameConcat(z, meta.currentOffset, [prefix], parts);
      Laid(z, meta.currentOffset, [prefix] + parts);
    }
  }

  lemma {:induction false} Laid(z: Kind, from: Offset, parts: seq<Bytes>)
    requires NonEmptyParts(parts)
    ensures Datas(Frame(z, from, parts)) == parts
    ensures Tail(z, from, parts) == Add(from, Volume(z, parts))
  {
    FrameChained(z, from, parts);
    TailIsVolume(z, from, parts);
  }

  // ---- Roots ----

  /**
   * A stream without a source is created unless its initial data is to be JSON and is not. It holds that data from the
   * start, and no producer, Stream-Seq or closing request of the past.
   */
  lemma {:induction false} RootCreated(z: Kind, s: State, path: string, opts: CreateOptions, expired: set<string>)
    requires Inv(z, s) && Ordered(s.streams) && path !in s.streams && opts.forkedFrom == ""
    ensures var (s', r) := Create(z, s, path, opts, expired);
      var contentType := if opts.contentType == "" then "application/octet-stream" else opts.contentType;
      var parts := FirstParts(contentType, opts.initialData);
      && r == (if DataFits(contentType, opts.initialData) then Ok(true) else Err(InvalidJson))
      && (r.Err? ==> s' == s)
      && (r.Ok? ==>
        && Added(s, s', path, "") && Ordered(s'.streams)
        && s'.streams[path].meta == Metadata(
             contentType, Add(ZERO_OFFSET, Volume(z, parts)), "", opts.ttlSeconds, opts.expiresAt, map[], opts.closed,
             None, "", ZERO_OFFSET, None, 0, 0, false)
        && Datas(View(s'.streams, path, ZERO_OFFSET)) == parts)
  {
    RootMade(z, s, opts, expired);
    if NewStream(z, s, opts, expired).Ok? { RootReads(z, s, path, opts, expired); }
  }

  lemma {:induction false} RootMade(z: Kind, s: State, opts: CreateOptions, expired: set<string>)
    requires Ordered(s.streams) && opts.forkedFrom == ""
    ensures var r, contentType := NewStream(z, s, opts, expired), Text.OrDefault(opts.contentType);
      var parts := FirstParts(contentType, opts.initialData);
      && r.Ok? == DataFits(contentType, opts.initialData)
      && (r.Err? ==> r.error == InvalidJson)
      && (r.Ok? ==>
        && Datas(r.value.messages) == parts && r.value.created == s.clock
        && r.value.meta == RootMeta(opts).(currentOffset := Add(ZERO_OFFSET, Volume(z, parts))))
  {
    DataBecomes(z, Blank(z, RootMeta(opts), [], s.clock), opts.initialData);
    if NewStream(z, s, opts, expired).Ok? {
      NewHolds(z, RootMeta(opts), [], s.clock, opts.initialData);
      var parts := FirstParts(Text.OrDefault(opts.contentType), opts.initialData);
      assert [] + parts == parts;
    }
  }

  lemma {:induction false} RootReads(z: Kind, s: State, path: string, opts: CreateOptions, expired: set<string>)
    requires Inv(z, s) && Ordered(s.streams) && path !in s.streams && opts.forkedFrom == ""
    requires Create(z, s, path, opts, expired).1.Ok?
    ensures var s' := Create(z, s, path, opts, expired).0;
      && path in s'.streams && Ordered(s'.streams)
      && View(s'.streams, path, ZERO_OFFSET) == s'.streams[path].messages
  {
    var s' := Create(z, s, path, opts, expired).0;
    LaunchKeeps(z, s, path, opts, expired);
    GraphOrdered(s'.streams);
    DataBecomes(z, Blank(z, RootMeta(opts), [], s.clock), opts.initialData);
    AfterOwn(z, s', path);
    assert Inherited(s'.streams, path, ZERO_OFFSET) == [];
    assert [] + s'.streams[path].messages == s'.streams[path].messages;
  }

  // ---- Forks ----

  /** The source is there for a reader, and the request names its content type, up to case, or none. */
  predicate SourceFits(s: State, opts: CreateOptions, expired: set<string>) {
    && opts.forkedFrom in s.streams && opts.forkedFrom !in expired && !s.streams[opts.forkedFrom].meta.softDeleted
    && (opts.contentType == "" || Text.EqualFold(opts.contentType, s.streams[opts.forkedFrom].meta.contentType))
  }

  /** The requested offset, or the tail of the source. */
  function Requested(source: Metadata, opts: CreateOptions): Offset {
    if opts.forkOffset.Some? then opts.forkOffset.value else source.currentOffset
  }

  /**
   * `k` can be cut off what the source holds past the offset: messages of JSON, or bytes of the next binary message.
   */
  predicate CutFits(isJson: bool, rest: seq<Message>, k: nat) {
    k > 0 ==> if isJson then k <= |rest| else |rest| > 0 && k <= |rest[0].data|
  }

  /** Where the fork starts, and the bytes that become its first message. */
  function CutAt(isJson: bool, rest: seq<Message>, at: Offset, k: nat): ForkPoint
    requires CutFits(isJson, rest, k)
  {
    if k == 0 then ForkPoint(at, [])
    else if isJson then ForkPoint(rest[k - 1].offset, [])
    else ForkPoint(at, rest[0].data[..k])
  }

  function ForkMedia(source: Metadata, opts: CreateOptions): string {
    if opts.contentType == "" then source.contentType else opts.contentType
  }

  lemma {:induction false} Resolves(s: State, opts: CreateOptions, expired: set<string>)
    requires Ordered(s.streams)
    ensures var r := ResolveFork(s.streams, opts, expired);
      if !SourceFits(s, opts, expired) then
        r == Err(if opts.forkedFrom !in s.streams then NotFound
                 else if s.streams[opts.forkedFrom].meta.softDeleted then StreamSoftDeleted
                 else if opts.forkedFrom in expired then NotFound else ContentTypeMismatch)
      else
        var source := s.streams[opts.forkedFrom].meta;
        var at := Requested(source, opts);
        var isJson, rest := Text.IsJson(source.contentType), View(s.streams, opts.forkedFrom, at);
        r == if LessThan(source.currentOffset, at) then Err(InvalidForkOffset)
             else if !CutFits(isJson, rest, SubOffset(opts)) then Err(InvalidForkSubOffset)
             else Ok(CutAt(isJson, rest, at, SubOffset(opts)))
  {
  }

  /**
   * A fork is created exactly when its source can be read, the content types agree, the offset lies within the source,
   * what is to be cut off lies within what follows, and the initial data fits. Any failure changes nothing.
   */
  lemma {:induction false} ForkCreatedExactly(z: Kind, s: State, path: string, opts: CreateOptions,
                                              expired: set<string>)
    requires Inv(z, s) && Ordered(s.streams) && path !in s.streams && opts.forkedFrom != ""
    ensures var (s', r) := Create(z, s, path, opts, expired);
      && (r.Err? ==> s' == s)
      && (r.Ok? ==> r == Ok(true))
      && (r.Ok? <==>
        && SourceFits(s, opts, expired)
        && var source := s.streams[opts.forkedFrom].meta;
           var at := Requested(source, opts);
        && !LessThan(source.currentOffset, at)
        && CutFits(Text.IsJson(source.contentType), View(s.streams, opts.forkedFrom, at), SubOffset(opts))
        && DataFits(ForkMedia(source, opts), opts.initialData))
      && (r == Err(InvalidForkOffset) <==>
        SourceFits(s, opts, expired) && opts.forkOffset.Some? &&
        LessThan(s.streams[opts.forkedFrom].meta.currentOffset, opts.forkOffset.value))
  {
    Resolves(s, opts, expired);
    var fork := ResolveFork(s.streams, opts, expired);
    if fork.Ok? {
      var meta := ForkMeta(opts, s.streams[opts.forkedFrom].meta, fork.value.offset);
      DataBecomes(z, Blank(z, meta, fork.value.prefix, s.clock), opts.initialData);
    }
  }

  /**
   * A new fork starts where it was cut, with the cut-off bytes and the initial data as its own messages. It takes
   * nothing from its source but the content type and lease, where the request leaves them open: no producers, no
   * Stream-Seq and no closure. The source counts one more fork.
   */
  lemma {:induction false} ForkCreated(z: Kind, s: State, path: string, opts: CreateOptions, expired: set<string>)
    requires Inv(z, s) && Ordered(s.streams) && path !in s.streams && opts.forkedFrom != ""
    requires Create(z, s, path, opts, expired).1.Ok?
    ensures SourceFits(s, opts, expired)
    ensures var s' := Create(z, s, path, opts, expired).0;
      var source := s.streams[opts.forkedFrom].meta;
      var at := Requested(source, opts);
      var isJson, rest := Text.IsJson(source.contentType), View(s.streams, opts.forkedFrom, at);
      && CutFits(isJson, rest, SubOffset(opts))
      && Added(s, s', path, opts.forkedFrom)
      && var fork, meta := CutAt(isJson, rest, at, SubOffset(opts)), s'.streams[path].meta;
         var own := (if fork.prefix == [] then [] else [fork.prefix])
           + FirstParts(ForkMedia(source, opts), opts.initialData);
      && Datas(s'.streams[path].messages) == own
      && meta == Metadata(
           ForkMedia(source, opts), Add(fork.offset, Volume(z, own)), "", meta.ttlSeconds, meta.expiresAt, map[],
           opts.closed, None, opts.forkedFrom, fork.offset, opts.forkOffset, SubOffset(opts), 0, false)
  {
    Resolves(s, opts, expired);
    ForkMade(z, s, opts, expired);
    ForkAdded(z, s, path, opts, expired);
  }

  lemma {:induction false} ForkAdded(z: Kind, s: State, path: string, opts: CreateOptions, expired: set<string>)
    requires Inv(z, s) && Ordered(s.streams) && path !in s.streams && opts.forkedFrom != ""
    requires Create(z, s, path, opts, expired).1.Ok?
    ensures NewStream(z, s, opts, expired).Ok?
    ensures var s', st := Create(z, s, path, opts, expired).0, NewStream(z, s, opts, expired).value;
      path in s'.streams && s'.streams[path] == st && Added(s, s', path, opts.forkedFrom)
  {
    var st := NewStream(z, s, opts, expired).value;
    NewStreamInsertable(z, s, path, opts, expired);
    Tombstones.NewStreamLinks(z, s, opts, expired);
    InsertAdds(s, path, st);
  }

  lemma {:induction false} InsertAdds(s: State, path: string, st: Stream)
    requires path !in s.streams && st.meta.forkedFrom in s.streams && st.created == s.clock
    ensures Added(s, State(Insert(s.streams, path, st), s.clock + 1), path, st.meta.forkedFrom)
  {
  }

  lemma {:induction false} ForkMade(z: Kind, s: State, opts: CreateOptions, expired: set<string>)
    requires Ordered(s.streams) && opts.forkedFrom != "" && NewStream(z, s, opts, expired).Ok?
    ensures ResolveFork(s.streams, opts, expired).Ok?
    ensures var source, fork := s.streams[opts.forkedFrom].meta, ResolveFork(s.streams, opts, expired).value;
      var own := (if fork.prefix == [] then [] else [fork.prefix])
        + FirstParts(ForkMedia(source, opts), opts.initialData);
      var st := NewStream(z, s, opts, expired).value;
      && Datas(st.messages) == own
      && st.meta == ForkMeta(opts, source, fork.offset).(currentOffset := Add(fork.offset, Volume(z, own)))
  {
    var source, fork := s.streams[opts.forkedFrom].meta, ResolveFork(s.streams, opts, expired).value;
    NewHolds(z, ForkMeta(opts, source, fork.offset), fork.prefix, s.clock, opts.initialData);
  }
}
