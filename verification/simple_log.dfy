/**
 * The plain meaning of a forkable store: every stream holds its whole log, positions are message counts, and
 * creating a fork copies the source's log up to the fork point. Appending, closing, deleting and the checks
 * are the stores' own, taken at one position per message.
 */
module SimpleLog {
  import opened Wrappers
  import opened StoreTypes
  import opened StreamStore
  import opened Logs
  import Text

  /** A fork starts as a copy of the source's first messages. */
  function CopyFork(s: State, opts: CreateOptions, expired: set<string>): Result<Stream, Error> {
    match ForkTarget(s.streams, opts, expired)
    case Err(e) => Err(e)
    case Ok(at) =>
      var source := s.streams[opts.forkedFrom];
      var isJson := Text.IsJson(source.meta.contentType);
      match CutInto(isJson, After(source.messages, at), at, SubOffset(opts))
      case Err(e) => Err(e)
      case Ok(fork) =>
        var copy := Stream(ForkMeta(opts, source.meta, fork.offset), UpTo(source.messages, fork.offset), s.clock);
        var blank := if fork.prefix == [] then copy else Extend(Unit, copy, [fork.prefix]);
        Initialise(Unit, blank, opts.initialData)
  }

  function SimpleCreate(s: State, path: string, opts: CreateOptions, expired: set<string>)
    : (State, Result<bool, Error>)
  {
    var (m, claim) := Reclaim(s.streams, path, opts, expired);
    var s1 := s.(streams := m);
    if claim.Settled? then (s1, claim.outcome)
    else
      var r :=
        if opts.forkedFrom == "" then Initialise(Unit, Blank(Unit, RootMeta(opts), [], s.clock), opts.initialData)
        else CopyFork(s1, opts, expired);
      match r
      case Err(e) => (s1, Err(e))
      case Ok(st) => (State(Insert(m, path, st), s.clock + 1), Ok(true))
  }

  /** Reading is a suffix of the stream's own log; no other stream is consulted. */
  function SimpleRead(s: State, path: string, k: nat): seq<Bytes>
    requires path in s.streams
  {
    var log := Datas(s.streams[path].messages);
    if k <= |log| then log[k..] else []
  }

  /** One call; `sweeps` says what a read and a sweep leave behind, as for the stores. */
  function SimpleStep(sweeps: bool, s: State, e: Event): State {
    match e.op
    case CreateOp(path, opts) => SimpleCreate(s, path, opts, e.expired).0
    case AppendOp(path, body, opts) => Append(Unit, s, path, body, opts, e.expired).0
    case CloseOp(path) => Close(s, path, e.expired).0
    case CloseProducerOp(path, id, epoch, seqNo) => CloseWithProducer(s, path, id, epoch, seqNo, e.expired).0
    case DeleteOp(path) => Delete(s, path).0
    case ReadOp(path, from) => AfterRead(sweeps, s, path, e.expired)
    case SweepOp(victims) => AfterSweep(sweeps, s, victims)
  }
}
