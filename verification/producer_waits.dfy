/**
 * The client's pipeline when every request is answered with success, duplicate or gap: batches that arrive too
 * early wait for earlier ones and are sent again. The network may deliver a request again, and its copies late.
 */
module ProducerWaits {
  import opened Wrappers
  import opened StoreTypes
  import opened StreamStore
  import opened ProducerDedup
  import opened ProducerClients
  import Sets

  datatype Reply = Success | AlreadyThere | Gap(expected: int) | Refused

  /** Where one batch of the current epoch stands. A waiting batch was told `from` and now waits for `at`. */
  datatype Phase =
    | InTransit
    | Answered(reply: Reply)
    | Waiting(from: int, at: int)
    | Signalled(failed: bool)

  /** The client, its batches in flight, and what the server remembers of the producer. */
  datatype Pipeline = Pipeline(client: Client, flights: map<int, Phase>, server: Option<ProducerState>)

  datatype Action =
    | AppendItem(data: Bytes)
    | Linger
    | Deliver(seqNo: int)
    | Redeliver(seqNo: int)
    | LateCopy(seqNo: int)
    | Receive(seqNo: int)
    | Wait(seqNo: int)
    | Finish(seqNo: int)
    | Restart

  const PRODUCER := "producer"

  /** The server's answer to one request, and what it remembers then. */
  function Serve(server: Option<ProducerState>, epoch: int, seqNo: int): (Option<ProducerState>, Reply) {
    var producers := match server case None => map[] case Some(state) => map[PRODUCER := state];
    var verdict := ValidateProducer(producers, PRODUCER, epoch, seqNo);
    if verdict.state.Some? then (verdict.state, Success)
    else if verdict.error == None then (server, AlreadyThere)
    else if verdict.error == Some(ProducerSeqGap) then (server, Gap(verdict.result.expectedSeq))
    else (server, Refused)
  }

  function Launch(p: Pipeline, taken: (Client, Option<Batch>)): Pipeline {
    match taken.1
    case None => p.(client := taken.0)
    case Some(b) => p.(client := taken.0, flights := p.flights[b.seqNo := InTransit])
  }

  /** A batch is done: its completion is signalled before it leaves the pipeline. */
  function Done(p: Pipeline, seqNo: int, failed: bool, m: nat): Pipeline {
    p.(client := Signal(p.client, p.client.epoch, seqNo, failed, m), flights := p.flights[seqNo := Signalled(failed)])
  }

  function Act(p: Pipeline, a: Action, m: nat, maxBytes: nat): Pipeline {
    match a
    case AppendItem(data) =>
      var grown := p.(client := p.client.(pending := p.client.pending + [data]));
      if TotalBytes(grown.client.pending) >= maxBytes then Launch(grown, TakeBatch(grown.client, m)) else grown
    case Linger => Launch(p, TakeBatch(p.client, m))
    case Deliver(s) => if s in p.flights && p.flights[s].InTransit? then Processed(p, s) else p
    case Redeliver(s) => if s in p.flights && p.flights[s].Answered? then Processed(p, s) else p
    case LateCopy(s) =>
      if 0 <= s < p.client.nextSeq then p.(server := Serve(p.server, p.client.epoch, s).0) else p
    case Receive(s) =>
      if s !in p.flights || !p.flights[s].Answered? then p
      else
        (match p.flights[s].reply
         case Success => Done(p, s, false, m)
         case AlreadyThere => Done(p, s, false, m)
         case Gap(x) => if x < s then p.(flights := p.flights[s := Waiting(x, x)]) else Done(p, s, true, m)
         case Refused => Done(p, s, true, m))
    case Wait(s) =>
      if s !in p.flights || !p.flights[s].Waiting? then p
      else
        var from, at := p.flights[s].from, p.flights[s].at;
        if at >= s then p.(flights := p.flights[s := InTransit])
        else
          var (client, result) := Await(p.client, p.client.epoch, at);
          var asked := p.(client := client);
          (match result
           case None => asked
           case Some(failed) =>
             if failed then Done(asked, s, true, m) else asked.(flights := p.flights[s := Waiting(from, at + 1)]))
    case Finish(s) =>
      if s in p.flights && p.flights[s].Signalled? && p.client.inFlight > 0
      then p.(client := p.client.(inFlight := p.client.inFlight - 1), flights := p.flights - {s}) else p
    case Restart =>
      if p.client.pending == [] && p.client.inFlight == 0
      then p.(client := p.client.(epoch := p.client.epoch + 1, nextSeq := 0)) else p
  }

  function Processed(p: Pipeline, s: int): Pipeline {
    var (server, reply) := Serve(p.server, p.client.epoch, s);
    p.(server := server, flights := p.flights[s := Answered(reply)])
  }

  // ---- The invariant ----

  /** How many batches of the current epoch the server has accepted. */
  function Acc(p: Pipeline): int {
    if p.server.Some? && p.server.value.epoch == p.client.epoch then p.server.value.lastSeq + 1 else 0
  }

  predicate ToldToWait(phase: Phase) {
    phase.Waiting? || (phase.Answered? && phase.reply.Gap?)
  }

  /** No batch that was told to wait has been accepted meanwhile, by way of a copy of its request. */
  ghost predicate NoneOvertaken(p: Pipeline) {
    forall s {:trigger p.flights[s]} :: s in p.flights && ToldToWait(p.flights[s]) ==> s >= Acc(p)
  }

  /** What each phase says about a batch; `acc` batches have been accepted, and the pipeline holds `m`. */
  predicate FlightOk(phase: Phase, s: int, acc: int, m: nat) {
    match phase
    case InTransit => true
    case Answered(Success) => s < acc
    case Answered(AlreadyThere) => s < acc
    case Answered(Gap(x)) => 0 <= x <= acc <= s && x < s && s - x < m
    case Answered(Refused) => false
    case Waiting(from, at) => 0 <= from <= acc <= s && from <= at <= s && s - from < m
    case Signalled(failed) => s < acc && !failed
  }

  predicate InFlightOk(p: Pipeline, s: int, m: nat)
    requires s in p.flights
  {
    0 <= s < p.client.nextSeq && FlightOk(p.flights[s], s, Acc(p), m)
  }

  /** Batch `t` is complete as far as the client knows. */
  predicate Completed(p: Pipeline, t: int) {
    0 <= t < Acc(p) && (t in p.flights ==> p.flights[t].Signalled?)
  }

  /** The entry of a completed batch is still in the table, unless it is more than three pipelines back. */
  predicate Remembered(p: Pipeline, t: int, m: nat) {
    Completed(p, t) && t >= Acc(p) - 1 - 3 * m ==>
      t in EpochStates(p.client, p.client.epoch) && EpochStates(p.client, p.client.epoch)[t] == SeqState(true, false)
  }

  ghost predicate PipeInv(p: Pipeline, m: nat) {
    && (p.server.Some? ==> p.server.value.epoch <= p.client.epoch && p.server.value.lastSeq >= 0)
    && Acc(p) <= p.client.nextSeq
    && |p.flights.Keys| == p.client.inFlight <= m
    && (forall s {:trigger InFlightOk(p, s, m)} :: s in p.flights ==> InFlightOk(p, s, m))
    && (forall t {:trigger t in p.flights} :: Acc(p) <= t < p.client.nextSeq ==> t in p.flights)
    && (forall t {:trigger Remembered(p, t, m)} :: Remembered(p, t, m))
    && (forall t :: t in EpochStates(p.client, p.client.epoch) ==> !EpochStates(p.client, p.client.epoch)[t].failed)
    && (forall e :: e in p.client.seqStates ==> e <= p.client.epoch)
  }

  // ---- The server's side of one request ----

  /** The server's answers, by what it remembers. */
  lemma {:induction false} ServeCases(server: Option<ProducerState>, epoch: int, s: int)
    ensures var (server', reply) := Serve(server, epoch, s);
      && (reply == Success <==> NextOk(server, epoch, s))
      && (reply == Success ==> server' == Some(ProducerState(epoch, s)))
      && (reply != Success ==> server' == server)
      && (reply == AlreadyThere <==> server.Some? && server.value.epoch == epoch && s <= server.value.lastSeq)
      && (reply.Gap? <==>
           (server.None? && s != 0)
           || (server.Some? && server.value.epoch == epoch && s > server.value.lastSeq + 1))
      && (reply.Gap? ==> reply.expected == if server.Some? then server.value.lastSeq + 1 else 0)
  {
  }

  /**
   * A request of the current or a newer epoch is refused exactly when it is not the first of a newer epoch that
   * the server has yet to see begin: after a restart, batches that overtake the first one are lost.
   */
  lemma {:induction false} RefusedExactly(server: Option<ProducerState>, epoch: int, s: int)
    requires server.Some? ==> server.value.epoch <= epoch
    ensures Serve(server, epoch, s).1 == Refused <==>
      server.Some? && server.value.epoch < epoch && s != 0
  {
    ServeCases(server, epoch, s);
  }

  // ---- Counting ----

  /** A set that holds every number of an interval is at least as large as the interval. */
  lemma {:induction false} IntervalSize(a: int, b: int, s: set<int>)
    requires a <= b && forall t :: a <= t < b ==> t in s
    ensures b - a <= |s|
    decreases b - a
  {
    if a < b { IntervalSize(a, b - 1, s - {b - 1}); }
  }

  // ---- Steps ----

  /** A step that moves one flight and nothing else. */
  lemma {:induction false} MoveFlight(p: Pipeline, s: int, phase: Phase, m: nat)
    requires PipeInv(p, m) && s in p.flights && FlightOk(phase, s, Acc(p), m)
    requires phase.Signalled? == p.flights[s].Signalled?
    ensures PipeInv(p.(flights := p.flights[s := phase]), m)
  {
    var p' := p.(flights := p.flights[s := phase]);
    assert InFlightOk(p, s, m);
    SameFlights(p.flights, s, phase);
    forall t | t in p'.flights ensures InFlightOk(p', t, m) {
      assert InFlightOk(p, t, m);
    }
    forall t ensures Remembered(p', t, m) {
      assert Remembered(p, t, m);
    }
  }

  lemma {:induction false} SameFlights(flights: map<int, Phase>, s: int, phase: Phase)
    requires s in flights
    ensures flights[s := phase].Keys == flights.Keys
  {
    var after := flights[s := phase].Keys;
    assert after <= flights.Keys && flights.Keys <= after;
  }

  /** Processing a request that has not been accepted yet, or again one that has. */
  lemma {:induction false} ProcessedOk(p: Pipeline, s: int, m: nat)
    requires PipeInv(p, m) && s in p.flights && (p.flights[s].InTransit? || p.flights[s].Answered?)
    requires Processed(p, s).flights[s] != Answered(Refused)
    ensures PipeInv(Processed(p, s), m)
  {
    assert InFlightOk(p, s, m);
    ServeCases(p.server, p.client.epoch, s);
    var (server, reply) := Serve(p.server, p.client.epoch, s);
    if reply == Success {
      AcceptOk(p, s, m);
    } else {
      if reply.Gap? {
        assert reply.expected == Acc(p);
        forall t | Acc(p) <= t < s + 1 ensures t in p.flights.Keys {
        }
        IntervalSize(Acc(p), s + 1, p.flights.Keys);
      }
      MoveFlight(p, s, Answered(reply), m);
    }
  }

  /** The next batch is accepted: it was in flight and nobody has signalled it. */
  lemma {:induction false} AcceptOk(p: Pipeline, s: int, m: nat)
    requires PipeInv(p, m) && s in p.flights && (p.flights[s].InTransit? || p.flights[s].Answered?)
    requires NextOk(p.server, p.client.epoch, s)
    ensures s == Acc(p)
    ensures PipeInv(p.(server := Some(ProducerState(p.client.epoch, s)),
                       flights := p.flights[s := Answered(Success)]), m)
  {
    var p' := p.(server := Some(ProducerState(p.client.epoch, s)), flights := p.flights[s := Answered(Success)]);
    assert InFlightOk(p, s, m);
    SameFlights(p.flights, s, Answered(Success));
    assert Acc(p') == Acc(p) + 1;
    forall t | t in p'.flights ensures InFlightOk(p', t, m) {
      assert InFlightOk(p, t, m);
    }
    forall t ensures Remembered(p', t, m) {
      assert Remembered(p, t, m);
    }
  }

  /** A completed batch is signalled: its entry appears, and cleanup spares every entry that still matters. */
  lemma {:induction false} SignalOk(p: Pipeline, s: int, m: nat)
    requires PipeInv(p, m) && s in p.flights && s < Acc(p)
    ensures PipeInv(Done(p, s, false, m), m)
  {
    var p' := Done(p, s, false, m);
    var e := p.client.epoch;
    assert InFlightOk(p, s, m);
    SameFlights(p.flights, s, Signalled(false));
    assert EpochStates(p'.client, e) == Cleaned(EpochStates(p.client, e)[s := SeqState(true, false)], s, m);
    forall t | t in p'.flights ensures InFlightOk(p', t, m) {
      assert InFlightOk(p, t, m);
    }
    forall t ensures Remembered(p', t, m) {
      assert Remembered(p, t, m);
    }
  }

  /** Asking for an earlier batch changes only the waiters. */
  lemma {:induction false} AwaitOk(p: Pipeline, t: int, m: nat)
    requires PipeInv(p, m)
    ensures PipeInv(p.(client := Await(p.client, p.client.epoch, t).0), m)
    ensures Await(p.client, p.client.epoch, t).1 != Some(true)
  {
    var p' := p.(client := Await(p.client, p.client.epoch, t).0);
    forall q | q in p'.flights ensures InFlightOk(p', q, m) {
      assert InFlightOk(p, q, m);
    }
    forall q ensures Remembered(p', q, m) {
      assert Remembered(p, q, m);
    }
  }

  lemma {:induction false} LaunchOk(p: Pipeline, m: nat)
    requires PipeInv(p, m)
    ensures PipeInv(Launch(p, TakeBatch(p.client, m)), m)
  {
    LaunchCounts(p, m);
    LaunchFlights(p, m);
    var p' := Launch(p, TakeBatch(p.client, m));
    forall t ensures Remembered(p', t, m) {
      assert Remembered(p, t, m);
      LaunchRemembers(p, m, t);
    }
  }

  lemma {:induction false} LaunchCounts(p: Pipeline, m: nat)
    requires PipeInv(p, m)
    ensures var p' := Launch(p, TakeBatch(p.client, m));
      && p'.server == p.server && p'.client.epoch == p.client.epoch && p'.client.seqStates == p.client.seqStates
      && Acc(p') == Acc(p) <= p'.client.nextSeq && |p'.flights.Keys| == p'.client.inFlight <= m
      && (forall t {:trigger t in p'.flights} :: Acc(p') <= t < p'.client.nextSeq ==> t in p'.flights)
  {
    var (client, taken) := TakeBatch(p.client, m);
    if taken.Some? {
      NextIsFree(p, m);
      OneMoreFlight(p.flights, taken.value.seqNo, InTransit);
    }
  }

  lemma {:induction false} LaunchFlights(p: Pipeline, m: nat)
    requires PipeInv(p, m)
    ensures var p' := Launch(p, TakeBatch(p.client, m));
      forall t {:trigger InFlightOk(p', t, m)} :: t in p'.flights ==> InFlightOk(p', t, m)
  {
    var p' := Launch(p, TakeBatch(p.client, m));
    forall t | t in p'.flights ensures InFlightOk(p', t, m) {
      if t in p.flights { assert InFlightOk(p, t, m); }
    }
  }

  lemma {:induction false} LaunchRemembers(p: Pipeline, m: nat, t: int)
    requires Remembered(p, t, m) && Acc(p) <= p.client.nextSeq
    ensures Remembered(Launch(p, TakeBatch(p.client, m)), t, m)
  {
  }

  lemma {:induction false} NextIsFree(p: Pipeline, m: nat)
    requires PipeInv(p, m)
    ensures p.client.nextSeq !in p.flights
  {
    assert p.client.nextSeq in p.flights ==> InFlightOk(p, p.client.nextSeq, m);
  }

  lemma {:induction false} OneMoreFlight(flights: map<int, Phase>, s: int, phase: Phase)
    requires s !in flights
    ensures |flights[s := phase].Keys| == |flights.Keys| + 1
  {
    var after := flights[s := phase].Keys;
    assert after <= flights.Keys + {s} && flights.Keys + {s} <= after;
  }

  lemma {:induction false} FinishOk(p: Pipeline, s: int, m: nat)
    requires PipeInv(p, m) && s in p.flights && p.flights[s].Signalled?
    ensures PipeInv(Act(p, Finish(s), m, 0), m)
  {
    var p' := Act(p, Finish(s), m, 0);
    assert InFlightOk(p, s, m);
    OneLessFlight(p.flights, s);
    forall t | t in p'.flights ensures InFlightOk(p', t, m) {
      assert InFlightOk(p, t, m);
    }
    forall t ensures Remembered(p', t, m) {
      assert Remembered(p, t, m);
    }
  }

  lemma {:induction false} OneLessFlight(flights: map<int, Phase>, s: int)
    requires s in flights
    ensures |(flights - {s}).Keys| == |flights.Keys| - 1
  {
    var after := (flights - {s}).Keys;
    assert after <= flights.Keys - {s} && flights.Keys - {s} <= after;
  }

  lemma {:induction false} RestartOk(p: Pipeline, m: nat)
    requires PipeInv(p, m) && p.client.inFlight == 0
    ensures PipeInv(p.(client := p.client.(epoch := p.client.epoch + 1, nextSeq := 0)), m)
  {
    var p' := p.(client := p.client.(epoch := p.client.epoch + 1, nextSeq := 0));
    assert p.flights.Keys == {};
    assert EpochStates(p'.client, p'.client.epoch) == map[];
  }

  /**
   * A copy of an earlier request, whose answer nobody takes, disturbs the pipeline exactly when the server accepts
   * it although its batch was told to wait.
   */
  lemma {:induction false} LateCopyExact(p: Pipeline, s: int, m: nat)
    requires PipeInv(p, m) && 0 <= s < p.client.nextSeq
    ensures var p' := p.(server := Serve(p.server, p.client.epoch, s).0);
      && (PipeInv(p', m) <==> NoneOvertaken(p'))
      && (NoneOvertaken(p') <==> !(s in p.flights && s == Acc(p) && ToldToWait(p.flights[s])))
  {
    var p' := p.(server := Serve(p.server, p.client.epoch, s).0);
    ServeCases(p.server, p.client.epoch, s);
    forall t | t in p'.flights && (t != s || s != Acc(p) || !ToldToWait(p.flights[t])) ensures InFlightOk(p', t, m) {
      assert InFlightOk(p, t, m);
    }
    forall t | t in p'.flights && ToldToWait(p.flights[t]) ensures InFlightOk(p', t, m) ==> t >= Acc(p') {
      assert InFlightOk(p, t, m);
    }
    assert Acc(p) in p.flights ==> InFlightOk(p, Acc(p), m);
    forall t ensures Remembered(p', t, m) {
      assert Remembered(p, t, m);
    }
  }

  /** Every step keeps the invariant, as long as no request is refused and no waiting batch overtaken by a copy. */
  lemma {:induction false} ActOk(p: Pipeline, a: Action, m: nat, maxBytes: nat)
    requires PipeInv(p, m)
    requires NoRefusal(Act(p, a, m, maxBytes)) && NoneOvertaken(Act(p, a, m, maxBytes))
    ensures PipeInv(Act(p, a, m, maxBytes), m)
  {
    match a {
      case AppendItem(data) =>
        var grown := p.(client := p.client.(pending := p.client.pending + [data]));
        PendingOk(p, p.client.pending + [data], m);
        LaunchOk(grown, m);
      case Linger => LaunchOk(p, m);
      case Deliver(s) =>
        if s in p.flights && p.flights[s].InTransit? {
          assert s in Processed(p, s).flights;
          ProcessedOk(p, s, m);
        }
      case Redeliver(s) =>
        if s in p.flights && p.flights[s].Answered? {
          assert s in Processed(p, s).flights;
          ProcessedOk(p, s, m);
        }
      case LateCopy(s) => if 0 <= s < p.client.nextSeq { LateCopyExact(p, s, m); }
      case Receive(s) => if s in p.flights { ReceiveOk(p, s, m); }
      case Wait(s) => if s in p.flights { WaitOk(p, s, m); }
      case Finish(s) => if s in p.flights && p.flights[s].Signalled? { FinishOk(p, s, m); }
      case Restart => if p.client.inFlight == 0 { RestartOk(p, m); }
    }
  }

  lemma {:induction false} PendingOk(p: Pipeline, pending: seq<Bytes>, m: nat)
    requires PipeInv(p, m)
    ensures PipeInv(p.(client := p.client.(pending := pending)), m)
  {
    var p' := p.(client := p.client.(pending := pending));
    forall t | t in p'.flights ensures InFlightOk(p', t, m) {
      assert InFlightOk(p, t, m);
    }
    forall t ensures Remembered(p', t, m) {
      assert Remembered(p, t, m);
    }
  }

  lemma {:induction false} ReceiveOk(p: Pipeline, s: int, m: nat)
    requires PipeInv(p, m) && s in p.flights
    ensures PipeInv(Act(p, Receive(s), m, 0), m)
  {
    assert InFlightOk(p, s, m);
    if p.flights[s].Answered? {
      match p.flights[s].reply {
        case Success => SignalOk(p, s, m);
        case AlreadyThere => SignalOk(p, s, m);
        case Gap(x) => MoveFlight(p, s, Waiting(x, x), m);
      }
    }
  }

  lemma {:induction false} WaitOk(p: Pipeline, s: int, m: nat)
    requires PipeInv(p, m) && s in p.flights
    ensures PipeInv(Act(p, Wait(s), m, 0), m)
  {
    assert InFlightOk(p, s, m);
    if p.flights[s].Waiting? {
      var from, at := p.flights[s].from, p.flights[s].at;
      if at >= s {
        MoveFlight(p, s, InTransit, m);
      } else {
        AwaitOk(p, at, m);
        MoveFlight(p.(client := Await(p.client, p.client.epoch, at).0), s, Waiting(from, at + 1), m);
      }
    }
  }

  // ---- Runs ----

  ghost predicate NoRefusal(p: Pipeline) {
    forall s :: s in p.flights ==> p.flights[s] != Answered(Refused)
  }

  function Play(p: Pipeline, actions: seq<Action>, m: nat, maxBytes: nat): Pipeline
    decreases actions
  {
    if actions == [] then p else Play(Act(p, actions[0], m, maxBytes), actions[1..], m, maxBytes)
  }

  /** Every request so far was answered with success, duplicate or gap. */
  ghost predicate AllAnswered(p: Pipeline, actions: seq<Action>, m: nat, maxBytes: nat)
    decreases actions
  {
    NoRefusal(p) && (actions == [] || AllAnswered(Act(p, actions[0], m, maxBytes), actions[1..], m, maxBytes))
  }

  /** No copy ever got a batch accepted that was told to wait. */
  ghost predicate NeverOvertaken(p: Pipeline, actions: seq<Action>, m: nat, maxBytes: nat)
    decreases actions
  {
    NoneOvertaken(p) && (actions == [] || NeverOvertaken(Act(p, actions[0], m, maxBytes), actions[1..], m, maxBytes))
  }

  function Fresh(epoch: int): Pipeline {
    Pipeline(Client(epoch, 0, [], 0, map[]), map[], None)
  }

  lemma {:induction false} PlayOk(p: Pipeline, actions: seq<Action>, m: nat, maxBytes: nat)
    requires PipeInv(p, m) && AllAnswered(p, actions, m, maxBytes) && NeverOvertaken(p, actions, m, maxBytes)
    ensures PipeInv(Play(p, actions, m, maxBytes), m)
    decreases actions
  {
    if actions != [] {
      assert NoRefusal(Act(p, actions[0], m, maxBytes)) && NoneOvertaken(Act(p, actions[0], m, maxBytes));
      ActOk(p, actions[0], m, maxBytes);
      PlayOk(Act(p, actions[0], m, maxBytes), actions[1..], m, maxBytes);
    }
  }

  /** A batch that cannot move: it waits for one that has no result yet. */
  predicate Blocked(p: Pipeline, s: int)
    requires s in p.flights
  {
    p.flights[s].Waiting? && p.flights[s].at < s && Await(p.client, p.client.epoch, p.flights[s].at).1 == None
  }

  predicate Unresolved(p: Pipeline, s: int) {
    s in p.flights && !p.flights[s].Signalled?
  }

  /**
   * In every run of a producer new to the stream in which each request is answered with success, duplicate or
   * gap, and no copy gets a waiting batch accepted: no batch fails; a waiting batch waits for fewer than a pipeline
   * of others; the entries of those that are complete are still in the table; and the first unresolved batch is
   * never blocked.
   */
  lemma {:induction false} WaitsAreSafe(epoch: int, actions: seq<Action>, m: nat, maxBytes: nat, s: int)
    requires AllAnswered(Fresh(epoch), actions, m, maxBytes) && NeverOvertaken(Fresh(epoch), actions, m, maxBytes)
    requires s in Play(Fresh(epoch), actions, m, maxBytes).flights
    ensures var p := Play(Fresh(epoch), actions, m, maxBytes);
      && p.flights[s] != Signalled(true)
      && (p.flights[s].Waiting? ==> s - p.flights[s].from < m)
      && (p.flights[s].Waiting? ==> forall t :: p.flights[s].at <= t < s && Completed(p, t) ==>
           Await(p.client, p.client.epoch, t).1 == Some(false))
      && (Unresolved(p, s) && (forall t :: t < s ==> !Unresolved(p, t)) ==> !Blocked(p, s))
  {
    var p := Play(Fresh(epoch), actions, m, maxBytes);
    FreshOk(epoch, m);
    PlayOk(Fresh(epoch), actions, m, maxBytes);
    assert InFlightOk(p, s, m);
    forall t | p.flights[s].Waiting? && p.flights[s].at <= t < s && Completed(p, t)
      ensures Await(p.client, p.client.epoch, t).1 == Some(false)
    {
      assert Remembered(p, t, m);
    }
    if Unresolved(p, s) && (forall t :: t < s ==> !Unresolved(p, t)) && p.flights[s].Waiting? && p.flights[s].at < s {
      var at := p.flights[s].at;
      assert !Unresolved(p, at);
      if at in p.flights { assert InFlightOk(p, at, m); }
      assert Completed(p, at);
    }
  }

  lemma {:induction false} FreshOk(epoch: int, m: nat)
    ensures PipeInv(Fresh(epoch), m)
  {
    assert Fresh(epoch).flights.Keys == {};
  }

  /** While anything is in flight, some batch can move: the pipeline never deadlocks. */
  lemma {:induction false} NeverStuck(epoch: int, actions: seq<Action>, m: nat, maxBytes: nat) returns (s: int)
    requires AllAnswered(Fresh(epoch), actions, m, maxBytes) && NeverOvertaken(Fresh(epoch), actions, m, maxBytes)
    requires Play(Fresh(epoch), actions, m, maxBytes).flights.Keys != {}
    ensures var p := Play(Fresh(epoch), actions, m, maxBytes);
      s in p.flights && !Blocked(p, s)
  {
    var p := Play(Fresh(epoch), actions, m, maxBytes);
    FreshOk(epoch, m);
    PlayOk(Fresh(epoch), actions, m, maxBytes);
    Sets.SomeNumber(p.flights.Keys);
    s :| s in p.flights.Keys;
    while Unresolved(p, s) && exists t :: t < s && Unresolved(p, t)
      invariant s in p.flights
      decreases s
    {
      var t :| t < s && Unresolved(p, t);
      assert InFlightOk(p, t, m) && InFlightOk(p, s, m);
      s := t;
    }
    WaitsAreSafe(epoch, actions, m, maxBytes, s);
  }

  /** No signal ever deletes an entry that a waiting batch is waiting for or will wait for. */
  lemma {:induction false} CleanupSparesAwaited(p: Pipeline, m: nat, q: int, s: int, t: int)
    requires PipeInv(p, m) && q in p.flights && q < Acc(p)
    requires s in p.flights && p.flights[s].Waiting? && p.flights[s].from <= t < s
    requires t in EpochStates(p.client, p.client.epoch)
    ensures t in EpochStates(Done(p, q, false, m).client, p.client.epoch)
  {
    assert InFlightOk(p, s, m) && InFlightOk(p, q, m);
  }
}
