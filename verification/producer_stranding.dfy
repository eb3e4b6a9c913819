/**
 * What one late copy can do to a pipeline of two or more: a batch told to wait is accepted by way of the copy, the
 * others pass it by, and the entry it is about to wait for is forgotten before it asks.
 */
module ProducerStranding {
  import opened Wrappers
  import opened StoreTypes
  import opened ProducerClients
  import opened ProducerWaits

  const ITEM: Bytes := [1]

  /** Batch `s` waits for `t`, which has left the pipeline and has no result on record. */
  ghost predicate Stranded(p: Pipeline, s: int, t: int) {
    && s in p.flights && p.flights[s].Waiting? && p.flights[s].at == t < s
    && t !in p.flights && t < p.client.nextSeq
    && Await(p.client, p.client.epoch, t).1 == None
    && p.client.inFlight == |p.flights.Keys|
    && (forall q :: q in p.flights ==> q < p.client.nextSeq)
  }

  // ---- Once stranded, always stranded ----

  lemma {:induction false} SignalElsewhere(c: Client, epoch: int, q: int, failed: bool, m: nat, t: int)
    requires q != t && Await(c, epoch, t).1 == None
    ensures Await(Signal(c, epoch, q, failed, m), epoch, t).1 == None
  {
  }

  lemma {:induction false} AwaitElsewhere(c: Client, epoch: int, q: int, t: int)
    requires Await(c, epoch, t).1 == None
    ensures Await(Await(c, epoch, q).0, epoch, t).1 == None
  {
  }

  lemma {:induction false} DoneStrands(p: Pipeline, q: int, failed: bool, m: nat, s: int, t: int)
    requires Stranded(p, s, t) && q in p.flights && q != s
    ensures Stranded(Done(p, q, failed, m), s, t)
  {
    SignalElsewhere(p.client, p.client.epoch, q, failed, m, t);
    SameFlights(p.flights, q, Signalled(failed));
  }

  lemma {:induction false} MoveStrands(p: Pipeline, client: Client, server: Option<ProducerState>, q: int, phase: Phase,
                                       s: int, t: int)
    requires Stranded(p, s, t) && q in p.flights && (q == s ==> phase == p.flights[s])
    requires client == p.client || exists u :: client == Await(p.client, p.client.epoch, u).0
    ensures Stranded(Pipeline(client, p.flights[q := phase], server), s, t)
  {
    SameFlights(p.flights, q, phase);
    if client != p.client {
      var u :| client == Await(p.client, p.client.epoch, u).0;
      AwaitElsewhere(p.client, p.client.epoch, u, t);
    }
  }

  lemma {:induction false} LaunchStrands(p: Pipeline, m: nat, s: int, t: int)
    requires Stranded(p, s, t)
    ensures Stranded(ProducerWaits.Launch(p, TakeBatch(p.client, m)), s, t)
  {
    var (client, taken) := TakeBatch(p.client, m);
    if taken.Some? { OneMoreFlight(p.flights, taken.value.seqNo, InTransit); }
  }

  lemma {:induction false} WaitStrands(p: Pipeline, q: int, m: nat, maxBytes: nat, s: int, t: int)
    requires Stranded(p, s, t) && q in p.flights && p.flights[q].Waiting?
    ensures Stranded(Act(p, Wait(q), m, maxBytes), s, t)
  {
    var from, at := p.flights[q].from, p.flights[q].at;
    if at >= q {
      MoveStrands(p, p.client, p.server, q, InTransit, s, t);
    } else {
      var (client, result) := Await(p.client, p.client.epoch, at);
      MoveStrands(p, client, p.server, q, p.flights[q], s, t);
      var asked := p.(client := client);
      assert p.flights[q := p.flights[q]] == p.flights;
      assert Stranded(asked, s, t);
      if result == Some(true) {
        DoneStrands(asked, q, true, m, s, t);
      } else if result == Some(false) {
        MoveStrands(p, client, p.server, q, Waiting(from, at + 1), s, t);
      }
    }
  }

  lemma {:induction false} ActStrands(p: Pipeline, a: Action, m: nat, maxBytes: nat, s: int, t: int)
    requires Stranded(p, s, t)
    ensures Stranded(Act(p, a, m, maxBytes), s, t)
  {
    match a {
      case AppendItem(data) =>
        LaunchStrands(p.(client := p.client.(pending := p.client.pending + [data])), m, s, t);
      case Linger => LaunchStrands(p, m, s, t);
      case Deliver(q) =>
        if q in p.flights && p.flights[q].InTransit? {
          var (server, reply) := Serve(p.server, p.client.epoch, q);
          MoveStrands(p, p.client, server, q, Answered(reply), s, t);
        }
      case Redeliver(q) =>
        if q in p.flights && p.flights[q].Answered? {
          var (server, reply) := Serve(p.server, p.client.epoch, q);
          MoveStrands(p, p.client, server, q, Answered(reply), s, t);
        }
      case LateCopy(q) =>
      case Receive(q) =>
        if q in p.flights && p.flights[q].Answered? {
          DoneStrands(p, q, false, m, s, t);
          DoneStrands(p, q, true, m, s, t);
          var reply := p.flights[q].reply;
          if reply.Gap? {
            MoveStrands(p, p.client, p.server, q, Waiting(reply.expected, reply.expected), s, t);
          }
        }
      case Wait(q) => if q in p.flights && p.flights[q].Waiting? { WaitStrands(p, q, m, maxBytes, s, t); }
      case Finish(q) =>
        if q in p.flights { OneLessFlight(p.flights, q); }
      case Restart => assert s in p.flights.Keys;
    }
  }

  /** A stranded batch stays stranded whatever happens next: the producer can never finish it, nor restart. */
  lemma {:induction false} StrandedForever(p: Pipeline, actions: seq<Action>, m: nat, maxBytes: nat, s: int, t: int)
    requires Stranded(p, s, t)
    ensures Stranded(Play(p, actions, m, maxBytes), s, t)
    ensures Blocked(Play(p, actions, m, maxBytes), s)
    decreases actions
  {
    if actions != [] {
      ActStrands(p, actions[0], m, maxBytes, s, t);
      StrandedForever(Act(p, actions[0], m, maxBytes), actions[1..], m, maxBytes, s, t);
    }
  }

  // ---- A run that gets there ----

  lemma {:induction false} PlayConcat(p: Pipeline, a: seq<Action>, b: seq<Action>, m: nat, maxBytes: nat)
    ensures Play(p, a + b, m, maxBytes) == Play(Play(p, a, m, maxBytes), b, m, maxBytes)
    ensures AllAnswered(p, a + b, m, maxBytes) <==>
      AllAnswered(p, a, m, maxBytes) && AllAnswered(Play(p, a, m, maxBytes), b, m, maxBytes)
    decreases a
  {
    if a == [] {
      assert a + b == b;
    } else {
      assert (a + b)[1..] == a[1..] + b;
      PlayConcat(Act(p, a[0], m, maxBytes), a[1..], b, m, maxBytes);
    }
  }

  predicate StillKept(t: int, k: int, m: nat) {
    t >= k - 1 - 3 * m && t != 1
  }

  /** The entries left when all batches below `k` but the first after the start have been signalled. */
  function Kept(k: int, m: nat): map<int, SeqState> {
    map t: int | 0 <= t < k && StillKept(t, k, m) :: SeqState(true, false)
  }

  /** Batch 1 was told to wait and was then accepted by way of a copy; the others below `k` are through. */
  function Passed(epoch: int, k: nat, m: nat): Pipeline {
    Pipeline(Client(epoch, k, [], 1, map[epoch := Kept(k, m)]), map[1 := Answered(Gap(0))],
             Some(ProducerState(epoch, k - 1)))
  }

  function RoundTrip(k: int): seq<Action> {
    [AppendItem(ITEM), Deliver(k), Receive(k), Finish(k)]
  }

  lemma {:induction false} OneAct(p: Pipeline, a: Action, rest: seq<Action>, m: nat)
    ensures Play(p, [a] + rest, m, 1) == Play(Act(p, a, m, 1), rest, m, 1)
    ensures AllAnswered(p, [a] + rest, m, 1) <==> NoRefusal(p) && AllAnswered(Act(p, a, m, 1), rest, m, 1)
  {
    assert ([a] + rest)[1..] == rest;
  }

  lemma {:induction false} AppendsOne(p: Pipeline, m: nat)
    requires p.client.pending == [] && p.client.inFlight < m
    ensures Act(p, AppendItem(ITEM), m, 1) ==
      p.(client := p.client.(nextSeq := p.client.nextSeq + 1, inFlight := p.client.inFlight + 1),
         flights := p.flights[p.client.nextSeq := InTransit])
  {
    var items := p.client.pending + [ITEM];
    assert items == [ITEM] && TotalBytes([ITEM]) == |ITEM| + TotalBytes([ITEM][1..]);
  }

  lemma {:induction false} KeptNext(k: int, m: nat)
    requires k >= 2
    ensures Cleaned(Kept(k, m)[k := SeqState(true, false)], k, m) == Kept(k + 1, m)
  {
  }

  /** Batch `k` on its way through, while batch 1 is still where it was. */
  function Passing(epoch: int, k: nat, kept: map<int, SeqState>, phase: Phase, last: int): Pipeline {
    Pipeline(Client(epoch, k + 1, [], 2, map[epoch := kept]), map[1 := Answered(Gap(0)), k := phase],
             Some(ProducerState(epoch, last)))
  }

  lemma {:induction false} PassingLeaves(epoch: int, k: nat, m: nat)
    requires m >= 2 && k >= 2
    ensures Act(Passed(epoch, k, m), AppendItem(ITEM), m, 1) == Passing(epoch, k, Kept(k, m), InTransit, k - 1)
  {
    AppendsOne(Passed(epoch, k, m), m);
  }

  lemma {:induction false} PassingArrives(epoch: int, k: nat, kept: map<int, SeqState>, m: nat)
    requires k >= 2
    ensures Act(Passing(epoch, k, kept, InTransit, k - 1), Deliver(k), m, 1) ==
      Passing(epoch, k, kept, Answered(Success), k)
  {
    ServeCases(Some(ProducerState(epoch, k - 1)), epoch, k);
    var flights: map<int, Phase> := map[1 := Answered(Gap(0)), k := InTransit];
    assert flights[k := Answered(Success)] == map[1 := Answered(Gap(0)), k := Answered(Success)];
  }

  lemma {:induction false} PassingAnswered(epoch: int, k: nat, m: nat)
    requires k >= 2
    ensures Act(Passing(epoch, k, Kept(k, m), Answered(Success), k), Receive(k), m, 1) ==
      Passing(epoch, k, Kept(k + 1, m), Signalled(false), k)
  {
    KeptNext(k, m);
    var flights: map<int, Phase> := map[1 := Answered(Gap(0)), k := Answered(Success)];
    assert flights[k := Signalled(false)] == map[1 := Answered(Gap(0)), k := Signalled(false)];
    var states: map<int, map<int, SeqState>> := map[epoch := Kept(k, m)];
    assert states[epoch := Kept(k + 1, m)] == map[epoch := Kept(k + 1, m)];
  }

  lemma {:induction false} PassingLeft(epoch: int, k: nat, m: nat)
    requires k >= 2
    ensures Act(Passing(epoch, k, Kept(k + 1, m), Signalled(false), k), Finish(k), m, 1) == Passed(epoch, k + 1, m)
  {
    var flights: map<int, Phase> := map[1 := Answered(Gap(0)), k := Signalled(false)];
    assert flights - {k} == map[1 := Answered(Gap(0))];
  }

  lemma {:induction false} RoundTripPasses(epoch: int, k: nat, m: nat)
    requires m >= 2 && k >= 2
    ensures Play(Passed(epoch, k, m), RoundTrip(k), m, 1) == Passed(epoch, k + 1, m)
    ensures AllAnswered(Passed(epoch, k, m), RoundTrip(k), m, 1)
  {
    PassingLeaves(epoch, k, m);
    PassingArrives(epoch, k, Kept(k, m), m);
    PassingAnswered(epoch, k, m);
    PassingLeft(epoch, k, m);
    OneAct(Passing(epoch, k, Kept(k + 1, m), Signalled(false), k), Finish(k), [], m);
    OneAct(Passing(epoch, k, Kept(k, m), Answered(Success), k), Receive(k), [Finish(k)], m);
    OneAct(Passing(epoch, k, Kept(k, m), InTransit, k - 1), Deliver(k), [Receive(k), Finish(k)], m);
    OneAct(Passed(epoch, k, m), AppendItem(ITEM), [Deliver(k), Receive(k), Finish(k)], m);
  }

  function RoundTrips(k: nat, last: nat): seq<Action>
    requires k <= last
    decreases last - k
  {
    if k == last then [] else RoundTrip(k) + RoundTrips(k + 1, last)
  }

  lemma {:induction false} AllPass(epoch: int, k: nat, last: nat, m: nat)
    requires m >= 2 && 2 <= k <= last
    ensures Play(Passed(epoch, k, m), RoundTrips(k, last), m, 1) == Passed(epoch, last, m)
    ensures AllAnswered(Passed(epoch, k, m), RoundTrips(k, last), m, 1)
    decreases last - k
  {
    if k < last {
      RoundTripPasses(epoch, k, m);
      AllPass(epoch, k + 1, last, m);
      PlayConcat(Passed(epoch, k, m), RoundTrip(k), RoundTrips(k + 1, last), m, 1);
    }
  }

  /** Batch 1 arrives first and is told to wait; batch 0 goes through; a copy of batch 1 is accepted. */
  const OPENING: seq<Action> :=
    [AppendItem(ITEM), AppendItem(ITEM), Deliver(1), Deliver(0), Receive(0), Finish(0), LateCopy(1)]

  lemma {:induction false} Opens(epoch: int, m: nat)
    requires m >= 2
    ensures Play(Fresh(epoch), OPENING, m, 1) == Passed(epoch, 2, m)
    ensures AllAnswered(Fresh(epoch), OPENING, m, 1)
  {
    var p0 := Fresh(epoch);
    AppendsOne(p0, m);
    var p1 := Act(p0, AppendItem(ITEM), m, 1);
    AppendsOne(p1, m);
    var p2 := Act(p1, AppendItem(ITEM), m, 1);
    OpeningTail(epoch, m);
    assert p2 == Opening(epoch, map[], InTransit, InTransit, None);
    OneAct(p1, AppendItem(ITEM), OPENING[2..], m);
    OneAct(p0, AppendItem(ITEM), OPENING[1..], m);
    assert OPENING == [AppendItem(ITEM)] + OPENING[1..] && OPENING[1..] == [AppendItem(ITEM)] + OPENING[2..];
  }

  /** The first two batches in flight, and nothing kept of others. */
  function Opening(epoch: int, states: map<int, map<int, SeqState>>, first: Phase, second: Phase,
                   server: Option<ProducerState>): Pipeline
  {
    Pipeline(Client(epoch, 2, [], 2, states), map[0 := first, 1 := second], server)
  }

  lemma {:induction false} SecondArrives(epoch: int, m: nat)
    ensures Act(Opening(epoch, map[], InTransit, InTransit, None), Deliver(1), m, 1) ==
      Opening(epoch, map[], InTransit, Answered(Gap(0)), None)
  {
    ServeCases(None, epoch, 1);
    var flights: map<int, Phase> := map[0 := InTransit, 1 := InTransit];
    assert flights[1 := Answered(Gap(0))] == map[0 := InTransit, 1 := Answered(Gap(0))];
  }

  lemma {:induction false} FirstArrives(epoch: int, m: nat)
    ensures Act(Opening(epoch, map[], InTransit, Answered(Gap(0)), None), Deliver(0), m, 1) ==
      Opening(epoch, map[], Answered(Success), Answered(Gap(0)), Some(ProducerState(epoch, 0)))
  {
    ServeCases(None, epoch, 0);
    var flights: map<int, Phase> := map[0 := InTransit, 1 := Answered(Gap(0))];
    assert flights[0 := Answered(Success)] == map[0 := Answered(Success), 1 := Answered(Gap(0))];
  }

  lemma {:induction false} FirstAnswered(epoch: int, m: nat)
    requires m >= 2
    ensures Act(Opening(epoch, map[], Answered(Success), Answered(Gap(0)), Some(ProducerState(epoch, 0))),
                Receive(0), m, 1) ==
      Opening(epoch, map[epoch := Kept(2, m)], Signalled(false), Answered(Gap(0)), Some(ProducerState(epoch, 0)))
  {
    assert Kept(2, m) == map[0 := SeqState(true, false)];
    var states: map<int, SeqState> := map[];
    assert states[0 := SeqState(true, false)] == Kept(2, m);
    var flights: map<int, Phase> := map[0 := Answered(Success), 1 := Answered(Gap(0))];
    assert flights[0 := Signalled(false)] == map[0 := Signalled(false), 1 := Answered(Gap(0))];
  }

  /** The first batch has left, and the second is about to be accepted by way of a copy. */
  function Left(epoch: int, m: nat): Pipeline {
    Passed(epoch, 2, m).(server := Some(ProducerState(epoch, 0)))
  }

  lemma {:induction false} FirstLeaves(epoch: int, m: nat)
    ensures Act(Opening(epoch, map[epoch := Kept(2, m)], Signalled(false), Answered(Gap(0)),
                        Some(ProducerState(epoch, 0))),
                Finish(0), m, 1) == Left(epoch, m)
  {
    var flights: map<int, Phase> := map[0 := Signalled(false), 1 := Answered(Gap(0))];
    assert flights - {0} == map[1 := Answered(Gap(0))];
  }

  lemma {:induction false} CopyAccepted(epoch: int, m: nat)
    ensures Act(Left(epoch, m), LateCopy(1), m, 1) == Passed(epoch, 2, m)
  {
    ServeCases(Some(ProducerState(epoch, 0)), epoch, 1);
  }

  lemma {:induction false} OpeningTail(epoch: int, m: nat)
    requires m >= 2
    ensures Play(Opening(epoch, map[], InTransit, InTransit, None), OPENING[2..], m, 1) == Passed(epoch, 2, m)
    ensures AllAnswered(Opening(epoch, map[], InTransit, InTransit, None), OPENING[2..], m, 1)
  {
    SecondArrives(epoch, m);
    FirstArrives(epoch, m);
    FirstAnswered(epoch, m);
    FirstLeaves(epoch, m);
    CopyAccepted(epoch, m);
    var server := Some(ProducerState(epoch, 0));
    OneAct(Left(epoch, m), LateCopy(1), [], m);
    OneAct(Opening(epoch, map[epoch := Kept(2, m)], Signalled(false), Answered(Gap(0)), server), Finish(0),
           [LateCopy(1)], m);
    OneAct(Opening(epoch, map[], Answered(Success), Answered(Gap(0)), server), Receive(0), [Finish(0), LateCopy(1)], m);
    OneAct(Opening(epoch, map[], InTransit, Answered(Gap(0)), None), Deliver(0),
           [Receive(0), Finish(0), LateCopy(1)], m);
    OneAct(Opening(epoch, map[], InTransit, InTransit, None), Deliver(1),
           [Deliver(0), Receive(0), Finish(0), LateCopy(1)], m);
  }

  /**
   * Without the condition on copies the pipeline does deadlock, for any size from two: there is a run in which every
   * request is answered with success, duplicate or gap, and which ends with a single batch in flight, stranded
   * waiting for a batch that completed long ago.
   */
  lemma {:induction false} LateCopyStrands(epoch: int, m: nat) returns (actions: seq<Action>)
    requires m >= 2
    ensures AllAnswered(Fresh(epoch), actions, m, 1)
    ensures var p := Play(Fresh(epoch), actions, m, 1);
      p.flights.Keys == {1} && Completed(p, 0) && Stranded(p, 1, 0)
  {
    var last := 3 * m + 2;
    var middle := OPENING + RoundTrips(2, last);
    Opens(epoch, m);
    AllPass(epoch, 2, last, m);
    PlayConcat(Fresh(epoch), OPENING, RoundTrips(2, last), m, 1);
    Strands(epoch, m);
    PlayConcat(Fresh(epoch), middle, [Receive(1), Wait(1)], m, 1);
    actions := middle + [Receive(1), Wait(1)];
  }

  lemma {:induction false} Strands(epoch: int, m: nat)
    requires m >= 2
    ensures var p := Play(Passed(epoch, 3 * m + 2, m), [Receive(1), Wait(1)], m, 1);
      p.flights.Keys == {1} && Completed(p, 0) && Stranded(p, 1, 0)
    ensures AllAnswered(Passed(epoch, 3 * m + 2, m), [Receive(1), Wait(1)], m, 1)
  {
    var p0 := Passed(epoch, 3 * m + 2, m);
    var p1 := Act(p0, Receive(1), m, 1);
    assert p1 == p0.(flights := map[1 := Waiting(0, 0)]);
    assert 0 !in Kept(3 * m + 2, m);
    var p2 := Act(p1, Wait(1), m, 1);
    assert p2.flights == p1.flights;
    OneAct(p1, Wait(1), [], m);
    OneAct(p0, Receive(1), [Wait(1)], m);
    assert p2.flights.Keys == {1};
  }
}
