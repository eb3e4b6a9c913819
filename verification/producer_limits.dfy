/**
 * How far pipelining is safe: with one batch in flight nothing is ever refused and nothing ever deadlocks, and with
 * two or more there are runs in which a batch is lost, and runs that end in a deadlock.
 */
module ProducerLimits {
  import opened Wrappers
  import opened StoreTypes
  import opened ProducerClients
  import opened ProducerWaits
  import opened ProducerStranding
  import Sets

  // ---- One batch at a time ----

  /** With one batch in flight no batch is told to wait and none is refused. */
  ghost predicate Single(p: Pipeline, m: nat) {
    && m <= 1 && PipeInv(p, m) && NoRefusal(p)
    && (forall s {:trigger p.flights[s]} :: s in p.flights ==> !ToldToWait(p.flights[s]))
  }

  /** The one batch in flight is the next one the server wants, or one that it has accepted. */
  lemma {:induction false} SingleServed(p: Pipeline, s: int, m: nat)
    requires Single(p, m) && s in p.flights
    ensures var reply := Serve(p.server, p.client.epoch, s).1; reply == Success || reply == AlreadyThere
  {
    ServeCases(p.server, p.client.epoch, s);
    RefusedExactly(p.server, p.client.epoch, s);
    assert InFlightOk(p, s, m);
    if Acc(p) < s {
      forall t | Acc(p) <= t < s + 1 ensures t in p.flights.Keys {
      }
      IntervalSize(Acc(p), s + 1, p.flights.Keys);
    }
  }

  lemma {:induction false} SingleAct(p: Pipeline, a: Action, m: nat, maxBytes: nat)
    requires Single(p, m)
    ensures Single(Act(p, a, m, maxBytes), m)
  {
    var p' := Act(p, a, m, maxBytes);
    SingleMoves(p, a, m, maxBytes);
    assert NoneOvertaken(p');
    ActOk(p, a, m, maxBytes);
  }

  lemma {:induction false} SingleMoves(p: Pipeline, a: Action, m: nat, maxBytes: nat)
    requires Single(p, m)
    ensures var p' := Act(p, a, m, maxBytes);
      && NoRefusal(p')
      && (forall s {:trigger p'.flights[s]} :: s in p'.flights ==> !ToldToWait(p'.flights[s]))
  {
    match a {
      case Deliver(s) => if s in p.flights { SingleServed(p, s, m); }
      case Redeliver(s) => if s in p.flights { SingleServed(p, s, m); }
      case Receive(s) => if s in p.flights { assert !ToldToWait(p.flights[s]); }
      case Wait(s) => if s in p.flights { assert !ToldToWait(p.flights[s]); }
      case _ =>
    }
  }

  lemma {:induction false} SingleRun(p: Pipeline, actions: seq<Action>, m: nat, maxBytes: nat)
    requires Single(p, m)
    ensures Single(Play(p, actions, m, maxBytes), m) && AllAnswered(p, actions, m, maxBytes)
    decreases actions
  {
    if actions != [] {
      SingleAct(p, actions[0], m, maxBytes);
      SingleRun(Act(p, actions[0], m, maxBytes), actions[1..], m, maxBytes);
    }
  }

  lemma {:induction false} SingleFromStart(epoch: int, actions: seq<Action>, m: nat, maxBytes: nat)
    requires m <= 1
    ensures Single(Play(Fresh(epoch), actions, m, maxBytes), m)
    ensures AllAnswered(Fresh(epoch), actions, m, maxBytes)
  {
    FreshOk(epoch, m);
    SingleRun(Fresh(epoch), actions, m, maxBytes);
  }

  // ---- Deadlock ----

  /** Something is in flight, and none of it can move. */
  ghost predicate Deadlocked(p: Pipeline) {
    p.flights.Keys != {} && forall s {:trigger p.flights[s]} :: s in p.flights ==> Blocked(p, s)
  }

  /** No run of the pipeline deadlocks in which every request is answered with success, duplicate or gap. */
  ghost predicate DeadlockFree(m: nat) {
    forall epoch: int, actions: seq<Action>, maxBytes: nat {:trigger Play(Fresh(epoch), actions, m, maxBytes)} ::
      AllAnswered(Fresh(epoch), actions, m, maxBytes) ==> !Deadlocked(Play(Fresh(epoch), actions, m, maxBytes))
  }

  /** The pipeline is free of deadlock exactly when it holds one batch at most. */
  lemma {:induction false} DeadlockFreeExactly(m: nat)
    ensures DeadlockFree(m) <==> m <= 1
  {
    if m <= 1 {
      forall epoch: int, actions: seq<Action>, maxBytes: nat
        ensures !Deadlocked(Play(Fresh(epoch), actions, m, maxBytes))
      {
        SingleFromStart(epoch, actions, m, maxBytes);
        var p := Play(Fresh(epoch), actions, m, maxBytes);
        assert forall s :: s in p.flights ==> !ToldToWait(p.flights[s]);
        if p.flights.Keys != {} { Sets.SomeNumber(p.flights.Keys); }
      }
    } else {
      var actions := LateCopyStrands(0, m);
      var p := Play(Fresh(0), actions, m, 1);
      assert Deadlocked(p) by {
        assert 1 in p.flights.Keys;
      }
    }
  }

  // ---- Refusals ----

  /** No run of the pipeline ever has a request refused. */
  ghost predicate NeverRefused(m: nat) {
    forall epoch: int, actions: seq<Action>, maxBytes: nat {:trigger Play(Fresh(epoch), actions, m, maxBytes)} ::
      AllAnswered(Fresh(epoch), actions, m, maxBytes)
  }

  /** The first batch of an epoch, in each phase. */
  function Sole(epoch: int, states: map<int, map<int, SeqState>>, phase: Phase,
                server: Option<ProducerState>): Pipeline {
    Pipeline(Client(epoch, 1, [], 1, states), map[0 := phase], server)
  }

  /** What the table holds once batch 0 of `epoch` is through. */
  function OneThrough(epoch: int): map<int, map<int, SeqState>> {
    map[epoch := map[0 := SeqState(true, false)]]
  }

  lemma {:induction false} SoleArrives(epoch: int, m: nat)
    ensures Act(Sole(epoch, map[], InTransit, None), Deliver(0), m, 1) ==
      Sole(epoch, map[], Answered(Success), Some(ProducerState(epoch, 0)))
  {
    ServeCases(None, epoch, 0);
    var flights: map<int, Phase> := map[0 := InTransit];
    assert flights[0 := Answered(Success)] == map[0 := Answered(Success)];
  }

  lemma {:induction false} SoleAnswered(epoch: int, m: nat, server: Option<ProducerState>)
    ensures Act(Sole(epoch, map[], Answered(Success), server), Receive(0), m, 1) ==
      Sole(epoch, OneThrough(epoch), Signalled(false), server)
  {
    var flights: map<int, Phase> := map[0 := Answered(Success)];
    assert flights[0 := Signalled(false)] == map[0 := Signalled(false)];
  }

  /** Nothing in flight and nothing sent in `epoch`, while the server remembers the epoch before. */
  function Renewed(epoch: int): Pipeline {
    Pipeline(Client(epoch, 0, [], 0, OneThrough(epoch - 1)), map[], Some(ProducerState(epoch - 1, 0)))
  }

  lemma {:induction false} SoleRestarts(epoch: int, m: nat)
    ensures var done := Sole(epoch, OneThrough(epoch), Signalled(false), Some(ProducerState(epoch, 0)));
      var p := Act(done, Finish(0), m, 1);
      NoRefusal(p) && Act(p, Restart, m, 1) == Renewed(epoch + 1)
  {
    var flights: map<int, Phase> := map[0 := Signalled(false)];
    assert flights - {0} == map[];
  }

  /** Two batches of a new epoch, and where the second stands. */
  function TwoSent(epoch: int, second: Phase): Pipeline {
    Pipeline(Client(epoch, 2, [], 2, OneThrough(epoch - 1)), map[0 := InTransit, 1 := second],
             Some(ProducerState(epoch - 1, 0)))
  }

  lemma {:induction false} TwoLeave(epoch: int, m: nat)
    requires m >= 2
    ensures var p := Act(Renewed(epoch), AppendItem(ITEM), m, 1);
      NoRefusal(p) && Act(p, AppendItem(ITEM), m, 1) == TwoSent(epoch, InTransit)
  {
    var p0 := Renewed(epoch);
    AppendsOne(p0, m);
    AppendsOne(Act(p0, AppendItem(ITEM), m, 1), m);
    var none: map<int, Phase> := map[];
    assert none[0 := InTransit][1 := InTransit] == map[0 := InTransit, 1 := InTransit];
  }

  lemma {:induction false} SecondRefused(epoch: int, m: nat)
    ensures Act(TwoSent(epoch, InTransit), Deliver(1), m, 1) == TwoSent(epoch, Answered(Refused))
    ensures Act(TwoSent(epoch, Answered(Refused)), Receive(1), m, 1).flights[1] == Signalled(true)
    ensures Act(TwoSent(epoch, Answered(Refused)), Receive(1), m, 1).server == Some(ProducerState(epoch - 1, 0))
  {
    RefusedExactly(Some(ProducerState(epoch - 1, 0)), epoch, 1);
    ServeCases(Some(ProducerState(epoch - 1, 0)), epoch, 1);
    var flights: map<int, Phase> := map[0 := InTransit, 1 := InTransit];
    assert flights[1 := Answered(Refused)] == map[0 := InTransit, 1 := Answered(Refused)];
  }

  /** The second half of the run, from the restart on. */
  lemma {:induction false} Overtakes(epoch: int, m: nat)
    requires m >= 2
    ensures var rest := [AppendItem(ITEM)] + ([AppendItem(ITEM)] + ([Deliver(1)] + ([Receive(1)] + [])));
      var p := Play(Renewed(epoch), rest, m, 1);
      && p.flights.Keys == {0, 1} && p.flights[0] == InTransit && p.flights[1] == Signalled(true)
      && p.server == Some(ProducerState(epoch - 1, 0)) && p.client.epoch == epoch
      && !AllAnswered(Renewed(epoch), rest, m, 1)
  {
    TwoLeave(epoch, m);
    SecondRefused(epoch, m);
    var last := [Receive(1)] + [];
    OneAct(TwoSent(epoch, Answered(Refused)), Receive(1), [], m);
    OneAct(TwoSent(epoch, InTransit), Deliver(1), last, m);
    OneAct(Act(Renewed(epoch), AppendItem(ITEM), m, 1), AppendItem(ITEM), [Deliver(1)] + last, m);
    OneAct(Renewed(epoch), AppendItem(ITEM), [AppendItem(ITEM)] + ([Deliver(1)] + last), m);
    var refused := TwoSent(epoch, Answered(Refused));
    assert refused.flights[1] == Answered(Refused);
    var p := Act(refused, Receive(1), m, 1);
    assert p.flights == refused.flights[1 := Signalled(true)];
    assert p.flights.Keys == {0, 1};
  }

  /** The first half: one batch goes through, and the producer restarts. */
  lemma {:induction false} Renews(epoch: int, m: nat, rest: seq<Action>)
    requires m >= 1
    ensures var first := [AppendItem(ITEM)] + ([Deliver(0)] + ([Receive(0)] + ([Finish(0)] + ([Restart] + rest))));
      && Play(Fresh(epoch), first, m, 1) == Play(Renewed(epoch + 1), rest, m, 1)
      && (AllAnswered(Fresh(epoch), first, m, 1) ==> AllAnswered(Renewed(epoch + 1), rest, m, 1))
  {
    var server := Some(ProducerState(epoch, 0));
    AppendsOne(Fresh(epoch), m);
    var none: map<int, Phase> := map[];
    assert none[0 := InTransit] == map[0 := InTransit];
    SoleArrives(epoch, m);
    SoleAnswered(epoch, m, server);
    SoleRestarts(epoch, m);
    var done := Sole(epoch, OneThrough(epoch), Signalled(false), server);
    OneAct(Act(done, Finish(0), m, 1), Restart, rest, m);
    OneAct(done, Finish(0), [Restart] + rest, m);
    OneAct(Sole(epoch, map[], Answered(Success), server), Receive(0), [Finish(0)] + ([Restart] + rest), m);
    OneAct(Sole(epoch, map[], InTransit, None), Deliver(0), [Receive(0)] + ([Finish(0)] + ([Restart] + rest)), m);
    OneAct(Fresh(epoch), AppendItem(ITEM), [Deliver(0)] + ([Receive(0)] + ([Finish(0)] + ([Restart] + rest))), m);
  }

  /**
   * A run of any pipeline of two or more that loses a batch: after a restart the second batch reaches the server
   * before the first, is refused, and has failed for the client although nothing was lost on the way.
   */
  lemma {:induction false} RestartLosesBatch(epoch: int, m: nat) returns (actions: seq<Action>)
    requires m >= 2
    ensures var p := Play(Fresh(epoch), actions, m, 1);
      && p.flights.Keys == {0, 1} && p.flights[0] == InTransit && p.flights[1] == Signalled(true)
      && p.server == Some(ProducerState(epoch, 0)) && p.client.epoch == epoch + 1
    ensures !AllAnswered(Fresh(epoch), actions, m, 1)
  {
    var rest := [AppendItem(ITEM)] + ([AppendItem(ITEM)] + ([Deliver(1)] + ([Receive(1)] + [])));
    actions := [AppendItem(ITEM)] + ([Deliver(0)] + ([Receive(0)] + ([Finish(0)] + ([Restart] + rest))));
    Overtakes(epoch + 1, m);
    Renews(epoch, m, rest);
  }

  /** No request is ever refused exactly when the pipeline holds one batch at most. */
  lemma {:induction false} NeverRefusedExactly(m: nat)
    ensures NeverRefused(m) <==> m <= 1
  {
    if m <= 1 {
      forall epoch: int, actions: seq<Action>, maxBytes: nat
        ensures AllAnswered(Fresh(epoch), actions, m, maxBytes)
      {
        SingleFromStart(epoch, actions, m, maxBytes);
      }
    } else {
      var actions := RestartLosesBatch(0, m);
      assert Play(Fresh(0), actions, m, 1).client.epoch == 1;
    }
  }
}
