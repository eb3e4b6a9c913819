/** The webhook store: four maps and the consumers' own stream maps, edited in place. */
module WebhookStores {
  import opened Wrappers
  import opened WebhookIndexes
  import Glob
  import Text

  class ConsumerInstance {
    const consumerId: string
    const subscriptionId: string
    var streams: map<string, string>

    constructor (id: string, subscription: string, primary: string)
      ensures consumerId == id && subscriptionId == subscription && streams == map[primary := "-1"]
    {
      consumerId, subscriptionId := id, subscription;
      streams := map[primary := "-1"];
    }
  }

  class Store {
    /** How a consumer id is built from a subscription id and a stream path. */
    const buildConsumerId: (string, string) -> string
    var subscriptions: map<string, Subscription>
    var consumers: map<string, ConsumerInstance>
    var subscriptionConsumers: Index
    var streamConsumers: Index

    /** The consumers as values. */
    ghost function Data(): map<string, Consumer>
      reads this`consumers, consumers.Values
    {
      map id | id in consumers :: Consumer(consumers[id].subscriptionId, consumers[id].streams)
    }

    ghost function All(): Indexes
      reads this, consumers.Values
    {
      Indexes(subscriptions, Data(), subscriptionConsumers, streamConsumers)
    }

    /** Consumers are filed under their own ids, and both indexes agree with them. */
    ghost predicate Valid()
      reads this, consumers.Values
    {
      (forall id {:trigger Filed(id)} :: id in consumers ==> Filed(id)) && Agree(All())
    }

    ghost predicate Filed(id: string)
      requires id in consumers
      reads this`consumers
    {
      consumers[id].consumerId == id
    }

    ghost predicate Current(c: ConsumerInstance)
      reads this
    {
      c.consumerId in consumers && consumers[c.consumerId] == c
    }

    constructor (build: (string, string) -> string)
      ensures Valid() && All() == Indexes(map[], map[], map[], map[]) && buildConsumerId == build
    {
      buildConsumerId := build;
      subscriptions, consumers, subscriptionConsumers, streamConsumers := map[], map[], map[], map[];
    }

    /** Creates a subscription or returns the existing one; None when it exists with another configuration. */
    method CreateSubscription(id: string, pattern: string, webhook: string, description: string)
      returns (created: Option<bool>)
      requires Valid()
      modifies this
      ensures Valid() && consumers == old(consumers) && Data() == old(Data())
      ensures id in old(subscriptions) ==>
        subscriptions == old(subscriptions)
        && created == if subscriptions[id].pattern == pattern && subscriptions[id].webhook == webhook
                      then Some(false) else None
      ensures id !in old(subscriptions) ==>
        subscriptions == old(subscriptions)[id := Subscription(pattern, webhook, description)]
        && created == Some(true)
    {
      if id in subscriptions {
        var existing := subscriptions[id];
        if existing.pattern == pattern && existing.webhook == webhook { return Some(false); }
        return None;
      }
      SubscribedAgrees(All(), id, Subscription(pattern, webhook, description));
      subscriptions := subscriptions[id := Subscription(pattern, webhook, description)];
      subscriptionConsumers := subscriptionConsumers[id := {}];
      return Some(true);
    }

    /** Files a new consumer that holds its primary stream. */
    method AddConsumer(id: string, subscription: string, path: string) returns (c: ConsumerInstance)
      requires id !in consumers && (forall i {:trigger Filed(i)} :: i in consumers ==> Filed(i))
      modifies this`consumers
      ensures fresh(c) && Current(c) && c.consumerId == id
      ensures forall i {:trigger Filed(i)} :: i in consumers ==> Filed(i)
      ensures Data() == old(Data())[id := Consumer(subscription, map[path := "-1"])]
    {
      ghost var was := consumers;
      forall i | i in was ensures was[i].consumerId == i {
        assert Filed(i);
      }
      c := new ConsumerInstance(id, subscription, path);
      consumers := consumers[id := c];
    }

    /** The subscriptions whose pattern fits a stream path. */
    method FindMatchingSubscriptions(path: string) returns (ids: set<string>)
      ensures forall id :: id in ids <==> id in subscriptions && Glob.Fits(subscriptions[id].pattern, path)
    {
      ids := {};
      var todo := subscriptions.Keys;
      while todo != {}
        invariant todo <= subscriptions.Keys
        invariant forall id :: id in ids <==>
          id in subscriptions && id !in todo && Glob.Fits(subscriptions[id].pattern, path)
        decreases todo
      {
        var id :| id in todo;
        var matched := Glob.GlobMatch(subscriptions[id].pattern, path);
        if matched { ids := ids + {id}; }
        todo := todo - {id};
      }
    }

    /**
     * The consumer of a subscription and stream, created on first use. The subscription was found earlier; when it
     * has been deleted meanwhile, the indexes no longer agree with the consumers.
     */
    method GetOrCreateConsumer(subscription: string, path: string) returns (c: ConsumerInstance)
      requires Valid()
      modifies this`consumers, this`subscriptionConsumers, this`streamConsumers
      ensures Current(c) && c.consumerId == buildConsumerId(subscription, path)
      ensures c.consumerId !in old(consumers) ==> fresh(c)
      ensures var id := buildConsumerId(subscription, path);
        All() == if id in old(consumers) then old(All()) else Created(old(All()), subscription, path, id)
      ensures Valid() <==> subscription in subscriptions || c.consumerId in old(consumers)
    {
      var id := buildConsumerId(subscription, path);
      if id in consumers {
        assert Filed(id);
        return consumers[id];
      }
      OrphanConsumer(All(), subscription, path, id);
      c := AddConsumer(id, subscription, path);
      if subscription in subscriptionConsumers {
        subscriptionConsumers := subscriptionConsumers[subscription := subscriptionConsumers[subscription] + {id}];
      }
      AddStreamIndex(path, id);
    }

    method AddStreamIndex(path: string, id: string)
      modifies this`streamConsumers
      ensures streamConsumers == WithEntry(old(streamConsumers), path, id)
    {
      if path !in streamConsumers { streamConsumers := streamConsumers[path := {}]; }
      streamConsumers := streamConsumers[path := streamConsumers[path] + {id}];
    }

    method RemoveStreamIndex(path: string, id: string)
      modifies this`streamConsumers
      ensures streamConsumers == WithoutEntry(old(streamConsumers), path, id)
    {
      if path !in streamConsumers { return; }
      var rest := streamConsumers[path] - {id};
      streamConsumers := streamConsumers[path := rest];
      if rest == {} { streamConsumers := streamConsumers - {path}; }
    }

    /** Only the consumer `c` differs from `before`. */
    ghost method OneChanged(before: map<string, Consumer>, c: ConsumerInstance)
      requires Current(c) && before.Keys == consumers.Keys
      requires forall id {:trigger Filed(id)} :: id in consumers ==> Filed(id)
      requires forall id :: id in consumers && consumers[id] != c ==> before[id] == Data()[id]
      ensures Data() == before[c.consumerId := Consumer(c.subscriptionId, c.streams)]
    {
      forall id | id in consumers && id != c.consumerId ensures consumers[id] != c {
        assert Filed(id);
      }
    }

    /** The consumers as values once `c` holds what it holds now; a removed consumer is not among them. */
    ghost function DataWith(before: map<string, Consumer>, c: ConsumerInstance): map<string, Consumer>
      reads this, c
    {
      if Current(c) then before[c.consumerId := Consumer(c.subscriptionId, c.streams)] else before
    }

    /** Only `c` differs from `before`, if it is in the store at all. */
    ghost method MaybeChanged(before: map<string, Consumer>, c: ConsumerInstance)
      requires before.Keys == consumers.Keys && (forall id {:trigger Filed(id)} :: id in consumers ==> Filed(id))
      requires forall id :: id in consumers && consumers[id] != c ==> before[id] == Data()[id]
      ensures Data() == DataWith(before, c)
    {
      if Current(c) {
        OneChanged(before, c);
      } else {
        forall id | id in consumers ensures consumers[id] != c {
          assert Filed(id);
        }
      }
    }

    /**
     * Takes up streams a consumer does not hold yet, each from its current tail. The object was fetched earlier; when
     * the consumer has been removed meanwhile, the index gets entries for a consumer that is not there.
     */
    method SubscribeStreams(c: ConsumerInstance, paths: seq<string>, tail: string -> string)
      requires Valid()
      modifies this`streamConsumers, c
      ensures c.streams == TakenUp(old(c.streams), paths, tail) && Data() == DataWith(old(Data()), c)
      ensures streamConsumers == Entered(old(streamConsumers), old(c.streams), paths, tail, c.consumerId)
      ensures Current(c) ==> All() == JoinedAll(old(All()), c.consumerId, paths, tail)
      ensures Valid() <==>
        Current(c) || (forall p :: p in paths ==> p in old(c.streams) || Holds(old(Data()), p, c.consumerId))
    {
      ghost var before, held := All(), c.streams;
      TakeUpStreams(c, paths, tail);
      assert forall id {:trigger Filed(id)} :: id in consumers ==> old(Filed(id));
      MaybeChanged(before.consumers, c);
      if Current(c) {
        EnteredIsJoined(before, c.consumerId, paths, tail);
      } else {
        StaleSubscribe(before, held, paths, tail, c.consumerId);
      }
    }

    method TakeUpStreams(c: ConsumerInstance, paths: seq<string>, tail: string -> string)
      modifies this`streamConsumers, c`streams
      ensures c.streams == TakenUp(old(c.streams), paths, tail)
      ensures streamConsumers == Entered(old(streamConsumers), old(c.streams), paths, tail, c.consumerId)
    {
      ghost var index, held := streamConsumers, c.streams;
      assert paths[0..] == paths;
      for i := 0 to |paths|
        invariant TakenUp(c.streams, paths[i..], tail) == TakenUp(held, paths, tail)
        invariant Entered(streamConsumers, c.streams, paths[i..], tail, c.consumerId) ==
          Entered(index, held, paths, tail, c.consumerId)
      {
        assert paths[i..][0] == paths[i] && paths[i..][1..] == paths[i + 1..];
        if paths[i] !in c.streams {
          c.streams := c.streams[paths[i] := tail(paths[i])];
          AddStreamIndex(paths[i], c.consumerId);
        }
      }
      assert paths[|paths|..] == [];
    }

    /**
     * Gives up streams; true when the consumer has none left. For a consumer removed meanwhile, another one filed
     * under the same id may lose entries.
     */
    method UnsubscribeStreams(c: ConsumerInstance, paths: seq<string>) returns (empty: bool)
      requires Valid()
      modifies this`streamConsumers, c
      ensures c.streams == GivenUp(old(c.streams), paths) && Data() == DataWith(old(Data()), c)
      ensures streamConsumers == Struck(old(streamConsumers), paths, c.consumerId) && empty == (c.streams == map[])
      ensures Current(c) ==> All() == LeftAll(old(All()), c.consumerId, paths)
      ensures Valid() <==> Current(c) || (forall p :: p in paths ==> !Holds(old(Data()), p, c.consumerId))
    {
      ghost var before := All();
      GiveUpStreams(c, paths);
      assert forall id {:trigger Filed(id)} :: id in consumers ==> old(Filed(id));
      MaybeChanged(before.consumers, c);
      if Current(c) {
        StruckIsLeft(before, c.consumerId, paths);
      } else {
        StaleUnsubscribe(before, paths, c.consumerId);
      }
      return |c.streams| == 0;
    }

    method GiveUpStreams(c: ConsumerInstance, paths: seq<string>)
      modifies this`streamConsumers, c`streams
      ensures c.streams == GivenUp(old(c.streams), paths)
      ensures streamConsumers == Struck(old(streamConsumers), paths, c.consumerId)
    {
      ghost var index, held := streamConsumers, c.streams;
      assert paths[0..] == paths;
      for i := 0 to |paths|
        invariant GivenUp(c.streams, paths[i..]) == GivenUp(held, paths)
        invariant Struck(streamConsumers, paths[i..], c.consumerId) == Struck(index, paths, c.consumerId)
      {
        assert paths[i..][0] == paths[i] && paths[i..][1..] == paths[i + 1..];
        c.streams := c.streams - {paths[i]};
        RemoveStreamIndex(paths[i], c.consumerId);
      }
      assert paths[|paths|..] == [];
    }

    /** Moves acknowledged offsets of streams the consumer holds. */
    method UpdateAcks(c: ConsumerInstance, acks: seq<(string, string)>)
      requires Valid()
      modifies c
      ensures Valid() && c.streams == AcknowledgedAll(old(c.streams), acks)
      ensures c.streams.Keys == old(c.streams).Keys
      ensures forall p {:trigger p in c.streams} :: p in old(c.streams) ==> Settled(old(c.streams), acks, c.streams, p)
      ensures Data() == DataWith(old(Data()), c)
    {
      ghost var before := All();
      assert acks[0..] == acks;
      for i := 0 to |acks|
        invariant AcknowledgedAll(c.streams, acks[i..]) == AcknowledgedAll(old(c.streams), acks)
        invariant forall id :: id in consumers && consumers[id] != c ==> before.consumers[id] == Data()[id]
      {
        assert acks[i..][0] == acks[i] && acks[i..][1..] == acks[i + 1..];
        if acks[i].0 in c.streams { c.streams := c.streams[acks[i].0 := acks[i].1]; }
      }
      assert acks[|acks|..] == [];
      assert forall id {:trigger Filed(id)} :: id in consumers ==> old(Filed(id));
      MaybeChanged(before.consumers, c);
      if Current(c) { AcknowledgedAgrees(before, c.consumerId, c.streams); }
      forall p | p in old(c.streams) ensures Settled(old(c.streams), acks, c.streams, p) {
        AckedExact(old(c.streams), acks, p);
      }
    }

    /** Takes a consumer out of the stream index; `x` is the store without the streams it still holds. */
    method ForgetStreams(c: ConsumerInstance) returns (ghost x: Indexes)
      requires Valid() && Current(c)
      modifies this`streamConsumers
      ensures Agree(x) && x == All().(consumers := Data()[c.consumerId := Consumer(c.subscriptionId, map[])])
    {
      var id := c.consumerId;
      ghost var rest := c.streams;
      x := All();
      var todo := c.streams.Keys;
      while todo != {}
        invariant rest.Keys == todo
        invariant Agree(x) && x == All().(consumers := Data()[id := Consumer(c.subscriptionId, rest)])
        decreases todo
      {
        var path :| path in todo;
        LeftAgrees(x, id, path);
        RemoveStreamIndex(path, id);
        x := Left(x, id, path);
        rest := rest - {path};
        todo := todo - {path};
      }
      assert rest == map[];
    }

    /** Takes a consumer out of the table. */
    method DropConsumer(id: string)
      requires forall i {:trigger Filed(i)} :: i in consumers ==> Filed(i)
      modifies this`consumers
      ensures forall i {:trigger Filed(i)} :: i in consumers ==> Filed(i)
      ensures consumers == old(consumers) - {id} && Data() == old(Data()) - {id}
    {
      ghost var was := consumers;
      forall i | i in was ensures was[i].consumerId == i {
        assert Filed(i);
      }
      consumers := consumers - {id};
    }

    /** Removes a consumer from every index and forgets it. */
    method RemoveConsumer(id: string)
      requires Valid()
      modifies this`consumers, this`subscriptionConsumers, this`streamConsumers
      ensures Valid() && consumers == old(consumers) - {id} && Data() == old(Data()) - {id}
    {
      if id !in consumers {
        assert Data() == Data() - {id};
        return;
      }
      assert Filed(id);
      var c := consumers[id];
      ghost var x := ForgetStreams(c);
      DroppedAgrees(x, id);
      Unlist(c);
      DropConsumer(id);
      SameWithout(x.consumers, old(Data()), id);
    }

    /** Takes a consumer out of its subscription's set. */
    method Unlist(c: ConsumerInstance)
      modifies this`subscriptionConsumers
      ensures var s := c.subscriptionId;
        subscriptionConsumers ==
          if s in old(subscriptionConsumers)
          then old(subscriptionConsumers)[s := old(subscriptionConsumers)[s] - {c.consumerId}]
          else old(subscriptionConsumers)
    {
      if c.subscriptionId in subscriptionConsumers {
        subscriptionConsumers :=
          subscriptionConsumers[c.subscriptionId := subscriptionConsumers[c.subscriptionId] - {c.consumerId}];
      }
    }

    /** Removes consumers one after the other. */
    method RemoveConsumers(ids: set<string>)
      requires Valid()
      modifies this`consumers, this`subscriptionConsumers, this`streamConsumers
      ensures Valid() && consumers == old(consumers) - ids && Data() == old(Data()) - ids
    {
      var todo := ids;
      ghost var gone := {};
      while todo != {}
        invariant Valid() && todo + gone == ids
        invariant consumers == old(consumers) - gone && Data() == old(Data()) - gone
        decreases todo
      {
        var c :| c in todo;
        RemoveConsumer(c);
        todo, gone := todo - {c}, gone + {c};
      }
      assert gone == ids;
    }

    /** Removes a subscription and, without a trace, all its consumers. */
    method DeleteSubscription(id: string) returns (found: bool)
      requires Valid()
      modifies this
      ensures Valid() && found == (id in old(subscriptions)) && subscriptions == old(subscriptions) - {id}
      ensures Data() == if found then old(Data()) - UnderIds(old(Data()), id) else old(Data())
    {
      if id !in subscriptions { return false; }
      ghost var before := All();
      IndexedAreUnder(before, id);
      RemoveConsumers(subscriptionConsumers[id]);
      forall c ensures !Under(Data(), id, c) {
      }
      UnsubscribedAgrees(All(), id);
      subscriptionConsumers := subscriptionConsumers - {id};
      subscriptions := subscriptions - {id};
      return true;
    }

    /** Takes a deleted stream from all its consumers and removes those left without any. */
    method RemoveStreamFromConsumers(path: string)
      requires Valid()
      modifies this`consumers, this`subscriptionConsumers, this`streamConsumers, consumers.Values
      ensures Valid() && subscriptions == old(subscriptions)
      ensures Data() == LosesStream(old(Data()), path) - OnlyHolderIds(old(Data()), path)
    {
      var toRemove := TakeStream(path);
      RemoveConsumers(toRemove);
    }

    /** Takes a stream from one consumer; true when it is left without any. */
    method TakeFrom(c: ConsumerInstance, path: string) returns (empty: bool)
      requires Current(c) && (forall i {:trigger Filed(i)} :: i in consumers ==> Filed(i))
      modifies c
      ensures c.streams == old(c.streams) - {path} && empty == (c.streams.Keys == {})
      ensures Data() == old(Data())[c.consumerId := WithoutStream(old(Data())[c.consumerId], path)]
    {
      ghost var before := Data();
      c.streams := c.streams - {path};
      OneChanged(before, c);
      return |c.streams| == 0;
    }

    /** Takes a stream from its holders and from the index; returns the holders left without streams. */
    method TakeStream(path: string) returns (emptied: set<string>)
      requires Valid()
      modifies this`streamConsumers, consumers.Values
      ensures Valid() && Data() == LosesStream(old(Data()), path)
      ensures emptied == OnlyHolderIds(old(Data()), path)
    {
      var holders := if path in streamConsumers then streamConsumers[path] else {};
      IndexedAreHolders(All(), path);
      StreamGoneAgrees(All(), path);
      HoldersLose(Data(), path);
      OnlyHoldersHold(Data(), path);
      emptied := TakeFromHolders(path, holders);
      streamConsumers := streamConsumers - {path};
    }

    method TakeFromHolders(path: string, holders: set<string>) returns (emptied: set<string>)
      requires (forall i {:trigger Filed(i)} :: i in consumers ==> Filed(i)) && holders == HolderIds(Data(), path)
      modifies consumers.Values
      ensures forall i {:trigger Filed(i)} :: i in consumers ==> Filed(i)
      ensures Data() == Losing(old(Data()), path, holders)
      ensures emptied == OnlyHolderIds(old(Data()), path) * holders
    {
      emptied := {};
      ghost var before := Data();
      var todo := holders;
      while todo != {}
        invariant todo <= holders && (forall i {:trigger Filed(i)} :: i in consumers ==> Filed(i))
        invariant Data() == Losing(before, path, holders - todo)
        invariant emptied == OnlyHolderIds(before, path) * (holders - todo)
        decreases todo
      {
        var cid :| cid in todo;
        LosingStep(before, path, holders - todo, cid);
        assert Filed(cid);
        assert holders - (todo - {cid}) == holders - todo + {cid};
        var empty := TakeFrom(consumers[cid], path);
        if empty { emptied := emptied + {cid}; }
        todo := todo - {cid};
      }
      assert holders - todo == holders;
    }

    /** Whether some stream the consumer holds has a tail that sorts after what was acknowledged. */
    method HasPendingWork(c: ConsumerInstance, tail: string -> string) returns (pending: bool)
      ensures pending <==> exists p :: p in c.streams && Text.Less(c.streams[p], tail(p))
    {
      var todo := c.streams.Keys;
      while todo != {}
        invariant todo <= c.streams.Keys
        invariant forall p :: p in c.streams && p !in todo ==> !Text.Less(c.streams[p], tail(p))
        decreases todo
      {
        var path :| path in todo;
        if Text.Less(c.streams[path], tail(path)) { return true; }
        todo := todo - {path};
      }
      return false;
    }

    method Shutdown()
      modifies this
      ensures Valid() && All() == Indexes(map[], map[], map[], map[])
    {
      consumers, subscriptions := map[], map[];
      subscriptionConsumers, streamConsumers := map[], map[];
    }
  }
}
