/** A callback that fetches its consumer, and only then calls the store, while the consumer's subscription goes away. */
module WebhookRace {
  import opened WebhookIndexes
  import opened WebhookStores

  /** An entry made for a consumer that is not there stays in the index, and the agreement is gone. */
  lemma {:induction false} SubscribedAfterRemoval(x: Indexes, streams: map<string, string>, path: string,
                                                  tail: string -> string, id: string)
    requires Agree(x) && id !in x.consumers && path !in streams
    ensures var x' := x.(byStream := Entered(x.byStream, streams, [path], tail, id));
      !Agree(x') && Lists(x'.byStream, path, id) && !Holds(x'.consumers, path, id)
  {
    assert path in [path];
    StaleSubscribe(x, streams, [path], tail, id);
    EnteredLists(x.byStream, streams, [path], tail, id, path, id);
  }

  /** The last call of the run: the consumer has been removed, and is subscribed to a stream it does not hold. */
  method SubscribeRemoved(store: Store, consumer: ConsumerInstance, other: string, tail: string -> string)
    requires store.Valid() && consumer.consumerId !in store.consumers && other !in consumer.streams
    modifies store`streamConsumers, consumer
    ensures !store.Valid() && Lists(store.streamConsumers, other, consumer.consumerId)
  {
    ghost var before, held := store.All(), consumer.streams;
    store.SubscribeStreams(consumer, [other], tail);
    SubscribedAfterRemoval(before, held, other, tail, consumer.consumerId);
    assert other in [other];
  }

  /** Makes the only subscription of a new store and its first consumer, and deletes the subscription again. */
  method RemovedConsumer(build: (string, string) -> string, subscription: string, pattern: string, hook: string,
                         path: string)
    returns (store: Store, consumer: ConsumerInstance)
    ensures fresh(store) && fresh(consumer) && store.Valid() && consumer.streams == map[path := "-1"]
    ensures store.consumers.Keys == {} && consumer.consumerId == build(subscription, path)
  {
    store := new Store(build);
    var created := store.CreateSubscription(subscription, pattern, hook, "");
    consumer := store.GetOrCreateConsumer(subscription, path);
    ghost var id := consumer.consumerId;
    assert store.Data() == map[id := Consumer(subscription, map[path := "-1"])];
    assert id in store.consumers && store.Data()[id].streams == consumer.streams;
    var found := store.DeleteSubscription(subscription);
    assert store.Data().Keys == {};
  }

  /** The failing run: a consumer is fetched, its subscription deleted, and one more stream subscribed to. */
  method LateCallback(build: (string, string) -> string, subscription: string, pattern: string, hook: string,
                      path: string, other: string, tail: string -> string)
    returns (store: Store)
    requires path != other
    ensures fresh(store) && !store.Valid() && Lists(store.streamConsumers, other, build(subscription, path))
  {
    var consumer;
    store, consumer := RemovedConsumer(build, subscription, pattern, hook, path);
    SubscribeRemoved(store, consumer, other, tail);
  }
}
