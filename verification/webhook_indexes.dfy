/** The webhook store's inverted indexes, as values: what each operation makes of them and what it keeps. */
module WebhookIndexes {

  datatype Subscription = Subscription(pattern: string, webhook: string, description: string)

  /** A consumer: its subscription, and the streams it holds with the offset acknowledged on each. */
  datatype Consumer = Consumer(subscriptionId: string, streams: map<string, string>)

  type Index = map<string, set<string>>

  datatype Indexes = Indexes(
    subscriptions: map<string, Subscription>,
    consumers: map<string, Consumer>,
    bySubscription: Index,
    byStream: Index)

  predicate Lists(index: Index, key: string, id: string) {
    key in index && id in index[key]
  }

  /** Consumer `id` exists under subscription `s`. */
  predicate Under(consumers: map<string, Consumer>, s: string, id: string) {
    id in consumers && consumers[id].subscriptionId == s
  }

  /** Consumer `id` exists and holds stream `p`. */
  predicate Holds(consumers: map<string, Consumer>, p: string, id: string) {
    id in consumers && p in consumers[id].streams
  }

  predicate Placed(x: Indexes, id: string)
    requires id in x.consumers
  {
    x.consumers[id].subscriptionId in x.subscriptions
  }

  predicate Full(index: Index, key: string)
    requires key in index
  {
    index[key] != {}
  }

  predicate StreamAgrees(x: Indexes, p: string, id: string) {
    Lists(x.byStream, p, id) <==> Holds(x.consumers, p, id)
  }

  predicate SubscriptionAgrees(x: Indexes, s: string, id: string) {
    Lists(x.bySubscription, s, id) <==> Under(x.consumers, s, id)
  }

  /** Both indexes agree with the consumers in both directions, and no stream is indexed without a consumer. */
  ghost predicate Agree(x: Indexes) {
    && x.bySubscription.Keys == x.subscriptions.Keys
    && (forall id {:trigger Placed(x, id)} :: id in x.consumers ==> Placed(x, id))
    && (forall s, id {:trigger SubscriptionAgrees(x, s, id)} :: SubscriptionAgrees(x, s, id))
    && (forall p, id {:trigger StreamAgrees(x, p, id)} :: StreamAgrees(x, p, id))
    && NoEmptySets(x.byStream)
  }

  // ---- One index ----

  function WithEntry(index: Index, key: string, id: string): Index {
    index[key := (if key in index then index[key] else {}) + {id}]
  }

  /** Removing the last entry of a key removes the key. */
  function WithoutEntry(index: Index, key: string, id: string): Index {
    if key !in index then index
    else if index[key] - {id} == {} then index - {key}
    else index[key := index[key] - {id}]
  }

  lemma {:induction false} EntryEffect(index: Index, key: string, id: string, k: string, i: string)
    ensures Lists(WithEntry(index, key, id), k, i) <==> Lists(index, k, i) || (k == key && i == id)
    ensures Lists(WithoutEntry(index, key, id), k, i) <==> Lists(index, k, i) && !(k == key && i == id)
  {
    if key in index && Lists(index, k, i) && i != id { assert k == key ==> i in index[key] - {id}; }
  }

  ghost predicate NoEmptySets(index: Index) {
    forall k {:trigger Full(index, k)} :: k in index ==> Full(index, k)
  }

  lemma {:induction false} EntryKeepsFull(index: Index, key: string, id: string)
    requires NoEmptySets(index)
    ensures NoEmptySets(WithEntry(index, key, id)) && NoEmptySets(WithoutEntry(index, key, id))
  {
    var more, less := WithEntry(index, key, id), WithoutEntry(index, key, id);
    assert id in more[key];
    forall k | k in more ensures Full(more, k) {
      if k in index { assert Full(index, k); }
    }
    forall k | k in less ensures Full(less, k) {
      assert Full(index, k);
    }
  }

  // ---- Operations ----

  function Subscribed(x: Indexes, s: string, sub: Subscription): Indexes {
    x.(subscriptions := x.subscriptions[s := sub], bySubscription := x.bySubscription[s := {}])
  }

  lemma {:induction false} SubscribedAgrees(x: Indexes, s: string, sub: Subscription)
    requires Agree(x) && s !in x.subscriptions
    ensures Agree(Subscribed(x, s, sub))
  {
    var x' := Subscribed(x, s, sub);
    forall t, id ensures SubscriptionAgrees(x', t, id) {
      assert SubscriptionAgrees(x, t, id);
    }
    forall i | i in x'.consumers ensures Placed(x', i) {
      if i in x.consumers { assert Placed(x, i); }
    }
    forall p, i ensures StreamAgrees(x', p, i) {
      assert StreamAgrees(x, p, i);
    }
  }

  /** A new consumer, holding its primary stream from the start. */
  function Created(x: Indexes, s: string, path: string, id: string): Indexes {
    x.(consumers := x.consumers[id := Consumer(s, map[path := "-1"])],
       bySubscription := if s in x.bySubscription then x.bySubscription[s := x.bySubscription[s] + {id}]
                         else x.bySubscription,
       byStream := WithEntry(x.byStream, path, id))
  }

  lemma {:induction false} CreatedAgrees(x: Indexes, s: string, path: string, id: string)
    requires Agree(x) && s in x.subscriptions && id !in x.consumers
    ensures Agree(Created(x, s, path, id))
  {
    var x' := Created(x, s, path, id);
    EntryKeepsFull(x.byStream, path, id);
    forall t, i ensures SubscriptionAgrees(x', t, i) {
      assert SubscriptionAgrees(x, t, i);
      assert SubscriptionAgrees(x, t, id);
    }
    forall p, i ensures StreamAgrees(x', p, i) {
      EntryEffect(x.byStream, path, id, p, i);
      assert StreamAgrees(x, p, i);
    }
    forall i | i in x'.consumers ensures Placed(x', i) {
      if i in x.consumers { assert Placed(x, i); }
    }
  }

  /** A consumer that takes up one more stream, unless it holds it already. */
  function Joined(x: Indexes, id: string, path: string, offset: string): Indexes
    requires id in x.consumers
  {
    var c := x.consumers[id];
    if path in c.streams then x
    else x.(consumers := x.consumers[id := c.(streams := c.streams[path := offset])],
            byStream := WithEntry(x.byStream, path, id))
  }

  lemma {:induction false} JoinedAgrees(x: Indexes, id: string, path: string, offset: string)
    requires Agree(x) && id in x.consumers
    ensures Agree(Joined(x, id, path, offset))
  {
    var x' := Joined(x, id, path, offset);
    EntryKeepsFull(x.byStream, path, id);
    forall t, i ensures SubscriptionAgrees(x', t, i) {
      assert SubscriptionAgrees(x, t, i);
    }
    forall p, i ensures StreamAgrees(x', p, i) {
      EntryEffect(x.byStream, path, id, p, i);
      assert StreamAgrees(x, p, i);
    }
    forall i | i in x'.consumers ensures Placed(x', i) {
      if i in x.consumers { assert Placed(x, i); }
    }
  }

  /** A consumer that gives up one stream. */
  function Left(x: Indexes, id: string, path: string): Indexes
    requires id in x.consumers
  {
    var c := x.consumers[id];
    x.(consumers := x.consumers[id := c.(streams := c.streams - {path})],
       byStream := WithoutEntry(x.byStream, path, id))
  }

  lemma {:induction false} LeftAgrees(x: Indexes, id: string, path: string)
    requires Agree(x) && id in x.consumers
    ensures Agree(Left(x, id, path))
  {
    var x' := Left(x, id, path);
    EntryKeepsFull(x.byStream, path, id);
    forall t, i ensures SubscriptionAgrees(x', t, i) {
      assert SubscriptionAgrees(x, t, i);
    }
    forall p, i ensures StreamAgrees(x', p, i) {
      EntryEffect(x.byStream, path, id, p, i);
      assert StreamAgrees(x, p, i);
    }
    forall i | i in x'.consumers ensures Placed(x', i) {
      if i in x.consumers { assert Placed(x, i); }
    }
  }

  /** Acknowledging moves offsets of streams that are held, and nothing else. */
  function Acknowledged(streams: map<string, string>, path: string, offset: string): map<string, string> {
    if path in streams then streams[path := offset] else streams
  }

  lemma {:induction false} AcknowledgedAgrees(x: Indexes, id: string, streams: map<string, string>)
    requires Agree(x) && id in x.consumers && streams.Keys == x.consumers[id].streams.Keys
    ensures Agree(x.(consumers := x.consumers[id := x.consumers[id].(streams := streams)]))
  {
    var x' := x.(consumers := x.consumers[id := x.consumers[id].(streams := streams)]);
    forall t, i ensures SubscriptionAgrees(x', t, i) {
      assert SubscriptionAgrees(x, t, i);
    }
    forall p, i ensures StreamAgrees(x', p, i) {
      assert StreamAgrees(x, p, i);
      assert p in streams <==> p in streams.Keys;
    }
    forall i | i in x'.consumers ensures Placed(x', i) {
      if i in x.consumers { assert Placed(x, i); }
    }
  }

  /** A consumer with no streams left, taken out of its subscription and forgotten. */
  function Dropped(x: Indexes, id: string): Indexes
    requires id in x.consumers
  {
    var s := x.consumers[id].subscriptionId;
    x.(consumers := x.consumers - {id},
       bySubscription := if s in x.bySubscription then x.bySubscription[s := x.bySubscription[s] - {id}]
                         else x.bySubscription)
  }

  lemma {:induction false} DroppedAgrees(x: Indexes, id: string)
    requires Agree(x) && id in x.consumers && x.consumers[id].streams.Keys == {}
    ensures Agree(Dropped(x, id))
  {
    var x' := Dropped(x, id);
    forall t, i ensures SubscriptionAgrees(x', t, i) {
      assert SubscriptionAgrees(x, t, i);
    }
    forall p, i ensures StreamAgrees(x', p, i) {
      assert StreamAgrees(x, p, i);
      if i == id { assert p !in x.consumers[id].streams.Keys; }
    }
    forall i | i in x'.consumers ensures Placed(x', i) {
      if i in x.consumers { assert Placed(x, i); }
    }
  }

  /** A subscription that no consumer is under any more, removed. */
  function Unsubscribed(x: Indexes, s: string): Indexes {
    x.(subscriptions := x.subscriptions - {s}, bySubscription := x.bySubscription - {s})
  }

  lemma {:induction false} UnsubscribedAgrees(x: Indexes, s: string)
    requires Agree(x) && (forall id {:trigger Under(x.consumers, s, id)} :: !Under(x.consumers, s, id))
    ensures Agree(Unsubscribed(x, s))
  {
    var x' := Unsubscribed(x, s);
    forall id | id in x'.consumers ensures Placed(x', id) {
      assert Placed(x, id) && !Under(x.consumers, s, id);
    }
    forall t, i ensures SubscriptionAgrees(x', t, i) {
      assert SubscriptionAgrees(x, t, i);
    }
    forall p, i ensures StreamAgrees(x', p, i) {
      assert StreamAgrees(x, p, i);
    }
  }

  /** No index names the consumer. */
  ghost predicate NoTrace(x: Indexes, id: string) {
    && id !in x.consumers
    && (forall s :: !Lists(x.bySubscription, s, id))
    && (forall p :: !Lists(x.byStream, p, id))
  }

  /** Once the indexes agree, a consumer that is gone is gone from all of them. */
  lemma {:induction false} GoneWithoutTrace(x: Indexes, id: string)
    requires Agree(x) && id !in x.consumers
    ensures NoTrace(x, id)
  {
    forall s ensures !Lists(x.bySubscription, s, id) {
      assert SubscriptionAgrees(x, s, id);
    }
    forall p ensures !Lists(x.byStream, p, id) {
      assert StreamAgrees(x, p, id);
    }
  }

  /** The consumers and subscriptions determine agreeing indexes completely. */
  lemma {:induction false} AgreeUnique(x: Indexes, y: Indexes)
    requires Agree(x) && Agree(y) && x.subscriptions == y.subscriptions && x.consumers == y.consumers
    ensures x == y
  {
    forall s, id ensures Lists(x.bySubscription, s, id) <==> Lists(y.bySubscription, s, id) {
      assert SubscriptionAgrees(x, s, id);
      assert SubscriptionAgrees(y, s, id);
    }
    SameIndex(x.bySubscription, y.bySubscription);
    forall p, id ensures Lists(x.byStream, p, id) <==> Lists(y.byStream, p, id) {
      assert StreamAgrees(x, p, id);
      assert StreamAgrees(y, p, id);
    }
    SameFullKeys(x.byStream, y.byStream);
    SameFullKeys(y.byStream, x.byStream);
    SameIndex(x.byStream, y.byStream);
  }

  lemma {:induction false} SameFullKeys(a: Index, b: Index)
    requires NoEmptySets(a)
    requires forall k, i {:trigger Lists(a, k, i)} :: Lists(a, k, i) ==> Lists(b, k, i)
    ensures a.Keys <= b.Keys
  {
    forall k | k in a ensures k in b {
      assert Full(a, k);
      var i :| i in a[k];
      assert Lists(a, k, i);
    }
  }

  lemma {:induction false} SameIndex(a: Index, b: Index)
    requires a.Keys == b.Keys
    requires forall k, i {:trigger Lists(a, k, i)} :: Lists(a, k, i) <==> Lists(b, k, i)
    ensures a == b
  {
    forall k | k in a ensures a[k] == b[k] {
      forall i ensures i in a[k] <==> i in b[k] {
        assert Lists(a, k, i) <==> Lists(b, k, i);
      }
    }
  }

  // ---- Consumers after the larger operations ----

  function WithoutStream(c: Consumer, path: string): Consumer {
    c.(streams := c.streams - {path})
  }

  /** Every consumer loses a stream, and the stream loses its entry. */
  lemma {:induction false} StreamGoneAgrees(x: Indexes, path: string)
    requires Agree(x)
    ensures Agree(x.(consumers := map id | id in x.consumers :: WithoutStream(x.consumers[id], path),
                     byStream := x.byStream - {path}))
  {
    var x' := x.(consumers := map id | id in x.consumers :: WithoutStream(x.consumers[id], path),
                 byStream := x.byStream - {path});
    forall t, i ensures SubscriptionAgrees(x', t, i) {
      assert SubscriptionAgrees(x, t, i);
    }
    forall p, i ensures StreamAgrees(x', p, i) {
      assert StreamAgrees(x, p, i);
    }
    forall i | i in x'.consumers ensures Placed(x', i) {
      if i in x.consumers { assert Placed(x, i); }
    }
    forall k | k in x'.byStream ensures Full(x'.byStream, k) {
      assert Full(x.byStream, k);
    }
  }

  // ---- Several streams at once ----

  function JoinedAll(x: Indexes, id: string, paths: seq<string>, tail: string -> string): (r: Indexes)
    requires id in x.consumers
    ensures r.consumers.Keys == x.consumers.Keys
    decreases paths
  {
    if paths == [] then x else JoinedAll(Joined(x, id, paths[0], tail(paths[0])), id, paths[1..], tail)
  }

  /** Subscribing takes up exactly the streams not held yet, each from its tail, for this consumer only. */
  lemma {:induction false} JoinedStreams(x: Indexes, id: string, paths: seq<string>, tail: string -> string)
    requires id in x.consumers
    ensures var c, c' := x.consumers[id], JoinedAll(x, id, paths, tail).consumers[id];
      && c'.subscriptionId == c.subscriptionId
      && (forall p :: p in c'.streams <==> p in c.streams || p in paths)
      && (forall p :: p in c'.streams ==> c'.streams[p] == if p in c.streams then c.streams[p] else tail(p))
    ensures JoinedAll(x, id, paths, tail).consumers - {id} == x.consumers - {id}
    decreases paths
  {
    if paths != [] { JoinedStreams(Joined(x, id, paths[0], tail(paths[0])), id, paths[1..], tail); }
  }

  function LeftAll(x: Indexes, id: string, paths: seq<string>): (r: Indexes)
    requires id in x.consumers
    ensures r.consumers.Keys == x.consumers.Keys
    decreases paths
  {
    if paths == [] then x else LeftAll(Left(x, id, paths[0]), id, paths[1..])
  }

  /** Unsubscribing gives up exactly the streams named, for this consumer only. */
  lemma {:induction false} LeftStreams(x: Indexes, id: string, paths: seq<string>)
    requires id in x.consumers
    ensures var c, c' := x.consumers[id], LeftAll(x, id, paths).consumers[id];
      && c'.subscriptionId == c.subscriptionId
      && (forall p :: p in c'.streams <==> p in c.streams && p !in paths)
      && (forall p :: p in c'.streams ==> c'.streams[p] == c.streams[p])
    ensures LeftAll(x, id, paths).consumers - {id} == x.consumers - {id}
    decreases paths
  {
    if paths != [] { LeftStreams(Left(x, id, paths[0]), id, paths[1..]); }
  }

  // ---- A consumer object that may have been removed from the store meanwhile ----

  /** What the object holds after taking up streams. */
  function TakenUp(streams: map<string, string>, paths: seq<string>, tail: string -> string): map<string, string>
    decreases paths
  {
    if paths == [] then streams
    else TakenUp(if paths[0] in streams then streams else streams[paths[0] := tail(paths[0])], paths[1..], tail)
  }

  /** The stream index after `id` has taken up streams that the object did not hold. */
  function Entered(index: Index, streams: map<string, string>, paths: seq<string>, tail: string -> string, id: string)
    : Index
    decreases paths
  {
    if paths == [] then index
    else if paths[0] in streams then Entered(index, streams, paths[1..], tail, id)
    else Entered(WithEntry(index, paths[0], id), streams[paths[0] := tail(paths[0])], paths[1..], tail, id)
  }

  lemma {:induction false} EnteredLists(index: Index, streams: map<string, string>, paths: seq<string>,
                                        tail: string -> string, id: string, k: string, i: string)
    ensures Lists(Entered(index, streams, paths, tail, id), k, i) <==>
      Lists(index, k, i) || (i == id && k in paths && k !in streams)
    decreases paths
  {
    if paths != [] {
      var p := paths[0];
      assert k in paths <==> k == p || k in paths[1..];
      if p in streams {
        EnteredLists(index, streams, paths[1..], tail, id, k, i);
      } else {
        EntryEffect(index, p, id, k, i);
        EnteredLists(WithEntry(index, p, id), streams[p := tail(p)], paths[1..], tail, id, k, i);
      }
    }
  }

  lemma {:induction false} EnteredFull(index: Index, streams: map<string, string>, paths: seq<string>,
                                       tail: string -> string, id: string)
    requires NoEmptySets(index)
    ensures NoEmptySets(Entered(index, streams, paths, tail, id))
    decreases paths
  {
    if paths != [] {
      var p := paths[0];
      if p in streams {
        EnteredFull(index, streams, paths[1..], tail, id);
      } else {
        EntryKeepsFull(index, p, id);
        EnteredFull(WithEntry(index, p, id), streams[p := tail(p)], paths[1..], tail, id);
      }
    }
  }

  /** For a consumer that is still in the store, taking up streams keeps the agreement. */
  lemma {:induction false} EnteredIsJoined(x: Indexes, id: string, paths: seq<string>, tail: string -> string)
    requires Agree(x) && id in x.consumers
    ensures Agree(JoinedAll(x, id, paths, tail))
    ensures var c := x.consumers[id];
      JoinedAll(x, id, paths, tail) ==
        x.(consumers := x.consumers[id := c.(streams := TakenUp(c.streams, paths, tail))],
           byStream := Entered(x.byStream, c.streams, paths, tail, id))
    decreases paths
  {
    if paths == [] {
      assert x.consumers[id := x.consumers[id]] == x.consumers;
    } else {
      JoinedAgrees(x, id, paths[0], tail(paths[0]));
      EnteredIsJoined(Joined(x, id, paths[0], tail(paths[0])), id, paths[1..], tail);
    }
  }

  /** The stream index after the entries of `id` under some streams are struck out. */
  function Struck(index: Index, paths: seq<string>, id: string): Index
    decreases paths
  {
    if paths == [] then index else Struck(WithoutEntry(index, paths[0], id), paths[1..], id)
  }

  function GivenUp(streams: map<string, string>, paths: seq<string>): map<string, string>
    decreases paths
  {
    if paths == [] then streams else GivenUp(streams - {paths[0]}, paths[1..])
  }

  lemma {:induction false} StruckLists(index: Index, paths: seq<string>, id: string, k: string, i: string)
    ensures Lists(Struck(index, paths, id), k, i) <==> Lists(index, k, i) && !(i == id && k in paths)
    decreases paths
  {
    if paths != [] {
      assert k in paths <==> k == paths[0] || k in paths[1..];
      EntryEffect(index, paths[0], id, k, i);
      StruckLists(WithoutEntry(index, paths[0], id), paths[1..], id, k, i);
    }
  }

  lemma {:induction false} StruckFull(index: Index, paths: seq<string>, id: string)
    requires NoEmptySets(index)
    ensures NoEmptySets(Struck(index, paths, id))
    decreases paths
  {
    if paths != [] {
      EntryKeepsFull(index, paths[0], id);
      StruckFull(WithoutEntry(index, paths[0], id), paths[1..], id);
    }
  }

  lemma {:induction false} StruckIsLeft(x: Indexes, id: string, paths: seq<string>)
    requires Agree(x) && id in x.consumers
    ensures Agree(LeftAll(x, id, paths))
    ensures var c := x.consumers[id];
      LeftAll(x, id, paths) ==
        x.(consumers := x.consumers[id := c.(streams := GivenUp(c.streams, paths))],
           byStream := Struck(x.byStream, paths, id))
    decreases paths
  {
    if paths == [] {
      assert x.consumers[id := x.consumers[id]] == x.consumers;
    } else {
      LeftAgrees(x, id, paths[0]);
      StruckIsLeft(Left(x, id, paths[0]), id, paths[1..]);
    }
  }

  /** With the consumers as they are, a stream index agrees exactly when it lists what the agreeing one lists. */
  lemma {:induction false} IndexAgrees(x: Indexes, index: Index)
    requires Agree(x) && NoEmptySets(index)
    ensures Agree(x.(byStream := index)) <==>
      (forall k, i {:trigger Lists(index, k, i)} :: Lists(index, k, i) <==> Holds(x.consumers, k, i))
  {
    var x' := x.(byStream := index);
    if forall k, i {:trigger Lists(index, k, i)} :: Lists(index, k, i) <==> Holds(x.consumers, k, i) {
      forall p, i ensures StreamAgrees(x', p, i) {
      }
      forall t, i ensures SubscriptionAgrees(x', t, i) {
        assert SubscriptionAgrees(x, t, i);
      }
      forall i | i in x'.consumers ensures Placed(x', i) {
        assert Placed(x, i);
      }
    } else {
      var k, i :| Lists(index, k, i) != Holds(x.consumers, k, i);
      assert !StreamAgrees(x', k, i);
    }
  }

  /**
   * Subscribing through an object that is no longer in the store: the agreement stays exactly when every stream it
   * takes up is one that the store's consumer of that id, if there is one again, holds already.
   */
  lemma {:induction false} StaleSubscribe(x: Indexes, streams: map<string, string>, paths: seq<string>,
                                          tail: string -> string, id: string)
    requires Agree(x)
    ensures Agree(x.(byStream := Entered(x.byStream, streams, paths, tail, id))) <==>
      (forall p :: p in paths ==> p in streams || Holds(x.consumers, p, id))
  {
    var index := Entered(x.byStream, streams, paths, tail, id);
    EnteredFull(x.byStream, streams, paths, tail, id);
    IndexAgrees(x, index);
    forall k, i ensures Lists(index, k, i) <==> Holds(x.consumers, k, i) || (i == id && k in paths && k !in streams) {
      EnteredLists(x.byStream, streams, paths, tail, id, k, i);
      assert StreamAgrees(x, k, i);
    }
    if p :| p in paths && p !in streams && !Holds(x.consumers, p, id) {
      assert Lists(index, p, id);
    }
  }

  /** Unsubscribing through such an object: exactly when the store's consumer of that id holds none of the streams. */
  lemma {:induction false} StaleUnsubscribe(x: Indexes, paths: seq<string>, id: string)
    requires Agree(x)
    ensures Agree(x.(byStream := Struck(x.byStream, paths, id))) <==>
      (forall p :: p in paths ==> !Holds(x.consumers, p, id))
  {
    var index := Struck(x.byStream, paths, id);
    StruckFull(x.byStream, paths, id);
    IndexAgrees(x, index);
    forall k, i ensures Lists(index, k, i) <==> Holds(x.consumers, k, i) && !(i == id && k in paths) {
      StruckLists(x.byStream, paths, id, k, i);
      assert StreamAgrees(x, k, i);
    }
    if p :| p in paths && Holds(x.consumers, p, id) {
      assert !Lists(index, p, id);
    }
  }

  /** A consumer made under a subscription that is gone breaks the agreement. */
  lemma {:induction false} OrphanConsumer(x: Indexes, s: string, path: string, id: string)
    requires Agree(x) && id !in x.consumers
    ensures Agree(Created(x, s, path, id)) <==> s in x.subscriptions
  {
    var x' := Created(x, s, path, id);
    if s in x.subscriptions {
      CreatedAgrees(x, s, path, id);
    } else {
      assert id in x'.consumers && !Placed(x', id);
    }
  }

  function AcknowledgedAll(streams: map<string, string>, acks: seq<(string, string)>): (r: map<string, string>)
    ensures r.Keys == streams.Keys
    decreases acks
  {
    if acks == [] then streams else AcknowledgedAll(Acknowledged(streams, acks[0].0, acks[0].1), acks[1..])
  }

  /** The last acknowledgement of `p` in the list. */
  predicate IsLast(acks: seq<(string, string)>, i: int, p: string) {
    0 <= i < |acks| && acks[i].0 == p && (forall j :: i < j < |acks| ==> acks[j].0 != p)
  }

  /** A held stream ends at the offset of the last acknowledgement that names it, and keeps its offset without one. */
  ghost predicate Settled(streams: map<string, string>, acks: seq<(string, string)>, after: map<string, string>,
                          p: string)
    requires p in streams && p in after
  {
    && (forall i {:trigger IsLast(acks, i, p)} :: IsLast(acks, i, p) ==> after[p] == acks[i].1)
    && ((forall i :: 0 <= i < |acks| ==> acks[i].0 != p) ==> after[p] == streams[p])
  }

  /** Acknowledging any list changes no set of streams, and settles each. */
  lemma {:induction false} AckedExact(streams: map<string, string>, acks: seq<(string, string)>, p: string)
    requires p in streams
    ensures p in AcknowledgedAll(streams, acks).Keys
    ensures Settled(streams, acks, AcknowledgedAll(streams, acks), p)
    decreases acks
  {
    if acks != [] {
      var first, rest := Acknowledged(streams, acks[0].0, acks[0].1), acks[1..];
      AckedExact(first, rest, p);
      var after := AcknowledgedAll(first, rest);
      assert forall j :: 0 <= j < |rest| ==> rest[j] == acks[j + 1];
      forall i {:trigger IsLast(acks, i, p)} | IsLast(acks, i, p) ensures after[p] == acks[i].1 {
        if i > 0 { assert IsLast(rest, i - 1, p); }
      }
    }
  }

  /** The consumers under a subscription. */
  function UnderIds(consumers: map<string, Consumer>, s: string): set<string> {
    set c | c in consumers && consumers[c].subscriptionId == s
  }

  /** The consumers that hold a stream. */
  function HolderIds(consumers: map<string, Consumer>, path: string): set<string> {
    set c | c in consumers && path in consumers[c].streams
  }

  /** The consumers that hold this one stream only. */
  function OnlyHolderIds(consumers: map<string, Consumer>, path: string): set<string> {
    set c | c in consumers && consumers[c].streams.Keys == {path}
  }

  lemma {:induction false} IndexedAreUnder(x: Indexes, s: string)
    requires Agree(x) && s in x.bySubscription
    ensures x.bySubscription[s] == UnderIds(x.consumers, s)
  {
    forall c ensures c in x.bySubscription[s] <==> c in UnderIds(x.consumers, s) {
      assert SubscriptionAgrees(x, s, c);
    }
  }

  lemma {:induction false} IndexedAreHolders(x: Indexes, path: string)
    requires Agree(x)
    ensures (if path in x.byStream then x.byStream[path] else {}) == HolderIds(x.consumers, path)
  {
    forall c ensures c in HolderIds(x.consumers, path) <==> Lists(x.byStream, path, c) {
      assert StreamAgrees(x, path, c);
    }
  }

  /** The consumers after those in `done` have lost a stream. */
  function Losing(consumers: map<string, Consumer>, path: string, done: set<string>): map<string, Consumer> {
    map c | c in consumers :: if c in done then WithoutStream(consumers[c], path) else consumers[c]
  }

  function LosesStream(consumers: map<string, Consumer>, path: string): map<string, Consumer> {
    map c | c in consumers :: WithoutStream(consumers[c], path)
  }

  /** Taking a stream from its holders takes it from everyone. */
  lemma {:induction false} HoldersLose(consumers: map<string, Consumer>, path: string)
    ensures Losing(consumers, path, HolderIds(consumers, path)) == LosesStream(consumers, path)
  {
    forall c | c in consumers && path !in consumers[c].streams
      ensures WithoutStream(consumers[c], path) == consumers[c]
    {
      assert consumers[c].streams - {path} == consumers[c].streams;
    }
  }

  /** A deleted subscription's consumers leave no trace. */
  lemma {:induction false} DeletedWithoutTrace(x: Indexes, x': Indexes, s: string, c: string)
    requires Agree(x') && x'.consumers == x.consumers - UnderIds(x.consumers, s) && Under(x.consumers, s, c)
    ensures NoTrace(x', c)
  {
    assert c in UnderIds(x.consumers, s);
    GoneWithoutTrace(x', c);
  }

  lemma {:induction false} LosingStep(consumers: map<string, Consumer>, path: string, done: set<string>, c: string)
    requires c in HolderIds(consumers, path) && c !in done
    ensures c in Losing(consumers, path, done) && Losing(consumers, path, done)[c] == consumers[c]
    ensures Losing(consumers, path, done + {c}) ==
      Losing(consumers, path, done)[c := WithoutStream(consumers[c], path)]
    ensures OnlyHolderIds(consumers, path) * (done + {c}) ==
      OnlyHolderIds(consumers, path) * done
        + (if (consumers[c].streams - {path}).Keys == {} then {c} else {})
  {
    var rest := (consumers[c].streams - {path}).Keys;
    assert rest == consumers[c].streams.Keys - {path};
    assert rest == {} <==> consumers[c].streams.Keys == {path};
  }

  lemma {:induction false} OnlyHoldersHold(consumers: map<string, Consumer>, path: string)
    ensures OnlyHolderIds(consumers, path) * HolderIds(consumers, path) == OnlyHolderIds(consumers, path)
  {
    forall c | c in OnlyHolderIds(consumers, path) ensures c in HolderIds(consumers, path) {
      assert path in consumers[c].streams.Keys;
    }
  }

  lemma {:induction false} SameWithout(a: map<string, Consumer>, b: map<string, Consumer>, id: string)
    requires id in a && id in b && a == b[id := a[id]]
    ensures a - {id} == b - {id}
  {
  }
}
