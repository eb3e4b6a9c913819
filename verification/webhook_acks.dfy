/** What a consumer still has to do: everything at first, and nothing once all it holds is acknowledged at the tail. */
module WebhookAcks {
  import opened Offsets
  import opened OffsetText
  import opened WebhookIndexes
  import opened WebhookStores
  import Text

  /** The list names every stream, each last at its tail. */
  ghost predicate AtTails(streams: map<string, string>, acks: seq<(string, string)>, tail: string -> string) {
    forall p :: p in streams ==> exists i {:trigger IsLast(acks, i, p)} :: IsLast(acks, i, p) && acks[i].1 == tail(p)
  }

  /** A new consumer is behind the tail of its stream, whatever that is: the start sorts below every offset. */
  lemma {:induction false} NewConsumerBehind(x: Indexes, s: string, path: string, id: string, tail: Offset)
    ensures var c := Created(x, s, path, id).consumers[id];
      c.subscriptionId == s && c.streams.Keys == {path} && Text.Less(c.streams[path], String(tail))
  {
    StartSortsFirst(tail);
  }

  /** Once every stream is acknowledged at its tail there is no work. */
  method AcknowledgeTails(store: Store, c: ConsumerInstance, acks: seq<(string, string)>, tail: string -> string)
    returns (pending: bool)
    requires store.Valid() && AtTails(c.streams, acks, tail)
    modifies c
    ensures store.Valid() && !pending
    ensures c.streams.Keys == old(c.streams).Keys && (forall p :: p in c.streams ==> c.streams[p] == tail(p))
  {
    ghost var held := c.streams;
    store.UpdateAcks(c, acks);
    forall p | p in c.streams ensures c.streams[p] == tail(p) && !Text.Less(c.streams[p], tail(p)) {
      assert p in held && Settled(held, acks, c.streams, p);
      Text.LessIrreflexive(tail(p));
    }
    pending := store.HasPendingWork(c, tail);
  }
}
