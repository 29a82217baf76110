/** Saving and loading order aggregates through the event store (complex_e2e.py, `Repository`). */
module Repository {
  import opened Wrappers
  import opened Events
  import opened Orders
  import opened Store

  /** `save`: an empty buffer is not written at all. Otherwise the buffer is appended with the
      version the aggregate had before those events as the expected stream length, and the buffer
      is emptied only when the append succeeds; a `ConcurrencyError` leaves the buffer in place. */
  method Save(store: EventStore, order: Order) returns (r: Outcome<ConcurrencyError>)
    requires store.Valid() && order.Valid() && order.Buffered()
    modifies store`streams, store`ids, order`uncommitted
    ensures store.Valid() && order.Valid() && order.Buffered()
    ensures old(order.uncommitted) == [] ==>
              r.Pass? && store.streams == old(store.streams) && store.ids == old(store.ids)
    ensures old(order.uncommitted) != [] ==>
              var committed := order.version - |old(order.uncommitted)|;
              && (r.Fail? <==> |old(store.Stream(order.aggregateId))| != committed)
              && (r.Pass? ==> store.streams == old(store.streams)[order.aggregateId :=
                                old(store.Stream(order.aggregateId)) + old(order.uncommitted)])
    ensures old(order.uncommitted) != [] ==>
              store.ids == old(store.ids) + (if order.aggregateId in old(store.streams) then [] else [order.aggregateId])
    ensures r.Fail? ==> store.streams == old(store.streams)[order.aggregateId := old(store.Stream(order.aggregateId))]
    ensures r.Pass? ==> order.uncommitted == []
    ensures r.Fail? ==> order.uncommitted == old(order.uncommitted) && store.Stream(order.aggregateId) == old(store.Stream(order.aggregateId))
    /** The round trip the repository exists for: when the store holds exactly the committed part
        of the aggregate's history, saving succeeds and the stream becomes the whole history. */
    ensures old(store.Stream(order.aggregateId)) == order.history[..order.version - |old(order.uncommitted)|] ==>
              r.Pass? && store.Stream(order.aggregateId) == order.history
  {
    var uncommitted := order.GetUncommittedEvents();
    ghost var history := order.history;
    if uncommitted == [] {
      assert history[..|history|] == history;
      return Pass;
    }
    var committed := order.version - |uncommitted|;
    ghost var before := store.Stream(order.aggregateId);
    BufferSplit(history, uncommitted);
    // The buffer already carries the ids and versions the store assigns, so its re-stamping is void.
    BufferStamped(history, uncommitted, order.aggregateId);
    r := store.AppendEvents(order.aggregateId, uncommitted, Some(committed));
    if r.Pass? {
      AppendStampedBatch(before, order.aggregateId, uncommitted);
      order.MarkEventsAsCommitted();
    }
  }

  /** A buffer holding the most recent events of a history completes the history's older part. */
  lemma BufferSplit(history: seq<Event>, buffer: seq<Event>)
    requires |buffer| <= |history| && buffer == history[|history| - |buffer|..]
    ensures history == history[..|history| - |buffer|] + buffer
  {
  }

  /** The most recent events of a stamped history are stamped with the versions that follow the
      ones before them. */
  lemma BufferStamped(history: seq<Event>, buffer: seq<Event>, id: Id)
    requires StampedFrom(history, id, 1)
    requires |buffer| <= |history| && buffer == history[|history| - |buffer|..]
    ensures StampedFrom(buffer, id, |history| - |buffer| + 1)
  {
    var committed := |history| - |buffer|;
    forall i | 0 <= i < |buffer|
      ensures buffer[i].aggregateId == Some(id) && buffer[i].version == committed + 1 + i
    {
      assert buffer[i] == history[committed + i];
    }
  }

  /** `load`: `None` for an aggregate with no stored events; otherwise a new aggregate that has
      replayed the stream, at the stream's version, with nothing uncommitted. Replaying stamps each
      stored event with the id and version it already carries, so the stamping changes no stored
      event. The item dicts that replay shares with the stored `OrderCreated` are not modelled:
      events here are values. */
  method Load(store: EventStore, id: Id) returns (order: Order?)
    requires store.Valid()
    ensures order == null <==> store.Stream(id) == []
    ensures order != null ==>
              && fresh(order) && order.Valid() && order.Buffered()
              && order.aggregateId == id
              && order.version == |store.Stream(id)|
              && order.uncommitted == []
              && order.history == store.Stream(id)
              && order.State() == Replay(InitialState(), store.Stream(id))
  {
    var events := store.GetEvents(id, 0);
    if events == [] {
      return null;
    }
    order := new Order(id);
    var i := 0;
    while i < |events|
      invariant 0 <= i <= |events|
      invariant order.Valid() && order.aggregateId == id && fresh(order)
      invariant order.history == events[..i] && order.uncommitted == []
    {
      var stamped := order.ApplyEvent(events[i]);
      StampIdentity(events[i], id, i + 1);
      assert events[..i + 1] == events[..i] + [events[i]];
      i := i + 1;
    }
    assert events[..i] == events;
    order.MarkEventsAsCommitted();
  }

  /** Saving an aggregate into a store that holds its committed events and loading it back gives
      an aggregate in the same state, at the same version, with nothing left to commit. */
  method SaveThenLoad(store: EventStore, order: Order) returns (loaded: Order?)
    requires store.Valid() && order.Valid() && order.Buffered()
    requires store.Stream(order.aggregateId) == order.history[..order.version - |order.uncommitted|]
    requires order.history != []
    modifies store`streams, store`ids, order`uncommitted
    ensures loaded != null && loaded.State() == order.State() && loaded.version == order.version
    ensures loaded.uncommitted == [] && order.uncommitted == []
  {
    var r := Save(store, order);
    loaded := Load(store, order.aggregateId);
  }
}
