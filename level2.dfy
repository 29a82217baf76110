/** The second variant (level2.py): an order aggregate rebuilt from frozen events, commands that
    only return the event they would raise, and a store that checks the stream length and the
    version of every appended event. */
module Level2 {
  import opened Wrappers

  /** The events of this variant. Every event carries the aggregate id and its version; `Unhandled`
      stands for any other event class, which `_apply` has no handler for. */
  datatype Event =
    | OrderCreated(aggregateId: string, version: int, customerName: string, timestamp: nat)
    | ItemAddedToOrder(aggregateId: string, version: int, itemName: string, quantity: int, timestamp: nat)
    | OrderShipped(aggregateId: string, version: int, timestamp: nat)
    | Unhandled(aggregateId: string, version: int, timestamp: nat)

  /** The status strings "PENDING", "CREATED" and "SHIPPED". */
  datatype Status = Pending | Created | Shipped

  /** The `ValueError` and `TypeError` the aggregate and the store raise, with their messages. */
  datatype Error = ValueError(message: string) | TypeError(message: string)

  const EmptyStream := ValueError("Cannot build aggregate from an empty event stream.")
  const NotCreatedFirst := TypeError("First event must be an OrderCreated event.")
  const AlreadyExists := ValueError("Order already exists.")
  const AddToShipped := ValueError("Cannot add items to a shipped order.")
  const AlreadyShipped := ValueError("Order is already shipped.")
  const NoItems := ValueError("Cannot ship an order with no items.")
  const VersionMismatch := ValueError("Optimistic concurrency conflict! Version mismatch.")
  const OutOfSequence := ValueError("Event version does not follow the sequence.")

  /** Everything of an aggregate that events change: all its fields but the id. */
  datatype AggregateState = AggregateState(version: int, customerName: string, status: Status, items: map<string, int>)

  /** The state `__init__` gives a new aggregate. */
  function Initial(): AggregateState {
    AggregateState(0, "", Pending, map[])
  }

  /** `items.get(name, 0)`. */
  function Quantity(items: map<string, int>, name: string): int {
    if name in items then items[name] else 0
  }

  /** `_apply` on the state: the handler of the event's class, if any, then the event's version. */
  function Evolve(s: AggregateState, e: Event): (r: AggregateState)
    ensures r.version == e.version
    ensures e.Unhandled? ==> r == s.(version := e.version)
  {
    match e
    case OrderCreated(_, version, customerName, _) =>
      s.(customerName := customerName, status := Created, version := version)
    case ItemAddedToOrder(_, version, itemName, quantity, _) =>
      s.(items := s.items[itemName := Quantity(s.items, itemName) + quantity], version := version)
    case OrderShipped(_, version, _) =>
      s.(status := Shipped, version := version)
    case Unhandled(_, version, _) =>
      s.(version := version)
  }

  /** The state after applying `events` in order. */
  function Replay(s: AggregateState, events: seq<Event>): AggregateState
    decreases |events|
  {
    if events == [] then s else Replay(Evolve(s, events[0]), events[1..])
  }

  lemma {:induction false} ReplaySnoc(s: AggregateState, events: seq<Event>, e: Event)
    ensures Replay(s, events + [e]) == Evolve(Replay(s, events), e)
    decreases |events|
  {
    if events == [] {
      assert [e][1..] == [];
    } else {
      assert (events + [e])[1..] == events[1..] + [e];
      ReplaySnoc(Evolve(s, events[0]), events[1..], e);
    }
  }

  /** After a non-empty replay the version is the last event's version, whatever came before. */
  lemma {:induction false} ReplayVersion(s: AggregateState, events: seq<Event>)
    requires events != []
    ensures Replay(s, events).version == events[|events| - 1].version
    decreases |events|
  {
    if |events| > 1 {
      ReplayVersion(Evolve(s, events[0]), events[1..]);
    }
  }

  /** The total quantity of `name` added by `events`. */
  function Added(events: seq<Event>, name: string): int
    decreases |events|
  {
    if events == [] then 0
    else Added(events[..|events| - 1], name)
         + (var e := events[|events| - 1]; if e.ItemAddedToOrder? && e.itemName == name then e.quantity else 0)
  }

  /** Item quantities accumulate: after a replay, each item's quantity is what it was plus every
      quantity added for it. */
  lemma {:induction false} ReplayQuantity(s: AggregateState, events: seq<Event>, name: string)
    ensures Quantity(Replay(s, events).items, name) == Quantity(s.items, name) + Added(events, name)
    decreases |events|
  {
    if events != [] {
      var init := events[..|events| - 1];
      var last := events[|events| - 1];
      assert events == init + [last];
      ReplaySnoc(s, init, last);
      ReplayQuantity(s, init, name);
    }
  }

  /** The status the latest `OrderCreated` or `OrderShipped` of `events` sets, if there is one. */
  function LatestStatus(start: Status, events: seq<Event>): Status
    decreases |events|
  {
    if events == [] then start
    else
      var e := events[|events| - 1];
      if e.OrderCreated? then Created
      else if e.OrderShipped? then Shipped
      else LatestStatus(start, events[..|events| - 1])
  }

  /** After a replay, the status is the one set by the latest status event, or the starting one. */
  lemma {:induction false} ReplayStatus(s: AggregateState, events: seq<Event>)
    ensures Replay(s, events).status == LatestStatus(s.status, events)
    decreases |events|
  {
    if events != [] {
      var init := events[..|events| - 1];
      var last := events[|events| - 1];
      assert events == init + [last];
      ReplaySnoc(s, init, last);
      ReplayStatus(s, init);
    }
  }

  /** `create_order`: only a version-0 aggregate may be created; the event carries the next version. */
  function CreateOrderOn(id: string, s: AggregateState, customerName: string, now: nat): (r: Result<Event, Error>)
    ensures r.Err? <==> s.version != 0
    ensures r.Err? ==> r.error == AlreadyExists
    ensures r.Ok? ==> r.value == OrderCreated(id, s.version + 1, customerName, now)
  {
    if s.version != 0 then Err(AlreadyExists)
    else Ok(OrderCreated(id, s.version + 1, customerName, now))
  }

  /** `add_item`: refused once shipped. */
  function AddItemOn(id: string, s: AggregateState, itemName: string, quantity: int, now: nat): (r: Result<Event, Error>)
    ensures r.Err? <==> s.status == Shipped
    ensures r.Err? ==> r.error == AddToShipped
    ensures r.Ok? ==> r.value == ItemAddedToOrder(id, s.version + 1, itemName, quantity, now)
  {
    if s.status == Shipped then Err(AddToShipped)
    else Ok(ItemAddedToOrder(id, s.version + 1, itemName, quantity, now))
  }

  /** `ship_order`: refused once shipped, and refused for an order without items. */
  function ShipOrderOn(id: string, s: AggregateState, now: nat): (r: Result<Event, Error>)
    ensures r.Err? <==> s.status == Shipped || s.items == map[]
    ensures s.status == Shipped ==> r == Err(AlreadyShipped)
    ensures s.status != Shipped && s.items == map[] ==> r == Err(NoItems)
    ensures r.Ok? ==> r.value == OrderShipped(id, s.version + 1, now)
  {
    if s.status == Shipped then Err(AlreadyShipped)
    else if s.items == map[] then Err(NoItems)
    else Ok(OrderShipped(id, s.version + 1, now))
  }

  /** Applying the event of an accepted command moves the aggregate to exactly the next version,
      so the same command cannot be accepted twice in a row for `create_order` and `ship_order`,
      and nothing can be added once the order has shipped. */
  lemma CommandsAdvanceOneVersion(id: string, s: AggregateState, name: string, quantity: int, now: nat, later: nat)
    ensures CreateOrderOn(id, s, name, now).Ok? ==>
              var s' := Evolve(s, CreateOrderOn(id, s, name, now).value);
              s'.version == s.version + 1 && s'.status == Created && CreateOrderOn(id, s', name, later).Err?
    ensures AddItemOn(id, s, name, quantity, now).Ok? ==>
              var s' := Evolve(s, AddItemOn(id, s, name, quantity, now).value);
              s'.version == s.version + 1 && Quantity(s'.items, name) == Quantity(s.items, name) + quantity
    ensures ShipOrderOn(id, s, now).Ok? ==>
              var s' := Evolve(s, ShipOrderOn(id, s, now).value);
              && s'.version == s.version + 1 && s'.status == Shipped
              && ShipOrderOn(id, s', later) == Err(AlreadyShipped)
              && AddItemOn(id, s', name, quantity, later) == Err(AddToShipped)
  {
  }

  class OrderAggregate {
    var id: string
    var version: int
    var customerName: string
    var status: Status
    var items: map<string, int>

    function State(): AggregateState
      reads this
    {
      AggregateState(version, customerName, status, items)
    }

    constructor (orderId: string)
      ensures id == orderId && State() == Initial()
    {
      id := orderId;
      version := 0;
      customerName := "";
      status := Pending;
      items := map[];
    }

    /** `_apply`: the handler for the event's class, if it has one, then `version := event.version`. */
    method Apply(e: Event)
      modifies this`version, this`customerName, this`status, this`items
      ensures State() == Evolve(old(State()), e)
    {
      match e {
        case OrderCreated(_, _, _, _) =>
          HandleOrderCreated(e);
        case ItemAddedToOrder(_, _, _, _, _) =>
          HandleItemAdded(e);
        case OrderShipped(_, _, _) =>
          HandleOrderShipped();
        case Unhandled(_, _, _) =>
      }
      version := e.version;
    }

    method HandleOrderCreated(e: Event)
      requires e.OrderCreated?
      modifies this`customerName, this`status
      ensures customerName == e.customerName && status == Created
    {
      customerName := e.customerName;
      status := Created;
    }

    /** Adds the quantity to what the item already had, 0 for a new item. */
    method HandleItemAdded(e: Event)
      requires e.ItemAddedToOrder?
      modifies this`items
      ensures items == old(items)[e.itemName := Quantity(old(items), e.itemName) + e.quantity]
    {
      items := items[e.itemName := Quantity(items, e.itemName) + e.quantity];
    }

    method HandleOrderShipped()
      modifies this`status
      ensures status == Shipped
    {
      status := Shipped;
    }

    /** `from_events`: refuses an empty list and a list that does not start with `OrderCreated`;
        otherwise a new aggregate with the first event's id that has applied every event in order.
        The other events' aggregate ids are not checked. */
    static method FromEvents(events: seq<Event>) returns (r: Result<OrderAggregate, Error>)
      ensures events == [] ==> r == Err(EmptyStream)
      ensures events != [] && !events[0].OrderCreated? ==> r == Err(NotCreatedFirst)
      ensures r.Ok? <==> events != [] && events[0].OrderCreated?
      ensures r.Ok? ==> fresh(r.value) && r.value.id == events[0].aggregateId
                        && r.value.State() == Replay(Initial(), events)
    {
      if events == [] {
        return Err(EmptyStream);
      }
      if !events[0].OrderCreated? {
        return Err(NotCreatedFirst);
      }
      var aggregate := new OrderAggregate(events[0].aggregateId);
      var i := 0;
      while i < |events|
        invariant 0 <= i <= |events|
        invariant aggregate.id == events[0].aggregateId
        invariant aggregate.State() == Replay(Initial(), events[..i])
      {
        ReplaySnoc(Initial(), events[..i], events[i]);
        aggregate.Apply(events[i]);
        assert events[..i + 1] == events[..i] + [events[i]];
        i := i + 1;
      }
      assert events[..i] == events;
      r := Ok(aggregate);
    }

    function CreateOrder(customerName: string, now: nat): Result<Event, Error>
      reads this
    {
      CreateOrderOn(id, State(), customerName, now)
    }

    function AddItem(itemName: string, quantity: int, now: nat): Result<Event, Error>
      reads this
    {
      AddItemOn(id, State(), itemName, quantity, now)
    }

    function ShipOrder(now: nat): Result<Event, Error>
      reads this
    {
      ShipOrderOn(id, State(), now)
    }
  }

  /** Each event sits at the position its version names: `stream[i].version == i + 1`. */
  ghost predicate InSequence(stream: seq<Event>) {
    forall i :: 0 <= i < |stream| ==> stream[i].version == i + 1
  }

  /** How many events at the head of `batch` carry the versions `current + 1`, `current + 2`, ...:
      the events the append loop stores before it meets one out of sequence. */
  function Accepted(batch: seq<Event>, current: int): (k: nat)
    ensures k <= |batch|
    ensures forall i :: 0 <= i < k ==> batch[i].version == current + i + 1
    ensures k < |batch| ==> batch[k].version != current + k + 1
    decreases |batch|
  {
    if batch == [] || batch[0].version != current + 1 then 0
    else 1 + Accepted(batch[1..], current + 1)
  }

  /** The store keeps the events it accepted, but an append is not atomic: when the second event
      of a batch is out of sequence, the first one stays stored. */
  lemma PartialBatchStays(id: string, now: nat)
    ensures var batch := [Unhandled(id, 1, now), Unhandled(id, 3, now)];
            Accepted(batch, 0) == 1 && batch[..Accepted(batch, 0)] == [batch[0]]
  {
    var batch := [Unhandled(id, 1, now), Unhandled(id, 3, now)];
    assert batch[1..][0].version == 3;
  }

  /** Replaying a stored stream gives the aggregate the stream's length as version, so the event
      of any command it accepts carries exactly the version the store accepts next when the
      caller passes `expected_version = len(events)`. */
  lemma StoredVersion(stream: seq<Event>)
    requires InSequence(stream) && stream != []
    ensures Replay(Initial(), stream).version == |stream|
  {
    ReplayVersion(Initial(), stream);
    assert stream[|stream| - 1].version == |stream|;
  }

  /** A single event with the next version is accepted whole. */
  lemma OneAccepted(e: Event, current: int)
    requires e.version == current + 1
    ensures Accepted([e], current) == 1 && [e][..1] == [e]
  {
    assert [e][1..] == [];
  }

  /** Storing the next event of a batch extends the stream by it, and keeps it in sequence when
      the event carries the next version. */
  lemma StoreNext(before: seq<Event>, batch: seq<Event>, i: nat)
    requires i < |batch|
    requires InSequence(before + batch[..i]) && batch[i].version == |before| + i + 1
    ensures before + batch[..i + 1] == (before + batch[..i]) + [batch[i]]
    ensures InSequence(before + batch[..i + 1])
  {
    assert batch[..i + 1] == batch[..i] + [batch[i]];
  }

  /** Every stream stays in sequence when one of them is replaced by a stream in sequence. */
  lemma AllInSequence(events: map<string, seq<Event>>, id: string, stream: seq<Event>)
    requires forall k :: k in events ==> InSequence(events[k])
    requires InSequence(stream)
    ensures var updated := events[id := stream]; forall k :: k in updated ==> InSequence(updated[k])
  {
  }

  class EventStore {
    var events: map<string, seq<Event>>

    ghost predicate Valid()
      reads this
    {
      forall id :: id in events ==> InSequence(events[id])
    }

    constructor ()
      ensures Valid() && events == map[]
    {
      events := map[];
    }

    /** The stream of `id`; an id never appended to has none. */
    function Stream(id: string): seq<Event>
      reads this
    {
      if id in events then events[id] else []
    }

    /** `append_events`. The entry for `aggregateId` is created first, so it exists even after a
        rejected append. A stream length other than `expectedVersion` stores nothing; otherwise
        the events are stored one at a time until one is out of sequence, and those stored before
        it stay stored. */
    method AppendEvents(aggregateId: string, batch: seq<Event>, expectedVersion: int) returns (r: Outcome<Error>)
      requires Valid()
      modifies this
      ensures Valid()
      ensures aggregateId in events
      ensures |old(Stream(aggregateId))| != expectedVersion ==>
                r == Fail(VersionMismatch) && events == old(events)[aggregateId := old(Stream(aggregateId))]
      ensures |old(Stream(aggregateId))| == expectedVersion ==>
                var k := Accepted(batch, expectedVersion);
                && events == old(events)[aggregateId := old(Stream(aggregateId)) + batch[..k]]
                && (r.Fail? <==> k < |batch|)
                && (r.Fail? ==> r.error == OutOfSequence)
    {
      if aggregateId !in events {
        events := events[aggregateId := []];
      }
      assert events == old(events)[aggregateId := old(Stream(aggregateId))];
      var currentVersion := |events[aggregateId]|;
      if currentVersion != expectedVersion {
        return Fail(VersionMismatch);
      }
      // The list stored under `aggregateId` grows in place; `stream` is that list.
      var stream := events[aggregateId];
      ghost var before := stream;
      ghost var entered := events;
      assert batch[..0] == [] && before + [] == before;
      var i := 0;
      while i < |batch|
        invariant events == entered
        invariant 0 <= i <= Accepted(batch, expectedVersion)
        invariant currentVersion == expectedVersion + i
        invariant stream == before + batch[..i] && InSequence(stream)
      {
        if batch[i].version != currentVersion + 1 {
          assert i == Accepted(batch, expectedVersion);
          AllInSequence(events, aggregateId, stream);
          events := events[aggregateId := stream];
          return Fail(OutOfSequence);
        }
        currentVersion := currentVersion + 1;
        StoreNext(before, batch, i);
        stream := stream + [batch[i]];
        i := i + 1;
      }
      assert batch[..i] == batch;
      AllInSequence(events, aggregateId, stream);
      events := events[aggregateId := stream];
      r := Pass;
    }

    /** `get_events_for_aggregate`: `[]` for an unknown id; every event at the position its version names. */
    function GetEventsForAggregate(id: string): (r: seq<Event>)
      reads this
      ensures id !in events ==> r == []
      ensures Valid() ==> InSequence(r)
    {
      Stream(id)
    }
  }

  /** The states the aggregate of `main` is rebuilt into: after the creation, after each item and
      after shipping. */
  lemma LifecycleStates(orderId: string, t1: nat, t2: nat, t3: nat, t4: nat)
    ensures var e1 := OrderCreated(orderId, 1, "Alice", t1);
            var e2 := ItemAddedToOrder(orderId, 2, "T-shirt", 2, t2);
            var e3 := ItemAddedToOrder(orderId, 3, "Jeans", 1, t3);
            var e4 := OrderShipped(orderId, 4, t4);
            && Replay(Initial(), [e1]) == AggregateState(1, "Alice", Created, map[])
            && Replay(Initial(), [e1, e2]) == AggregateState(2, "Alice", Created, map["T-shirt" := 2])
            && Replay(Initial(), [e1, e2, e3]) == AggregateState(3, "Alice", Created, map["T-shirt" := 2, "Jeans" := 1])
            && Replay(Initial(), [e1, e2, e3, e4]) == AggregateState(4, "Alice", Shipped, map["T-shirt" := 2, "Jeans" := 1])
  {
    var e1 := OrderCreated(orderId, 1, "Alice", t1);
    var e2 := ItemAddedToOrder(orderId, 2, "T-shirt", 2, t2);
    var e3 := ItemAddedToOrder(orderId, 3, "Jeans", 1, t3);
    var e4 := OrderShipped(orderId, 4, t4);
    ReplaySnoc(Initial(), [], e1);
    assert [] + [e1] == [e1];
    ReplaySnoc(Initial(), [e1], e2);
    assert [e1] + [e2] == [e1, e2];
    ReplaySnoc(Initial(), [e1, e2], e3);
    assert [e1, e2] + [e3] == [e1, e2, e3];
    ReplaySnoc(Initial(), [e1, e2, e3], e4);
    assert [e1, e2, e3] + [e4] == [e1, e2, e3, e4];
  }

  /** The step `main` repeats before every command: read the aggregate's stream and rebuild the
      aggregate from it. */
  method Rebuild(store: EventStore, orderId: string) returns (events: seq<Event>, aggregate: OrderAggregate)
    requires store.Valid() && store.Stream(orderId) != [] && store.Stream(orderId)[0].OrderCreated?
    ensures events == store.Stream(orderId)
    ensures fresh(aggregate) && aggregate.id == events[0].aggregateId
    ensures aggregate.State() == Replay(Initial(), events)
  {
    events := store.GetEventsForAggregate(orderId);
    var loaded := OrderAggregate.FromEvents(events);
    aggregate := loaded.value;
  }

  /** The commands `main` issues on a rebuilt aggregate. */
  datatype Command = AddItemCommand(itemName: string, quantity: int) | ShipCommand

  function Issue(id: string, s: AggregateState, command: Command, now: nat): Result<Event, Error> {
    match command
    case AddItemCommand(itemName, quantity) => AddItemOn(id, s, itemName, quantity, now)
    case ShipCommand => ShipOrderOn(id, s, now)
  }

  /** One round of `main` after the creation: rebuild the aggregate from its stream, issue a
      command on it and append the event with the stream length as expected version. A command the
      aggregate accepts is always stored, because its version follows the stream. */
  method Round(store: EventStore, orderId: string, command: Command, now: nat) returns (e: Event)
    requires store.Valid() && store.Stream(orderId) != [] && store.Stream(orderId)[0].OrderCreated?
    requires Issue(store.Stream(orderId)[0].aggregateId, Replay(Initial(), store.Stream(orderId)), command, now).Ok?
    modifies store
    ensures store.Valid()
    ensures e == Issue(old(store.Stream(orderId))[0].aggregateId, Replay(Initial(), old(store.Stream(orderId))), command, now).value
    ensures store.Stream(orderId) == old(store.Stream(orderId)) + [e]
  {
    var events, order := Rebuild(store, orderId);
    match command {
      case AddItemCommand(itemName, quantity) =>
        e := order.AddItem(itemName, quantity, now).value;
      case ShipCommand =>
        e := order.ShipOrder(now).value;
    }
    StoredVersion(events);
    OneAccepted(e, |events|);
    var appended := store.AppendEvents(orderId, [e], |events|);
  }

  /** The flow of `main`: create an order for Alice, add two T-shirts, add one pair of jeans and
      ship it, each time rebuilding the aggregate from the store and appending with the stream
      length as expected version. No step raises, and the rebuilt order is at version 4, shipped,
      with both items. */
  method Lifecycle(orderId: string, t1: nat, t2: nat, t3: nat, t4: nat) returns (final: OrderAggregate)
    ensures final.id == orderId && final.version == 4 && final.customerName == "Alice"
    ensures final.status == Shipped && final.items == map["T-shirt" := 2, "Jeans" := 1]
  {
    LifecycleStates(orderId, t1, t2, t3, t4);
    var store := new EventStore();
    var toCreate := new OrderAggregate(orderId);
    var e1 := toCreate.CreateOrder("Alice", t1).value;
    OneAccepted(e1, 0);
    var appended := store.AppendEvents(orderId, [e1], 0);
    assert store.Stream(orderId) == [e1];
    var e2 := Round(store, orderId, AddItemCommand("T-shirt", 2), t2);
    assert store.Stream(orderId) == [e1, e2];
    var e3 := Round(store, orderId, AddItemCommand("Jeans", 1), t3);
    assert store.Stream(orderId) == [e1, e2, e3];
    var e4 := Round(store, orderId, ShipCommand, t4);
    assert store.Stream(orderId) == [e1, e2, e3, e4];
    var events;
    events, final := Rebuild(store, orderId);
  }
}
