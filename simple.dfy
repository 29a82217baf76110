/** The first variant (simple.py): events with a type string and a free-form payload, an order
    aggregate that applies them, a global event log that hands each appended event to its
    subscribers, and an order projection subscribed to it. */
module Simple {
  import opened Wrappers

  /** The values found in event payloads: strings and integers. */
  datatype Value = Text(text: string) | Number(number: int)

  /** A payload dictionary. */
  type Data = map<string, Value>

  /** `Event`: an id, a type name, the aggregate it belongs to, a payload and an ISO timestamp. */
  datatype Event = Event(id: string, eventType: string, aggregateId: string, data: Data, timestamp: string)

  const OrderCreatedType := "OrderCreated"
  const ItemAddedType := "ItemAdded"
  const OrderConfirmedType := "OrderConfirmed"

  /** `Event.create`; the fresh UUID and the current time are passed in. */
  function CreateEvent(eventType: string, aggregateId: string, data: Data, id: string, now: string): (r: Event)
    ensures r.eventType == eventType && r.aggregateId == aggregateId && r.data == data
    ensures r.id == id && r.timestamp == now
  {
    Event(id, eventType, aggregateId, data, now)
  }

  /** The status strings "CREATED" and "CONFIRMED". */
  datatype Status = Created | Confirmed

  /** The part of an `Order` that events change. */
  datatype OrderValue = OrderValue(status: Status, items: seq<Data>)

  /** `Order.apply` on the value: unknown types change nothing. */
  function Applied(o: OrderValue, e: Event): OrderValue {
    if e.eventType == OrderCreatedType then o.(status := Created)
    else if e.eventType == ItemAddedType then o.(items := o.items + [e.data])
    else if e.eventType == OrderConfirmedType then o.(status := Confirmed)
    else o
  }

  /** The order after applying `events` in order. */
  function ApplyAll(o: OrderValue, events: seq<Event>): OrderValue
    decreases |events|
  {
    if events == [] then o else Applied(ApplyAll(o, events[..|events| - 1]), events[|events| - 1])
  }

  /** The payloads of the `ItemAdded` events among `events`, in order. */
  function AddedData(events: seq<Event>): (r: seq<Data>)
    ensures |r| <= |events|
    decreases |events|
  {
    if events == [] then []
    else if events[0].eventType == ItemAddedType then [events[0].data] + AddedData(events[1..])
    else AddedData(events[1..])
  }

  lemma {:induction false} AddedDataAppend(a: seq<Event>, b: seq<Event>)
    ensures AddedData(a + b) == AddedData(a) + AddedData(b)
    decreases |a|
  {
    if a == [] {
      assert a + b == b;
    } else {
      assert (a + b)[0] == a[0];
      assert (a + b)[1..] == a[1..] + b;
      AddedDataAppend(a[1..], b);
    }
  }

  /** An order's items are the payloads of every `ItemAdded` event applied to it, in order, after
      the ones it started with; no other event type touches them. */
  lemma {:induction false} ApplyAllItems(o: OrderValue, events: seq<Event>)
    ensures ApplyAll(o, events).items == o.items + AddedData(events)
    decreases |events|
  {
    if events != [] {
      var init := events[..|events| - 1];
      var last := events[|events| - 1];
      assert events == init + [last];
      ApplyAllItems(o, init);
      AddedDataAppend(init, [last]);
      assert [last][1..] == [];
    }
  }

  /** The status the latest `OrderCreated` or `OrderConfirmed` among `events` sets, if any. */
  function LatestStatus(start: Status, events: seq<Event>): Status
    decreases |events|
  {
    if events == [] then start
    else if events[0].eventType == OrderCreatedType || events[0].eventType == OrderConfirmedType then
      LatestStatus(if events[0].eventType == OrderCreatedType then Created else Confirmed, events[1..])
    else LatestStatus(start, events[1..])
  }

  lemma {:induction false} LatestStatusSnoc(start: Status, events: seq<Event>, e: Event)
    ensures LatestStatus(start, events + [e]) ==
              if e.eventType == OrderCreatedType then Created
              else if e.eventType == OrderConfirmedType then Confirmed
              else LatestStatus(start, events)
    decreases |events|
  {
    if events == [] {
      assert [e][1..] == [];
    } else {
      assert (events + [e])[1..] == events[1..] + [e];
      var next := if events[0].eventType == OrderCreatedType then Created
                  else if events[0].eventType == OrderConfirmedType then Confirmed
                  else start;
      LatestStatusSnoc(next, events[1..], e);
    }
  }

  /** An order's status is the one set by the latest `OrderCreated` or `OrderConfirmed` it applied. */
  lemma {:induction false} ApplyAllStatus(o: OrderValue, events: seq<Event>)
    ensures ApplyAll(o, events).status == LatestStatus(o.status, events)
    decreases |events|
  {
    if events != [] {
      var init := events[..|events| - 1];
      var last := events[|events| - 1];
      assert events == init + [last];
      ApplyAllStatus(o, init);
      LatestStatusSnoc(o.status, init, last);
    }
  }

  /** `Order.add_item`'s event: no guard, the order's id, the product and the quantity. */
  function AddItemEvent(orderId: string, productId: string, quantity: int, id: string, now: string): Event {
    CreateEvent(ItemAddedType, orderId, map["product_id" := Text(productId), "quantity" := Number(quantity)], id, now)
  }

  /** `Order.confirm`'s event: no guard, the order's id, an empty payload. */
  function ConfirmEvent(orderId: string, id: string, now: string): Event {
    CreateEvent(OrderConfirmedType, orderId, map[], id, now)
  }

  /** Applying the event `add_item` returns adds exactly that line and keeps the status; applying
      the event `confirm` returns confirms the order and keeps its items. */
  lemma CommandsApply(o: OrderValue, orderId: string, productId: string, quantity: int, id: string, now: string)
    ensures Applied(o, AddItemEvent(orderId, productId, quantity, id, now))
            == OrderValue(o.status, o.items + [map["product_id" := Text(productId), "quantity" := Number(quantity)]])
    ensures Applied(o, ConfirmEvent(orderId, id, now)) == OrderValue(Confirmed, o.items)
  {
  }

  class Order {
    var id: string
    var status: Status
    var items: seq<Data>

    /** The dataclass defaults: "CREATED" and no items. */
    constructor (id: string)
      ensures this.id == id && status == Created && items == []
    {
      this.id := id;
      status := Created;
      items := [];
    }

    function Value(): OrderValue
      reads this
    {
      OrderValue(status, items)
    }

    /** `apply`: the status for `OrderCreated` and `OrderConfirmed`, the payload appended to the
        items for `ItemAdded`, nothing for any other type. */
    method Apply(e: Event)
      modifies this`status, this`items
      ensures Value() == Applied(old(Value()), e)
    {
      if e.eventType == OrderCreatedType {
        status := Created;
      } else if e.eventType == ItemAddedType {
        items := items + [e.data];
      } else if e.eventType == OrderConfirmedType {
        status := Confirmed;
      }
    }

    /** `create`: the creation event for `orderId`, whatever order it is called on. */
    function Create(orderId: string, eventId: string, now: string): (r: Event)
      ensures r.eventType == OrderCreatedType && r.aggregateId == orderId
      ensures r.data == map["order_id" := Text(orderId)]
    {
      CreateEvent(OrderCreatedType, orderId, map["order_id" := Text(orderId)], eventId, now)
    }

    /** `add_item`: an `ItemAdded` event of this order carrying the product and the quantity. */
    function AddItem(productId: string, quantity: int, eventId: string, now: string): (r: Event)
      reads this
      ensures r.eventType == ItemAddedType && r.aggregateId == id
      ensures r.data == map["product_id" := Text(productId), "quantity" := Number(quantity)]
      ensures r.id == eventId && r.timestamp == now
    {
      AddItemEvent(id, productId, quantity, eventId, now)
    }

    /** `confirm`: an `OrderConfirmed` event of this order with an empty payload. */
    function Confirm(eventId: string, now: string): (r: Event)
      reads this
      ensures r.eventType == OrderConfirmedType && r.aggregateId == id && r.data == map[]
      ensures r.id == eventId && r.timestamp == now
    {
      ConfirmEvent(id, eventId, now)
    }
  }

  /** A projected order: `{"status": ..., "items": [...]}`. */
  datatype Entry = Entry(status: Status, items: seq<Data>)

  /** The `KeyError` raised for an order the projection has not seen created. */
  datatype KeyError = KeyError(key: string)

  /** `OrderProjection.handle` on the value: `OrderCreated` (re)starts the entry, discarding any
      earlier one; `ItemAdded` and `OrderConfirmed` need an entry and raise `KeyError` without one;
      other types change nothing. */
  function Handled(orders: map<string, Entry>, e: Event): (r: Result<map<string, Entry>, KeyError>)
    ensures r.Err? <==> (e.eventType == ItemAddedType || e.eventType == OrderConfirmedType) && e.aggregateId !in orders
    ensures r.Err? ==> r.error == KeyError(e.aggregateId)
    ensures r.Ok? ==> r.value.Keys == orders.Keys + (if e.eventType == OrderCreatedType then {e.aggregateId} else {})
    ensures r.Ok? ==> forall k :: k in orders && k != e.aggregateId ==> r.value[k] == orders[k]
  {
    var id := e.aggregateId;
    if e.eventType == OrderCreatedType then Ok(orders[id := Entry(Created, [])])
    else if e.eventType == ItemAddedType then
      if id in orders then Ok(orders[id := orders[id].(items := orders[id].items + [e.data])]) else Err(KeyError(id))
    else if e.eventType == OrderConfirmedType then
      if id in orders then Ok(orders[id := orders[id].(status := Confirmed)]) else Err(KeyError(id))
    else Ok(orders)
  }

  /** What `handle` leaves under the event's order: `OrderCreated` a fresh empty entry in place of
      any earlier one, `ItemAdded` the entry with the payload appended to its items,
      `OrderConfirmed` the entry confirmed with its items kept; any other type changes nothing. */
  lemma HandledEntry(orders: map<string, Entry>, e: Event)
    ensures e.eventType == OrderCreatedType ==> Handled(orders, e) == Ok(orders[e.aggregateId := Entry(Created, [])])
    ensures e.eventType == ItemAddedType && e.aggregateId in orders ==>
              Handled(orders, e).Ok? && Handled(orders, e).value[e.aggregateId] ==
                         Entry(orders[e.aggregateId].status, orders[e.aggregateId].items + [e.data])
    ensures e.eventType == OrderConfirmedType && e.aggregateId in orders ==>
              Handled(orders, e).Ok? && Handled(orders, e).value[e.aggregateId] == Entry(Confirmed, orders[e.aggregateId].items)
    ensures e.eventType !in {OrderCreatedType, ItemAddedType, OrderConfirmedType} ==> Handled(orders, e) == Ok(orders)
  {
  }

  /** The projection after handling `events` in order, or the first `KeyError`. */
  function HandleAll(orders: map<string, Entry>, events: seq<Event>): Result<map<string, Entry>, KeyError>
    decreases |events|
  {
    if events == [] then Ok(orders)
    else
      match HandleAll(orders, events[..|events| - 1])
      case Ok(before) => Handled(before, events[|events| - 1])
      case Err(error) => Err(error)
  }

  /** Handling one more event extends the fold by that event. */
  lemma HandleAllSnoc(orders: map<string, Entry>, events: seq<Event>, e: Event)
    ensures HandleAll(orders, events + [e]) ==
              match HandleAll(orders, events)
              case Ok(before) => Handled(before, e)
              case Err(error) => Err(error)
  {
    assert (events + [e])[..|events|] == events;
  }

  /** Events of one order that start with its creation and never re-create it: the projection's
      entry for the order then agrees with the aggregate that applied the same events. A second
      `OrderCreated` would make them differ, since the projection empties its items and the
      aggregate keeps them. */
  lemma {:induction false} ProjectionMatchesOrder(orderId: string, events: seq<Event>)
    requires events != [] && events[0].eventType == OrderCreatedType
    requires forall i :: 0 <= i < |events| ==> events[i].aggregateId == orderId
    requires forall i :: 0 < i < |events| ==> events[i].eventType != OrderCreatedType
    ensures var o := ApplyAll(OrderValue(Created, []), events);
            HandleAll(map[], events) == Ok(map[orderId := Entry(o.status, o.items)])
    decreases |events|
  {
    var init := events[..|events| - 1];
    var last := events[|events| - 1];
    assert events == init + [last];
    HandleAllSnoc(map[], init, last);
    if init == [] {
      assert HandleAll(map[], init) == Ok(map[]);
    } else {
      ProjectionMatchesOrder(orderId, init);
      var o := ApplyAll(OrderValue(Created, []), init);
      assert last.eventType != OrderCreatedType && last.aggregateId == orderId;
      assert ApplyAll(OrderValue(Created, []), events) == Applied(o, last);
      var o' := Applied(o, last);
      Overwrite(orderId, Entry(o.status, o.items), Entry(o'.status, o'.items));
    }
  }

  /** A second `OrderCreated` for the same order resets the projected entry but not the aggregate. */
  lemma RecreateDiverges(orderId: string, line: Data)
    ensures var events := [CreateEvent(OrderCreatedType, orderId, map[], "1", ""),
                           CreateEvent(ItemAddedType, orderId, line, "2", ""),
                           CreateEvent(OrderCreatedType, orderId, map[], "3", "")];
            && ApplyAll(OrderValue(Created, []), events).items == [line]
            && HandleAll(map[], events) == Ok(map[orderId := Entry(Created, [])])
  {
    var e1 := CreateEvent(OrderCreatedType, orderId, map[], "1", "");
    var e2 := CreateEvent(ItemAddedType, orderId, line, "2", "");
    var e3 := CreateEvent(OrderCreatedType, orderId, map[], "3", "");
    assert [e1, e2, e3][..2] == [e1, e2];
    assert [e1, e2][..1] == [e1];
    assert [e1][..0] == [];
    var o0 := OrderValue(Created, []);
    assert ApplyAll(o0, [e1]) == o0;
    assert ApplyAll(o0, [e1, e2]) == OrderValue(Created, [line]);
    assert ApplyAll(o0, [e1, e2, e3]) == OrderValue(Created, [line]);
    assert HandleAll(map[], [e1]) == Ok(map[orderId := Entry(Created, [])]);
    Overwrite(orderId, Entry(Created, []), Entry(Created, [line]));
    assert HandleAll(map[], [e1, e2]) == Ok(map[orderId := Entry(Created, [line])]);
    Overwrite(orderId, Entry(Created, [line]), Entry(Created, []));
  }

  /** Storing under the only key of a one-entry map replaces that entry. */
  lemma Overwrite<V>(key: string, first: V, second: V)
    ensures map[key := first][key := second] == map[key := second]
  {
  }

  class OrderProjection {
    var orders: map<string, Entry>

    constructor ()
      ensures orders == map[]
    {
      orders := map[];
    }

    /** `handle`: the `KeyError` is raised before anything is changed. */
    method Handle(e: Event) returns (r: Outcome<KeyError>)
      modifies this
      ensures Handled(old(orders), e).Ok? ==> r.Pass? && orders == Handled(old(orders), e).value
      ensures Handled(old(orders), e).Err? ==> r == Fail(Handled(old(orders), e).error) && orders == old(orders)
    {
      var id := e.aggregateId;
      if e.eventType == OrderCreatedType {
        orders := orders[id := Entry(Created, [])];
      } else if e.eventType == ItemAddedType {
        if id !in orders {
          return Fail(KeyError(id));
        }
        orders := orders[id := orders[id].(items := orders[id].items + [e.data])];
      } else if e.eventType == OrderConfirmedType {
        if id !in orders {
          return Fail(KeyError(id));
        }
        orders := orders[id := orders[id].(status := Confirmed)];
      }
      r := Pass;
    }
  }

  /** The events of `events` that belong to `aggregateId`, in log order. */
  function OfAggregate(events: seq<Event>, aggregateId: string): (r: seq<Event>)
    ensures |r| <= |events|
    ensures forall e :: e in r <==> e in events && e.aggregateId == aggregateId
    decreases |events|
  {
    if events == [] then []
    else (if events[0].aggregateId == aggregateId then [events[0]] else []) + OfAggregate(events[1..], aggregateId)
  }

  /** Appending to the log adds the new event at the end of its aggregate's events and leaves the
      other aggregates' events as they were. */
  lemma {:induction false} OfAggregateAppend(events: seq<Event>, e: Event, aggregateId: string)
    ensures OfAggregate(events + [e], aggregateId) ==
              OfAggregate(events, aggregateId) + (if e.aggregateId == aggregateId then [e] else [])
    decreases |events|
  {
    if events == [] {
      assert [e][1..] == [];
    } else {
      var head := if events[0].aggregateId == aggregateId then [events[0]] else [];
      assert (events + [e])[0] == events[0];
      assert (events + [e])[1..] == events[1..] + [e];
      assert OfAggregate(events + [e], aggregateId) == head + OfAggregate(events[1..] + [e], aggregateId);
      OfAggregateAppend(events[1..], e, aggregateId);
    }
  }

  /** The position of the first subscriber, by its state before the event, that raises on `e`;
      `|views|` when none does. */
  function FirstRejecting(views: seq<map<string, Entry>>, e: Event): (k: nat)
    ensures k <= |views|
    ensures forall i :: 0 <= i < k ==> Handled(views[i], e).Ok?
    ensures k < |views| ==> Handled(views[k], e).Err?
    decreases |views|
  {
    if views == [] || Handled(views[0], e).Err? then 0 else 1 + FirstRejecting(views[1..], e)
  }

  /** With one subscriber, delivery stops before it exactly when it raises. */
  lemma OneSubscriber(view: map<string, Entry>, e: Event)
    ensures FirstRejecting([view], e) == if Handled(view, e).Ok? then 1 else 0
  {
    assert [view][1..] == [];
  }

  /** The states of `projections`, in order. */
  ghost function OrdersOf(projections: seq<OrderProjection>): (r: seq<map<string, Entry>>)
    reads set i | 0 <= i < |projections| :: projections[i]
    ensures |r| == |projections|
    ensures forall i :: 0 <= i < |projections| ==> r[i] == projections[i].orders
    decreases |projections|
  {
    if projections == [] then []
    else OrdersOf(projections[..|projections| - 1]) + [projections[|projections| - 1].orders]
  }

  class EventStore {
    var events: seq<Event>
    /** The subscribed handlers, as the projections whose `handle` they are. */
    var subscribers: seq<OrderProjection>

    /** Each projection is subscribed at most once. */
    ghost predicate Valid()
      reads this`subscribers
    {
      forall i, j :: 0 <= i < j < |subscribers| ==> subscribers[i] != subscribers[j]
    }

    ghost function Projections(): set<OrderProjection>
      reads this`subscribers
    {
      set i | 0 <= i < |subscribers| :: subscribers[i]
    }

    /** The projections' states, in subscription order. */
    ghost function Views(): (r: seq<map<string, Entry>>)
      reads this`subscribers, Projections()
      ensures |r| == |subscribers|
      ensures forall i :: 0 <= i < |subscribers| ==> r[i] == subscribers[i].orders
    {
      OrdersOf(subscribers)
    }

    constructor ()
      ensures Valid() && events == [] && subscribers == []
    {
      events := [];
      subscribers := [];
    }

    /** `append`: the event is logged first, then handed to each subscriber in subscription order;
        a subscriber that raises stops the delivery, and the error reaches the caller with the
        event already logged and the earlier subscribers already updated. */
    method Append(e: Event) returns (r: Outcome<KeyError>)
      requires Valid()
      modifies this`events, Projections()
      ensures events == old(events) + [e]
      ensures var k := FirstRejecting(old(Views()), e);
              && (r.Fail? <==> k < |subscribers|)
              && (r.Fail? ==> r.error == KeyError(e.aggregateId))
              && (forall i :: 0 <= i < k ==> subscribers[i].orders == Handled(old(Views())[i], e).value)
              && (forall i :: k <= i < |subscribers| ==> subscribers[i].orders == old(Views())[i])
    {
      ghost var views := Views();
      ghost var k := FirstRejecting(views, e);
      events := events + [e];
      var i := 0;
      while i < |subscribers|
        invariant events == old(events) + [e]
        invariant 0 <= i <= k
        invariant forall j :: 0 <= j < i ==> subscribers[j].orders == Handled(views[j], e).value
        invariant forall j :: i <= j < |subscribers| ==> subscribers[j].orders == views[j]
      {
        var current := subscribers[i];
        assert forall j :: 0 <= j < |subscribers| && j != i ==> subscribers[j] != current;
        var handled := current.Handle(e);
        if handled.Fail? {
          return handled;
        }
        i := i + 1;
      }
      r := Pass;
    }

    /** `get_by_aggregate`. */
    function GetByAggregate(aggregateId: string): (r: seq<Event>)
      reads this
      ensures forall x :: x in r <==> x in events && x.aggregateId == aggregateId
      ensures |r| <= |events|
    {
      OfAggregate(events, aggregateId)
    }

    /** `subscribe`: the handler goes to the end of the list. */
    method Subscribe(projection: OrderProjection)
      requires Valid() && projection !in subscribers
      modifies this`subscribers
      ensures Valid() && subscribers == old(subscribers) + [projection]
    {
      subscribers := subscribers + [projection];
    }
  }

  /** The script's three events, handled one after another from an empty projection. */
  lemma ScriptFold(orderId: string, line: Data, created: Event, added: Event, confirmed: Event)
    requires created.eventType == OrderCreatedType && added.eventType == ItemAddedType
    requires confirmed.eventType == OrderConfirmedType
    requires created.aggregateId == orderId && added.aggregateId == orderId && confirmed.aggregateId == orderId
    requires added.data == line
    ensures Handled(map[], created) == Ok(map[orderId := Entry(Created, [])])
    ensures Handled(map[orderId := Entry(Created, [])], added) == Ok(map[orderId := Entry(Created, [line])])
    ensures Handled(map[orderId := Entry(Created, [line])], confirmed) == Ok(map[orderId := Entry(Confirmed, [line])])
    ensures HandleAll(map[], [created, added, confirmed]) == Ok(map[orderId := Entry(Confirmed, [line])])
  {
    assert [] + [added.data] == [line];
    Overwrite(orderId, Entry(Created, []), Entry(Created, [line]));
    Overwrite(orderId, Entry(Created, [line]), Entry(Confirmed, [line]));
    HandleAllSnoc(map[], [], created);
    HandleAllSnoc(map[], [created], added);
    HandleAllSnoc(map[], [created, added], confirmed);
    assert [] + [created] == [created];
    assert [created] + [added] == [created, added];
    assert [created, added] + [confirmed] == [created, added, confirmed];
  }

  /** `append` with `projection` as the only subscriber, when the projection holds the fold of its
      handler over the log: afterwards it still does, or the fold and the delivery both raise, the
      event logged and the projection left as it was. */
  method AppendToSoleProjection(store: EventStore, projection: OrderProjection, e: Event) returns (r: Outcome<KeyError>)
    requires store.Valid() && store.subscribers == [projection]
    requires HandleAll(map[], store.events) == Ok(projection.orders)
    modifies store`events, projection
    ensures store.Valid() && store.subscribers == [projection]
    ensures store.events == old(store.events) + [e]
    ensures r.Pass? <==> Handled(old(projection.orders), e).Ok?
    ensures r.Pass? ==> projection.orders == Handled(old(projection.orders), e).value
                        && HandleAll(map[], store.events) == Ok(projection.orders)
    ensures r.Fail? ==> projection.orders == old(projection.orders) && HandleAll(map[], store.events).Err?
  {
    OneSubscriber(projection.orders, e);
    assert store.Views() == [projection.orders];
    HandleAllSnoc(map[], store.events, e);
    r := store.Append(e);
  }

  /** The module-level script: a projection subscribed before anything is logged, then an order
      created, given two of product P123 and confirmed. Nothing raises, and the projection holds
      the fold of its handler over the log: the order confirmed with that one line. */
  method ExampleUsage(orderId: string, id1: string, id2: string, id3: string, now1: string, now2: string, now3: string)
    returns (store: EventStore, projection: OrderProjection)
    ensures |store.events| == 3 && store.subscribers == [projection]
    ensures HandleAll(map[], store.events) == Ok(projection.orders)
    ensures projection.orders ==
              map[orderId := Entry(Confirmed, [map["product_id" := Text("P123"), "quantity" := Number(2)]])]
  {
    store := new EventStore();
    projection := new OrderProjection();
    store.Subscribe(projection);
    var line := map["product_id" := Text("P123"), "quantity" := Number(2)];
    var created := CreateEvent(OrderCreatedType, orderId, map["order_id" := Text(orderId)], id1, now1);
    var added := CreateEvent(ItemAddedType, orderId, line, id2, now2);
    var confirmed := CreateEvent(OrderConfirmedType, orderId, map[], id3, now3);
    ScriptFold(orderId, line, created, added, confirmed);
    var r1 := AppendToSoleProjection(store, projection, created);
    var r2 := AppendToSoleProjection(store, projection, added);
    var r3 := AppendToSoleProjection(store, projection, confirmed);
  }
}
