/** The read models of the full variant (complex_e2e.py): order summaries, inventory reservations
    and customer order history. Each is a class whose `HandleEvent` updates its dictionaries in
    place; each is specified by a step function on the dictionaries' values, and the properties are
    proved about those functions and their folds. */
module ReadModels {
  import opened Wrappers
  import opened Events
  import opened Orders
  import opened Timeline

  /** Applies `step` to each event in turn. */
  function FoldEvents<S>(s: S, events: seq<Event>, step: (S, Event) -> S): (r: S)
    ensures events == [] ==> r == s
    decreases |events|
  {
    if events == [] then s else FoldEvents(step(s, events[0]), events[1..], step)
  }

  /** Folding over two runs of events is folding over the first, then over the second. */
  lemma {:induction false} FoldAppend<S>(s: S, a: seq<Event>, b: seq<Event>, step: (S, Event) -> S)
    ensures FoldEvents(s, a + b, step) == FoldEvents(FoldEvents(s, a, step), b, step)
    decreases |a|
  {
    if a == [] {
      assert a + b == b;
    } else {
      assert (a + b)[0] == a[0];
      assert (a + b)[1..] == a[1..] + b;
      FoldAppend(step(s, a[0]), a[1..], b, step);
    }
  }

  /** The keys of a Python dict in the order they were first inserted. */
  ghost predicate KeyOrder<K, V>(m: map<K, V>, keys: seq<K>) {
    && (forall i :: 0 <= i < |keys| ==> keys[i] in m)
    && (forall k :: k in m ==> k in keys)
    && (forall i, j :: 0 <= i < j < |keys| ==> keys[i] != keys[j])
  }

  /** Records `k` as inserted: a key already present keeps its position. */
  function Touch<K>(keys: seq<K>, present: bool, k: K): seq<K> {
    if present then keys else keys + [k]
  }

  lemma TouchKeeps<K, V>(m: map<K, V>, keys: seq<K>, k: K, v: V)
    ensures KeyOrder(m, keys) ==> KeyOrder(m[k := v], Touch(keys, k in m, k))
  {
    if !KeyOrder(m, keys) {
      return;
    }
    var keys' := Touch(keys, k in m, k);
    forall i, j | 0 <= i < j < |keys'| ensures keys'[i] != keys'[j] {
      if j == |keys| {
        assert keys'[i] == keys[i] && keys[i] in m;
      }
    }
  }

  // ---------------------------------------------------------------------------------------------
  // OrderSummaryReadModel

  /** One entry of `OrderSummaryReadModel.orders`. The keys that only a later event adds to the
      entry are `None` until that event arrives. */
  datatype OrderSummary = OrderSummary(
    orderId: Option<Id>, customerId: Option<Id>, status: OrderStatus, totalAmount: int,
    currency: string, createdAt: Timestamp, itemCount: nat, lastUpdated: Timestamp,
    paymentMethod: Option<string>, trackingNumber: Option<string>, carrier: Option<string>,
    shippedAt: Option<Timestamp>, cancelledAt: Option<Timestamp>, cancelReason: Option<string>)

  datatype Summaries = Summaries(orders: map<Option<Id>, OrderSummary>, keys: seq<Option<Id>>)

  /** `OrderSummaryReadModel.handle_event`. `OrderCreated` replaces the entry of its aggregate
      outright; every other event updates an existing entry and is ignored for an unknown order. */
  function SummaryStep(s: Summaries, e: Event): (r: Summaries)
    ensures KeyOrder(s.orders, s.keys) ==> KeyOrder(r.orders, r.keys)
    ensures r.orders.Keys == s.orders.Keys + (if e.payload.OrderCreated? then {e.aggregateId} else {})
    ensures forall k :: k in s.orders && k != e.aggregateId ==> r.orders[k] == s.orders[k]
    ensures e.aggregateId !in s.orders && !e.payload.OrderCreated? ==> r == s
    ensures e.payload.OrderCreated? ==> r.keys == Touch(s.keys, e.aggregateId in s.orders, e.aggregateId)
    ensures !e.payload.OrderCreated? ==> r.keys == s.keys
    ensures e.aggregateId in r.orders ==>
              r.orders[e.aggregateId].lastUpdated == e.timestamp &&
              r.orders[e.aggregateId].orderId == (if e.payload.OrderCreated? then e.aggregateId else s.orders[e.aggregateId].orderId)
    ensures e.payload.OrderCreated? ==>
              var entry := r.orders[e.aggregateId];
              && entry.status == Pending && entry.customerId == e.payload.customerId
              && entry.itemCount == |e.payload.items| && entry.createdAt == e.timestamp
              && entry.paymentMethod.None? && entry.trackingNumber.None? && entry.cancelReason.None?
  {
    var id := e.aggregateId;
    match e.payload
    case OrderCreated(customerId, items, totalAmount, currency) =>
      TouchKeeps(s.orders, s.keys, id, SummaryOfCreated(e));
      Summaries(s.orders[id := SummaryOfCreated(e)], Touch(s.keys, id in s.orders, id))
    case PaymentProcessed(paymentMethod, _, _) =>
      if id !in s.orders then s else
      Summaries(s.orders[id := s.orders[id].(status := Confirmed, paymentMethod := Some(paymentMethod),
                                              lastUpdated := e.timestamp)], s.keys)
    case OrderShipped(_, trackingNumber, carrier) =>
      if id !in s.orders then s else
      Summaries(s.orders[id := s.orders[id].(status := Shipped, trackingNumber := Some(trackingNumber),
                                              carrier := Some(carrier), shippedAt := Some(e.timestamp),
                                              lastUpdated := e.timestamp)], s.keys)
    case OrderCancelled(reason, _) =>
      if id !in s.orders then s else
      Summaries(s.orders[id := s.orders[id].(status := Cancelled, cancelledAt := Some(e.timestamp),
                                              cancelReason := Some(reason), lastUpdated := e.timestamp)], s.keys)
    case _ =>
      if id !in s.orders then s else
      Summaries(s.orders[id := s.orders[id].(lastUpdated := e.timestamp)], s.keys)
  }

  /** The entry an `OrderCreated` event writes. */
  function SummaryOfCreated(e: Event): (entry: OrderSummary)
    requires e.payload.OrderCreated?
    ensures entry.orderId == e.aggregateId && entry.status == Pending && entry.lastUpdated == e.timestamp
  {
    OrderSummary(e.aggregateId, e.payload.customerId, Pending, e.payload.totalAmount, e.payload.currency,
                 e.timestamp, |e.payload.items|, e.timestamp, None, None, None, None, None, None)
  }

  /** What each later event writes into a known order's entry: a payment confirms it and records
      the method, a shipment records tracking number, carrier and time, a cancellation records
      time and reason, an item change only the time. */
  lemma SummaryStepUpdates(s: Summaries, e: Event)
    requires e.aggregateId in s.orders && !e.payload.OrderCreated?
    ensures var before := s.orders[e.aggregateId];
            var after := SummaryStep(s, e).orders[e.aggregateId];
            var ts := e.timestamp;
            match e.payload
            case PaymentProcessed(paymentMethod, _, _) =>
              after == before.(status := Confirmed, paymentMethod := Some(paymentMethod), lastUpdated := ts)
            case OrderShipped(_, trackingNumber, carrier) =>
              after == before.(status := Shipped, trackingNumber := Some(trackingNumber), carrier := Some(carrier),
                               shippedAt := Some(ts), lastUpdated := ts)
            case OrderCancelled(reason, _) =>
              after == before.(status := Cancelled, cancelledAt := Some(ts), cancelReason := Some(reason),
                               lastUpdated := ts)
            case _ => after == before.(lastUpdated := ts)
  {
  }

  function OfAggregate(id: Id): Event -> bool {
    (e: Event) => e.aggregateId == Some(id)
  }

  /** The summary's status follows the aggregate's own status: once an order has an entry, the
      entry's status after any run of events is the status the aggregate reaches by replaying that
      run's events of its own, whatever other orders' events are interleaved. */
  lemma {:induction false} SummaryTracksOrder(s: Summaries, st: OrderState, events: seq<Event>, id: Id)
    requires Some(id) in s.orders && s.orders[Some(id)].status == st.status
    ensures var r := FoldEvents(s, events, SummaryStep);
            Some(id) in r.orders && r.orders[Some(id)].status == Replay(st, Filter(events, OfAggregate(id))).status
    decreases |events|
  {
    if events != [] {
      var e, rest := events[0], events[1..];
      assert events == [e] + rest;
      FilterCons(e, rest, OfAggregate(id));
      var s' := SummaryStep(s, e);
      if e.aggregateId == Some(id) {
        HandleStatus(st, e);
        SummaryTracksOrder(s', Handle(st, e), rest, id);
        assert Filter(events, OfAggregate(id)) == [e] + Filter(rest, OfAggregate(id));
        assert ([e] + Filter(rest, OfAggregate(id)))[1..] == Filter(rest, OfAggregate(id));
      } else {
        SummaryTracksOrder(s', st, rest, id);
      }
    }
  }

  /** The entries of `orders`, taken in the order of `keys`, that satisfy `keep`. */
  function Select(keys: seq<Option<Id>>, orders: map<Option<Id>, OrderSummary>, keep: OrderSummary -> bool)
    : (r: seq<OrderSummary>)
    requires forall i :: 0 <= i < |keys| ==> keys[i] in orders
    ensures |r| <= |keys|
    ensures forall x :: x in r ==> keep(x) && exists i :: 0 <= i < |keys| && orders[keys[i]] == x
    ensures forall i :: 0 <= i < |keys| && keep(orders[keys[i]]) ==> orders[keys[i]] in r
    decreases |keys|
  {
    if keys == [] then []
    else
      var rest := Select(keys[1..], orders, keep);
      assert forall i :: 1 <= i < |keys| ==> keys[i] == keys[1..][i - 1];
      if keep(orders[keys[0]]) then [orders[keys[0]]] + rest else rest
  }

  /** The selection follows the dict's insertion order: a key created later contributes its entry
      after those of every earlier key. */
  lemma {:induction false} SelectSnoc(keys: seq<Option<Id>>, k: Option<Id>, orders: map<Option<Id>, OrderSummary>,
                                      keep: OrderSummary -> bool)
    requires forall i :: 0 <= i < |keys| ==> keys[i] in orders
    requires k in orders
    ensures Select(keys + [k], orders, keep) ==
              Select(keys, orders, keep) + (if keep(orders[k]) then [orders[k]] else [])
    decreases |keys|
  {
    if keys == [] {
      assert keys + [k] == [k];
    } else {
      assert (keys + [k])[1..] == keys[1..] + [k];
      SelectSnoc(keys[1..], k, orders, keep);
    }
  }

  class OrderSummaryReadModel {
    var orders: map<Option<Id>, OrderSummary>
    var keys: seq<Option<Id>>

    function View(): Summaries
      reads this
    {
      Summaries(orders, keys)
    }

    ghost predicate Valid()
      reads this
    {
      KeyOrder(orders, keys)
    }

    constructor ()
      ensures Valid() && orders == map[] && keys == []
    {
      orders := map[];
      keys := [];
    }

    /** `handle_event`, one dictionary update per event class. */
    method HandleEvent(e: Event)
      modifies this
      ensures View() == SummaryStep(old(View()), e)
    {
      var id := e.aggregateId;
      match e.payload {
        case OrderCreated(_, _, _, _) =>
          if id !in orders {
            keys := keys + [id];
          }
          orders := orders[id := SummaryOfCreated(e)];
        case PaymentProcessed(paymentMethod, _, _) =>
          if id in orders {
            orders := orders[id := orders[id].(status := Confirmed, paymentMethod := Some(paymentMethod),
                                               lastUpdated := e.timestamp)];
          }
        case OrderShipped(_, trackingNumber, carrier) =>
          if id in orders {
            orders := orders[id := orders[id].(status := Shipped, trackingNumber := Some(trackingNumber),
                                               carrier := Some(carrier), shippedAt := Some(e.timestamp),
                                               lastUpdated := e.timestamp)];
          }
        case OrderCancelled(reason, _) =>
          if id in orders {
            orders := orders[id := orders[id].(status := Cancelled, cancelledAt := Some(e.timestamp),
                                               cancelReason := Some(reason), lastUpdated := e.timestamp)];
          }
        case OrderItemAdded(_, _, _, _) =>
          if id in orders {
            orders := orders[id := orders[id].(lastUpdated := e.timestamp)];
          }
        case OrderItemRemoved(_, _) =>
          if id in orders {
            orders := orders[id := orders[id].(lastUpdated := e.timestamp)];
          }
      }
    }

    /** `get_order_summary`. */
    function GetOrderSummary(orderId: Id): (r: Option<OrderSummary>)
      reads this
      ensures r.Some? <==> Some(orderId) in orders
      ensures r.Some? ==> r.value == orders[Some(orderId)]
    {
      if Some(orderId) in orders then Some(orders[Some(orderId)]) else None
    }

    /** `get_orders_by_customer`: the entries of `customerId`, in the order the orders were created. */
    function GetOrdersByCustomer(customerId: Option<Id>): (r: seq<OrderSummary>)
      reads this
      requires Valid()
      ensures forall x :: x in r ==> x.customerId == customerId && x in orders.Values
      ensures forall k :: k in orders && orders[k].customerId == customerId ==> orders[k] in r
    {
      Select(keys, orders, (o: OrderSummary) => o.customerId == customerId)
    }

    /** `get_orders_by_status`: the entries whose status is `status`. */
    function GetOrdersByStatus(status: OrderStatus): (r: seq<OrderSummary>)
      reads this
      requires Valid()
      ensures forall x :: x in r ==> x.status == status && x in orders.Values
      ensures forall k :: k in orders && orders[k].status == status ==> orders[k] in r
    {
      Select(keys, orders, (o: OrderSummary) => o.status == status)
    }
  }

  // ---------------------------------------------------------------------------------------------
  // InventoryReadModel

  /** `InventoryReadModel.handle_event` on `reserved_items`: an added item reserves its quantity
      (starting from 0 for a new product), a removed item releases at most what is reserved, and
      shipping and cancelling change nothing. */
  function InventoryStep(reserved: map<Id, int>, e: Event): (r: map<Id, int>)
    ensures e.payload.OrderItemAdded? ==>
              r.Keys == reserved.Keys + {e.payload.productId} &&
              r[e.payload.productId] == ReservedIn(reserved, e.payload.productId) + e.payload.quantity
    ensures e.payload.OrderItemRemoved? ==>
              r.Keys == reserved.Keys &&
              (e.payload.productId in reserved ==>
                 && r[e.payload.productId] >= 0
                 && r[e.payload.productId] >= reserved[e.payload.productId] - e.payload.quantity
                 && (r[e.payload.productId] == 0 || r[e.payload.productId] == reserved[e.payload.productId] - e.payload.quantity))
    ensures !e.payload.OrderItemAdded? && !e.payload.OrderItemRemoved? ==> r == reserved
    ensures forall p :: p in reserved && (e.payload.OrderItemAdded? || e.payload.OrderItemRemoved? ==> p != e.payload.productId) ==>
              p in r && r[p] == reserved[p]
  {
    match e.payload
    case OrderItemAdded(productId, quantity, _, _) =>
      reserved[productId := ReservedIn(reserved, productId) + quantity]
    case OrderItemRemoved(productId, quantity) =>
      if productId in reserved then
        var left := reserved[productId] - quantity;
        reserved[productId := if left < 0 then 0 else left]
      else reserved
    case _ => reserved
  }

  /** `get_reserved_quantity`: 0 for a product never reserved. */
  function ReservedIn(reserved: map<Id, int>, productId: Id): (q: int)
    ensures productId !in reserved ==> q == 0
    ensures productId in reserved ==> q == reserved[productId]
  {
    if productId in reserved then reserved[productId] else 0
  }

  ghost predicate NonNegative(reserved: map<Id, int>) {
    forall p :: p in reserved ==> reserved[p] >= 0
  }

  /** An event never added a negative quantity. */
  ghost predicate AddsNonNegative(e: Event) {
    e.payload.OrderItemAdded? ==> e.payload.quantity >= 0
  }

  /** Reservations stay non-negative as long as no event adds a negative quantity: removal is
      clamped at 0. */
  lemma {:induction false} InventoryNonNegative(reserved: map<Id, int>, events: seq<Event>)
    requires NonNegative(reserved)
    requires forall i :: 0 <= i < |events| ==> AddsNonNegative(events[i])
    ensures NonNegative(FoldEvents(reserved, events, InventoryStep))
    decreases |events|
  {
    if events != [] {
      var r := InventoryStep(reserved, events[0]);
      assert NonNegative(r) by {
        forall p | p in r ensures r[p] >= 0 {
          if p !in reserved {
            assert events[0].payload.OrderItemAdded?;
          }
        }
      }
      InventoryNonNegative(r, events[1..]);
    }
  }

  /** Adding an item does not validate its quantity, so the clamp on removal is not enough on its
      own: a negative added quantity leaves a negative reservation. */
  lemma NegativeAddGoesNegative(e: Event)
    requires e.payload == OrderItemAdded(7, -1, 100, "widget")
    ensures !NonNegative(InventoryStep(map[], e))
  {
    assert InventoryStep(map[], e)[7] == -1;
  }

  /** Reserving a non-negative quantity and then releasing it gives the reservation back. */
  lemma ReserveThenRelease(reserved: map<Id, int>, add: Event, remove: Event)
    requires add.payload.OrderItemAdded? && add.payload.quantity >= 0
    requires remove.payload == OrderItemRemoved(add.payload.productId, add.payload.quantity)
    requires ReservedIn(reserved, add.payload.productId) >= 0
    ensures ReservedIn(InventoryStep(InventoryStep(reserved, add), remove), add.payload.productId)
            == ReservedIn(reserved, add.payload.productId)
  {
  }

  class InventoryReadModel {
    var reserved: map<Id, int>

    constructor ()
      ensures reserved == map[]
    {
      reserved := map[];
    }

    /** `handle_event`. */
    method HandleEvent(e: Event)
      modifies this
      ensures reserved == InventoryStep(old(reserved), e)
    {
      match e.payload {
        case OrderItemAdded(productId, quantity, _, _) =>
          if productId !in reserved {
            reserved := reserved[productId := 0];
          }
          reserved := reserved[productId := reserved[productId] + quantity];
        case OrderItemRemoved(productId, quantity) =>
          if productId in reserved {
            var left := reserved[productId] - quantity;
            reserved := reserved[productId := if left < 0 then 0 else left];
          }
        case OrderShipped(_, _, _) =>
        case OrderCancelled(_, _) =>
        case OrderCreated(_, _, _, _) =>
        case PaymentProcessed(_, _, _) =>
      }
    }

    /** `get_reserved_quantity`. */
    function GetReservedQuantity(productId: Id): (q: int)
      reads this
      ensures productId in reserved ==> q == reserved[productId]
      ensures productId !in reserved ==> q == 0
    {
      ReservedIn(reserved, productId)
    }
  }

  // ---------------------------------------------------------------------------------------------
  // CustomerOrderHistoryReadModel

  datatype HistoryEntry = HistoryEntry(orderId: Option<Id>, createdAt: Timestamp, totalAmount: int,
                                       currency: string, status: OrderStatus)

  datatype CustomerStats = CustomerStats(totalOrders: int, totalSpent: int,
                                         firstOrderDate: Timestamp, lastOrderDate: Timestamp)

  /** A customer's entry in `customer_orders` together with its entry in `customer_stats`: the
      source creates both in the same branch and deletes neither, so they always share their keys. */
  datatype CustomerRecord = CustomerRecord(orders: seq<HistoryEntry>, stats: CustomerStats)

  datatype History = History(customers: map<Option<Id>, CustomerRecord>, keys: seq<Option<Id>>)

  /** The model's invariant: the key order is a dict's, and each customer's order count is the
      length of their order list. */
  ghost predicate Consistent(h: History) {
    && KeyOrder(h.customers, h.keys)
    && forall c :: c in h.customers ==> h.customers[c].stats.totalOrders == |h.customers[c].orders|
  }

  /** The first entry of `orders` recorded for `orderId`. */
  function FirstEntry(orders: seq<HistoryEntry>, orderId: Option<Id>): (r: Option<nat>)
    ensures r.Some? ==> r.value < |orders| && orders[r.value].orderId == orderId
    ensures r.Some? ==> forall j :: 0 <= j < r.value ==> orders[j].orderId != orderId
    ensures r.None? ==> forall j :: 0 <= j < |orders| ==> orders[j].orderId != orderId
    decreases |orders|
  {
    if orders == [] then None
    else if orders[0].orderId == orderId then Some(0)
    else match FirstEntry(orders[1..], orderId)
      case None => None
      case Some(j) => Some(j + 1)
  }

  /** Where an order's history entry lives: the position of the customer among the keys, and the
      position of the entry in that customer's list. */
  datatype Location = Location(key: nat, entry: nat)

  /** `_find_customer_orders_by_order_id`: customers in insertion order, each customer's orders in
      list order; the first match wins. A key without a record, which `Consistent` rules out, is
      passed over. */
  function FindOrder(keys: seq<Option<Id>>, customers: map<Option<Id>, CustomerRecord>, orderId: Option<Id>, from: nat)
    : (r: Option<Location>)
    ensures r.Some? ==>
              && from <= r.value.key < |keys| && keys[r.value.key] in customers
              && FirstEntry(customers[keys[r.value.key]].orders, orderId) == Some(r.value.entry)
    ensures r.Some? ==> forall i :: from <= i < r.value.key && keys[i] in customers ==>
                          FirstEntry(customers[keys[i]].orders, orderId).None?
    ensures r.None? ==> forall i :: from <= i < |keys| && keys[i] in customers ==>
                          FirstEntry(customers[keys[i]].orders, orderId).None?
    decreases |keys| - from
  {
    if from >= |keys| then None
    else if keys[from] !in customers then FindOrder(keys, customers, orderId, from + 1)
    else match FirstEntry(customers[keys[from]].orders, orderId)
      case Some(j) => Some(Location(from, j))
      case None => FindOrder(keys, customers, orderId, from + 1)
  }

  /** `CustomerOrderHistoryReadModel.handle_event`. `OrderCreated` files a pending entry under the
      event's customer (creating the customer on first sight) and counts it; `PaymentProcessed`
      confirms the first entry found for the order and adds the amount to the customer's spending;
      other events, and payments for unknown orders, change nothing. */
  function HistoryStep(h: History, e: Event): (r: History)
    ensures Consistent(h) ==> Consistent(r)
    ensures e.payload.OrderCreated? ==>
              var c := e.payload.customerId;
              && r.customers.Keys == h.customers.Keys + {c}
              && r.customers[c].orders == OrdersOf(h, c) + [HistoryEntry(e.aggregateId, e.timestamp, e.payload.totalAmount, e.payload.currency, Pending)]
              && r.customers[c].stats.lastOrderDate == e.timestamp
              && (c !in h.customers ==> r.customers[c].stats.firstOrderDate == e.timestamp)
              && (forall k :: k in h.customers && k != c ==> r.customers[k] == h.customers[k])
    ensures e.payload.OrderCreated? ==>
              r.keys == Touch(h.keys, e.payload.customerId in h.customers, e.payload.customerId)
    ensures !e.payload.OrderCreated? ==> r.customers.Keys == h.customers.Keys && r.keys == h.keys
    ensures !e.payload.OrderCreated? && !e.payload.PaymentProcessed? ==> r == h
    ensures forall c :: c in h.customers ==> |r.customers[c].orders| >= |h.customers[c].orders|
  {
    var ts := e.timestamp;
    match e.payload
    case OrderCreated(c, _, totalAmount, currency) =>
      var record := if c in h.customers then h.customers[c]
                    else CustomerRecord([], CustomerStats(0, 0, ts, ts));
      var entry := HistoryEntry(e.aggregateId, ts, totalAmount, currency, Pending);
      var record' := CustomerRecord(record.orders + [entry],
                                    record.stats.(totalOrders := record.stats.totalOrders + 1, lastOrderDate := ts));
      TouchKeeps(h.customers, h.keys, c, record');
      History(h.customers[c := record'], Touch(h.keys, c in h.customers, c))
    case PaymentProcessed(_, amount, _) =>
      (match FindOrder(h.keys, h.customers, e.aggregateId, 0)
       case None => h
       case Some(loc) =>
         var c := h.keys[loc.key];
         var record := h.customers[c];
         var orders' := record.orders[loc.entry := record.orders[loc.entry].(status := Confirmed)];
         var record' := CustomerRecord(orders', record.stats.(totalSpent := record.stats.totalSpent + amount));
         History(h.customers[c := record'], h.keys))
    case _ => h
  }

  /** A creation counts the order and dates the customer's latest order; a new customer starts
      with nothing spent and both dates set to the event's time, an existing one keeps what they
      spent and the date of their first order. */
  lemma HistoryStepCreated(h: History, e: Event)
    requires e.payload.OrderCreated?
    ensures var c := e.payload.customerId;
            var r := HistoryStep(h, e);
            && (c !in h.customers ==> r.customers[c].stats == CustomerStats(1, 0, e.timestamp, e.timestamp))
            && (c in h.customers ==>
                  r.customers[c].stats == h.customers[c].stats.(totalOrders := h.customers[c].stats.totalOrders + 1,
                                                                 lastOrderDate := e.timestamp))
  {
  }

  /** A payment confirms the entry `FindOrder` locates, in place, and adds the amount to that
      customer's spending; every other entry and customer is untouched. A payment for an order
      found nowhere changes nothing. */
  lemma HistoryStepPayment(h: History, e: Event)
    requires e.payload.PaymentProcessed?
    ensures FindOrder(h.keys, h.customers, e.aggregateId, 0).None? ==> HistoryStep(h, e) == h
    ensures FindOrder(h.keys, h.customers, e.aggregateId, 0).Some? ==>
              var loc := FindOrder(h.keys, h.customers, e.aggregateId, 0).value;
              var c := h.keys[loc.key];
              var before := h.customers[c];
              var r := HistoryStep(h, e);
              && r.keys == h.keys
              && |r.customers[c].orders| == |before.orders|
              && r.customers[c].orders[loc.entry] == before.orders[loc.entry].(status := Confirmed)
              && (forall j :: 0 <= j < |before.orders| && j != loc.entry ==> r.customers[c].orders[j] == before.orders[j])
              && r.customers[c].stats == before.stats.(totalSpent := before.stats.totalSpent + e.payload.amount)
              && (forall k :: k in h.customers && k != c ==> r.customers[k] == h.customers[k])
  {
  }

  /** `get_customer_orders`: `[]` for an unknown customer. */
  function OrdersOf(h: History, c: Option<Id>): (r: seq<HistoryEntry>)
    ensures c !in h.customers ==> r == []
    ensures c in h.customers ==> r == h.customers[c].orders
  {
    if c in h.customers then h.customers[c].orders else []
  }

  /** The number of `OrderCreated` events of customer `c` among `events`. */
  function CountCreated(events: seq<Event>, c: Option<Id>): (n: nat)
    ensures n == 0 <==> forall i :: 0 <= i < |events| ==>
                          !(events[i].payload.OrderCreated? && events[i].payload.customerId == c)
    decreases |events|
  {
    if events == [] then 0
    else
      assert forall i :: 1 <= i < |events| ==> events[i] == events[1..][i - 1];
      (if events[0].payload.OrderCreated? && events[0].payload.customerId == c then 1 else 0)
      + CountCreated(events[1..], c)
  }

  /** One event adds an entry to customer `c`'s history exactly when it creates an order of
      theirs; confirming a payment rewrites an entry in place. */
  lemma HistoryStepCount(h: History, e: Event, c: Option<Id>)
    ensures |OrdersOf(HistoryStep(h, e), c)| ==
              |OrdersOf(h, c)| + (if e.payload.OrderCreated? && e.payload.customerId == c then 1 else 0)
  {
    if e.payload.PaymentProcessed? {
      match FindOrder(h.keys, h.customers, e.aggregateId, 0)
      case None =>
      case Some(loc) =>
        var k := h.keys[loc.key];
        assert HistoryStep(h, e).customers[k].orders == h.customers[k].orders[loc.entry := h.customers[k].orders[loc.entry].(status := Confirmed)];
    }
  }

  /** A customer's history lists one entry per `OrderCreated` event of theirs, whatever else
      happens, and their order count agrees with it. */
  lemma {:induction false} HistoryCountsOrders(h: History, events: seq<Event>, c: Option<Id>)
    requires Consistent(h)
    ensures Consistent(HistoryFold(h, events))
    ensures |OrdersOf(HistoryFold(h, events), c)| == |OrdersOf(h, c)| + CountCreated(events, c)
    decreases |events|
  {
    if events != [] {
      HistoryStepCount(h, events[0], c);
      HistoryCountsOrders(HistoryStep(h, events[0]), events[1..], c);
    }
  }

  /** The history after `events`, from a consistent start. */
  function HistoryFold(h: History, events: seq<Event>): (r: History)
    requires Consistent(h)
    ensures Consistent(r)
    decreases |events|
  {
    if events == [] then h else HistoryFold(HistoryStep(h, events[0]), events[1..])
  }

  /** Customers keep the positions they had in the key order, and customers seen for the first time
      go after them: the order `FindOrder` searches in is the order customers first appeared. */
  lemma {:induction false} HistoryKeepsKeyOrder(h: History, events: seq<Event>)
    requires Consistent(h)
    ensures |h.keys| <= |HistoryFold(h, events).keys|
    ensures HistoryFold(h, events).keys[..|h.keys|] == h.keys
    decreases |events|
  {
    if events != [] {
      var next := HistoryStep(h, events[0]);
      HistoryKeepsKeyOrder(next, events[1..]);
      var r := HistoryFold(h, events);
      assert r == HistoryFold(next, events[1..]);
      assert next.keys[..|h.keys|] == h.keys;
      assert r.keys[..|h.keys|] == r.keys[..|next.keys|][..|h.keys|];
    }
  }

  class CustomerOrderHistoryReadModel {
    var customers: map<Option<Id>, CustomerRecord>
    var keys: seq<Option<Id>>

    function View(): History
      reads this
    {
      History(customers, keys)
    }

    ghost predicate Valid()
      reads this
    {
      Consistent(View())
    }

    constructor ()
      ensures Valid() && customers == map[] && keys == []
    {
      customers := map[];
      keys := [];
    }

    /** `handle_event`. */
    method HandleEvent(e: Event)
      modifies this
      ensures old(Valid()) ==> Valid()
      ensures View() == HistoryStep(old(View()), e)
    {
      match e.payload {
        case OrderCreated(_, _, _, _) => HandleOrderCreated(e);
        case PaymentProcessed(_, _, _) => HandlePaymentProcessed(e);
        case OrderItemAdded(_, _, _, _) =>
        case OrderItemRemoved(_, _) =>
        case OrderShipped(_, _, _) =>
        case OrderCancelled(_, _) =>
      }
    }

    method HandleOrderCreated(e: Event)
      requires e.payload.OrderCreated?
      modifies this
      ensures View() == HistoryStep(old(View()), e)
    {
      var c := e.payload.customerId;
      if c !in customers {
        keys := keys + [c];
        customers := customers[c := CustomerRecord([], CustomerStats(0, 0, e.timestamp, e.timestamp))];
      }
      var record := customers[c];
      var entry := HistoryEntry(e.aggregateId, e.timestamp, e.payload.totalAmount, e.payload.currency, Pending);
      customers := customers[c := CustomerRecord(record.orders + [entry],
                                   record.stats.(totalOrders := record.stats.totalOrders + 1, lastOrderDate := e.timestamp))];
    }

    method HandlePaymentProcessed(e: Event)
      requires e.payload.PaymentProcessed?
      modifies this
      ensures View() == HistoryStep(old(View()), e)
    {
      var found := FindOrder(keys, customers, e.aggregateId, 0);
      if found.Some? {
        var c := keys[found.value.key];
        var record := customers[c];
        var orders' := record.orders[found.value.entry := record.orders[found.value.entry].(status := Confirmed)];
        customers := customers[c := CustomerRecord(orders', record.stats.(totalSpent := record.stats.totalSpent + e.payload.amount))];
      }
    }

    /** `get_customer_orders`. */
    function GetCustomerOrders(customerId: Option<Id>): (r: seq<HistoryEntry>)
      reads this
      ensures customerId in customers ==> r == customers[customerId].orders
      ensures customerId !in customers ==> r == []
    {
      OrdersOf(View(), customerId)
    }

    /** `get_customer_stats`: `None` stands for the empty dict returned for an unknown customer. */
    function GetCustomerStats(customerId: Option<Id>): (r: Option<CustomerStats>)
      reads this
      ensures r.Some? <==> customerId in customers
      ensures r.Some? ==> r.value == customers[customerId].stats
    {
      if customerId in customers then Some(customers[customerId].stats) else None
    }
  }
}
