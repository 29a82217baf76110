/** The order aggregate of the full variant (complex_e2e.py): the `AggregateRoot` base class and
    its `Order` subclass. `Handle` is the fold step `_handle_event` performs; the `Order` class keeps
    the same state in mutable fields and is proved to follow `Handle` step by step. */
module Orders {
  import opened Wrappers
  import opened Events

  datatype ShippingInfo = ShippingInfo(address: Metadata, trackingNumber: string, carrier: string, shippedAt: Timestamp)
  datatype PaymentInfo = PaymentInfo(paymentMethod: string, amount: int, transactionId: string, processedAt: Timestamp)

  /** The materialized state of an `Order`; `None` stands for the empty `shipping_info` and
      `payment_info` dicts of a new order. */
  datatype OrderState = OrderState(customerId: Option<Id>, items: map<Id, ItemLine>, totalAmount: int,
                                   currency: string, status: OrderStatus,
                                   shippingInfo: Option<ShippingInfo>, paymentInfo: Option<PaymentInfo>)

  /** The state `Order.__init__` sets up. */
  function InitialState(): OrderState {
    OrderState(None, map[], 0, "USD", Pending, None, None)
  }

  // ---------------------------------------------------------------------------------------------
  // Money: quantities times unit prices, in integer cents.

  function LineTotal(line: ItemLine): int {
    line.quantity * line.unitPrice
  }

  /** The sum `create_order` computes over the item list it is given. */
  function LinesTotal(lines: seq<ItemLine>): (total: int)
    ensures lines == [] ==> total == 0
  {
    if lines == [] then 0 else LineTotal(lines[0]) + LinesTotal(lines[1..])
  }

  /** The sum `_recalculate_total` computes over the items dict, whatever order it visits them in. */
  ghost function ItemsTotal(items: map<Id, ItemLine>): int
    decreases |items|
  {
    if |items| == 0 then 0
    else
      var k := SomeKey(items);
      LineTotal(items[k]) + ItemsTotal(items - {k})
  }

  /** Some key of a non-empty dict. */
  ghost function SomeKey(items: map<Id, ItemLine>): (k: Id)
    requires |items| > 0
    ensures k in items
  {
    assert exists k :: k in items by {
      if forall k :: k !in items {
        assert false;
      }
    }
    var k :| k in items; k
  }

  /** `ItemsTotal` can take out any key first: the total does not depend on the visiting order. */
  lemma {:induction false} ItemsTotalRemove(items: map<Id, ItemLine>, k: Id)
    requires k in items
    ensures ItemsTotal(items) == LineTotal(items[k]) + ItemsTotal(items - {k})
    decreases |items|
  {
    var j := SomeKey(items);
    if j != k {
      assert |items - {j}| < |items| by { assert j in items && j !in items - {j}; }
      assert |items - {k}| < |items| by { assert k in items && k !in items - {k}; }
      ItemsTotalRemove(items - {j}, k);
      ItemsTotalRemove(items - {k}, j);
      assert items - {j} - {k} == items - {k} - {j};
    }
  }

  // ---------------------------------------------------------------------------------------------
  // The item-dict updates of `_handle_event`.

  /** `OrderCreated` copies every listed item into the dict under its product id, a later entry
      for the same product overriding an earlier one; the items already there are kept. */
  function InsertLines(items: map<Id, ItemLine>, lines: seq<ItemLine>): (r: map<Id, ItemLine>)
    ensures r.Keys == items.Keys + set i | 0 <= i < |lines| :: lines[i].productId
    decreases |lines|
  {
    if lines == [] then items
    else InsertLines(items[lines[0].productId := lines[0]], lines[1..])
  }

  /** A product no line mentions keeps the item it had. */
  lemma {:induction false} InsertLinesKeeps(items: map<Id, ItemLine>, lines: seq<ItemLine>, p: Id)
    requires p in items
    requires forall i :: 0 <= i < |lines| ==> lines[i].productId != p
    ensures InsertLines(items, lines)[p] == items[p]
    decreases |lines|
  {
    if lines != [] {
      InsertLinesKeeps(items[lines[0].productId := lines[0]], lines[1..], p);
    }
  }

  /** The last line for a product is the one left in the dict. */
  lemma {:induction false} InsertLinesLastWins(items: map<Id, ItemLine>, lines: seq<ItemLine>, i: int)
    requires 0 <= i < |lines|
    requires forall j :: i < j < |lines| ==> lines[j].productId != lines[i].productId
    ensures InsertLines(items, lines)[lines[i].productId] == lines[i]
    decreases |lines|
  {
    var rest := lines[1..];
    if i == 0 {
      assert forall j :: 0 <= j < |rest| ==> rest[j].productId != lines[0].productId by {
        forall j | 0 <= j < |rest| ensures rest[j].productId != lines[0].productId {
          assert rest[j] == lines[j + 1];
        }
      }
      InsertLinesKeeps(items[lines[0].productId := lines[0]], rest, lines[0].productId);
    } else {
      assert rest[i - 1] == lines[i];
      assert forall j :: i - 1 < j < |rest| ==> rest[j].productId != rest[i - 1].productId by {
        forall j | i - 1 < j < |rest| ensures rest[j].productId != rest[i - 1].productId {
          assert rest[j] == lines[j + 1];
        }
      }
      InsertLinesLastWins(items[lines[0].productId := lines[0]], rest, i - 1);
    }
  }

  /** `OrderItemAdded`: an existing product's quantity grows by `quantity` (its price and name are
      kept); a new product is inserted with the event's fields. No other product changes. */
  function AddItemTo(items: map<Id, ItemLine>, productId: Id, quantity: int, unitPrice: int, itemName: string)
    : (r: map<Id, ItemLine>)
    ensures r.Keys == items.Keys + {productId}
    ensures productId in items ==>
              r[productId] == items[productId].(quantity := items[productId].quantity + quantity)
    ensures productId !in items ==> r[productId] == ItemLine(productId, quantity, unitPrice, itemName)
    ensures forall k :: k in items && k != productId ==> r[k] == items[k]
  {
    if productId in items then items[productId := items[productId].(quantity := items[productId].quantity + quantity)]
    else items[productId := ItemLine(productId, quantity, unitPrice, itemName)]
  }

  /** `OrderItemRemoved`: removing at least the current quantity deletes the product, removing less
      decrements it, and removing an unknown product changes nothing. */
  function RemoveItemFrom(items: map<Id, ItemLine>, productId: Id, quantity: int): (r: map<Id, ItemLine>)
    ensures productId !in items ==> r == items
    ensures productId in items && items[productId].quantity <= quantity ==> r == items - {productId}
    ensures productId in items && items[productId].quantity > quantity ==>
              r.Keys == items.Keys &&
              r[productId] == items[productId].(quantity := items[productId].quantity - quantity)
    ensures forall k :: k in items && k != productId ==> k in r && r[k] == items[k]
  {
    if productId !in items then items
    else if items[productId].quantity <= quantity then items - {productId}
    else items[productId := items[productId].(quantity := items[productId].quantity - quantity)]
  }

  /** Removing what was just added gives back the items, unless the product was already there with
      a quantity that is not positive (then the removal deletes it). */
  lemma AddThenRemoveRestores(items: map<Id, ItemLine>, productId: Id, quantity: int, unitPrice: int, itemName: string)
    requires productId !in items || items[productId].quantity > 0
    ensures RemoveItemFrom(AddItemTo(items, productId, quantity, unitPrice, itemName), productId, quantity) == items
  {
    var added := AddItemTo(items, productId, quantity, unitPrice, itemName);
    var removed := RemoveItemFrom(added, productId, quantity);
    if productId in items {
      assert removed.Keys == items.Keys;
      assert removed[productId] == items[productId];
    } else {
      assert removed == added - {productId};
      assert removed.Keys == items.Keys;
    }
  }

  /** Adding `quantity` of a product raises the items total by `quantity` times that product's
      unit price (the price already recorded for a known product, the event's price otherwise). */
  lemma TotalAfterAdd(items: map<Id, ItemLine>, productId: Id, quantity: int, unitPrice: int, itemName: string)
    ensures var price := if productId in items then items[productId].unitPrice else unitPrice;
            ItemsTotal(AddItemTo(items, productId, quantity, unitPrice, itemName)) == ItemsTotal(items) + quantity * price
  {
    if productId in items {
      TotalAfterAddKnown(items, productId, quantity, unitPrice, itemName);
    } else {
      TotalAfterAddNew(items, productId, quantity, unitPrice, itemName);
    }
  }

  lemma TotalAfterAddKnown(items: map<Id, ItemLine>, productId: Id, quantity: int, unitPrice: int, itemName: string)
    requires productId in items
    ensures ItemsTotal(AddItemTo(items, productId, quantity, unitPrice, itemName))
            == ItemsTotal(items) + quantity * items[productId].unitPrice
  {
    var added := AddItemTo(items, productId, quantity, unitPrice, itemName);
    var line := items[productId];
    ItemsTotalRemove(added, productId);
    ItemsTotalRemove(items, productId);
    SameOutside(added, items, productId);
    GrownLine(line, quantity);
    assert added[productId] == line.(quantity := line.quantity + quantity);
  }

  lemma TotalAfterAddNew(items: map<Id, ItemLine>, productId: Id, quantity: int, unitPrice: int, itemName: string)
    requires productId !in items
    ensures ItemsTotal(AddItemTo(items, productId, quantity, unitPrice, itemName))
            == ItemsTotal(items) + quantity * unitPrice
  {
    var added := AddItemTo(items, productId, quantity, unitPrice, itemName);
    ItemsTotalRemove(added, productId);
    assert added - {productId} == items by {
      assert (added - {productId}).Keys == items.Keys;
    }
  }

  lemma SameOutside(a: map<Id, ItemLine>, b: map<Id, ItemLine>, k: Id)
    requires a.Keys == b.Keys
    requires forall j :: j in b && j != k ==> a[j] == b[j]
    ensures a - {k} == b - {k}
  {
    assert (a - {k}).Keys == (b - {k}).Keys;
  }

  lemma GrownLine(line: ItemLine, quantity: int)
    ensures LineTotal(line.(quantity := line.quantity + quantity)) == LineTotal(line) + quantity * line.unitPrice
  {
    assert (line.quantity + quantity) * line.unitPrice == line.quantity * line.unitPrice + quantity * line.unitPrice;
  }

  // ---------------------------------------------------------------------------------------------
  // The fold.

  /** `_handle_event` followed by `_recalculate_total` where the source calls it. */
  ghost function Handle(s: OrderState, e: Event): OrderState {
    match e.payload
    case OrderCreated(customerId, lines, totalAmount, currency) =>
      s.(customerId := customerId, currency := currency, totalAmount := totalAmount, status := Pending,
         items := InsertLines(s.items, lines))
    case OrderItemAdded(productId, quantity, unitPrice, itemName) =>
      var items := AddItemTo(s.items, productId, quantity, unitPrice, itemName);
      s.(items := items, totalAmount := ItemsTotal(items))
    case OrderItemRemoved(productId, quantity) =>
      if productId in s.items then
        var items := RemoveItemFrom(s.items, productId, quantity);
        s.(items := items, totalAmount := ItemsTotal(items))
      else s
    case OrderShipped(address, trackingNumber, carrier) =>
      s.(status := Shipped, shippingInfo := Some(ShippingInfo(address, trackingNumber, carrier, e.timestamp)))
    case OrderCancelled(_, _) =>
      s.(status := Cancelled)
    case PaymentProcessed(paymentMethod, amount, transactionId) =>
      s.(status := Confirmed, paymentInfo := Some(PaymentInfo(paymentMethod, amount, transactionId, e.timestamp)))
  }

  /** The state after applying `events` in order, starting from `s`. */
  ghost function Replay(s: OrderState, events: seq<Event>): OrderState
    decreases |events|
  {
    if events == [] then s else Replay(Handle(s, events[0]), events[1..])
  }

  lemma {:induction false} ReplayAppend(s: OrderState, a: seq<Event>, b: seq<Event>)
    ensures Replay(s, a + b) == Replay(Replay(s, a), b)
    decreases |a|
  {
    if a == [] {
      assert a + b == b;
    } else {
      assert (a + b)[0] == a[0];
      assert (a + b)[1..] == a[1..] + b;
      ReplayAppend(Handle(s, a[0]), a[1..], b);
    }
  }

  lemma ReplayOne(s: OrderState, e: Event)
    ensures Replay(s, [e]) == Handle(s, e)
  {
    assert [e][1..] == [];
  }

  /** Each event class sets the status its handler names, and the others leave it alone. */
  lemma HandleStatus(s: OrderState, e: Event)
    ensures Handle(s, e).status ==
      match e.payload
      case OrderCreated(_, _, _, _) => Pending
      case PaymentProcessed(_, _, _) => Confirmed
      case OrderShipped(_, _, _) => Shipped
      case OrderCancelled(_, _) => Cancelled
      case _ => s.status
  {
  }

  /** No event produces `DELIVERED`: an order that is not delivered never becomes so by replay. */
  lemma {:induction false} ReplayNeverDelivered(s: OrderState, events: seq<Event>)
    requires s.status != Delivered
    ensures Replay(s, events).status != Delivered
    decreases |events|
  {
    if events != [] {
      HandleStatus(s, events[0]);
      ReplayNeverDelivered(Handle(s, events[0]), events[1..]);
    }
  }

  /** After an item event that changed the items, the total is the items total again. */
  lemma HandleItemTotal(s: OrderState, e: Event)
    requires e.payload.OrderItemAdded? || (e.payload.OrderItemRemoved? && e.payload.productId in s.items)
    ensures Handle(s, e).totalAmount == ItemsTotal(Handle(s, e).items)
  {
  }

  // ---------------------------------------------------------------------------------------------
  // Commands.

  datatype Command =
    | CreateOrder(customerId: Option<Id>, lines: seq<ItemLine>, currency: string)
    | AddItem(productId: Id, quantity: int, unitPrice: int, itemName: string)
    | RemoveItem(productId: Id, quantity: int)
    | ShipOrder(shippingAddress: Metadata, trackingNumber: string, carrier: string)
    | CancelOrder(reason: string)
    | ProcessPayment(paymentMethod: string, amount: int, transactionId: string)

  /** The `ValueError`s the command methods raise. */
  datatype CommandError =
    | OrderAlreadyExists
    | NotPending
    | ItemNotFound
    | NotConfirmed
    | ShippedOrDelivered
    | PaymentNotPending

  /** A command's guard and the payload of the single event it raises when the guard passes. */
  function Decide(s: OrderState, cmd: Command): (r: Result<Payload, CommandError>)
    ensures cmd.CreateOrder? ==>
              (r.Err? <==> s.customerId.Some?) &&
              (r.Ok? ==> r.value == OrderCreated(cmd.customerId, cmd.lines, LinesTotal(cmd.lines), cmd.currency))
    ensures cmd.AddItem? ==>
              (r.Err? <==> s.status != Pending) &&
              (r.Ok? ==> r.value == OrderItemAdded(cmd.productId, cmd.quantity, cmd.unitPrice, cmd.itemName))
    ensures cmd.RemoveItem? ==>
              (r.Err? <==> s.status != Pending || cmd.productId !in s.items) &&
              (r.Err? && s.status == Pending ==> r.error == ItemNotFound) &&
              (r.Ok? ==> r.value == OrderItemRemoved(cmd.productId, cmd.quantity))
    ensures cmd.ShipOrder? ==>
              (r.Err? <==> s.status != Confirmed) &&
              (r.Ok? ==> r.value == OrderShipped(cmd.shippingAddress, cmd.trackingNumber, cmd.carrier))
    ensures cmd.CancelOrder? ==>
              (r.Err? <==> s.status == Shipped || s.status == Delivered) &&
              (r.Ok? ==> r.value == OrderCancelled(cmd.reason, s.totalAmount))
    ensures cmd.ProcessPayment? ==>
              (r.Err? <==> s.status != Pending) &&
              (r.Ok? ==> r.value == PaymentProcessed(cmd.paymentMethod, cmd.amount, cmd.transactionId))
  {
    match cmd
    case CreateOrder(customerId, lines, currency) =>
      if s.customerId.Some? then Err(OrderAlreadyExists)
      else Ok(OrderCreated(customerId, lines, LinesTotal(lines), currency))
    case AddItem(productId, quantity, unitPrice, itemName) =>
      if s.status != Pending then Err(NotPending)
      else Ok(OrderItemAdded(productId, quantity, unitPrice, itemName))
    case RemoveItem(productId, quantity) =>
      if s.status != Pending then Err(NotPending)
      else if productId !in s.items then Err(ItemNotFound)
      else Ok(OrderItemRemoved(productId, quantity))
    case ShipOrder(shippingAddress, trackingNumber, carrier) =>
      if s.status != Confirmed then Err(NotConfirmed)
      else Ok(OrderShipped(shippingAddress, trackingNumber, carrier))
    case CancelOrder(reason) =>
      if s.status == Shipped || s.status == Delivered then Err(ShippedOrDelivered)
      else Ok(OrderCancelled(reason, s.totalAmount))
    case ProcessPayment(paymentMethod, amount, transactionId) =>
      if s.status != Pending then Err(PaymentNotPending)
      else Ok(PaymentProcessed(paymentMethod, amount, transactionId))
  }

  // ---------------------------------------------------------------------------------------------
  // The aggregate object.

  /** `AggregateRoot` and its `Order` subclass in one class. The ghost `history` holds every event
      applied since construction; `Valid` says the fields are the replay of that history and that
      each of its events carries this aggregate's id and its 1-based position as version. */
  class Order {
    const aggregateId: Id
    var version: int
    var uncommitted: seq<Event>
    var customerId: Option<Id>
    var items: map<Id, ItemLine>
    var totalAmount: int
    var currency: string
    var status: OrderStatus
    var shippingInfo: Option<ShippingInfo>
    var paymentInfo: Option<PaymentInfo>
    ghost var history: seq<Event>

    function State(): OrderState
      reads this
    {
      OrderState(customerId, items, totalAmount, currency, status, shippingInfo, paymentInfo)
    }

    ghost predicate Valid()
      reads this
    {
      && version == |history|
      && State() == Replay(InitialState(), history)
      && StampedFrom(history, aggregateId, 1)
    }

    /** The uncommitted buffer holds the most recent events of the history, in order. */
    ghost predicate Buffered()
      reads this
    {
      |uncommitted| <= |history| && uncommitted == history[|history| - |uncommitted|..]
    }

    constructor (aggregateId: Id)
      ensures Valid() && Buffered()
      ensures this.aggregateId == aggregateId && version == 0 && uncommitted == [] && history == []
      ensures State() == InitialState()
    {
      this.aggregateId := aggregateId;
      version := 0;
      uncommitted := [];
      customerId := None;
      items := map[];
      totalAmount := 0;
      currency := "USD";
      status := Pending;
      shippingInfo := None;
      paymentInfo := None;
      history := [];
    }

    /** `_recalculate_total`: sums quantity times unit price over the items, one key at a time. */
    method RecalculateTotal()
      modifies this`totalAmount
      ensures totalAmount == ItemsTotal(items)
    {
      var rest := items.Keys;
      var sum := 0;
      RestrictAll(items);
      while rest != {}
        invariant rest <= items.Keys
        invariant sum + ItemsTotal(Restrict(items, rest)) == ItemsTotal(items)
        decreases |rest|
      {
        var k :| k in rest;
        RestrictStep(items, rest, k);
        sum := sum + LineTotal(items[k]);
        rest := rest - {k};
      }
      RestrictNone(items, rest);
      totalAmount := sum;
    }

    /** `_handle_event`: updates the order's fields according to the event's class. */
    method HandleEvent(e: Event)
      modifies this`customerId, this`items, this`totalAmount, this`currency, this`status,
               this`shippingInfo, this`paymentInfo
      ensures State() == Handle(old(State()), e)
    {
      match e.payload
      case OrderCreated(_, _, _, _) =>
        HandleOrderCreated(e);
      case OrderItemAdded(_, _, _, _) =>
        HandleItemAdded(e);
      case OrderItemRemoved(_, _) =>
        HandleItemRemoved(e);
      case OrderShipped(address, trackingNumber, carrier) =>
        status := Shipped;
        shippingInfo := Some(ShippingInfo(address, trackingNumber, carrier, e.timestamp));
      case OrderCancelled(_, _) =>
        status := Cancelled;
      case PaymentProcessed(paymentMethod, amount, transactionId) =>
        status := Confirmed;
        paymentInfo := Some(PaymentInfo(paymentMethod, amount, transactionId, e.timestamp));
    }

    /** The `OrderCreated` branch of `_handle_event`: the listed items are merged into the dict. */
    method HandleOrderCreated(e: Event)
      requires e.payload.OrderCreated?
      modifies this`customerId, this`currency, this`totalAmount, this`status, this`items
      ensures State() == Handle(old(State()), e)
    {
      var p := e.payload;
      customerId := p.customerId;
      currency := p.currency;
      totalAmount := p.totalAmount;
      status := Pending;
      items := InsertLines(items, p.items);
    }

    /** The `OrderItemAdded` branch of `_handle_event`. */
    method HandleItemAdded(e: Event)
      requires e.payload.OrderItemAdded?
      modifies this`items, this`totalAmount
      ensures State() == Handle(old(State()), e)
    {
      var p := e.payload;
      items := AddItemTo(items, p.productId, p.quantity, p.unitPrice, p.itemName);
      RecalculateTotal();
    }

    /** The `OrderItemRemoved` branch of `_handle_event`: nothing happens for an unknown product. */
    method HandleItemRemoved(e: Event)
      requires e.payload.OrderItemRemoved?
      modifies this`items, this`totalAmount
      ensures State() == Handle(old(State()), e)
    {
      var p := e.payload;
      if p.productId in items {
        items := RemoveItemFrom(items, p.productId, p.quantity);
        RecalculateTotal();
      }
    }

    /** `apply_event`: stamps the event with this aggregate's id and the next version, folds it in
        and advances the version by one. The stamped event is returned, since the source stamps
        the caller's event object in place. */
    method ApplyEvent(e: Event) returns (stamped: Event)
      requires Valid()
      modifies this
      ensures Valid()
      ensures stamped == Stamp(e, aggregateId, old(version) + 1)
      ensures version == old(version) + 1
      ensures State() == Handle(old(State()), stamped)
      ensures history == old(history) + [stamped] && uncommitted == old(uncommitted)
    {
      stamped := Stamp(e, aggregateId, version + 1);
      HandleEvent(stamped);
      version := stamped.version;
      ReplayAppend(InitialState(), history, [stamped]);
      ReplayOne(Replay(InitialState(), history), stamped);
      history := history + [stamped];
    }

    /** `raise_event`: applies the event and appends it, stamped, to the uncommitted buffer. */
    method RaiseEvent(e: Event) returns (stamped: Event)
      requires Valid()
      modifies this
      ensures Valid()
      ensures stamped == Stamp(e, aggregateId, old(version) + 1)
      ensures version == old(version) + 1
      ensures State() == Handle(old(State()), stamped)
      ensures history == old(history) + [stamped] && uncommitted == old(uncommitted) + [stamped]
      ensures old(Buffered()) ==> Buffered()
    {
      stamped := ApplyEvent(e);
      uncommitted := uncommitted + [stamped];
    }

    /** `mark_events_as_committed`: empties the buffer and nothing else. */
    method MarkEventsAsCommitted()
      modifies this`uncommitted
      ensures uncommitted == [] && Buffered()
      ensures old(Valid()) ==> Valid()
    {
      uncommitted := [];
    }

    /** `get_uncommitted_events`: the buffer's contents; being a value, later changes to the
        returned sequence cannot reach the buffer. */
    method GetUncommittedEvents() returns (events: seq<Event>)
      ensures events == uncommitted
    {
      events := uncommitted;
    }

    /** The command methods (`create_order`, `add_item`, `remove_item`, `ship_order`,
        `cancel_order`, `process_payment`): a rejected command raises nothing and changes nothing;
        an accepted one raises exactly the event `Decide` names, built with the given event id and
        clock reading. */
    method Execute(cmd: Command, eventId: Id, now: Timestamp) returns (r: Outcome<CommandError>)
      requires Valid()
      modifies this
      ensures Valid()
      ensures r.Fail? <==> Decide(old(State()), cmd).Err?
      ensures r.Fail? ==> r.error == Decide(old(State()), cmd).error && unchanged(this)
      ensures r.Pass? ==>
                var e := Stamp(NewEvent(eventId, now, Decide(old(State()), cmd).value), aggregateId, old(version) + 1);
                && version == old(version) + 1
                && uncommitted == old(uncommitted) + [e]
                && history == old(history) + [e]
                && State() == Handle(old(State()), e)
      ensures old(Buffered()) ==> Buffered()
    {
      var decision := Decide(State(), cmd);
      match decision
      case Err(error) =>
        r := Fail(error);
      case Ok(payload) =>
        var _ := RaiseEvent(NewEvent(eventId, now, payload));
        r := Pass;
    }
  }

  /** The entries of `items` whose keys are in `keys`. */
  function Restrict(items: map<Id, ItemLine>, keys: set<Id>): (r: map<Id, ItemLine>)
    ensures r.Keys == items.Keys * keys
    ensures forall k :: k in r ==> r[k] == items[k]
  {
    map k | k in items && k in keys :: items[k]
  }

  lemma RestrictAll(items: map<Id, ItemLine>)
    ensures ItemsTotal(Restrict(items, items.Keys)) == ItemsTotal(items)
  {
    assert Restrict(items, items.Keys) == items;
  }

  lemma RestrictNone(items: map<Id, ItemLine>, keys: set<Id>)
    requires keys == {}
    ensures ItemsTotal(Restrict(items, keys)) == 0
  {
    assert Restrict(items, keys) == map[];
  }

  lemma RestrictStep(items: map<Id, ItemLine>, keys: set<Id>, k: Id)
    requires k in keys && keys <= items.Keys
    ensures ItemsTotal(Restrict(items, keys)) == LineTotal(items[k]) + ItemsTotal(Restrict(items, keys - {k}))
  {
    ItemsTotalRemove(Restrict(items, keys), k);
    assert Restrict(items, keys) - {k} == Restrict(items, keys - {k});
  }
}
