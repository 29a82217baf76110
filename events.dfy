/** The domain events and order status of the full variant (complex_e2e.py). Events are values:
    the stamping that the source performs on event objects is written as `Stamp`. */
module Events {
  import opened Wrappers

  /** Identifiers (UUIDs in the source) are opaque integers; timestamps are natural numbers. */
  type Id = int
  type Timestamp = nat

  /** Free-form `Dict[str, Any]` fields are kept as opaque string maps. */
  type Metadata = map<string, string>

  /** One entry of an order's item list: `product_id`, `quantity`, `unit_price` (in cents) and `item_name`. */
  datatype ItemLine = ItemLine(productId: Id, quantity: int, unitPrice: int, itemName: string)

  /** The type-specific fields of each event class. */
  datatype Payload =
    | OrderCreated(customerId: Option<Id>, items: seq<ItemLine>, totalAmount: int, currency: string)
    | OrderItemAdded(productId: Id, quantity: int, unitPrice: int, itemName: string)
    | OrderItemRemoved(productId: Id, quantity: int)
    | OrderShipped(shippingAddress: Metadata, trackingNumber: string, carrier: string)
    | OrderCancelled(reason: string, refundAmount: int)
    | PaymentProcessed(paymentMethod: string, amount: int, transactionId: string)

  /** An event: the fields of the `Event` base class and the payload of its class.
      `aggregateId` is `None` until an aggregate or the store stamps it. */
  datatype Event = Event(eventId: Id, aggregateId: Option<Id>, version: int, timestamp: Timestamp,
                         metadata: Metadata, payload: Payload)

  datatype OrderStatus = Pending | Confirmed | Shipped | Delivered | Cancelled

  /** A freshly constructed event: no aggregate yet and version 0, as the dataclass defaults say. */
  function NewEvent(eventId: Id, now: Timestamp, payload: Payload): (e: Event)
    ensures e.aggregateId == None && e.version == 0 && e.payload == payload
    ensures e.eventId == eventId && e.timestamp == now && e.metadata == map[]
  {
    Event(eventId, None, 0, now, map[], payload)
  }

  /** Overwrites an event's aggregate id and version, as both `apply_event` and `append_events` do. */
  function Stamp(e: Event, id: Id, version: int): (r: Event)
    ensures r.aggregateId == Some(id) && r.version == version
    ensures r.eventId == e.eventId && r.timestamp == e.timestamp
    ensures r.metadata == e.metadata && r.payload == e.payload
  {
    e.(aggregateId := Some(id), version := version)
  }

  /** Stamping an event that already carries the id and version changes nothing. */
  lemma StampIdentity(e: Event, id: Id, version: int)
    requires e.aggregateId == Some(id) && e.version == version
    ensures Stamp(e, id, version) == e
  {
  }

  /** Stamps `events` with `id` and the consecutive versions `first`, `first + 1`, ... */
  function StampFrom(events: seq<Event>, id: Id, first: int): (r: seq<Event>)
    ensures |r| == |events|
    ensures forall i :: 0 <= i < |r| ==> r[i] == Stamp(events[i], id, first + i)
  {
    seq(|events|, i requires 0 <= i < |events| => Stamp(events[i], id, first + i))
  }

  /** The events already stamped with `id` and versions `first`, `first + 1`, ... */
  ghost predicate StampedFrom(events: seq<Event>, id: Id, first: int) {
    forall i :: 0 <= i < |events| ==> events[i].aggregateId == Some(id) && events[i].version == first + i
  }

  /** Re-stamping a sequence that already carries its stamps is the identity: this is why the
      source's in-place re-stamping in `Repository.load` and in a `Repository.save` append has
      no visible effect. */
  lemma StampFromIdentity(events: seq<Event>, id: Id, first: int)
    requires StampedFrom(events, id, first)
    ensures StampFrom(events, id, first) == events
  {
    var r := StampFrom(events, id, first);
    forall i | 0 <= i < |events| ensures r[i] == events[i] {
      StampIdentity(events[i], id, first + i);
    }
  }

  /** The value of the `event_type` field: the event's class name. */
  function TypeName(p: Payload): (name: string)
    ensures |name| > 0
  {
    match p
    case OrderCreated(_, _, _, _) => "OrderCreated"
    case OrderItemAdded(_, _, _, _) => "OrderItemAdded"
    case OrderItemRemoved(_, _) => "OrderItemRemoved"
    case OrderShipped(_, _, _) => "OrderShipped"
    case OrderCancelled(_, _) => "OrderCancelled"
    case PaymentProcessed(_, _, _) => "PaymentProcessed"
  }

  /** The event classes, as the deserializer's lookup table names them. */
  datatype EventKind = CreatedKind | ItemAddedKind | ItemRemovedKind | ShippedKind | CancelledKind | PaymentKind

  function KindOf(p: Payload): EventKind {
    match p
    case OrderCreated(_, _, _, _) => CreatedKind
    case OrderItemAdded(_, _, _, _) => ItemAddedKind
    case OrderItemRemoved(_, _) => ItemRemovedKind
    case OrderShipped(_, _, _) => ShippedKind
    case OrderCancelled(_, _) => CancelledKind
    case PaymentProcessed(_, _, _) => PaymentKind
  }

  /** The deserializer's class lookup: an unknown `event_type` is rejected with an error. */
  function LookupEventClass(eventType: string): (r: Result<EventKind, string>)
    ensures r.Err? <==> eventType !in {"OrderCreated", "OrderItemAdded", "OrderItemRemoved",
                                       "OrderShipped", "OrderCancelled", "PaymentProcessed"}
  {
    if eventType == "OrderCreated" then Ok(CreatedKind)
    else if eventType == "OrderItemAdded" then Ok(ItemAddedKind)
    else if eventType == "OrderItemRemoved" then Ok(ItemRemovedKind)
    else if eventType == "OrderShipped" then Ok(ShippedKind)
    else if eventType == "OrderCancelled" then Ok(CancelledKind)
    else if eventType == "PaymentProcessed" then Ok(PaymentKind)
    else Err("Unknown event type: " + eventType)
  }

  /** Every event's own type name is found again by the lookup, as the same class. */
  lemma LookupTypeNameRoundTrip(p: Payload)
    ensures LookupEventClass(TypeName(p)) == Ok(KindOf(p))
  {
  }
}
