# Event-sourced order processing, modelled in Dafny

The system keeps orders as event streams. An order aggregate validates a command, raises an event and
folds it into its own state. An append-only event store keeps one stream per aggregate and checks the
expected stream length on every append. Read models are built by handing the stored events, in
timestamp order, to each registered projection. The repository carries the same design at three
levels of detail, and each is modelled here in its own module group:

- `complex_e2e.py` is the full variant:
  - `Events`: the six event classes and the stamping of aggregate id and version.
  - `Orders`: `AggregateRoot` and `Order`, with the status machine, the items map and the total.
  - `Store`: the store with optimistic concurrency, version stamping, the global timestamp-sorted
    read and snapshots.
  - `Repository`: save and load.
  - `Projections`: the projection builder, with full rebuild and catch-up from a timestamp mark.
  - `ReadModels`: the order-summary, inventory and customer-history read models.
  - `Timeline`: the stable sort by timestamp and the filters the store and builder use.
- `level2.py` (module `Level2`): frozen events that carry their own version. The aggregate is
  rebuilt with `from_events`, and its commands return an event without changing the aggregate. The
  store checks the stream length and each event's version.
- `simple.py` (module `Simple`): events with a type string and a free-form payload, and an order
  that applies them. A global log hands every appended event to its subscribers, and an order
  projection is subscribed to it.

Sources of nondeterminism are parameters:
- the fresh UUIDs of events and aggregates;
- the `utcnow()` clock readings;
- the customer's order id in the scripts.

Money is integer cents. Exceptions are `Result`/`Outcome` values, whose error carries the
exception's class and message. Each mutable Python object whose fields its methods update is a
Dafny class with those fields, and each method is proved against a pure function of the old state.
Each function's own properties are proved as lemmas:
- `Handle` and `Replay` for `_handle_event`;
- `SummaryStep`, `InventoryStep` and `HistoryStep` for the read models;
- `Evolve` for level2's `_apply`;
- `Handled` for simple's `OrderProjection.handle`.

Where the code and the written design of the system disagree, the model follows the code:
- The design says an append validates the versions of a batch and is all-or-nothing. In the full
  variant, `append_events` overwrites each event's aggregate id and version without checking them
  (`Store.Appended`). In level2, `append_events` checks each version but keeps the events accepted
  before the first out-of-sequence one (`Level2.PartialBatchStays`).
- The design says a rebuild with no events resets the mark. `rebuild_all_projections` leaves the
  mark as it was, and it does not clear the read models before replaying
  (`Projections.RebuildDoesNotReset`).
- The design lists "shipping an order with zero items fails" for every variant. Only level2's
  `ship_order` checks for items; the full variant only requires CONFIRMED.
- `cancel_order` accepts an order that is already cancelled, and an order that was never created.

## Model

| member | source | states |
|---|---|---|
| Events.NewEvent | complex_e2e.py:13-24 | a freshly constructed event has no aggregate id, version 0, an empty metadata dict, and the given event id, clock reading and payload |
| Events.Stamp | complex_e2e.py:90-91 | stamping sets exactly the aggregate id and the version and keeps event id, timestamp, metadata and payload |
| Events.StampIdentity | complex_e2e.py:90-91 | re-stamping an event with the id and version it already carries leaves it unchanged |
| Events.StampFrom | complex_e2e.py:283-287 | stamping a batch keeps its length and gives the i-th event the id and version `first + i` |
| Events.StampFromIdentity | complex_e2e.py:345-346 | re-stamping a stream already numbered 1, 2, … with its own id (as `load` does through `apply_event`) leaves it unchanged |
| Events.LookupEventClass | complex_e2e.py:606-617 | the deserializer's lookup fails exactly for a type name outside the six event classes |
| Events.LookupTypeNameRoundTrip | complex_e2e.py:606-617 | the lookup of every event's own `event_type` finds its own class |
| Timeline.Filter | complex_e2e.py:303 | an event is kept exactly when it is in the input and satisfies the condition; no more events than the input has |
| Timeline.FilterCount | complex_e2e.py:303 | every copy of a kept event survives and no copy of a dropped one: the kept multiset is the input's restricted to the condition |
| Timeline.FilterAppend | complex_e2e.py:303 | the comprehension keeps the input's order: filtering a concatenation concatenates the filtered parts |
| Timeline.Insert | complex_e2e.py:305 | inserting grows the sequence by one and adds exactly that event to its multiset |
| Timeline.SortByTime | complex_e2e.py:305 | sorting is a permutation: same length, same multiset |
| Timeline.SortIdentity | complex_e2e.py:305 | events that all share one timestamp come out of the sort unchanged |
| Timeline.SortStable | complex_e2e.py:305 | `sorted` is stable: for every timestamp, the events carrying it come out in the order they went in |
| Timeline.SortSorted | complex_e2e.py:305 | the sorted sequence is ordered by timestamp |
| Timeline.SortMembers | complex_e2e.py:305 | sorting keeps exactly the same members |
| Timeline.FilterSort | complex_e2e.py:302-305 | filtering the sorted events equals sorting the filtered events (ties keep append order) |
| Timeline.SortSplit | complex_e2e.py:386-390 | sorting all events equals sorting those at or before a mark followed by sorting those after it |
| Timeline.MaxTimestamp | complex_e2e.py:382 | the maximum bounds every timestamp and is the timestamp of some event |
| Timeline.SortedMaxIsLast | complex_e2e.py:382 | in a sorted non-empty sequence the maximum timestamp is the last event's |
| Orders.InsertLines | complex_e2e.py:205-207 | the items of `OrderCreated` add their product ids to the item keys |
| Orders.InsertLinesKeeps | complex_e2e.py:205-207 | a product that no listed item names keeps the item it had |
| Orders.InsertLinesLastWins | complex_e2e.py:205-207 | the last listed item for a product is the one stored under it |
| Orders.AddItemTo | complex_e2e.py:209-220 | adding a known product raises its quantity and keeps its price and name; adding a new one inserts the line as given; other products are untouched |
| Orders.RemoveItemFrom | complex_e2e.py:223-229 | an unknown product changes nothing; removing at least the current quantity deletes the line; otherwise the quantity drops by that amount; other products are untouched |
| Orders.AddThenRemoveRestores | complex_e2e.py:209-229 | removing the quantity just added restores the items map |
| Orders.ItemsTotalRemove | complex_e2e.py:253-258 | the items total is the chosen line's total plus the total of the rest, whichever line is taken first |
| Orders.TotalAfterAdd | complex_e2e.py:209-221 | after an add the recalculated total grows by quantity times the product's price (the recorded price for a known product) |
| Orders.HandleItemTotal | complex_e2e.py:221-230 | after an item add, or a removal of a known product, the total equals the sum over the items |
| Orders.ReplayAppend | complex_e2e.py:88-93 | replaying `a + b` is replaying `b` on the state `a` produced |
| Orders.HandleStatus | complex_e2e.py:198-251 | OrderCreated gives PENDING, PaymentProcessed CONFIRMED, OrderShipped SHIPPED, OrderCancelled CANCELLED; item events keep the status |
| Orders.ReplayNeverDelivered | complex_e2e.py:198-251 | no sequence of events leads to DELIVERED |
| Orders.Decide | complex_e2e.py:128-196 | each command's guard as an if-and-only-if (create once, item/payment commands only when PENDING, remove also needs the product, ship only when CONFIRMED, cancel unless SHIPPED/DELIVERED) and the one event it raises |
| Orders.Order.constructor | complex_e2e.py:83-126 | a new order is at version 0 with no buffer, no history and the initial state |
| Orders.Order.RecalculateTotal | complex_e2e.py:253-258 | the loop over the items leaves the total equal to the sum of quantity times price |
| Orders.Order.HandleEvent | complex_e2e.py:198-251 | the fields change exactly as the fold step prescribes |
| Orders.Order.HandleOrderCreated | complex_e2e.py:200-207 | sets customer, currency, the event's total, PENDING, and inserts the event's items |
| Orders.Order.HandleItemAdded | complex_e2e.py:209-221 | the items grow as `AddItemTo` says and the total is recalculated |
| Orders.Order.HandleItemRemoved | complex_e2e.py:223-230 | the items shrink as `RemoveItemFrom` says and the total is recalculated |
| Orders.Order.ApplyEvent | complex_e2e.py:88-93 | the event is stamped with the order's id and version+1, the version rises by one, the state takes one fold step; the invariant version = history length and state = replay of history is kept |
| Orders.Order.RaiseEvent | complex_e2e.py:95-98 | as `ApplyEvent`, and the stamped event is appended to the end of the uncommitted buffer, which stays the tail of the history |
| Orders.Order.MarkEventsAsCommitted | complex_e2e.py:100-102 | the buffer is empty and the invariant is kept |
| Orders.Order.GetUncommittedEvents | complex_e2e.py:104-106 | returns the buffer's contents as a value, which later changes to the buffer cannot reach |
| Orders.Order.Execute | complex_e2e.py:128-196 | a rejected command returns its error and changes nothing; an accepted one raises exactly the event `Decide` gives, stamped at version+1 |
| Orders.Restrict | complex_e2e.py:255-258 | the items restricted to a key set keep exactly those keys and their lines |
| Store.Appended | complex_e2e.py:283-287 | the old stream is kept as a prefix, the stream grows by the batch, and the i-th new event gets the stream id and version `len(old) + i + 1`, whatever it carried |
| Store.SliceFrom | complex_e2e.py:294 | Python's `stream[from_version:]`, negative starts included |
| Store.StampOnto | complex_e2e.py:283-287 | the append loop computes `Appended` |
| Store.WellFormedUpdate | complex_e2e.py:271-287 | storing a stream numbered from 1 keeps the store's invariant and records a new id in first-seen order |
| Store.EventStore.constructor | complex_e2e.py:265-267 | an empty store |
| Store.EventStore.AppendEvents | complex_e2e.py:269-287 | fails with the expected and current length exactly when an expected version is given and differs (the stream then exists, possibly empty, and is otherwise unchanged); otherwise the stream becomes `Appended` |
| Store.EventStore.GetEvents | complex_e2e.py:289-294 | `[]` for an unknown aggregate or a start past the end; from a start inside the stream, the stream's suffix from that position; always a suffix of the stream |
| Store.EventStore.GetAllEvents | complex_e2e.py:296-305 | sorted by timestamp; without a start a permutation of all stored events; with one, a permutation of the stored events at or after it, so an event is returned exactly when it is stored and not earlier than the start; events with the same timestamp keep their store order |
| Store.EventStore.GetEventsAboveVersion | complex_e2e.py:289-294 | `get_events` returns exactly the stored events above `from_version`, numbered consecutively |
| Store.EventStore.SaveSnapshot | complex_e2e.py:307-313 | the snapshot replaces any earlier one for that id |
| Store.EventStore.GetSnapshot | complex_e2e.py:315-317 | finds the snapshot exactly when one was saved |
| Store.AppendedPositions | complex_e2e.py:283-287 | after any append every stored event carries the stream id and its 1-based position as version |
| Store.AppendStampedBatch | complex_e2e.py:283-287 | appending a batch already numbered from the stream's length + 1 stores it unchanged |
| Repository.Save | complex_e2e.py:327-336 | an empty buffer changes nothing; otherwise append with `version - len(uncommitted)`: a new aggregate id is added to the store's key order, success appends the buffer to the stream and clears it, failure leaves the stream's events and the buffer as they were; a store holding the committed prefix ends holding the whole history |
| Repository.BufferSplit | complex_e2e.py:329-334 | the buffer is the tail of the history after the committed prefix |
| Repository.BufferStamped | complex_e2e.py:329-334 | the buffer is numbered from `version - len(uncommitted) + 1` with the aggregate's id |
| Repository.Load | complex_e2e.py:338-349 | no order for an empty stream; otherwise a fresh order whose version is the stream length, whose state is the replay of the stream, with an empty buffer |
| Repository.SaveThenLoad | complex_e2e.py:327-349 | saving then loading gives an order with the same state and version and no uncommitted events |
| ReadModels.FoldEvents | complex_e2e.py:392-394 | folding no events leaves the state as it was |
| ReadModels.FoldAppend | complex_e2e.py:392-394 | folding `a + b` is folding `b` after `a` |
| ReadModels.TouchKeeps | complex_e2e.py:412 | a dict assignment keeps the key insertion order: a new key goes last, an existing key keeps its place |
| ReadModels.SummaryStep | complex_e2e.py:407-447 | OrderCreated (re)starts a PENDING summary; payment, shipping, cancellation and item events update a known order's summary and stamp `last_updated`; unknown orders and other orders are untouched; a new order's id goes to the end of the key order, and no other event moves a key |
| ReadModels.SummaryStepUpdates | complex_e2e.py:423-447 | payment sets CONFIRMED and the method; shipping sets SHIPPED, tracking number, carrier and time; cancellation sets CANCELLED, time and reason; item events only the time; every other field is kept |
| ReadModels.SummaryOfCreated | complex_e2e.py:412-421 | the new summary is PENDING, for the event's order, stamped with the event's time |
| ReadModels.SummaryTracksOrder | complex_e2e.py:407-447 | a summary whose status agrees with an order keeps agreeing with the replay of that order's events |
| ReadModels.Select | complex_e2e.py:455-465 | the query returns exactly the stored summaries that satisfy the condition |
| ReadModels.OrderSummaryReadModel.constructor | complex_e2e.py:404-405 | no orders |
| ReadModels.OrderSummaryReadModel.HandleEvent | complex_e2e.py:407-447 | the model changes exactly by `SummaryStep` |
| ReadModels.OrderSummaryReadModel.GetOrderSummary | complex_e2e.py:449-451 | found exactly when the order is known, with its summary |
| ReadModels.OrderSummaryReadModel.GetOrdersByCustomer | complex_e2e.py:453-458 | exactly the stored summaries of that customer |
| ReadModels.OrderSummaryReadModel.GetOrdersByStatus | complex_e2e.py:460-465 | exactly the stored summaries with that status |
| ReadModels.SelectSnoc | complex_e2e.py:453-465 | both queries walk the dict in insertion order: an order created later comes after every earlier one it is listed with |
| ReadModels.InventoryStep | complex_e2e.py:475-498 | an item add raises the product's reservation (from 0 if unknown); a removal lowers a known one, clamped at 0; other events and products are untouched |
| ReadModels.ReservedIn | complex_e2e.py:500-502 | an unknown product has reservation 0 |
| ReadModels.InventoryNonNegative | complex_e2e.py:484-490 | reservations stay non-negative as long as no add carries a negative quantity |
| ReadModels.NegativeAddGoesNegative | complex_e2e.py:477-482 | an add with a negative quantity makes a reservation negative, since only removals clamp |
| ReadModels.ReserveThenRelease | complex_e2e.py:477-490 | reserving a quantity and then releasing it restores the reservation |
| ReadModels.InventoryReadModel.constructor | complex_e2e.py:471-473 | no reservations |
| ReadModels.InventoryReadModel.HandleEvent | complex_e2e.py:475-498 | the reservations change exactly by `InventoryStep` |
| ReadModels.InventoryReadModel.GetReservedQuantity | complex_e2e.py:500-502 | the recorded reservation, or 0 for an unknown product |
| ReadModels.FirstEntry | complex_e2e.py:548-550 | the first position of an order in one customer's list, or none when absent |
| ReadModels.FindOrder | complex_e2e.py:545-551 | the first customer in insertion order holding the order, at its first position there, or none when no customer holds it |
| ReadModels.HistoryStep | complex_e2e.py:512-543 | OrderCreated files a PENDING entry at the end of the customer's list (creating the customer on first sight) and keeps the count equal to the list length; other events never add or remove customers or entries, and events other than the two change nothing; a new customer goes to the end of the key order, and no other event moves a key |
| ReadModels.HistoryStepCreated | complex_e2e.py:514-536 | a creation counts the order and sets the last order date; a new customer starts with nothing spent and both dates the event's time; an existing one keeps what they spent and their first order date |
| ReadModels.HistoryStepPayment | complex_e2e.py:538-543 | a payment for an order found nowhere changes nothing; otherwise only the located entry changes, to CONFIRMED with its other fields kept, and only that customer's spending changes, by the amount; every other entry and customer is kept |
| ReadModels.OrdersOf | complex_e2e.py:555 | an unknown customer has no orders |
| ReadModels.CountCreated | complex_e2e.py:514-536 | the count of a customer's creations is zero exactly when no event creates an order of theirs |
| ReadModels.HistoryStepCount | complex_e2e.py:514-543 | one event adds an entry to a customer's list exactly when it creates an order of theirs |
| ReadModels.HistoryCountsOrders | complex_e2e.py:512-543 | after any events each customer's list has grown by the number of their orders created |
| ReadModels.HistoryFold | complex_e2e.py:512-543 | folding keeps the invariant: keys in dict order, count = list length |
| ReadModels.HistoryKeepsKeyOrder | complex_e2e.py:514-520 | customers keep their positions in the key order across any events, new customers going after them, so the search for an order visits customers in first-seen order |
| ReadModels.CustomerOrderHistoryReadModel.constructor | complex_e2e.py:508-510 | no customers |
| ReadModels.CustomerOrderHistoryReadModel.HandleEvent | complex_e2e.py:512-543 | the model changes exactly by `HistoryStep` and keeps its invariant |
| ReadModels.CustomerOrderHistoryReadModel.HandleOrderCreated | complex_e2e.py:514-536 | the creation branch changes the model exactly by `HistoryStep` |
| ReadModels.CustomerOrderHistoryReadModel.HandlePaymentProcessed | complex_e2e.py:538-543 | the payment branch changes the model exactly by `HistoryStep`, which `HistoryStepPayment` spells out |
| ReadModels.CustomerOrderHistoryReadModel.GetCustomerOrders | complex_e2e.py:553-555 | the customer's list, or empty for an unknown customer |
| ReadModels.CustomerOrderHistoryReadModel.GetCustomerStats | complex_e2e.py:557-559 | the customer's statistics, or none for an unknown customer |
| Projections.Step | complex_e2e.py:357-359 | handing an event to a read model keeps its kind and its invariant |
| Projections.DeliverAllSound | complex_e2e.py:392-394 | delivering any events keeps each read model's invariant |
| Projections.DeliverAllAppend | complex_e2e.py:392-394 | delivering `a + b` is delivering `b` after `a` |
| Projections.DeliverAllSnoc | complex_e2e.py:392-394 | delivering one more event is one more handler step |
| Projections.DeliverAllSummary | complex_e2e.py:392-394 | delivering to a summary model is the summary fold |
| Projections.ValuesOf | complex_e2e.py:367 | the registry's values have exactly the registered names |
| Projections.StepEach | complex_e2e.py:393-394 | handing an event to every model keeps the names |
| Projections.DeliverEach | complex_e2e.py:392-394 | delivering to every model keeps the names |
| Projections.DeliverEachSnoc | complex_e2e.py:392-394 | one more event delivered to all models is one more step for each |
| Projections.StepAllListed | complex_e2e.py:393-394 | stepping every model listed in registration order steps every model |
| Projections.HandleWith | complex_e2e.py:394 | the read model behind a reference changes by one handler step |
| Projections.PendingFromStore | complex_e2e.py:386-390 | asking for events at or after the mark and dropping those at it gives the sorted events after the mark |
| Projections.MarkAdvances | complex_e2e.py:396-397 | when anything is caught up on, the new mark is strictly later |
| Projections.CatchUpMatchesRebuild | complex_e2e.py:374-397 | events up to the mark followed by a catch-up deliver every event once, in the order a full rebuild uses |
| Projections.LateEventSkipped | complex_e2e.py:386-390 | an event stored later but stamped no later than the mark is never delivered |
| Projections.RebuildDoesNotReset | complex_e2e.py:374-379 | a rebuild replays onto the current models, so a reservation already counted is counted again |
| Projections.ProjectionBuilder.constructor | complex_e2e.py:365-368 | no read models and no mark |
| Projections.ProjectionBuilder.RegisterReadModel | complex_e2e.py:370-372 | the name maps to the model; a new name goes last in the order, a known name keeps its place |
| Projections.ProjectionBuilder.DeliverTo | complex_e2e.py:393-394 | only the chosen model takes a step |
| Projections.ProjectionBuilder.DeliverOne | complex_e2e.py:393-394 | every registered model takes one step with the event |
| Projections.ProjectionBuilder.Deliver | complex_e2e.py:392-394 | every registered model receives the events in order; the registry is unchanged |
| Projections.ProjectionBuilder.RebuildAllProjections | complex_e2e.py:374-382 | every model receives all stored events in timestamp order; the mark becomes their maximum, or stays when there are none |
| Projections.ProjectionBuilder.UpdateProjections | complex_e2e.py:384-397 | every model receives exactly the events after the mark (all when there is none) in timestamp order; the mark becomes their maximum or stays, and never moves back |
| Projections.ProjectionBuilder.FetchUnprocessed | complex_e2e.py:386-390 | the events fetched are those `update_projections` delivers |
| Level2.Evolve | level2.py:63-87 | every event sets the version to its own; an event without a handler changes nothing else |
| Level2.ReplaySnoc | level2.py:103-104 | replaying one more event is one more `_apply` |
| Level2.ReplayVersion | level2.py:89-105 | after a non-empty replay the version is the last event's |
| Level2.ReplayQuantity | level2.py:83-84 | an item's quantity is its starting quantity plus all quantities added for that name |
| Level2.ReplayStatus | level2.py:79-87 | the status is the one set by the latest OrderCreated or OrderShipped |
| Level2.CreateOrderOn | level2.py:107-116 | fails with "Order already exists." exactly when the version is not 0; otherwise OrderCreated for the aggregate at version+1 |
| Level2.AddItemOn | level2.py:118-128 | fails exactly when SHIPPED; otherwise ItemAddedToOrder at version+1 |
| Level2.ShipOrderOn | level2.py:130-140 | fails exactly when SHIPPED or without items, the SHIPPED error first; otherwise OrderShipped at version+1 |
| Level2.CommandsAdvanceOneVersion | level2.py:107-140 | applying an accepted command's event raises the version by one; after shipping, shipping and adding fail; after creating, creating fails |
| Level2.OrderAggregate.constructor | level2.py:55-61 | version 0, no customer, PENDING, no items |
| Level2.OrderAggregate.Apply | level2.py:63-77 | the state changes exactly by `Evolve` |
| Level2.OrderAggregate.HandleOrderCreated | level2.py:79-81 | sets the customer name and CREATED |
| Level2.OrderAggregate.HandleItemAdded | level2.py:83-84 | the item's count becomes its old count (0 if absent) plus the quantity |
| Level2.OrderAggregate.HandleOrderShipped | level2.py:86-87 | sets SHIPPED |
| Level2.OrderAggregate.FromEvents | level2.py:89-105 | ValueError for an empty list, TypeError when the first event is not OrderCreated; otherwise a fresh aggregate with the first event's id and the replayed state |
| Level2.Accepted | level2.py:167-172 | how many leading events of a batch follow the sequence: those all do, and the next one does not |
| Level2.PartialBatchStays | level2.py:167-172 | a batch whose second event is out of sequence leaves its first event stored |
| Level2.StoredVersion | level2.py:163-172 | replaying a stored stream gives its length as version |
| Level2.EventStore.constructor | level2.py:152-154 | no streams |
| Level2.EventStore.AppendEvents | level2.py:156-172 | on a length mismatch the version-mismatch error and the stream only created if absent; otherwise the accepted prefix of the batch is appended, and the out-of-sequence error exactly when the batch was not fully accepted; every stream stays numbered 1, 2, … |
| Level2.EventStore.GetEventsForAggregate | level2.py:174-176 | empty for an unknown id; a stored stream is always numbered 1, 2, … |
| Level2.LifecycleStates | level2.py:188-237 | the states the script's aggregate is rebuilt into after each of its four events |
| Level2.Rebuild | level2.py:202-203 | the stored stream and the aggregate rebuilt from it |
| Level2.Round | level2.py:202-210 | one read-rebuild-command-append round appends exactly the command's event |
| Level2.Lifecycle | level2.py:182-244 | the script ends with version 4, customer "Alice", SHIPPED and T-shirt ×2, Jeans ×1 |
| Simple.CreateEvent | simple.py:23-31 | the event carries the given type, aggregate, payload, id and time |
| Simple.ApplyAllItems | simple.py:40-46 | an order's items are those it had plus the payloads of the ItemAdded events, in order |
| Simple.ApplyAllStatus | simple.py:40-46 | the status is the one set by the latest OrderCreated or OrderConfirmed |
| Simple.CommandsApply | simple.py:40-55 | the event `add_item` returns appends exactly its line and keeps the status; the one `confirm` returns sets CONFIRMED and keeps the items |
| Simple.Order.constructor | simple.py:34-38 | CREATED with no items |
| Simple.Order.Apply | simple.py:40-46 | the order changes exactly by `Applied`: status for the two status events, the payload appended for ItemAdded, nothing otherwise |
| Simple.Order.Create | simple.py:48-49 | an OrderCreated event for the given id with payload `order_id` |
| Simple.Order.AddItem | simple.py:51-52 | an ItemAdded event of this order whose payload is the product id and the quantity |
| Simple.Order.Confirm | simple.py:54-55 | an OrderConfirmed event of this order with an empty payload |
| Simple.Handled | simple.py:79-85 | raises KeyError exactly for ItemAdded or OrderConfirmed of an unknown order; OrderCreated (re)creates the entry; other orders are untouched |
| Simple.HandledEntry | simple.py:79-85 | OrderCreated replaces the entry by a CREATED one without items; ItemAdded appends the payload to the entry's items and keeps its status; OrderConfirmed confirms it and keeps its items; other types change nothing |
| Simple.HandleAllSnoc | simple.py:79-85 | handling one more event extends the fold, and an earlier error persists |
| Simple.ProjectionMatchesOrder | simple.py:79-85 | for a stream that starts with its only creation, the projected entry equals the aggregate's status and items |
| Simple.RecreateDiverges | simple.py:80-81 | a second OrderCreated empties the projected items while the aggregate keeps them |
| Simple.OrderProjection.constructor | simple.py:76-77 | no orders |
| Simple.OrderProjection.Handle | simple.py:79-85 | the orders change exactly by `Handled`; the KeyError leaves them unchanged |
| Simple.OfAggregate | simple.py:68-69 | exactly the logged events of that aggregate, no more than the log holds |
| Simple.OfAggregateAppend | simple.py:63-69 | appending adds the event to the end of its own aggregate's events only |
| Simple.FirstRejecting | simple.py:65-66 | the subscribers before the first one that raises all accept the event |
| Simple.OneSubscriber | simple.py:65-66 | a single subscriber stops delivery exactly when it raises |
| Simple.EventStore.constructor | simple.py:59-61 | an empty log and no subscribers |
| Simple.EventStore.Append | simple.py:63-66 | the event is logged at the end first; subscribers are called in order until one raises; those before it are updated, the rest are unchanged, and the error reaches the caller |
| Simple.EventStore.Subscribe | simple.py:71-72 | the subscriber goes to the end of the list |
| Simple.ScriptFold | simple.py:92-103 | the script's three events, handled in order from nothing, give the confirmed order with its one line |
| Simple.EventStore.GetByAggregate | simple.py:68-69 | an event is returned exactly when it is logged and belongs to the aggregate |
| Simple.AppendToSoleProjection | simple.py:63-66 | with one subscribed projection holding the fold of `handle` over the log, an append keeps that so, or the fold and the delivery both raise and the projection is left as it was |
| Simple.ExampleUsage | simple.py:88-105 | after the script the log holds three events and the projection equals the fold of `handle` over the log: the order CONFIRMED with the line P123 × 2 |

## Left out

- Floating-point money is modelled as integer cents. The script's 2 × 29.99 + 49.99 total is float arithmetic and is not asserted.
- `uuid4()` and `datetime.utcnow()` are parameters: event ids, aggregate ids and every clock reading, including the snapshot's `timestamp`. Timestamps are natural numbers, and level2's and simple's ISO strings are opaque values.
- `EventSerializer.serialize`/`deserialize` are wrappers over `json`, `UUID` and `datetime`. Only the class lookup by `event_type` is modelled (`Events.LookupEventClass`).
- `Dict[str, Any]` contents (`shipping_address`, `metadata`, snapshot data) are opaque string maps. The `shipping_info`/`payment_info` dicts are records.
- There are no threads or locks in the code. Every operation is sequential.
- Python object aliasing is not modelled. Events are values, so the code's in-place mutation of event objects is written as `Stamp`, and the lemmas show where it changes nothing. `OrderCreated` puts its own item dicts into `Order.items`, and a later `+=` on a quantity mutates the stored event. That effect is not modelled.
- Orders.Order: `_handle_event`'s `isinstance` chain is a `match` on the payload. The abstract `AggregateRoot` is folded into `Order`, the only subclass.
- Projections.ProjectionBuilder.RegisterReadModel: requires the same object not to be registered under two names. A model registered twice would receive every event twice, which the value model cannot show.
- ReadModels.InventoryReadModel: the unused `inventory` dict is not modelled.
- Simple.EventStore.Subscribe: subscribers are modelled as order projections only, each subscribed at most once. Any other callable is not modelled.
- Level2.Event: the `Protocol` allows any class; every class other than the three handled ones is the single `Unhandled` constructor.
- Repository.Load: `aggregate_class` is always `Order`, the only aggregate. Replay puts the stored `OrderCreated`'s own item dicts into the order, and a later item event's `+=` or partial `-=` on that product then changes the stored event; the model, where events are values, does not capture this.
- Repository.SaveThenLoad: the round trip holds for events as values only. In the code, creating an order with two of product p, adding one more p, saving and loading gives quantity 4, not 3, and each further load adds one more, because the stored `OrderCreated` item dict was mutated by the add.
- The demo drivers are modelled as scenario methods: `example_usage` of the full variant is not, and level2's `main` and simple's script are (`Level2.Lifecycle`, `Simple.ExampleUsage`). Printing is not modelled.
- Level2.OrderAggregate.CreateOrder / AddItem / ShipOrder: each carries no contract of its own. Each passes its fields to `CreateOrderOn` / `AddItemOn` / `ShipOrderOn`, which carry the contracts.
