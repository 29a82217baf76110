/** The projection builder of the full variant (complex_e2e.py, `ProjectionBuilder`): it feeds the
    store's events, in timestamp order, to every registered read model, either all of them or only
    those after the high-water mark it keeps. */
module Projections {
  import opened Wrappers
  import opened Events
  import opened Timeline
  import opened Store
  import opened ReadModels

  /** A registered read model: one of the three read-model classes. */
  datatype ModelRef =
    | SummaryRef(summary: OrderSummaryReadModel)
    | InventoryRef(inventory: InventoryReadModel)
    | HistoryRef(history: CustomerOrderHistoryReadModel)

  function Obj(r: ModelRef): object {
    match r
    case SummaryRef(s) => s
    case InventoryRef(i) => i
    case HistoryRef(h) => h
  }

  /** What a read model holds, as a value. */
  datatype ModelValue =
    | SummaryValue(summaries: Summaries)
    | InventoryValue(reserved: map<Id, int>)
    | HistoryValue(history: History)

  ghost function ValueOf(r: ModelRef): ModelValue
    reads Obj(r)
  {
    match r
    case SummaryRef(s) => SummaryValue(s.View())
    case InventoryRef(i) => InventoryValue(i.reserved)
    case HistoryRef(h) => HistoryValue(h.View())
  }

  /** The invariants of the read models that have one. */
  ghost predicate Sound(v: ModelValue) {
    match v
    case SummaryValue(s) => KeyOrder(s.orders, s.keys)
    case InventoryValue(_) => true
    case HistoryValue(h) => Consistent(h)
  }

  /** One `handle_event` call, on the value. */
  function Step(v: ModelValue, e: Event): (r: ModelValue)
    ensures Sound(v) ==> Sound(r)
    ensures r.SummaryValue? <==> v.SummaryValue?
    ensures r.InventoryValue? <==> v.InventoryValue?
  {
    match v
    case SummaryValue(s) => SummaryValue(SummaryStep(s, e))
    case InventoryValue(reserved) => InventoryValue(InventoryStep(reserved, e))
    case HistoryValue(h) => HistoryValue(HistoryStep(h, e))
  }

  /** A read model's value after it has handled `events` in order. */
  function DeliverAll(v: ModelValue, events: seq<Event>): (r: ModelValue)
    decreases |events|
  {
    if events == [] then v else DeliverAll(Step(v, events[0]), events[1..])
  }

  /** Delivery keeps each read model's invariant. */
  lemma {:induction false} DeliverAllSound(v: ModelValue, events: seq<Event>)
    requires Sound(v)
    ensures Sound(DeliverAll(v, events))
    decreases |events|
  {
    if events != [] {
      DeliverAllSound(Step(v, events[0]), events[1..]);
    }
  }

  lemma {:induction false} DeliverAllAppend(v: ModelValue, a: seq<Event>, b: seq<Event>)
    ensures DeliverAll(v, a + b) == DeliverAll(DeliverAll(v, a), b)
    decreases |a|
  {
    if a == [] {
      assert a + b == b;
    } else {
      assert (a + b)[0] == a[0];
      assert (a + b)[1..] == a[1..] + b;
      DeliverAllAppend(Step(v, a[0]), a[1..], b);
    }
  }

  lemma DeliverAllSnoc(v: ModelValue, a: seq<Event>, e: Event)
    ensures DeliverAll(v, a + [e]) == Step(DeliverAll(v, a), e)
  {
    DeliverAllAppend(v, a, [e]);
    assert [e][1..] == [];
  }

  /** For an order-summary model, delivery is the summary fold the status lemma is stated for. */
  lemma {:induction false} DeliverAllSummary(s: Summaries, events: seq<Event>)
    ensures DeliverAll(SummaryValue(s), events) == SummaryValue(FoldEvents(s, events, SummaryStep))
    decreases |events|
  {
    if events != [] {
      DeliverAllSummary(SummaryStep(s, events[0]), events[1..]);
    }
  }

  /** The values the objects of a registry hold. */
  ghost function ValuesOf(models: map<string, ModelRef>): (r: map<string, ModelValue>)
    reads set n | n in models :: Obj(models[n])
    ensures r.Keys == models.Keys
  {
    map n | n in models :: ValueOf(models[n])
  }

  /** Every model of a registry, one `handle_event` further. */
  function StepEach(m: map<string, ModelValue>, e: Event): (r: map<string, ModelValue>)
    ensures r.Keys == m.Keys
  {
    map n | n in m :: Step(m[n], e)
  }

  /** Every model of a registry after `events`. */
  function DeliverEach(m: map<string, ModelValue>, events: seq<Event>): (r: map<string, ModelValue>)
    ensures r.Keys == m.Keys
  {
    map n | n in m :: DeliverAll(m[n], events)
  }

  /** A registry in which the model of every listed name has been handed `e`, and whose names
      are all listed, has been stepped as a whole. */
  lemma StepAllListed(before: map<string, ModelValue>, after: map<string, ModelValue>, names: seq<string>, e: Event)
    requires after.Keys == before.Keys && forall n :: n in before ==> n in names
    requires forall k :: 0 <= k < |names| && names[k] in before ==> after[names[k]] == Step(before[names[k]], e)
    ensures after == StepEach(before, e)
  {
    forall n | n in before ensures after[n] == Step(before[n], e) {
      var k :| 0 <= k < |names| && names[k] == n;
    }
  }

  lemma DeliverEachSnoc(m: map<string, ModelValue>, events: seq<Event>, e: Event)
    ensures StepEach(DeliverEach(m, events), e) == DeliverEach(m, events + [e])
  {
    forall n | n in m ensures Step(DeliverAll(m[n], events), e) == DeliverAll(m[n], events + [e]) {
      DeliverAllSnoc(m[n], events, e);
    }
  }

  /** A read model whose object is left alone keeps its value. */
  twostate lemma ValueUnchanged(r: ModelRef)
    requires unchanged(Obj(r))
    ensures ValueOf(r) == old(ValueOf(r))
  {
  }

  /** Hands one event to one read model. */
  method HandleWith(r: ModelRef, e: Event)
    modifies Obj(r)
    ensures ValueOf(r) == Step(old(ValueOf(r)), e)
  {
    match r
    case SummaryRef(s) => s.HandleEvent(e);
    case InventoryRef(i) => i.HandleEvent(e);
    case HistoryRef(h) => h.HandleEvent(e);
  }

  /** The events `update_projections` delivers: all of them when there is no mark yet, otherwise
      those strictly after the mark; in timestamp order either way. */
  ghost function Unprocessed(all: seq<Event>, mark: Option<Timestamp>): seq<Event> {
    if mark.Some? then SortByTime(Filter(all, After(mark.value))) else SortByTime(all)
  }

  /** Asking the store for the events at or after the mark and then dropping those at the mark is
      taking the events after the mark and sorting them. */
  lemma PendingFromStore(all: seq<Event>, mark: Timestamp)
    ensures Filter(SortByTime(Filter(all, AtOrAfter(mark))), After(mark)) == Unprocessed(all, Some(mark))
  {
    FilterSort(Filter(all, AtOrAfter(mark)), After(mark));
    FilterFilter(all, AtOrAfter(mark), After(mark), After(mark));
  }

  /** Whenever there is something to catch up on, the mark moves strictly forward. */
  lemma MarkAdvances(all: seq<Event>, mark: Timestamp)
    requires Unprocessed(all, Some(mark)) != []
    ensures MaxTimestamp(Unprocessed(all, Some(mark))) > mark
  {
    var p := Unprocessed(all, Some(mark));
    SortMembers(Filter(all, After(mark)));
    assert p[0] in p;
  }

  /** Catching up from a mark misses nothing and repeats nothing: delivering the events up to the
      mark, then what `update_projections` delivers, is delivering every event once in timestamp
      order, as a rebuild from scratch does. */
  lemma CatchUpMatchesRebuild(v: ModelValue, all: seq<Event>, mark: Timestamp)
    ensures DeliverAll(DeliverAll(v, SortByTime(Filter(all, AtOrBefore(mark)))), Unprocessed(all, Some(mark)))
            == DeliverAll(v, SortByTime(all))
  {
    SortSplit(all, mark);
    DeliverAllAppend(v, SortByTime(Filter(all, AtOrBefore(mark))), SortByTime(Filter(all, After(mark))));
  }

  /** An event stored after the mark was taken but stamped no later than the mark is never
      delivered by `update_projections`. */
  lemma LateEventSkipped(all: seq<Event>, mark: Timestamp, e: Event)
    requires e in all && e.timestamp <= mark
    ensures e !in Unprocessed(all, Some(mark))
  {
    SortMembers(Filter(all, After(mark)));
  }

  /** `rebuild_all_projections` does not clear the read models first: run on models that have
      already seen an event, it hands them that event again, and a reservation is counted twice. */
  lemma RebuildDoesNotReset(e: Event)
    requires e.payload == OrderItemAdded(7, 2, 100, "widget")
    ensures DeliverAll(DeliverAll(InventoryValue(map[]), [e]), [e]) == InventoryValue(map[7 := 4])
  {
    assert [e][1..] == [];
    assert DeliverAll(InventoryValue(map[]), [e]) == InventoryValue(map[7 := 2]);
  }

  class ProjectionBuilder {
    const store: EventStore
    var readModels: map<string, ModelRef>
    /** The registered names in registration order, which is the order models are handed events. */
    var names: seq<string>
    var lastProcessed: Option<Timestamp>

    ghost function Objects(): set<object>
      reads this`readModels
    {
      set n | n in readModels :: Obj(readModels[n])
    }

    /** The registry: names in registration order, and one distinct read-model object per name. */
    ghost predicate Valid()
      reads this`readModels, this`names
    {
      && KeyOrder(readModels, names)
      && (forall n, m :: n in readModels && m in readModels && n != m ==> Obj(readModels[n]) != Obj(readModels[m]))
      && this !in Objects() && store !in Objects()
    }

    constructor (store: EventStore)
      ensures Valid() && this.store == store && readModels == map[] && names == [] && lastProcessed == None
    {
      this.store := store;
      readModels := map[];
      names := [];
      lastProcessed := None;
    }

    /** `register_read_model`: a name registered again keeps its place and gets the new model. */
    method RegisterReadModel(name: string, model: ModelRef)
      requires Valid()
      requires forall n :: n in readModels && n != name ==> Obj(readModels[n]) != Obj(model)
      modifies this`readModels, this`names
      ensures Valid()
      ensures readModels == old(readModels)[name := model]
      ensures names == Touch(old(names), name in old(readModels), name)
    {
      TouchKeeps(readModels, names, name, model);
      names := Touch(names, name in readModels, name);
      readModels := readModels[name := model];
    }

    /** One `handle_event` call, on the model registered `j`-th; the other models keep their values. */
    method DeliverTo(j: nat, e: Event)
      requires Valid() && j < |names|
      modifies Obj(readModels[names[j]])
      ensures ValueOf(readModels[names[j]]) == Step(old(ValueOf(readModels[names[j]])), e)
      ensures forall k :: 0 <= k < |names| && k != j ==> ValueOf(readModels[names[k]]) == old(ValueOf(readModels[names[k]]))
    {
      var model := readModels[names[j]];
      HandleWith(model, e);
      forall k | 0 <= k < |names| && k != j
        ensures ValueOf(readModels[names[k]]) == old(ValueOf(readModels[names[k]]))
      {
        assert Obj(readModels[names[k]]) != Obj(model);
        ValueUnchanged(readModels[names[k]]);
      }
    }

    /** The inner delivery loop: one event to every model, in registration order. */
    method DeliverOne(e: Event)
      requires Valid()
      modifies Objects()
      ensures ValuesOf(readModels) == StepEach(old(ValuesOf(readModels)), e)
    {
      ghost var before := ValuesOf(readModels);
      var j := 0;
      while j < |names|
        invariant 0 <= j <= |names|
        invariant forall k :: 0 <= k < j ==> ValueOf(readModels[names[k]]) == Step(before[names[k]], e)
        invariant forall k :: j <= k < |names| ==> ValueOf(readModels[names[k]]) == before[names[k]]
      {
        DeliverTo(j, e);
        j := j + 1;
      }
      StepAllListed(before, ValuesOf(readModels), names, e);
    }

    /** The nested delivery loop: each event, in order, to every model in registration order. */
    method Deliver(events: seq<Event>)
      requires Valid()
      modifies Objects()
      ensures readModels == old(readModels) && names == old(names)
      ensures ValuesOf(readModels) == DeliverEach(old(ValuesOf(readModels)), events)
    {
      ghost var start := ValuesOf(readModels);
      var i := 0;
      while i < |events|
        invariant 0 <= i <= |events|
        invariant ValuesOf(readModels) == DeliverEach(start, events[..i])
      {
        DeliverOne(events[i]);
        DeliverEachSnoc(start, events[..i], events[i]);
        assert events[..i + 1] == events[..i] + [events[i]];
        i := i + 1;
      }
      assert events[..i] == events;
    }

    /** `rebuild_all_projections`: every stored event, in timestamp order, handed to the models as
        they are (they are not reset), and the mark moved to the latest timestamp, if there is one. */
    method RebuildAllProjections()
      requires Valid() && store.Valid()
      modifies Objects(), this`lastProcessed
      ensures Valid()
      ensures ValuesOf(readModels) == DeliverEach(old(ValuesOf(readModels)), SortByTime(store.AllInStoreOrder()))
      ensures lastProcessed == if store.AllInStoreOrder() == [] then old(lastProcessed)
                               else Some(MaxTimestamp(SortByTime(store.AllInStoreOrder())))
    {
      ghost var all := store.AllInStoreOrder();
      ghost var registry := readModels;
      ghost var order := names;
      var events := store.GetAllEvents(None);
      Deliver(events);
      assert store.AllInStoreOrder() == all;
      ghost var delivered := ValuesOf(readModels);
      assert forall n :: n in readModels ==> Obj(readModels[n]) != this;
      if events != [] {
        lastProcessed := Some(MaxTimestamp(events));
      }
      assert ValuesOf(readModels) == delivered;
      assert readModels == registry && names == order;
    }

    /** `update_projections`: the events after the mark, in timestamp order, handed to every model,
        and the mark moved to the latest of them; with nothing new the mark stays where it was. */
    method UpdateProjections()
      requires Valid() && store.Valid()
      modifies Objects(), this`lastProcessed
      ensures Valid()
      ensures ValuesOf(readModels) == DeliverEach(old(ValuesOf(readModels)), Unprocessed(store.AllInStoreOrder(), old(lastProcessed)))
      ensures var p := Unprocessed(store.AllInStoreOrder(), old(lastProcessed));
              lastProcessed == if p == [] then old(lastProcessed) else Some(MaxTimestamp(p))
      ensures old(lastProcessed).Some? ==> lastProcessed.Some? && lastProcessed.value >= old(lastProcessed).value
    {
      ghost var all := store.AllInStoreOrder();
      ghost var registry := readModels;
      ghost var order := names;
      var events := FetchUnprocessed();
      Deliver(events);
      assert store.AllInStoreOrder() == all;
      ghost var delivered := ValuesOf(readModels);
      assert forall n :: n in readModels ==> Obj(readModels[n]) != this;
      if events != [] {
        if lastProcessed.Some? {
          MarkAdvances(all, lastProcessed.value);
        }
        lastProcessed := Some(MaxTimestamp(events));
      }
      assert ValuesOf(readModels) == delivered;
      assert readModels == registry && names == order;
    }

    /** The first half of `update_projections`: the store's events from the mark on, minus those
        exactly at the mark. */
    function FetchUnprocessed(): (events: seq<Event>)
      reads this, store
      requires store.Valid()
      ensures events == Unprocessed(store.AllInStoreOrder(), lastProcessed)
    {
      var events := store.GetAllEvents(lastProcessed);
      if lastProcessed.Some? then
        PendingFromStore(store.AllInStoreOrder(), lastProcessed.value);
        Filter(events, After(lastProcessed.value))
      else events
    }
  }
}
