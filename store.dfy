/** The append-only event store of the full variant (complex_e2e.py, `EventStore`). */
module Store {
  import opened Wrappers
  import opened Events
  import opened Timeline

  /** `ConcurrencyError`, with the expected and the actual stream length. */
  datatype ConcurrencyError = ConcurrencyError(expected: int, current: int)

  /** A saved snapshot: the caller's data, its version and the clock reading when it was saved. */
  datatype Snapshot = Snapshot(data: Metadata, version: int, timestamp: Timestamp)

  /** The stream `append_events` leaves behind: the old stream, then the new events stamped with
      the stream's id and the versions that follow on. The events' own versions are overwritten,
      never checked. */
  function Appended(stream: seq<Event>, id: Id, events: seq<Event>): (r: seq<Event>)
    ensures |r| == |stream| + |events|
    ensures r[..|stream|] == stream
    ensures forall i :: 0 <= i < |events| ==>
              r[|stream| + i] == events[i].(aggregateId := Some(id), version := |stream| + i + 1)
    ensures StampedFrom(stream, id, 1) ==> StampedFrom(r, id, 1)
  {
    stream + StampFrom(events, id, |stream| + 1)
  }

  /** Python's `s[k:]`: a negative `k` counts from the end, and the bounds are clamped. */
  function SliceFrom(s: seq<Event>, k: int): (r: seq<Event>)
    ensures 0 <= k <= |s| ==> r == s[k..]
    ensures k > |s| ==> r == []
    ensures k < 0 ==> r == s[if |s| + k < 0 then 0 else |s| + k..]
  {
    if k > |s| then []
    else if k >= 0 then s[k..]
    else if |s| + k < 0 then s
    else s[|s| + k..]
  }

  /** The events of the streams named in `ids`, one stream after another. */
  function Concat(ids: seq<Id>, streams: map<Id, seq<Event>>): seq<Event>
    requires forall i :: 0 <= i < |ids| ==> ids[i] in streams
    decreases |ids|
  {
    if ids == [] then [] else streams[ids[0]] + Concat(ids[1..], streams)
  }

  /** `ids` lists the stream keys once each, and every stream carries its id and the versions
      1, 2, ... in order. */
  ghost predicate WellFormed(streams: map<Id, seq<Event>>, ids: seq<Id>) {
    && (forall i :: 0 <= i < |ids| ==> ids[i] in streams)
    && (forall id :: id in streams ==> id in ids)
    && (forall i, j :: 0 <= i < j < |ids| ==> ids[i] != ids[j])
    && (forall id :: id in streams ==> StampedFrom(streams[id], id, 1))
  }

  /** Replacing a stream by another stamped one, or opening a new empty stream at the end of the
      key order, keeps the store well formed. */
  lemma WellFormedUpdate(streams: map<Id, seq<Event>>, ids: seq<Id>, id: Id, s: seq<Event>)
    requires WellFormed(streams, ids) && StampedFrom(s, id, 1)
    ensures WellFormed(streams[id := s], ids + (if id in streams then [] else [id]))
  {
  }

  /** The loop of `append_events`: each event in turn is stamped with the stream's id and the
      stream's length plus one, then appended to the stream. */
  method StampOnto(stream: seq<Event>, id: Id, events: seq<Event>) returns (r: seq<Event>)
    ensures r == Appended(stream, id, events)
  {
    r := stream;
    var i := 0;
    while i < |events|
      invariant 0 <= i <= |events|
      invariant r == stream + StampFrom(events[..i], id, |stream| + 1)
    {
      assert StampFrom(events[..i + 1], id, |stream| + 1)
          == StampFrom(events[..i], id, |stream| + 1) + [Stamp(events[i], id, |r| + 1)];
      r := r + [Stamp(events[i], id, |r| + 1)];
      i := i + 1;
    }
    assert events[..i] == events;
  }

  class EventStore {
    var streams: map<Id, seq<Event>>
    /** The keys of `streams` in the order they were first inserted, as a Python dict keeps them. */
    var ids: seq<Id>
    var snapshots: map<Id, Snapshot>

    ghost predicate Valid()
      reads this
    {
      WellFormed(streams, ids)
    }

    /** The stream of `id`; an id never appended to has the empty stream. */
    function Stream(id: Id): seq<Event>
      reads this
    {
      if id in streams then streams[id] else []
    }

    constructor ()
      ensures Valid() && streams == map[] && ids == [] && snapshots == map[]
    {
      streams := map[];
      ids := [];
      snapshots := map[];
    }

    /** `append_events`. The stream entry is created before the version check, so even a rejected
        append leaves `id` among the keys (with its stream unchanged). With an `expected` version
        that differs from the stream length nothing is appended; with `None` no check is made. */
    method AppendEvents(id: Id, events: seq<Event>, expected: Option<int>) returns (r: Outcome<ConcurrencyError>)
      requires Valid()
      modifies this`streams, this`ids
      ensures Valid()
      ensures ids == old(ids) + (if id in old(streams) then [] else [id])
      ensures r.Fail? <==> expected.Some? && expected.value != |old(Stream(id))|
      ensures r.Fail? ==> r.error == ConcurrencyError(expected.value, |old(Stream(id))|)
      ensures r.Fail? ==> streams == old(streams)[id := old(Stream(id))]
      ensures r.Pass? ==> streams == old(streams)[id := Appended(old(Stream(id)), id, events)]
    {
      if id !in streams {
        WellFormedUpdate(streams, ids, id, []);
        streams := streams[id := []];
        ids := ids + [id];
      }
      var stream := streams[id];
      if expected.Some? && |stream| != expected.value {
        return Fail(ConcurrencyError(expected.value, |stream|));
      }
      ghost var before := stream;
      stream := StampOnto(stream, id, events);
      WellFormedUpdate(streams, ids, id, stream);
      streams := streams[id := stream];
      r := Pass;
    }

    /** `get_events`: the stream from position `fromVersion` on, with Python's slicing rules. */
    function GetEvents(id: Id, fromVersion: int): (r: seq<Event>)
      reads this
      ensures id !in streams ==> r == []
      ensures 0 <= fromVersion <= |Stream(id)| ==> r == Stream(id)[fromVersion..]
      ensures fromVersion > |Stream(id)| ==> r == []
      ensures |r| <= |Stream(id)| && r == Stream(id)[|Stream(id)| - |r|..]
    {
      SliceFrom(Stream(id), fromVersion)
    }

    /** Every stream, one after another, in the order the aggregates were first seen. */
    function AllInStoreOrder(): seq<Event>
      reads this
      requires Valid()
    {
      Concat(ids, streams)
    }

    /** `get_all_events`: all events, restricted to those at or after `fromTimestamp` when one is
        given, stably sorted by timestamp. */
    function GetAllEvents(fromTimestamp: Option<Timestamp>): (r: seq<Event>)
      reads this
      requires Valid()
      ensures SortedByTime(r)
      ensures fromTimestamp.None? ==> multiset(r) == multiset(AllInStoreOrder())
      ensures fromTimestamp.Some? ==> multiset(r) == multiset(Filter(AllInStoreOrder(), AtOrAfter(fromTimestamp.value)))
      ensures forall e :: e in r <==> e in AllInStoreOrder() && (fromTimestamp.Some? ==> fromTimestamp.value <= e.timestamp)
      ensures fromTimestamp.None? ==> forall t :: Filter(r, At(t)) == Filter(AllInStoreOrder(), At(t))
      ensures fromTimestamp.Some? ==>
                forall t :: Filter(r, At(t)) == Filter(Filter(AllInStoreOrder(), AtOrAfter(fromTimestamp.value)), At(t))
    {
      var all := AllInStoreOrder();
      var kept := if fromTimestamp.Some? then Filter(all, AtOrAfter(fromTimestamp.value)) else all;
      SortSorted(kept);
      SortMembers(kept);
      SortStable(kept);
      SortByTime(kept)
    }

    /** `save_snapshot`: replaces any earlier snapshot of `id`. */
    method SaveSnapshot(id: Id, data: Metadata, version: int, now: Timestamp)
      modifies this`snapshots
      ensures snapshots == old(snapshots)[id := Snapshot(data, version, now)]
    {
      snapshots := snapshots[id := Snapshot(data, version, now)];
    }

    /** `get_snapshot`: the latest snapshot of `id`, or `None`. */
    function GetSnapshot(id: Id): (r: Option<Snapshot>)
      reads this
      ensures r.Some? <==> id in snapshots
      ensures r.Some? ==> r.value == snapshots[id]
    {
      if id in snapshots then Some(snapshots[id]) else None
    }

    /** A stored event sits at the position its version names, so `get_events(id, v)` with
        `0 <= v` returns exactly the events whose version is above `v`, in version order. */
    lemma GetEventsAboveVersion(id: Id, fromVersion: int)
      requires Valid() && 0 <= fromVersion
      ensures forall e :: e in GetEvents(id, fromVersion) ==> e.version > fromVersion
      ensures forall i :: 0 <= i < |Stream(id)| && Stream(id)[i].version > fromVersion ==>
                Stream(id)[i] in GetEvents(id, fromVersion)
      ensures forall i :: 0 <= i < |GetEvents(id, fromVersion)| ==> GetEvents(id, fromVersion)[i].version == fromVersion + i + 1
    {
      var s := Stream(id);
      var r := GetEvents(id, fromVersion);
      if fromVersion <= |s| {
        assert r == s[fromVersion..];
        forall e | e in r ensures e.version > fromVersion {
          var k :| 0 <= k < |r| && r[k] == e;
          assert e == s[fromVersion + k];
        }
        forall i | 0 <= i < |s| && s[i].version > fromVersion ensures s[i] in r {
          assert s[i] == r[i - fromVersion];
        }
      }
    }
  }

  /** After any successful append, the stored stream is the old one extended by exactly the new
      events, and every stored event carries the stream id and its 1-based position as version. */
  lemma AppendedPositions(stream: seq<Event>, id: Id, events: seq<Event>)
    requires StampedFrom(stream, id, 1)
    ensures var r := Appended(stream, id, events);
            forall i :: 0 <= i < |r| ==> r[i].version == i + 1 && r[i].aggregateId == Some(id)
  {
  }

  /** Appending a batch already stamped with the versions that follow the stream re-stamps nothing. */
  lemma AppendStampedBatch(stream: seq<Event>, id: Id, events: seq<Event>)
    requires StampedFrom(events, id, |stream| + 1)
    ensures Appended(stream, id, events) == stream + events
  {
    StampFromIdentity(events, id, |stream| + 1);
  }
}
