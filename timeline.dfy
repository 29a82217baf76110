/** Ordering events by timestamp, as `get_all_events` does with Python's `sorted(..., key=timestamp)`,
    a stable sort: events with equal timestamps keep the order they had. */
module Timeline {
  import opened Events

  ghost predicate SortedByTime(s: seq<Event>) {
    forall i, j :: 0 <= i < j < |s| ==> s[i].timestamp <= s[j].timestamp
  }

  /** The events of `s` that satisfy `keep`, in their original order. */
  function Filter(s: seq<Event>, keep: Event -> bool): (r: seq<Event>)
    ensures |r| <= |s|
    ensures forall e :: e in r ==> e in s && keep(e)
    ensures forall e :: e in s && keep(e) ==> e in r
    decreases |s|
  {
    if s == [] then []
    else if keep(s[0]) then [s[0]] + Filter(s[1..], keep)
    else Filter(s[1..], keep)
  }

  /** Filtering keeps every copy of a kept event and no copy of a dropped one. */
  lemma {:induction false} FilterCount(s: seq<Event>, keep: Event -> bool)
    ensures forall e :: multiset(Filter(s, keep))[e] == if keep(e) then multiset(s)[e] else 0
    decreases |s|
  {
    if s != [] {
      assert s == [s[0]] + s[1..];
      FilterCount(s[1..], keep);
    }
  }

  /** Filtering a log split in two filters each part and keeps the parts in order, so the kept
      events stay in the order they were stored. */
  lemma {:induction false} FilterAppend(a: seq<Event>, b: seq<Event>, keep: Event -> bool)
    ensures Filter(a + b, keep) == Filter(a, keep) + Filter(b, keep)
    decreases |a|
  {
    if a == [] {
      assert a + b == b;
    } else {
      assert (a + b)[0] == a[0];
      assert (a + b)[1..] == a[1..] + b;
      FilterAppend(a[1..], b, keep);
    }
  }

  /** Puts `e` in front of the first event whose timestamp is not smaller, so that `e` stays ahead
      of the events with the same timestamp. */
  function Insert(e: Event, s: seq<Event>): (r: seq<Event>)
    ensures |r| == |s| + 1
    ensures multiset(r) == multiset(s) + multiset{e}
    decreases |s|
  {
    if s == [] || e.timestamp <= s[0].timestamp then [e] + s
    else
      assert s == [s[0]] + s[1..];
      [s[0]] + Insert(e, s[1..])
  }

  /** A stable sort by timestamp (insertion sort from the back). */
  function SortByTime(s: seq<Event>): (r: seq<Event>)
    ensures |r| == |s|
    ensures multiset(r) == multiset(s)
    decreases |s|
  {
    if s == [] then [] else
      assert s == [s[0]] + s[1..];
      Insert(s[0], SortByTime(s[1..]))
  }

  lemma {:induction false} InsertSorted(e: Event, s: seq<Event>)
    requires SortedByTime(s)
    ensures SortedByTime(Insert(e, s))
    decreases |s|
  {
    if s == [] || e.timestamp <= s[0].timestamp {
      if s != [] { SortedHead(s); }
      SortedCons(e, s);
    } else {
      InsertSorted(e, s[1..]);
      var r := Insert(e, s[1..]);
      InsertMembers(e, s[1..]);
      SortedHead(s);
      SortedCons(s[0], r);
    }
  }

  lemma InsertMembers(e: Event, s: seq<Event>)
    ensures forall x :: x in Insert(e, s) <==> x == e || x in s
  {
    var r := Insert(e, s);
    assert forall x :: x in r <==> x in multiset(r);
    assert forall x :: x in s <==> x in multiset(s);
  }

  lemma SortedCons(x: Event, r: seq<Event>)
    requires SortedByTime(r)
    requires forall y :: y in r ==> x.timestamp <= y.timestamp
    ensures SortedByTime([x] + r)
  {
    var t := [x] + r;
    forall i, j | 0 <= i < j < |t| ensures t[i].timestamp <= t[j].timestamp {
      assert t[j] == r[j - 1];
      if i > 0 {
        assert t[i] == r[i - 1];
      }
    }
  }

  lemma SortCons(e: Event, s: seq<Event>)
    ensures SortByTime([e] + s) == Insert(e, SortByTime(s))
  {
    assert ([e] + s)[0] == e && ([e] + s)[1..] == s;
  }

  lemma FilterCons(e: Event, s: seq<Event>, keep: Event -> bool)
    ensures Filter([e] + s, keep) == if keep(e) then [e] + Filter(s, keep) else Filter(s, keep)
  {
    assert ([e] + s)[0] == e && ([e] + s)[1..] == s;
  }

  lemma SortMembers(s: seq<Event>)
    ensures forall x :: x in SortByTime(s) <==> x in s
  {
    var r := SortByTime(s);
    assert forall x :: x in r <==> x in multiset(r);
    assert forall x :: x in s <==> x in multiset(s);
  }

  /** The result of `SortByTime` is ordered by timestamp. */
  lemma {:induction false} SortSorted(s: seq<Event>)
    ensures SortedByTime(SortByTime(s))
    decreases |s|
  {
    if s != [] {
      SortSorted(s[1..]);
      InsertSorted(s[0], SortByTime(s[1..]));
    }
  }

  /** Every event of a sorted sequence is at least as late as its first one. */
  lemma SortedHead(s: seq<Event>)
    requires SortedByTime(s) && s != []
    ensures forall x :: x in s ==> s[0].timestamp <= x.timestamp
  {
  }

  /** Filtering commutes with insertion into a sorted sequence. */
  lemma {:induction false} FilterInsert(e: Event, s: seq<Event>, keep: Event -> bool)
    requires SortedByTime(s)
    ensures Filter(Insert(e, s), keep) == if keep(e) then Insert(e, Filter(s, keep)) else Filter(s, keep)
    decreases |s|
  {
    if s == [] || e.timestamp <= s[0].timestamp {
      assert Insert(e, s) == [e] + s;
      assert ([e] + s)[1..] == s;
      if keep(e) && Filter(s, keep) != [] {
        var f := Filter(s, keep);
        assert f[0] in s;
        SortedHead(s);
      }
    } else {
      var rest := Insert(e, s[1..]);
      assert Insert(e, s) == [s[0]] + rest;
      assert ([s[0]] + rest)[1..] == rest;
      FilterInsert(e, s[1..], keep);
      if keep(e) && !keep(s[0]) {
        assert Filter(s, keep) == Filter(s[1..], keep);
      }
      if keep(e) && keep(s[0]) {
        assert Filter(s, keep) == [s[0]] + Filter(s[1..], keep);
        assert ([s[0]] + Filter(s[1..], keep))[1..] == Filter(s[1..], keep);
      }
    }
  }

  /** Sorting and filtering can be done in either order: the sort is stable. */
  lemma {:induction false} FilterSort(s: seq<Event>, keep: Event -> bool)
    ensures Filter(SortByTime(s), keep) == SortByTime(Filter(s, keep))
    decreases |s|
  {
    if s != [] {
      SortSorted(s[1..]);
      FilterInsert(s[0], SortByTime(s[1..]), keep);
      FilterSort(s[1..], keep);
      if keep(s[0]) {
        assert Filter(s, keep) == [s[0]] + Filter(s[1..], keep);
        assert ([s[0]] + Filter(s[1..], keep))[1..] == Filter(s[1..], keep);
      }
    }
  }

  /** Filtering twice keeps what both filters keep. */
  lemma {:induction false} FilterFilter(s: seq<Event>, first: Event -> bool, second: Event -> bool, both: Event -> bool)
    requires forall e :: both(e) == (first(e) && second(e))
    ensures Filter(Filter(s, first), second) == Filter(s, both)
    decreases |s|
  {
    if s != [] {
      FilterFilter(s[1..], first, second, both);
      if first(s[0]) {
        assert Filter(s, first) == [s[0]] + Filter(s[1..], first);
        assert ([s[0]] + Filter(s[1..], first))[1..] == Filter(s[1..], first);
      }
    }
  }

  /** Events that all stand at or after `e` in time take `e` in front. */
  lemma {:induction false} InsertBeforeLater(e: Event, a: seq<Event>, b: seq<Event>)
    requires forall x :: x in b ==> e.timestamp <= x.timestamp
    ensures Insert(e, a + b) == Insert(e, a) + b
    decreases |a|
  {
    if a == [] {
      assert a + b == b;
    } else {
      assert (a + b)[0] == a[0];
      assert (a + b)[1..] == a[1..] + b;
      if e.timestamp > a[0].timestamp {
        InsertBeforeLater(e, a[1..], b);
      }
    }
  }

  /** An event later than all of `a` goes into the second part. */
  lemma {:induction false} InsertAfterEarlier(e: Event, a: seq<Event>, b: seq<Event>)
    requires forall x :: x in a ==> x.timestamp < e.timestamp
    ensures Insert(e, a + b) == a + Insert(e, b)
    decreases |a|
  {
    if a != [] {
      assert (a + b)[0] == a[0];
      assert (a + b)[1..] == a[1..] + b;
      InsertAfterEarlier(e, a[1..], b);
      assert [a[0]] + (a[1..] + Insert(e, b)) == a + Insert(e, b);
    } else {
      assert a + b == b;
    }
  }

  function AtOrBefore(mark: Timestamp): Event -> bool {
    (e: Event) => e.timestamp <= mark
  }

  function After(mark: Timestamp): Event -> bool {
    (e: Event) => e.timestamp > mark
  }

  function AtOrAfter(mark: Timestamp): Event -> bool {
    (e: Event) => e.timestamp >= mark
  }

  function At(mark: Timestamp): Event -> bool {
    (e: Event) => e.timestamp == mark
  }

  /** Events that all share one timestamp are already in order: sorting leaves them as they are. */
  lemma {:induction false} SortIdentity(s: seq<Event>, t: Timestamp)
    requires forall i :: 0 <= i < |s| ==> s[i].timestamp == t
    ensures SortByTime(s) == s
    decreases |s|
  {
    if s != [] {
      var rest := s[1..];
      assert forall i :: 0 <= i < |rest| ==> rest[i] == s[i + 1];
      SortIdentity(rest, t);
      SortCons(s[0], rest);
      assert s == [s[0]] + rest;
      assert rest == [] || s[0].timestamp <= rest[0].timestamp;
    }
  }

  /** The sort is stable: the events of any one timestamp come out in the order they went in. */
  lemma SortStable(s: seq<Event>)
    ensures forall t :: Filter(SortByTime(s), At(t)) == Filter(s, At(t))
  {
    forall t ensures Filter(SortByTime(s), At(t)) == Filter(s, At(t)) {
      FilterSort(s, At(t));
      var f := Filter(s, At(t));
      assert forall i :: 0 <= i < |f| ==> f[i] in f;
      SortIdentity(f, t);
    }
  }

  /** Sorting everything is sorting what is at or before `mark`, followed by sorting what is after
      it: the basis of catching up from a high-water mark. */
  lemma {:induction false} SortSplit(s: seq<Event>, mark: Timestamp)
    ensures SortByTime(s) == SortByTime(Filter(s, AtOrBefore(mark))) + SortByTime(Filter(s, After(mark)))
    decreases |s|
  {
    if s != [] {
      var e, rest := s[0], s[1..];
      assert s == [e] + rest;
      var lo, hi := Filter(rest, AtOrBefore(mark)), Filter(rest, After(mark));
      SortSplit(rest, mark);
      SortCons(e, rest);
      FilterCons(e, rest, AtOrBefore(mark));
      FilterCons(e, rest, After(mark));
      var slo, shi := SortByTime(lo), SortByTime(hi);
      SortMembers(lo);
      SortMembers(hi);
      if e.timestamp <= mark {
        InsertBeforeLater(e, slo, shi);
        SortCons(e, lo);
      } else {
        InsertAfterEarlier(e, slo, shi);
        SortCons(e, hi);
      }
    }
  }

  /** The largest timestamp of a non-empty sequence, as `max(e.timestamp for e in events)`. */
  function MaxTimestamp(s: seq<Event>): (m: Timestamp)
    requires s != []
    ensures forall e :: e in s ==> e.timestamp <= m
    ensures exists e :: e in s && e.timestamp == m
    decreases |s|
  {
    if |s| == 1 then s[0].timestamp
    else
      var rest := MaxTimestamp(s[1..]);
      assert forall e :: e in s ==> e == s[0] || e in s[1..];
      if s[0].timestamp >= rest then s[0].timestamp else rest
  }

  /** The largest timestamp of a sorted sequence is that of its last event. */
  lemma SortedMaxIsLast(s: seq<Event>)
    requires SortedByTime(s) && s != []
    ensures MaxTimestamp(s) == s[|s| - 1].timestamp
  {
    var m := MaxTimestamp(s);
    var e :| e in s && e.timestamp == m;
  }
}
