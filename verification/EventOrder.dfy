/** The stable sort of a batch, and how it treats concatenation and permutation. */
module EventOrder {
  import opened Mappers

  ghost predicate InOrder(h: Host, s: seq<Event>) {
    forall i, j | 0 <= i < j < |s| :: h.rank(s[i].timestamp) <= h.rank(s[j].timestamp)
  }

  /** Nothing in `b` is earlier than anything in `a`. */
  ghost predicate NotEarlier(h: Host, a: seq<Event>, b: seq<Event>) {
    forall i, j | 0 <= i < |a| && 0 <= j < |b| :: h.rank(a[i].timestamp) <= h.rank(b[j].timestamp)
  }

  ghost predicate AtMost(h: Host, s: seq<Event>, e: Event) {
    forall i | 0 <= i < |s| :: h.rank(s[i].timestamp) <= h.rank(e.timestamp)
  }

  /** The events of one rank, in the order of the list. */
  function Rank(h: Host, r: real, s: seq<Event>): seq<Event> {
    if s == [] then []
    else Rank(h, r, s[..|s| - 1]) + (if h.rank(s[|s| - 1].timestamp) == r then [s[|s| - 1]] else [])
  }

  lemma {:induction false} SameElements(s: seq<Event>, t: seq<Event>)
    requires multiset(s) == multiset(t)
    ensures |s| == |t|
    ensures forall x :: x in s <==> x in t
  {
    assert |multiset(s)| == |s| && |multiset(t)| == |t|;
    forall x ensures x in s <==> x in t {
      assert x in s <==> x in multiset(s);
    }
  }

  lemma {:induction false} InsertKeepsEvents(h: Host, s: seq<Event>, e: Event)
    ensures multiset(Insert(h, s, e)) == multiset(s + [e])
  {
    if s != [] && h.rank(s[|s| - 1].timestamp) > h.rank(e.timestamp) {
      var n := |s| - 1;
      InsertKeepsEvents(h, s[..n], e);
      assert s == s[..n] + [s[n]];
    }
  }

  lemma {:induction false} InsertSorts(h: Host, s: seq<Event>, e: Event)
    requires InOrder(h, s)
    ensures InOrder(h, Insert(h, s, e))
  {
    if s != [] && h.rank(s[|s| - 1].timestamp) > h.rank(e.timestamp) {
      var n := |s| - 1;
      InsertSorts(h, s[..n], e);
      InsertKeepsEvents(h, s[..n], e);
      var t := Insert(h, s[..n], e);
      SameElements(t, s[..n] + [e]);
      forall i | 0 <= i < |t| ensures h.rank(t[i].timestamp) <= h.rank(s[n].timestamp) {
        assert t[i] in s[..n] + [e];
      }
      hide Insert;
    }
  }

  lemma {:induction false} RankSnoc(h: Host, r: real, s: seq<Event>, e: Event)
    ensures Rank(h, r, s + [e]) == Rank(h, r, s) + (if h.rank(e.timestamp) == r then [e] else [])
  {
    assert (s + [e])[..|s|] == s;
  }

  lemma {:induction false} InsertIsStable(h: Host, s: seq<Event>, e: Event, r: real)
    ensures Rank(h, r, Insert(h, s, e)) == Rank(h, r, s) + (if h.rank(e.timestamp) == r then [e] else [])
  {
    if s != [] && h.rank(s[|s| - 1].timestamp) > h.rank(e.timestamp) {
      var front, last := s[..|s| - 1], s[|s| - 1];
      InsertIsStable(h, front, e, r);
      assert Insert(h, s, e) == Insert(h, front, e) + [last] && s == front + [last];
      hide Insert, Rank;
      RankSnoc(h, r, Insert(h, front, e), last);
      RankSnoc(h, r, front, last);
      assert h.rank(e.timestamp) != h.rank(last.timestamp);
    } else {
      RankSnoc(h, r, s, e);
    }
  }

  /** The sort puts the same events in order, and events of equal time keep their order. */
  lemma {:induction false} SortedIsStableSort(h: Host, events: seq<Event>, r: real)
    ensures InOrder(h, Sorted(h, events)) && multiset(Sorted(h, events)) == multiset(events)
    ensures Rank(h, r, Sorted(h, events)) == Rank(h, r, events)
  {
    if events != [] {
      var n := |events| - 1;
      SortedIsStableSort(h, events[..n], r);
      InsertSorts(h, Sorted(h, events[..n]), events[n]);
      InsertKeepsEvents(h, Sorted(h, events[..n]), events[n]);
      InsertIsStable(h, Sorted(h, events[..n]), events[n], r);
      assert events == events[..n] + [events[n]];
      hide Insert, InOrder;
    }
  }

  lemma {:induction false} InsertAfter(h: Host, a: seq<Event>, b: seq<Event>, e: Event)
    requires AtMost(h, a, e)
    ensures Insert(h, a + b, e) == a + Insert(h, b, e)
    decreases |b|
  {
    if b == [] {
      assert a + b == a;
    } else {
      var n := |b| - 1;
      assert (a + b)[..|a + b| - 1] == a + b[..n] && (a + b)[|a + b| - 1] == b[n];
      if h.rank(b[n].timestamp) <= h.rank(e.timestamp) {
        assert (a + b) + [e] == a + (b + [e]);
      } else {
        InsertAfter(h, a, b[..n], e);
        assert (a + Insert(h, b[..n], e)) + [b[n]] == a + (Insert(h, b[..n], e) + [b[n]]);
      }
    }
  }

  lemma {:induction false} SortedAtMost(h: Host, a: seq<Event>, e: Event)
    requires AtMost(h, a, e)
    ensures AtMost(h, Sorted(h, a), e)
  {
    SortedIsStableSort(h, a, 0.0);
    SameElements(Sorted(h, a), a);
    hide Sorted, InOrder, Rank;
    forall i | 0 <= i < |Sorted(h, a)| ensures h.rank(Sorted(h, a)[i].timestamp) <= h.rank(e.timestamp) {
      assert Sorted(h, a)[i] in a;
    }
  }

  /** Sorting a list whose second part is not earlier than the first sorts the parts. */
  lemma {:induction false} SortedConcat(h: Host, a: seq<Event>, b: seq<Event>)
    requires NotEarlier(h, a, b)
    ensures Sorted(h, a + b) == Sorted(h, a) + Sorted(h, b)
    decreases |b|
  {
    if b == [] {
      assert a + b == a;
      assert Sorted(h, a) + [] == Sorted(h, a);
    } else {
      var n := |b| - 1;
      assert (a + b)[..|a + b| - 1] == a + b[..n];
      SortedConcat(h, a, b[..n]);
      SortedAtMost(h, a, b[n]);
      InsertAfter(h, Sorted(h, a), Sorted(h, b[..n]), b[n]);
      hide Insert, AtMost;
    }
  }

  ghost predicate DistinctTimes(h: Host, s: seq<Event>) {
    forall i, j | 0 <= i < j < |s| :: h.rank(s[i].timestamp) != h.rank(s[j].timestamp)
  }

  lemma {:induction false} DropSame(a: seq<Event>, b: seq<Event>, x: Event)
    requires multiset(a + [x]) == multiset(b + [x])
    ensures multiset(a) == multiset(b)
  {
    assert multiset(a) == multiset(a + [x]) - multiset{x} == multiset(b);
  }

  lemma {:induction false} DropLast(s: seq<Event>, t: seq<Event>)
    requires |s| == |t| > 0 && s[|s| - 1] == t[|t| - 1] && multiset(s) == multiset(t)
    ensures multiset(s[..|s| - 1]) == multiset(t[..|t| - 1])
  {
    var n := |s| - 1;
    assert s == s[..n] + [s[n]] && t == t[..n] + [s[n]];
    DropSame(s[..n], t[..n], s[n]);
  }

  lemma {:induction false} OrderIsUnique(h: Host, s: seq<Event>, t: seq<Event>)
    requires InOrder(h, s) && InOrder(h, t) && multiset(s) == multiset(t) && DistinctTimes(h, s)
    ensures s == t
  {
    SameElements(s, t);
    if s == [] {
    } else {
      var n := |s| - 1;
      LastIsUnique(h, s, t);
      DropLast(s, t);
      OrderIsUnique(h, s[..n], t[..n]);
    }
  }

  lemma {:induction false} LastIsUnique(h: Host, s: seq<Event>, t: seq<Event>)
    requires InOrder(h, s) && InOrder(h, t) && multiset(s) == multiset(t) && DistinctTimes(h, s) && s != []
    ensures |s| == |t| && s[|s| - 1] == t[|t| - 1]
  {
    SameElements(s, t);
    var n := |s| - 1;
    assert t[n] in s && s[n] in t;
    var i :| 0 <= i < |s| && s[i] == t[n];
    var j :| 0 <= j < |t| && t[j] == s[n];
    assert h.rank(s[n].timestamp) <= h.rank(t[n].timestamp) <= h.rank(s[n].timestamp);
  }

  lemma {:induction false} DistinctAfterSort(h: Host, events: seq<Event>)
    requires DistinctTimes(h, events)
    ensures DistinctTimes(h, Sorted(h, events))
  {
    if events != [] {
      var n := |events| - 1;
      DistinctAfterSort(h, events[..n]);
      SortedIsStableSort(h, events[..n], 0.0);
      var s := Sorted(h, events[..n]);
      SameElements(s, events[..n]);
      forall i | 0 <= i < |s| ensures h.rank(s[i].timestamp) != h.rank(events[n].timestamp) {
        assert s[i] in events[..n];
      }
      DistinctInsert(h, s, events[n]);
    }
  }

  lemma {:induction false} DistinctInsert(h: Host, s: seq<Event>, e: Event)
    requires DistinctTimes(h, s) && forall i | 0 <= i < |s| :: h.rank(s[i].timestamp) != h.rank(e.timestamp)
    ensures DistinctTimes(h, Insert(h, s, e))
    ensures forall i | 0 <= i < |Insert(h, s, e)| :: Insert(h, s, e)[i] == e || Insert(h, s, e)[i] in s
  {
    if s != [] && h.rank(s[|s| - 1].timestamp) > h.rank(e.timestamp) {
      DistinctInsert(h, s[..|s| - 1], e);
    }
  }

  /** With distinct times, the order in which a batch arrives does not matter. */
  lemma {:induction false} SortedIgnoresArrival(h: Host, events: seq<Event>, shuffled: seq<Event>)
    requires DistinctTimes(h, events) && multiset(events) == multiset(shuffled)
    ensures Sorted(h, events) == Sorted(h, shuffled)
  {
    SortedIsStableSort(h, events, 0.0);
    SortedIsStableSort(h, shuffled, 0.0);
    DistinctAfterSort(h, events);
    OrderIsUnique(h, Sorted(h, events), Sorted(h, shuffled));
  }
}
