/** The interval sweeps of the benchmark analysers, measured against the set of instants they cover.

Both sweeps (`_union` of the CUDA submission analyser and `covered_ns` of the TENT trace analyser) sort half-open
intervals and accumulate with a running `end`.  They differ only in the initial value of `end`, which acts as a floor:
instants below it are never counted.
*/
module IntervalSweep {
  datatype Interval = Interval(left: int, right: int)

  const UNION_FLOOR := -1
  const COVERED_FLOOR := 0

  function Max(a: int, b: int): int { if a < b then b else a }

  function Min(a: int, b: int): int { if a < b then a else b }

  /* The lexicographic order of Python tuples. */
  predicate Before(a: Interval, b: Interval) {
    a.left < b.left || (a.left == b.left && a.right <= b.right)
  }

  predicate Ordered(s: seq<Interval>) {
    forall i, j :: 0 <= i < j < |s| ==> Before(s[i], s[j])
  }

  function Insert(x: Interval, s: seq<Interval>): (r: seq<Interval>)
    requires Ordered(s)
    ensures Ordered(r)
    ensures multiset(r) == multiset(s) + multiset{x}
  {
    if s == [] then [x]
    else if Before(x, s[0]) then
      [x] + s
    else
      var r := Insert(x, s[1..]);
      InsertHead(x, s, r);
      [s[0]] + r
  }

  lemma InsertHead(x: Interval, s: seq<Interval>, r: seq<Interval>)
    requires s != [] && Ordered(s) && !Before(x, s[0])
    requires Ordered(r) && multiset(r) == multiset(s[1..]) + multiset{x}
    ensures Ordered([s[0]] + r)
    ensures multiset([s[0]] + r) == multiset(s) + multiset{x}
  {
    forall k | 0 <= k < |r|
      ensures Before(s[0], r[k])
    {
      assert r[k] in multiset(r);
      assert r[k] in s[1..] || r[k] == x;
    }
    assert s == [s[0]] + s[1..];
  }

  /* Python's `sorted`. */
  function Sorted(s: seq<Interval>): (r: seq<Interval>)
    ensures Ordered(r)
    ensures multiset(r) == multiset(s)
  {
    if s == [] then []
    else
      assert s == [s[0]] + s[1..];
      Insert(s[0], Sorted(s[1..]))
  }

  predicate Holds(i: Interval, x: int) {
    i.left <= x < i.right
  }

  predicate Inside(s: seq<Interval>, x: int) {
    exists i :: 0 <= i < |s| && Holds(s[i], x)
  }

  /* The instants from `floor` on that lie in some interval: the reference meaning of a sweep. */
  ghost function Covered(s: seq<Interval>, floor: int): (r: set<int>)
    ensures forall x :: x in r <==> floor <= x && Inside(s, x)
  {
    var r := set i, x | 0 <= i < |s| && s[i].left <= x < s[i].right && floor <= x && Holds(s[i], x) :: x;
    r
  }

  ghost function Range(a: int, b: int): set<int> {
    set x | a <= x < b && Holds(Interval(a, b), x)
  }

  lemma {:induction false} RangeSize(a: int, b: int)
    ensures |Range(a, b)| == Max(0, b - a)
    decreases b - a
  {
    if a < b {
      RangeSize(a, b - 1);
      assert Range(a, b) == Range(a, b - 1) + {b - 1};
    } else {
      assert Range(a, b) == {};
    }
  }

  /* A sweep depends only on which intervals occur, not on their order or multiplicity. */
  lemma CoveredPermutes(s: seq<Interval>, t: seq<Interval>, floor: int)
    requires forall i: Interval :: i in s ==> i in t
    ensures Covered(s, floor) <= Covered(t, floor)
  {
    forall x | x in Covered(s, floor)
      ensures x in Covered(t, floor)
    {
      var i :| 0 <= i < |s| && Holds(s[i], x);
      assert s[i] in t;
      var j :| 0 <= j < |t| && t[j] == s[i];
      assert Holds(t[j], x);
    }
  }

  lemma CoveredSorted(s: seq<Interval>, floor: int)
    ensures Covered(Sorted(s), floor) == Covered(s, floor)
  {
    forall i: Interval
      ensures i in s <==> i in Sorted(s)
    {
      assert i in s <==> i in multiset(s);
      assert i in Sorted(s) <==> i in multiset(Sorted(s));
    }
    CoveredPermutes(s, Sorted(s), floor);
    CoveredPermutes(Sorted(s), s, floor);
  }

  lemma CoveredAppend(s: seq<Interval>, n: nat, floor: int)
    requires n < |s|
    ensures Covered(s[..n + 1], floor) == Covered(s[..n], floor) + Range(Max(s[n].left, floor), s[n].right)
  {
    assert s[..n + 1] == s[..n] + [s[n]];
    forall x
      ensures x in Covered(s[..n + 1], floor)
         <==> x in Covered(s[..n], floor) + Range(Max(s[n].left, floor), s[n].right)
    {
      InsideConcat(s[..n], [s[n]], x);
      assert Inside([s[n]], x) <==> Holds(s[n], x) by {
        assert [s[n]][0] == s[n];
      }
    }
  }

  /* What lies between the new interval's start and `end` is already covered, by the interval that reached `end`. */
  lemma CoveredToEnd(s: seq<Interval>, n: nat, floor: int, end: int, x: int)
    requires Ordered(s) && n < |s|
    requires end == floor || exists k :: 0 <= k < n && s[k].right == end
    requires Max(s[n].left, floor) <= x < end
    ensures x in Covered(s[..n], floor)
  {
    var k :| 0 <= k < n && s[k].right == end;
    assert Before(s[k], s[n]);
    assert Holds(s[..n][k], x);
  }

  lemma CoveredBeforeEnd(s: seq<Interval>, n: nat, floor: int, end: int)
    requires n <= |s|
    requires forall k :: 0 <= k < n ==> s[k].right <= end
    ensures forall x :: x in Covered(s[..n], floor) ==> x < end
  {
    forall x | x in Covered(s[..n], floor)
      ensures x < end
    {
      var k :| 0 <= k < |s[..n]| && Holds(s[..n][k], x);
      assert s[k].right <= end;
    }
  }

  /* One step of the sweep: the new interval adds exactly the instants from `end` on. */
  lemma SweepStep(s: seq<Interval>, n: nat, floor: int, end: int)
    requires Ordered(s) && n < |s| && floor <= end
    requires end == floor || exists k :: 0 <= k < n && s[k].right == end
    requires forall k :: 0 <= k < n ==> s[k].right <= end
    ensures |Covered(s[..n + 1], floor)|
         == |Covered(s[..n], floor)| + Max(0, s[n].right - Max(s[n].left, end))
  {
    CoveredAppend(s, n, floor);
    CoveredBeforeEnd(s, n, floor, end);
    var lo := Max(s[n].left, floor);
    forall x | x in Range(lo, end)
      ensures x in Covered(s[..n], floor)
    {
      CoveredToEnd(s, n, floor, end, x);
    }
    AddRange(Covered(s[..n], floor), lo, s[n].right, end);
  }

  lemma AddRange(before: set<int>, lo: int, hi: int, end: int)
    requires forall x :: x in before ==> x < end
    requires Range(lo, end) <= before
    ensures |before + Range(lo, hi)| == |before| + Max(0, hi - Max(lo, end))
  {
    var added := Range(Max(lo, end), hi);
    assert before + Range(lo, hi) == before + added by {
      assert forall x :: x in Range(lo, hi) ==> x in Range(lo, end) || x in added;
    }
    assert before !! added;
    RangeSize(Max(lo, end), hi);
  }

  method Sweep(intervals: seq<Interval>, floor: int) returns (total: nat)
    ensures total == |Covered(intervals, floor)|
  {
    var sorted := Sorted(intervals);
    total := 0;
    var end := floor;
    assert Covered(sorted[..0], floor) == {};
    for i := 0 to |sorted|
      invariant floor <= end
      invariant end == floor || exists k :: 0 <= k < i && sorted[k].right == end
      invariant forall k :: 0 <= k < i ==> sorted[k].right <= end
      invariant total == |Covered(sorted[..i], floor)|
    {
      SweepStep(sorted, i, floor, end);
      total := total + Max(0, sorted[i].right - Max(sorted[i].left, end));
      end := Max(end, sorted[i].right);
    }
    assert sorted[..|sorted|] == sorted;
    CoveredSorted(intervals, floor);
  }

  predicate AboveFloor(s: seq<Interval>, floor: int) {
    forall i :: 0 <= i < |s| && s[i].left < s[i].right ==> floor <= s[i].left
  }

  /* The initial `end` is harmless exactly when no nonempty interval begins below it: under any lower floor the
  sweep then measures the same set, and otherwise some lower floor measures strictly more. */
  lemma FloorIsHarmlessIff(s: seq<Interval>, floor: int)
    ensures AboveFloor(s, floor) <==> forall low :: low <= floor ==> |Covered(s, low)| == |Covered(s, floor)|
  {
    if AboveFloor(s, floor) {
      forall low | low <= floor
        ensures |Covered(s, low)| == |Covered(s, floor)|
      {
        assert Covered(s, low) == Covered(s, floor);
      }
    } else {
      var i :| 0 <= i < |s| && s[i].left < s[i].right && s[i].left < floor;
      assert Holds(s[i], s[i].left);
      assert s[i].left in Covered(s, s[i].left) - Covered(s, floor);
      var more := Covered(s, s[i].left);
      assert Covered(s, floor) <= more - {s[i].left};
      SubsetSize(Covered(s, floor), more - {s[i].left});
    }
  }

  /* The union of the intervals, with no floor. */
  ghost function Instants(s: seq<Interval>): set<int> {
    if s == [] then {} else Range(s[0].left, s[0].right) + Instants(s[1..])
  }

  lemma {:induction false} InstantsAre(s: seq<Interval>, x: int)
    ensures x in Instants(s) <==> Inside(s, x)
  {
    if s != [] {
      InstantsAre(s[1..], x);
      InsideConcat([s[0]], s[1..], x);
      assert s == [s[0]] + s[1..];
      assert Inside([s[0]], x) <==> Holds(s[0], x) by { assert [s[0]][0] == s[0]; }
    }
  }

  /* A sweep measures the whole union exactly when no nonempty interval begins below its floor. */
  lemma MeasuresUnionIff(s: seq<Interval>, floor: int)
    ensures |Covered(s, floor)| == |Instants(s)| <==> AboveFloor(s, floor)
  {
    forall x ensures x in Covered(s, floor) <==> x in Instants(s) && floor <= x { InstantsAre(s, x); }
    if AboveFloor(s, floor) {
      forall x | x in Instants(s) ensures floor <= x { InstantsAre(s, x); }
      assert Covered(s, floor) == Instants(s);
    } else {
      var i :| 0 <= i < |s| && s[i].left < s[i].right && s[i].left < floor;
      assert Holds(s[i], s[i].left);
      InstantsAre(s, s[i].left);
      assert Covered(s, floor) <= Instants(s) - {s[i].left};
      SubsetSize(Covered(s, floor), Instants(s) - {s[i].left});
    }
  }

  /* `_union` */
  method Union(intervals: seq<Interval>) returns (total: nat)
    ensures total == |Covered(intervals, UNION_FLOOR)|
    ensures total == |Instants(intervals)| <==> AboveFloor(intervals, UNION_FLOOR)
  {
    MeasuresUnionIff(intervals, UNION_FLOOR);
    total := Sweep(intervals, UNION_FLOOR);
  }

  /* `covered_ns` */
  method CoveredNs(intervals: seq<Interval>) returns (total: nat)
    ensures total == |Covered(intervals, COVERED_FLOOR)|
    ensures total == |Instants(intervals)| <==> AboveFloor(intervals, COVERED_FLOOR)
  {
    MeasuresUnionIff(intervals, COVERED_FLOOR);
    total := Sweep(intervals, COVERED_FLOOR);
  }

  lemma {:induction false} SubsetSize<T>(a: set<T>, b: set<T>)
    requires a <= b
    ensures |a| <= |b|
  {
    assert b == a + (b - a);
  }

  /* The clipping of `stage_summary`. */
  function Clipped(s: seq<Interval>, window: Interval): (r: seq<Interval>)
  {
    if s == [] then []
    else
      var c := Interval(Max(s[0].left, window.left), Min(s[0].right, window.right));
      (if c.left < c.right then [c] else []) + Clipped(s[1..], window)
  }

  lemma {:induction false} ClippedInside(s: seq<Interval>, window: Interval, x: int)
    ensures Inside(Clipped(s, window), x) <==> Inside(s, x) && Holds(window, x)
  {
    if s != [] {
      var rest := Clipped(s[1..], window);
      var c := Interval(Max(s[0].left, window.left), Min(s[0].right, window.right));
      var head := if c.left < c.right then [c] else [];
      ClippedInside(s[1..], window, x);
      assert Clipped(s, window) == head + rest;
      InsideConcat(head, rest, x);
      InsideConcat([s[0]], s[1..], x);
      assert s == [s[0]] + s[1..];
      assert Inside([s[0]], x) <==> Holds(s[0], x) by {
        assert [s[0]][0] == s[0];
      }
      assert Inside(head, x) <==> Holds(c, x) by {
        if head != [] { assert head[0] == c; }
      }
    }
  }

  lemma InsideConcat(a: seq<Interval>, b: seq<Interval>, x: int)
    ensures Inside(a + b, x) <==> Inside(a, x) || Inside(b, x)
  {
    if Inside(a, x) {
      var i :| 0 <= i < |a| && Holds(a[i], x);
      assert Holds((a + b)[i], x);
    }
    if Inside(b, x) {
      var i :| 0 <= i < |b| && Holds(b[i], x);
      assert Holds((a + b)[|a| + i], x);
    }
  }

  lemma ClippedCovers(s: seq<Interval>, window: Interval, floor: int)
    ensures Covered(Clipped(s, window), floor) == Covered(s, floor) * Range(window.left, window.right)
    ensures |Covered(Clipped(s, window), floor)| <= Max(0, window.right - window.left)
  {
    forall x
      ensures x in Covered(Clipped(s, window), floor)
         <==> x in Covered(s, floor) * Range(window.left, window.right)
    {
      ClippedInside(s, window, x);
    }
    SubsetSize(Covered(Clipped(s, window), floor), Range(window.left, window.right));
    RangeSize(window.left, window.right);
  }

  /* The `overlap_union` of one stage, clipped to a window as `stage_summary` does it. */
  method StageOverlap(events: seq<Interval>, window: Interval) returns (calls: nat, overlap: nat)
    ensures calls == |Clipped(events, window)|
    ensures overlap == |Covered(events, COVERED_FLOOR) * Range(window.left, window.right)|
    ensures overlap <= Max(0, window.right - window.left)
  {
    var intervals: seq<Interval> := [];
    for i := 0 to |events|
      invariant intervals == Clipped(events[..i], window)
    {
      var c := Interval(Max(events[i].left, window.left), Min(events[i].right, window.right));
      ClippedAppend(events[..i], events[i], window);
      assert events[..i + 1] == events[..i] + [events[i]];
      if c.left < c.right {
        intervals := intervals + [c];
      }
    }
    assert events[..|events|] == events;
    calls := |intervals|;
    overlap := CoveredNs(intervals);
    ClippedCovers(events, window, COVERED_FLOOR);
  }

  lemma {:induction false} ClippedAppend(s: seq<Interval>, e: Interval, window: Interval)
    ensures Clipped(s + [e], window) == Clipped(s, window) + Clipped([e], window)
  {
    if s == [] {
      assert s + [e] == [e];
    } else {
      assert (s + [e])[1..] == s[1..] + [e];
      ClippedAppend(s[1..], e, window);
    }
  }
}
