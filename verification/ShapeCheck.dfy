/** `_validate_shape`: deciding whether recorded copy counters can come from any list of copy sizes.

A record carries a number of descriptors, their total bytes, how many are empty, the smallest and largest size and an
eight-bucket size histogram.  The source never sees the sizes; it removes the empty and extreme descriptors from the
histogram and checks the total against the lower and upper sums of what remains.
*/
module ShapeCheck {
  import opened Wrappers

  const U64_MAX := 0xFFFF_FFFF_FFFF_FFFF
  const BUCKETS := 8
  const SIZE_LIMITS: seq<int> := [256, 4096, 16384, 65536, 262144, 1048576, 4194304]

  datatype Shape = Shape(
    descriptors: int, ranges: int, bytes: int, zeros: int, smallest: int, largest: int, histogram: seq<int>)

  function Max(a: int, b: int): int { if a < b then b else a }

  function Min(a: int, b: int): int { if a < b then a else b }

  function Above(size: int, limit: int): int { if size > limit then 1 else 0 }

  function CountAbove(size: int, limits: seq<int>): (n: nat)
    ensures n <= |limits|
  {
    if limits == [] then 0 else Above(size, limits[0]) + CountAbove(size, limits[1..])
  }

  /* The number of limits a size exceeds. */
  function Bucket(size: int): (b: nat)
    ensures b < BUCKETS
  {
    CountAbove(size, SIZE_LIMITS)
  }

  /* Bounds of a bucket; the first and last are open at their outer end. */
  predicate InBucket(size: int, b: nat) {
    && b < BUCKETS
    && (b > 0 ==> SIZE_LIMITS[b - 1] < size)
    && (b < |SIZE_LIMITS| ==> size <= SIZE_LIMITS[b])
  }

  lemma {:induction false} CountAboveSorted(size: int, limits: seq<int>)
    requires forall i, j :: 0 <= i < j < |limits| ==> limits[i] < limits[j]
    ensures forall i :: 0 <= i < |limits| ==> (i < CountAbove(size, limits) <==> limits[i] < size)
  {
    if limits != [] {
      var rest := limits[1..];
      CountAboveSorted(size, rest);
      assert forall i :: 0 < i < |limits| ==> limits[i] == rest[i - 1];
      if size <= limits[0] && rest != [] {
        assert !(rest[0] < size);
      }
    }
  }

  lemma BucketIs(size: int, b: nat)
    ensures InBucket(size, b) <==> b == Bucket(size)
  {
    CountAboveSorted(size, SIZE_LIMITS);
  }

  // ---------- The reference meaning ----------

  function Sum(sizes: seq<nat>): nat {
    if sizes == [] then 0 else sizes[0] + Sum(sizes[1..])
  }

  function Zeros(sizes: seq<nat>): nat {
    if sizes == [] then 0 else (if sizes[0] == 0 then 1 else 0) + Zeros(sizes[1..])
  }

  function Bump(h: seq<int>, b: nat): seq<int>
    requires b < |h|
  {
    h[b := h[b] + 1]
  }

  function Histogram(sizes: seq<nat>): (h: seq<int>)
    ensures |h| == BUCKETS
  {
    if sizes == [] then [0, 0, 0, 0, 0, 0, 0, 0] else Bump(Histogram(sizes[1..]), Bucket(sizes[0]))
  }

  /* The list of sizes that a record claims to summarise. */
  ghost predicate Realises(sizes: seq<nat>, s: Shape) {
    && |sizes| == s.descriptors
    && Sum(sizes) == s.bytes
    && Zeros(sizes) == s.zeros
    && s.smallest in sizes && s.largest in sizes
    && (forall i :: 0 <= i < |sizes| ==> s.smallest <= sizes[i] <= s.largest)
    && Histogram(sizes) == s.histogram
  }

  ghost predicate Realisable(s: Shape) {
    && 1 <= s.ranges <= s.descriptors <= U64_MAX
    && 1 <= s.bytes <= U64_MAX
    && exists sizes :: Realises(sizes, s)
  }

  // ---------- The source's computation ----------

  predicate Integer(value: int, minimum: int) {
    minimum <= value <= U64_MAX
  }

  function SumOf(counts: seq<int>): int {
    if counts == [] then 0 else counts[0] + SumOf(counts[1..])
  }

  predicate Counters(s: Shape) {
    && Integer(s.descriptors, 1) && Integer(s.ranges, 1) && Integer(s.bytes, 1)
    && Integer(s.zeros, 0) && Integer(s.smallest, 0) && Integer(s.largest, 1)
    && |s.histogram| == BUCKETS
    && (forall b :: 0 <= b < BUCKETS ==> 0 <= s.histogram[b] <= s.descriptors)
    && SumOf(s.histogram) == s.descriptors
    && s.ranges <= s.descriptors
    && s.zeros < s.descriptors
    && s.zeros <= s.histogram[0]
    && ((s.smallest == 0) == (s.zeros > 0))
    && s.smallest <= s.largest <= s.bytes
    && s.bytes <= s.descriptors * s.largest
    && (s.descriptors - s.zeros) * s.smallest <= s.bytes
  }

  /* The set of nonzero extrema. */
  function Extremes(s: Shape): (e: seq<int>) {
    if s.smallest == 0 || s.smallest == s.largest then [s.largest] else [s.smallest, s.largest]
  }

  /* The least and greatest size a bucket can hold between the extrema. */
  function Low(s: Shape, b: nat): int
    requires b < BUCKETS
  {
    Max(s.smallest, if b == 0 then 1 else SIZE_LIMITS[b - 1] + 1)
  }

  function High(s: Shape, b: nat): int
    requires b < BUCKETS
  {
    Min(s.largest, if b < |SIZE_LIMITS| then SIZE_LIMITS[b] else s.largest)
  }

  function Lows(s: Shape): (w: seq<int>)
    ensures |w| == BUCKETS
  {
    seq(BUCKETS, b requires 0 <= b < BUCKETS => Low(s, b))
  }

  function Highs(s: Shape): (w: seq<int>)
    ensures |w| == BUCKETS
  {
    seq(BUCKETS, b requires 0 <= b < BUCKETS => High(s, b))
  }

  function Dot(c: seq<int>, w: seq<int>): int
    requires |c| == |w|
  {
    if c == [] then 0 else c[0] * w[0] + Dot(c[1..], w[1..])
  }

  function WithoutZeros(s: Shape): (h: seq<int>)
    requires |s.histogram| == BUCKETS
    ensures |h| == BUCKETS
  {
    s.histogram[0 := s.histogram[0] - s.zeros]
  }

  /* The buckets left after one descriptor of each given size is removed, if each was there. */
  function RemoveAll(h: seq<int>, sizes: seq<int>): (r: Option<seq<int>>)
    requires |h| == BUCKETS
    ensures r.Some? ==> |r.value| == BUCKETS
    decreases |sizes|
  {
    if sizes == [] then Some(h)
    else
      var b := Bucket(sizes[0]);
      if h[b] == 0 then None else RemoveAll(h[b := h[b] - 1], sizes[1..])
  }

  /* The source's decision, as one condition. */
  predicate Passes(s: Shape) {
    && Counters(s)
    && var rest := RemoveAll(WithoutZeros(s), Extremes(s));
       && rest.Some?
       && (forall b :: 0 <= b < BUCKETS && rest.value[b] != 0 ==> Low(s, b) <= High(s, b))
       && SumOf(Extremes(s)) + Dot(rest.value, Lows(s)) <= s.bytes
       && s.bytes <= SumOf(Extremes(s)) + Dot(rest.value, Highs(s))
  }

  // ---------- Weighted sums ----------

  lemma {:induction false} DotBump(c: seq<int>, w: seq<int>, b: nat)
    requires |c| == |w| && b < |c|
    ensures Dot(Bump(c, b), w) == Dot(c, w) + w[b]
    ensures SumOf(Bump(c, b)) == SumOf(c) + 1
  {
    if b == 0 {
      assert Bump(c, 0)[1..] == c[1..];
      assert (c[0] + 1) * w[0] == c[0] * w[0] + w[0];
    } else {
      DotBump(c[1..], w[1..], b - 1);
      assert Bump(c, b)[1..] == Bump(c[1..], b - 1);
    }
  }

  lemma {:induction false} DotMonotone(c: seq<int>, v: seq<int>, w: seq<int>)
    requires |c| == |v| == |w|
    requires forall b :: 0 <= b < |c| ==> 0 <= c[b] && (c[b] != 0 ==> v[b] <= w[b])
    ensures Dot(c, v) <= Dot(c, w)
  {
    if c != [] {
      DotMonotone(c[1..], v[1..], w[1..]);
      if c[0] != 0 { MulMonotone(c[0], v[0], w[0]); }
    }
  }

  lemma MulMonotone(k: nat, a: int, b: int)
    requires a <= b
    ensures k * a <= k * b
  {
  }

  lemma {:induction false} DotZero(c: seq<int>, w: seq<int>)
    requires |c| == |w| && forall b :: 0 <= b < |c| ==> c[b] == 0
    ensures Dot(c, w) == 0
  {
    if c != [] { DotZero(c[1..], w[1..]); }
  }

  /* A list whose members lie within their buckets' bounds sums between the weighted histograms. */
  lemma {:induction false} SumWithin(sizes: seq<nat>, lows: seq<int>, highs: seq<int>)
    requires |lows| == |highs| == BUCKETS
    requires forall i :: 0 <= i < |sizes| ==> lows[Bucket(sizes[i])] <= sizes[i] <= highs[Bucket(sizes[i])]
    ensures Dot(Histogram(sizes), lows) <= Sum(sizes) <= Dot(Histogram(sizes), highs)
  {
    if sizes == [] {
      DotZero(Histogram(sizes), lows);
      DotZero(Histogram(sizes), highs);
    } else {
      SumWithin(sizes[1..], lows, highs);
      DotBump(Histogram(sizes[1..]), lows, Bucket(sizes[0]));
      DotBump(Histogram(sizes[1..]), highs, Bucket(sizes[0]));
    }
  }

  predicate Fillable(c: seq<int>, lows: seq<int>, highs: seq<int>) {
    && |c| == |lows| == |highs| == BUCKETS
    && forall b :: 0 <= b < BUCKETS ==>
         && 0 <= c[b]
         && 0 <= lows[b]
         && (c[b] != 0 ==> lows[b] <= highs[b])
         && (forall x :: lows[b] <= x <= highs[b] ==> Bucket(x) == b)
  }

  /* Conversely every total between the weighted sums is reached by some list with that histogram. */
  lemma OneMore(x: nat, rest: seq<nat>)
    ensures Histogram([x] + rest) == Bump(Histogram(rest), Bucket(x)) && Sum([x] + rest) == x + Sum(rest)
  {
    assert ([x] + rest)[1..] == rest;
  }

  lemma NoSizes(sizes: seq<nat>)
    requires sizes == []
    ensures Histogram(sizes) == [0, 0, 0, 0, 0, 0, 0, 0] && Sum(sizes) == 0
  {
  }

  lemma {:induction false} Fill(c: seq<int>, lows: seq<int>, highs: seq<int>, total: int) returns (sizes: seq<nat>)
    requires Fillable(c, lows, highs)
    requires Dot(c, lows) <= total <= Dot(c, highs)
    ensures Histogram(sizes) == c && Sum(sizes) == total
    ensures forall i :: 0 <= i < |sizes| ==> lows[Bucket(sizes[i])] <= sizes[i] <= highs[Bucket(sizes[i])]
    decreases SumOf(c)
  {
    hide Bucket, Dot, Histogram, Sum;
    SumNonNegative(c);
    if b :| 0 <= b < BUCKETS && c[b] != 0 {
      var c' := c[b := c[b] - 1];
      assert Bump(c', b) == c;
      DotBump(c', lows, b);
      DotBump(c', highs, b);
      DotMonotone(c', lows, highs);
      var x := Max(lows[b], total - Dot(c', highs));
      var rest := Fill(c', lows, highs, total - x);
      assert Bucket(x) == b;
      sizes := [x] + rest;
      OneMore(x, rest);
    } else {
      DotZero(c, lows);
      DotZero(c, highs);
      sizes := [];
      NoSizes(sizes);
    }
  }

  lemma {:induction false} SumNonNegative(c: seq<int>)
    requires forall b :: 0 <= b < |c| ==> 0 <= c[b]
    ensures 0 <= SumOf(c)
    ensures forall b :: 0 <= b < |c| ==> c[b] <= SumOf(c)
  {
    if c != [] {
      SumNonNegative(c[1..]);
      assert forall b :: 0 < b < |c| ==> c[b] == c[1..][b - 1];
    }
  }

  // ---------- Removing members of a list ----------

  function Drop(sizes: seq<nat>, x: nat): (r: seq<nat>)
    requires x in sizes
  {
    if sizes[0] == x then sizes[1..] else [sizes[0]] + Drop(sizes[1..], x)
  }

  lemma {:induction false} DropFacts(sizes: seq<nat>, x: nat)
    requires x in sizes
    ensures multiset(sizes) == multiset(Drop(sizes, x)) + multiset{x}
    ensures Histogram(sizes) == Bump(Histogram(Drop(sizes, x)), Bucket(x))
    ensures Sum(sizes) == Sum(Drop(sizes, x)) + x
  {
    assert sizes == [sizes[0]] + sizes[1..];
    if sizes[0] != x {
      DropFacts(sizes[1..], x);
      var r := Drop(sizes[1..], x);
      assert Drop(sizes, x)[1..] == r;
      BumpCommutes(Histogram(r), Bucket(x), Bucket(sizes[0]));
    }
  }

  lemma BumpCommutes(h: seq<int>, a: nat, b: nat)
    requires a < |h| && b < |h|
    ensures Bump(Bump(h, a), b) == Bump(Bump(h, b), a)
  {
  }

  function NonZero(sizes: seq<nat>): (r: seq<nat>)
  {
    if sizes == [] then [] else (if sizes[0] == 0 then [] else [sizes[0]]) + NonZero(sizes[1..])
  }

  lemma {:induction false} NonZeroMembers(sizes: seq<nat>)
    ensures forall x :: x in NonZero(sizes) <==> x in sizes && x != 0
  {
    if sizes != [] {
      assert sizes == [sizes[0]] + sizes[1..];
      NonZeroMembers(sizes[1..]);
    }
  }

  lemma ZeroBucket()
    ensures Bucket(0) == 0
  {
  }

  lemma {:induction false} NonZeroFacts(sizes: seq<nat>)
    ensures Sum(NonZero(sizes)) == Sum(sizes)
    ensures |NonZero(sizes)| + Zeros(sizes) == |sizes|
    ensures Histogram(sizes) == Histogram(NonZero(sizes))[0 := Histogram(NonZero(sizes))[0] + Zeros(sizes)]
  {
    hide Bucket, Histogram, Sum;
    if sizes == [] {
      NoSizes(sizes);
      NoSizes(NonZero(sizes));
    } else {
      var n := NonZero(sizes[1..]);
      assert sizes == [sizes[0]] + sizes[1..];
      NonZeroFacts(sizes[1..]);
      OneMore(sizes[0], sizes[1..]);
      OneMore(sizes[0], n);
      ZeroBucket();
      if sizes[0] == 0 {
        assert NonZero(sizes) == n;
      } else {
        assert NonZero(sizes) == [sizes[0]] + n;
      }
    }
  }

  lemma {:induction false} HistogramTotal(sizes: seq<nat>)
    ensures SumOf(Histogram(sizes)) == |sizes|
    ensures forall b :: 0 <= b < BUCKETS ==> 0 <= Histogram(sizes)[b] <= |sizes|
  {
    if sizes == [] {
      assert Histogram(sizes) == [0, 0, 0, 0, 0, 0, 0, 0];
      EightZeros();
    } else {
      HistogramTotal(sizes[1..]);
      DotBump(Histogram(sizes[1..]), Histogram(sizes[1..]), Bucket(sizes[0]));
    }
  }

  lemma EightZeros()
    ensures SumOf([0, 0, 0, 0, 0, 0, 0, 0]) == 0
  {
    ZeroSum([0, 0, 0, 0, 0, 0, 0, 0]);
  }

  lemma {:induction false} ZeroSum(c: seq<int>)
    requires forall b :: 0 <= b < |c| ==> c[b] == 0
    ensures SumOf(c) == 0
  {
    if c != [] { ZeroSum(c[1..]); }
  }

  lemma {:induction false} SumBounds(sizes: seq<nat>, lo: nat, hi: nat)
    requires forall i :: 0 <= i < |sizes| ==> lo <= sizes[i] <= hi
    ensures |sizes| * lo <= Sum(sizes) <= |sizes| * hi
  {
    if sizes != [] {
      SumBounds(sizes[1..], lo, hi);
      assert |sizes| * lo == lo + |sizes[1..]| * lo;
      assert |sizes| * hi == hi + |sizes[1..]| * hi;
    }
  }

  lemma {:induction false} HistogramMember(sizes: seq<nat>, b: nat) returns (i: nat)
    requires b < BUCKETS && Histogram(sizes)[b] != 0
    ensures i < |sizes| && Bucket(sizes[i]) == b
  {
    if Bucket(sizes[0]) == b {
      i := 0;
    } else {
      var j := HistogramMember(sizes[1..], b);
      i := j + 1;
    }
  }

  // ---------- The two directions ----------

  lemma {:induction false} PrependZeros(rest: seq<nat>, n: nat) returns (sizes: seq<nat>)
    ensures |sizes| == n + |rest| && Sum(sizes) == Sum(rest) && Zeros(sizes) == n + Zeros(rest)
    ensures Histogram(sizes) == Histogram(rest)[0 := Histogram(rest)[0] + n]
    ensures forall x :: x in sizes <==> x in rest || (x == 0 && n > 0)
  {
    if n == 0 {
      sizes := rest;
    } else {
      var tail := PrependZeros(rest, n - 1);
      sizes := [0] + tail;
      assert sizes[1..] == tail;
    }
  }

  lemma {:induction false} NoZeros(sizes: seq<nat>)
    requires 0 !in sizes
    ensures Zeros(sizes) == 0
  {
    if sizes != [] { NoZeros(sizes[1..]); }
  }

  /* Members of a list that lie between the nonzero extrema lie within their buckets' bounds. */
  lemma WithinBounds(s: Shape, x: nat)
    requires Max(1, s.smallest) <= x <= s.largest
    ensures Lows(s)[Bucket(x)] <= x <= Highs(s)[Bucket(x)]
  {
    BucketIs(x, Bucket(x));
    assert Lows(s)[Bucket(x)] == Low(s, Bucket(x));
    assert Highs(s)[Bucket(x)] == High(s, Bucket(x));
  }

  lemma BoundsFix(s: Shape, b: nat, x: int)
    requires b < BUCKETS && Low(s, b) <= x <= High(s, b)
    ensures Bucket(x) == b
  {
    BucketIs(x, b);
  }

  /* Removing sizes from a histogram and adding them back to a list undo each other. */
  lemma {:induction false} AddBack(h: seq<int>, removed: seq<nat>, rest: seq<nat>)
    requires |h| == BUCKETS && RemoveAll(h, removed) == Some(Histogram(rest))
    ensures Histogram(removed + rest) == h
    ensures Sum(removed + rest) == SumOf(removed) + Sum(rest)
    decreases |removed|
  {
    if removed == [] {
      assert removed + rest == rest;
    } else {
      var b := Bucket(removed[0]);
      AddBack(h[b := h[b] - 1], removed[1..], rest);
      assert (removed + rest)[1..] == removed[1..] + rest;
    }
  }

  lemma HeadOut(removed: seq<nat>)
    requires removed != []
    ensures multiset(removed) == multiset{removed[0]} + multiset(removed[1..])
  {
    assert removed == [removed[0]] + removed[1..];
  }

  lemma Unbumped(h: seq<int>, b: nat)
    requires b < |h|
    ensures Bump(h, b)[b := Bump(h, b)[b] - 1] == h
  {
  }

  lemma {:induction false} TakeOut(sizes: seq<nat>, removed: seq<nat>) returns (rest: seq<nat>)
    requires multiset(removed) <= multiset(sizes)
    ensures RemoveAll(Histogram(sizes), removed) == Some(Histogram(rest))
    ensures Sum(sizes) == SumOf(removed) + Sum(rest)
    ensures multiset(sizes) == multiset(removed) + multiset(rest)
    decreases |removed|
  {
    hide Histogram, Sum, Bucket, Drop;
    if removed == [] {
      rest := sizes;
    } else {
      var x := removed[0];
      HeadOut(removed);
      assert x in multiset(removed);
      assert x in sizes;
      DropFacts(sizes, x);
      var middle := Drop(sizes, x);
      HistogramTotal(middle);
      CancelOne(multiset(removed[1..]), multiset(middle), x);
      rest := TakeOut(middle, removed[1..]);
      Unbumped(Histogram(middle), Bucket(x));
    }
  }

  lemma CancelOne<T>(a: multiset<T>, b: multiset<T>, x: T)
    requires a + multiset{x} <= b + multiset{x}
    ensures a <= b
  {
    forall y
      ensures a[y] <= b[y]
    {
      assert (a + multiset{x})[y] <= (b + multiset{x})[y];
    }
  }

  lemma ShapeFillable(s: Shape, h: seq<int>)
    requires Counters(s) && RemoveAll(WithoutZeros(s), Extremes(s)) == Some(h)
    requires forall b :: 0 <= b < BUCKETS && h[b] != 0 ==> Low(s, b) <= High(s, b)
    ensures Fillable(h, Lows(s), Highs(s))
  {
    RemoveAllNonNegative(WithoutZeros(s), Extremes(s));
    forall b, x | 0 <= b < BUCKETS && Lows(s)[b] <= x <= Highs(s)[b]
      ensures Bucket(x) == b
    {
      BoundsFix(s, b, x);
    }
  }

  lemma FilledWithin(s: Shape, rest: seq<nat>)
    requires forall i :: 0 <= i < |rest| ==> Lows(s)[Bucket(rest[i])] <= rest[i] <= Highs(s)[Bucket(rest[i])]
    ensures forall x :: x in rest ==> Max(1, s.smallest) <= x <= s.largest
  {
    forall x | x in rest
      ensures Max(1, s.smallest) <= x <= s.largest
    {
      var i :| 0 <= i < |rest| && rest[i] == x;
      assert Lows(s)[Bucket(x)] == Low(s, Bucket(x)) && Highs(s)[Bucket(x)] == High(s, Bucket(x));
    }
  }

  /* The witness: the empty descriptors, the extremes and the filled remainder. */
  lemma Assemble(s: Shape, rest: seq<nat>)
    requires Counters(s) && RemoveAll(WithoutZeros(s), Extremes(s)) == Some(Histogram(rest))
    requires SumOf(Extremes(s)) + Sum(rest) == s.bytes
    requires forall x :: x in rest ==> Max(1, s.smallest) <= x <= s.largest
    ensures exists sizes :: Realises(sizes, s)
  {
    hide RemoveAll, Dot, Bucket, Histogram, Sum, Zeros, SumOf;
    AddBack(WithoutZeros(s), Extremes(s), rest);
    ExtremesMember(s);
    var nonzero: seq<nat> := Extremes(s) + rest;
    assert forall x :: x in nonzero <==> x in Extremes(s) || x in rest;
    NoZeros(nonzero);
    var sizes := PrependZeros(nonzero, s.zeros);
    assert Histogram(sizes) == s.histogram;
    HistogramTotal(sizes);
    Bounded(sizes, s.smallest, s.largest);
    assert Realises(sizes, s);
  }

  lemma Bounded(sizes: seq<nat>, lo: int, hi: int)
    requires forall x :: x in sizes ==> lo <= x <= hi
    ensures forall i :: 0 <= i < |sizes| ==> lo <= sizes[i] <= hi
  {
    assert forall i :: 0 <= i < |sizes| ==> sizes[i] in sizes;
  }

  lemma SoundShape(s: Shape)
    requires Passes(s)
    ensures Realisable(s)
  {
    var h := RemoveAll(WithoutZeros(s), Extremes(s)).value;
    ShapeFillable(s, h);
    var rest := Fill(h, Lows(s), Highs(s), s.bytes - SumOf(Extremes(s)));
    FilledWithin(s, rest);
    Assemble(s, rest);
  }

  lemma ExtremesMember(s: Shape)
    ensures forall x :: x in Extremes(s) <==> x == s.largest || (x == s.smallest && s.smallest != 0)
  {
  }

  lemma {:induction false} RemoveAllNonNegative(h: seq<int>, sizes: seq<int>)
    requires |h| == BUCKETS && forall b :: 0 <= b < BUCKETS ==> 0 <= h[b]
    requires RemoveAll(h, sizes).Some?
    ensures forall b :: 0 <= b < BUCKETS ==> 0 <= RemoveAll(h, sizes).value[b]
    decreases |sizes|
  {
    if sizes != [] {
      var b := Bucket(sizes[0]);
      RemoveAllNonNegative(h[b := h[b] - 1], sizes[1..]);
    }
  }

  lemma CountersHold(s: Shape, sizes: seq<nat>)
    requires 1 <= s.ranges <= s.descriptors <= U64_MAX && 1 <= s.bytes <= U64_MAX
    requires Realises(sizes, s)
    ensures Counters(s)
  {
    HistogramTotal(sizes);
    ZerosFit(sizes);
    SumBounds(sizes, 0, s.largest);
    SumMember(sizes, s.largest);
    SmallestTotal(s, sizes);
    ZeroIff(sizes);
    var i :| 0 <= i < |sizes| && sizes[i] == s.smallest;
  }

  lemma ZerosFit(sizes: seq<nat>)
    ensures Zeros(sizes) <= Histogram(sizes)[0]
    ensures Sum(sizes) > 0 ==> Zeros(sizes) < |sizes|
  {
    NonZeroFacts(sizes);
    NonZeroMembers(sizes);
    HistogramTotal(NonZero(sizes));
    if NonZero(sizes) == [] {
      assert Sum(NonZero(sizes)) == 0;
    }
  }

  lemma SmallestTotal(s: Shape, sizes: seq<nat>)
    requires Realises(sizes, s)
    ensures (s.descriptors - s.zeros) * s.smallest <= s.bytes
  {
    NonZeroFacts(sizes);
    NonZeroMembers(sizes);
    var n := NonZero(sizes);
    forall i | 0 <= i < |n|
      ensures s.smallest <= n[i] <= s.largest
    {
      assert n[i] in n;
      assert n[i] in sizes;
    }
    SumBounds(n, s.smallest, s.largest);
  }

  lemma {:induction false} ZeroIff(sizes: seq<nat>)
    ensures 0 in sizes <==> Zeros(sizes) > 0
  {
    if sizes != [] { ZeroIff(sizes[1..]); }
  }

  lemma {:induction false} SumMember(sizes: seq<nat>, x: nat)
    requires x in sizes
    ensures x <= Sum(sizes)
  {
    DropFacts(sizes, x);
  }

  lemma RemainderWithin(s: Shape, rest: seq<nat>)
    requires forall x :: x in rest ==> Max(1, s.smallest) <= x <= s.largest
    ensures Dot(Histogram(rest), Lows(s)) <= Sum(rest) <= Dot(Histogram(rest), Highs(s))
    ensures forall b :: 0 <= b < BUCKETS && Histogram(rest)[b] != 0 ==> Low(s, b) <= High(s, b)
  {
    forall i | 0 <= i < |rest|
      ensures Lows(s)[Bucket(rest[i])] <= rest[i] <= Highs(s)[Bucket(rest[i])]
    {
      assert rest[i] in rest;
      WithinBounds(s, rest[i]);
    }
    SumWithin(rest, Lows(s), Highs(s));
    forall b | 0 <= b < BUCKETS && Histogram(rest)[b] != 0
      ensures Low(s, b) <= High(s, b)
    {
      var i := HistogramMember(rest, b);
      assert Lows(s)[b] == Low(s, b) && Highs(s)[b] == High(s, b);
    }
  }

  lemma RemoveExtremes(s: Shape, nonzero: seq<nat>) returns (rest: seq<nat>)
    requires s.largest in nonzero && s.smallest >= 0 && (s.smallest != 0 ==> s.smallest in nonzero)
    ensures RemoveAll(Histogram(nonzero), Extremes(s)) == Some(Histogram(rest))
    ensures Sum(nonzero) == SumOf(Extremes(s)) + Sum(rest)
    ensures forall x :: x in rest ==> x in nonzero
  {
    var extremes: seq<nat> := Extremes(s);
    assert multiset(extremes) <= multiset(nonzero);
    rest := TakeOut(nonzero, extremes);
    forall x | x in rest
      ensures x in nonzero
    {
      assert x in multiset(rest) && x in multiset(nonzero);
    }
  }

  lemma CompleteShape(s: Shape)
    requires Realisable(s)
    ensures Passes(s)
  {
    hide Histogram, RemoveAll, Dot;
    var sizes :| Realises(sizes, s);
    CountersHold(s, sizes);
    NonZeroFacts(sizes);
    NonZeroMembers(sizes);
    var nonzero := NonZero(sizes);
    assert Histogram(nonzero) == WithoutZeros(s);
    var rest := RemoveExtremes(s, nonzero);
    RemainderWithin(s, rest);
  }

  /* The check is exact: it accepts a record if and only if some list of sizes has these counters. */
  lemma ShapeIsExact(s: Shape)
    ensures Passes(s) <==> Realisable(s)
  {
    if Passes(s) { SoundShape(s); }
    if Realisable(s) { CompleteShape(s); }
  }

  // ---------- The source's loops ----------

  /* Take the extreme descriptors out of the histogram and add up their bytes. */
  method TakeExtremes(histogram: seq<int>, extremes: seq<int>) returns (remaining: Option<seq<int>>, fixed: int)
    requires |histogram| == BUCKETS
    ensures remaining == RemoveAll(histogram, extremes)
    ensures remaining.Some? ==> fixed == SumOf(extremes)
  {
    var rest := histogram;
    fixed := 0;
    for i := 0 to |extremes|
      invariant |rest| == BUCKETS
      invariant fixed == SumOf(extremes[..i])
      invariant RemoveAll(histogram, extremes) == RemoveAll(rest, extremes[i..])
    {
      var bucket := Bucket(extremes[i]);
      if rest[bucket] == 0 {
        return None, fixed;
      }
      rest := rest[bucket := rest[bucket] - 1];
      fixed := fixed + extremes[i];
      assert extremes[i..][1..] == extremes[i + 1..];
      assert extremes[..i + 1] == extremes[..i] + [extremes[i]];
      SumOfAppend(extremes[..i], extremes[i]);
    }
    assert extremes[..|extremes|] == extremes;
    remaining := Some(rest);
  }

  /* The least and greatest totals the remaining descriptors allow, unless some bucket lies outside the extrema. */
  method TotalBounds(s: Shape, remaining: seq<int>, fixed: int) returns (fits: bool, lower: int, upper: int)
    requires |remaining| == BUCKETS
    ensures fits <==> forall b :: 0 <= b < BUCKETS && remaining[b] != 0 ==> Low(s, b) <= High(s, b)
    ensures fits ==> lower == fixed + Dot(remaining, Lows(s)) && upper == fixed + Dot(remaining, Highs(s))
  {
    lower, upper := fixed, fixed;
    var lows, highs := Lows(s), Highs(s);
    for bucket := 0 to BUCKETS
      invariant forall b :: 0 <= b < bucket && remaining[b] != 0 ==> Low(s, b) <= High(s, b)
      invariant lower == fixed + Dot(remaining[..bucket], lows[..bucket])
      invariant upper == fixed + Dot(remaining[..bucket], highs[..bucket])
    {
      var count, low, high := remaining[bucket], Low(s, bucket), High(s, bucket);
      if count != 0 && low > high {
        return false, lower, upper;
      }
      lower := lower + count * low;
      upper := upper + count * high;
      DotAppend(remaining, lows, bucket);
      DotAppend(remaining, highs, bucket);
    }
    assert remaining[..BUCKETS] == remaining && lows[..BUCKETS] == lows && highs[..BUCKETS] == highs;
    fits := true;
  }

  method ValidateShape(s: Shape) returns (ok: bool)
    ensures ok <==> Realisable(s)
  {
    ShapeIsExact(s);
    if !Counters(s) {
      return false;
    }
    var remaining, fixed := TakeExtremes(WithoutZeros(s), Extremes(s));
    if remaining.None? {
      return false;
    }
    var fits, lower, upper := TotalBounds(s, remaining.value, fixed);
    ok := fits && lower <= s.bytes <= upper;
  }

  lemma {:induction false} SumOfAppend(c: seq<int>, x: int)
    ensures SumOf(c + [x]) == SumOf(c) + x
  {
    if c == [] {
      assert c + [x] == [x];
    } else {
      SumOfAppend(c[1..], x);
      assert (c + [x])[1..] == c[1..] + [x];
    }
  }

  lemma {:induction false} DotAppend(c: seq<int>, w: seq<int>, n: nat)
    requires n < |c| == |w|
    ensures Dot(c[..n + 1], w[..n + 1]) == Dot(c[..n], w[..n]) + c[n] * w[n]
  {
    if n == 0 {
      assert c[..1] == [c[0]] && w[..1] == [w[0]] && c[..1][1..] == [] && w[..1][1..] == [];
    } else {
      DotAppend(c[1..], w[1..], n - 1);
      assert c[..n + 1][1..] == c[1..][..n] && w[..n + 1][1..] == w[1..][..n];
      assert c[..n][1..] == c[1..][..n - 1] && w[..n][1..] == w[1..][..n - 1];
    }
  }
}
