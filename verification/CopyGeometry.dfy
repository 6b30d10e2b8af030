/** Copy descriptors: `_geometry` on one batch and `_part_geometry` on the batches of one part. */
module CopyGeometry {
  import opened Wrappers
  import opened ShapeCheck
  import IntervalSweep
  import CopyCodec

  datatype Copy = Copy(
    device: int, host: int, hostDevice: int, size: int, deviceAllocation: int, hostRegistration: int,
    deviceStart: int, deviceBytes: int, destinationOffset: int, arenaId: int, arenaBytes: int,
    allocationId: int, allocationOffset: int, allocationBytes: int, sourceOffset: int)

  /* The fields of a compact row, in the declared order. */
  function CopyOf(row: seq<int>): Copy
    requires |row| == CopyCodec.FIELDS
  {
    Copy(row[0], row[1], row[2], row[3], row[4], row[5], row[6], row[7], row[8], row[9], row[10], row[11], row[12],
         row[13], row[14])
  }

  /* Every field is a u64 above its minimum, and the copy stays within its registered and granted spans. */
  predicate CopyOk(c: Copy) {
    && Integer(c.device, 1) && Integer(c.host, 1) && Integer(c.hostDevice, 1) && Integer(c.size, 1)
    && Integer(c.deviceAllocation, 0) && Integer(c.hostRegistration, 1) && Integer(c.deviceStart, 1)
    && Integer(c.deviceBytes, 1) && Integer(c.destinationOffset, 0) && Integer(c.arenaId, 1)
    && Integer(c.arenaBytes, 1) && Integer(c.allocationId, 1) && Integer(c.allocationOffset, 0)
    && Integer(c.allocationBytes, 1) && Integer(c.sourceOffset, 0)
    && c.deviceStart + c.destinationOffset == c.device
    && c.destinationOffset + c.size <= c.deviceBytes
    && c.deviceStart + c.deviceBytes <= U64_MAX
    && c.hostRegistration + c.sourceOffset == c.host
    && c.hostRegistration + c.arenaBytes <= U64_MAX
    && c.hostDevice >= c.sourceOffset
    && c.hostDevice - c.sourceOffset != 0
    && c.hostDevice - c.sourceOffset + c.arenaBytes <= U64_MAX
    && c.hostDevice + c.size <= U64_MAX
    && c.allocationOffset + c.allocationBytes <= c.arenaBytes
    && c.sourceOffset >= c.allocationOffset
    && c.sourceOffset + c.size <= c.allocationOffset + c.allocationBytes
  }

  /* What one accepted copy touches: destination bytes inside the registered tensor, source bytes inside the granted
  allocation, both inside the 64-bit address space. */
  lemma CopyStaysInside(c: Copy)
    requires CopyOk(c)
    ensures c.deviceStart <= c.device && c.device + c.size <= c.deviceStart + c.deviceBytes <= U64_MAX
    ensures var arena := c.hostRegistration;
            && arena + c.allocationOffset <= c.host
            && c.host + c.size <= arena + c.allocationOffset + c.allocationBytes <= arena + c.arenaBytes <= U64_MAX
  {
  }

  // ---------- What a `setdefault` loop learns ----------

  /* Equal keys carry equal values. */
  predicate Functional<K(==), V(==)>(ps: seq<(K, V)>) {
    forall i, j :: 0 <= i < |ps| && 0 <= j < |ps| && ps[i].0 == ps[j].0 ==> ps[i].1 == ps[j].1
  }

  predicate AgreesWith<K(==), V(==)>(ps: seq<(K, V)>, k: K, v: V) {
    forall i :: 0 <= i < |ps| && ps[i].0 == k ==> ps[i].1 == v
  }

  /* The map holds exactly these pairs. */
  ghost predicate Learned<K(!new), V>(m: map<K, V>, ps: seq<(K, V)>) {
    && (forall i :: 0 <= i < |ps| ==> ps[i].0 in m && m[ps[i].0] == ps[i].1)
    && (forall k :: k in m ==> exists i :: 0 <= i < |ps| && ps[i].0 == k)
  }

  lemma LearnFits<K(!new), V>(m: map<K, V>, ps: seq<(K, V)>, k: K, v: V)
    requires Learned(m, ps)
    ensures (k in m ==> m[k] == v) <==> AgreesWith(ps, k, v)
  {
    if k in m {
      var i :| 0 <= i < |ps| && ps[i].0 == k;
    }
  }

  lemma LearnMore<K(!new), V>(m: map<K, V>, ps: seq<(K, V)>, k: K, v: V)
    requires Learned(m, ps) && AgreesWith(ps, k, v)
    ensures Learned(m[k := v], ps + [(k, v)])
  {
    var all, m' := ps + [(k, v)], m[k := v];
    forall x | x in m'
      ensures exists i :: 0 <= i < |all| && all[i].0 == x
    {
      if x == k {
        assert all[|ps|].0 == x;
      } else {
        var i :| 0 <= i < |ps| && ps[i].0 == x;
        assert all[i].0 == x;
      }
    }
  }

  lemma FunctionalAppend<K, V>(ps: seq<(K, V)>, k: K, v: V)
    ensures Functional(ps + [(k, v)]) <==> Functional(ps) && AgreesWith(ps, k, v)
  {
    var all := ps + [(k, v)];
    assert forall i :: 0 <= i < |ps| ==> all[i] == ps[i];
    assert all[|ps|] == (k, v);
  }

  lemma FunctionalPrefix<K, V>(ps: seq<(K, V)>, more: seq<(K, V)>)
    requires Functional(ps + more)
    ensures Functional(ps)
  {
    assert forall i :: 0 <= i < |ps| ==> (ps + more)[i] == ps[i];
  }

  // ---------- One batch ----------

  function SizeOf(c: Copy): nat
    requires CopyOk(c)
  {
    c.size
  }

  function Sizes(copies: seq<Copy>): (r: seq<nat>)
    requires forall i :: 0 <= i < |copies| ==> CopyOk(copies[i])
    ensures |r| == |copies| && forall i :: 0 <= i < |r| ==> r[i] == copies[i].size
  {
    seq(|copies|, i requires 0 <= i < |copies| => SizeOf(copies[i]))
  }

  function Allocations(copies: seq<Copy>): (r: seq<((int, int), (int, int))>)
    ensures |r| == |copies|
  {
    seq(|copies|, i requires 0 <= i < |copies| => (AllocationKey(copies[i]), AllocationBounds(copies[i])))
  }

  function AllocationKey(c: Copy): (int, int) { (c.arenaId, c.allocationId) }

  function AllocationBounds(c: Copy): (int, int) { (c.allocationOffset, c.allocationBytes) }

  /* A batch whose copies are all well placed, agree on their source allocations and have the recorded shape. */
  ghost predicate BatchGeometry(copies: seq<Copy>, s: Shape) {
    && (forall i :: 0 <= i < |copies| ==> CopyOk(copies[i]))
    && Functional(Allocations(copies))
    && Realises(Sizes(copies), s)
  }

  lemma {:induction false} SumAppend(sizes: seq<nat>, x: nat)
    ensures Sum(sizes + [x]) == Sum(sizes) + x
    ensures Histogram(sizes + [x]) == Bump(Histogram(sizes), Bucket(x))
    ensures Zeros(sizes + [x]) == Zeros(sizes) + (if x == 0 then 1 else 0)
  {
    if sizes == [] {
      assert sizes + [x] == [x] && [x][1..] == [];
    } else {
      assert (sizes + [x])[1..] == sizes[1..] + [x];
      SumAppend(sizes[1..], x);
      BumpCommutes(Histogram(sizes[1..]), Bucket(x), Bucket(sizes[0]));
    }
  }

  /* The running minimum and maximum of a nonempty list. */
  predicate Extrema(sizes: seq<nat>, low: int, high: int) {
    && low in sizes && high in sizes
    && forall i :: 0 <= i < |sizes| ==> low <= sizes[i] <= high
  }

  lemma ExtremaUnique(sizes: seq<nat>, low: int, high: int, s: Shape)
    requires Extrema(sizes, low, high)
    ensures (low == s.smallest && high == s.largest) <==> Extrema(sizes, s.smallest, s.largest)
  {
  }

  /* The running totals over the sizes seen so far. */
  ghost predicate Totals(sizes: seq<nat>, total: int, histogram: seq<int>, low: int, high: int) {
    && total == Sum(sizes) && histogram == Histogram(sizes) && Zeros(sizes) == 0
    && (sizes != [] ==> Extrema(sizes, low, high))
  }

  lemma TotalsStep(sizes: seq<nat>, total: int, histogram: seq<int>, low: int, high: int, x: nat)
    requires Totals(sizes, total, histogram, low, high) && x > 0
    ensures Totals(sizes + [x], total + x, Bump(histogram, Bucket(x)),
                   if sizes == [] then x else Min(low, x), if sizes == [] then x else Max(high, x))
  {
    SumAppend(sizes, x);
    ExtremaAppend(sizes, x, if sizes == [] then x else Min(low, x), if sizes == [] then x else Max(high, x));
  }

  lemma AllocationStep(m: map<(int, int), (int, int)>, copies: seq<Copy>, n: nat)
    requires n < |copies| && Learned(m, Allocations(copies[..n])) && Functional(Allocations(copies[..n]))
    ensures var k, v := AllocationKey(copies[n]), AllocationBounds(copies[n]);
            && (k in m && m[k] != v ==> !Functional(Allocations(copies)))
            && (!(k in m && m[k] != v) ==>
                  && Learned(m[k := v], Allocations(copies[..n + 1]))
                  && Functional(Allocations(copies[..n + 1])))
  {
    var ps, k, v := Allocations(copies[..n]), AllocationKey(copies[n]), AllocationBounds(copies[n]);
    assert Allocations(copies[..n + 1]) == ps + [(k, v)];
    assert Allocations(copies) == Allocations(copies[..n + 1]) + Allocations(copies[n + 1..]);
    LearnFits(m, ps, k, v);
    FunctionalAppend(ps, k, v);
    if k in m && m[k] != v {
      if Functional(Allocations(copies)) {
        FunctionalPrefix(ps + [(k, v)], Allocations(copies[n + 1..]));
      }
    } else {
      LearnMore(m, ps, k, v);
    }
  }

  /* The loop of `_geometry`: check every copy and accumulate the totals. */
  method Scan(copies: seq<Copy>)
      returns (ok: bool, total: int, histogram: seq<int>, low: int, high: int)
    ensures ok <==> (forall i :: 0 <= i < |copies| ==> CopyOk(copies[i])) && Functional(Allocations(copies))
    ensures ok ==> Totals(Sizes(copies), total, histogram, low, high)
  {
    histogram := [0, 0, 0, 0, 0, 0, 0, 0];
    var allocations: map<(int, int), (int, int)> := map[];
    total, low, high := 0, 0, 0;
    ghost var sizes: seq<nat> := [];
    for i := 0 to |copies|
      invariant forall k :: 0 <= k < i ==> CopyOk(copies[k])
      invariant sizes == Sizes(copies[..i])
      invariant Learned(allocations, Allocations(copies[..i])) && Functional(Allocations(copies[..i]))
      invariant Totals(sizes, total, histogram, low, high)
    {
      var copy := copies[i];
      if !CopyOk(copy) {
        return false, total, histogram, low, high;
      }
      AllocationStep(allocations, copies, i);
      if AllocationKey(copy) in allocations && allocations[AllocationKey(copy)] != AllocationBounds(copy) {
        return false, total, histogram, low, high;
      }
      allocations := allocations[AllocationKey(copy) := AllocationBounds(copy)];
      TotalsStep(sizes, total, histogram, low, high, copy.size);
      total := total + copy.size;
      histogram := Bump(histogram, Bucket(copy.size));
      low := if i == 0 then copy.size else Min(low, copy.size);
      high := if i == 0 then copy.size else Max(high, copy.size);
      SizesAppend(copies, i);
      sizes := sizes + [copy.size];
    }
    assert copies[..|copies|] == copies;
    ok := true;
  }

  lemma SizesAppend(copies: seq<Copy>, n: nat)
    requires n < |copies| && forall k :: 0 <= k <= n ==> CopyOk(copies[k])
    ensures Sizes(copies[..n + 1]) == Sizes(copies[..n]) + [copies[n].size]
  {
  }

  /* `_geometry`, for a record whose scalar shape is already known to be realisable. */
  method Geometry(copies: seq<Copy>, s: Shape) returns (ok: bool)
    requires Realisable(s)
    ensures ok <==> BatchGeometry(copies, s)
  {
    RealisableNonzero(s);
    var placed, total, histogram, low, high := Scan(copies);
    if placed && |copies| == s.descriptors {
      ExtremaUnique(Sizes(copies), low, high, s);
      ok := total == s.bytes && low == s.smallest && high == s.largest && histogram == s.histogram;
      assert low != 0;
    } else {
      ok := false;
    }
  }

  lemma ExtremaAppend(sizes: seq<nat>, x: nat, low: int, high: int)
    requires (sizes == [] && low == high == x)
          || (exists l, h :: Extrema(sizes, l, h) && low == Min(l, x) && high == Max(h, x))
    ensures Extrema(sizes + [x], low, high)
  {
    if sizes != [] {
      var l, h :| Extrema(sizes, l, h) && low == Min(l, x) && high == Max(h, x);
      assert forall y :: y in sizes + [x] <==> y in sizes || y == x;
      forall i | 0 <= i < |sizes + [x]|
        ensures low <= (sizes + [x])[i] <= high
      {
        if i < |sizes| { assert (sizes + [x])[i] == sizes[i]; }
      }
    } else {
      assert sizes + [x] == [x];
    }
  }

  lemma RealisableNonzero(s: Shape)
    requires Realisable(s)
    ensures s.descriptors >= 1 && (s.smallest != 0 ==> s.zeros == 0)
  {
    CompleteShape(s);
  }

  // ---------- One part ----------

  function Arena(c: Copy): (int, int, int) { (c.hostRegistration, c.arenaBytes, c.hostDevice - c.sourceOffset) }

  function TensorKey(c: Copy): (int, int) { (c.deviceAllocation, c.deviceStart) }

  /* What every part of a trace has said so far about source generations, arenas and destination tensors. */
  datatype Books = Books(
    allocations: map<(int, int), (int, int)>, arenas: map<int, (int, int, int)>, tensors: map<(int, int), int>)

  const NO_BOOKS := Books(map[], map[], map[])

  /* Three `setdefault` checks. */
  predicate Fits(b: Books, c: Copy) {
    && (AllocationKey(c) in b.allocations ==> b.allocations[AllocationKey(c)] == AllocationBounds(c))
    && (c.arenaId in b.arenas ==> b.arenas[c.arenaId] == Arena(c))
    && (TensorKey(c) in b.tensors ==> b.tensors[TensorKey(c)] == c.deviceBytes)
  }

  function Note(b: Books, c: Copy): Books {
    Books(b.allocations[AllocationKey(c) := AllocationBounds(c)], b.arenas[c.arenaId := Arena(c)],
          b.tensors[TensorKey(c) := c.deviceBytes])
  }

  function NoteAll(b: Books, copies: seq<Copy>): Option<Books>
    decreases |copies|
  {
    if copies == [] then Some(b)
    else if Fits(b, copies[0]) then NoteAll(Note(b, copies[0]), copies[1..])
    else None
  }

  function Arenas(copies: seq<Copy>): (r: seq<(int, (int, int, int))>)
    ensures |r| == |copies|
  {
    seq(|copies|, i requires 0 <= i < |copies| => (copies[i].arenaId, Arena(copies[i])))
  }

  function Tensors(copies: seq<Copy>): (r: seq<((int, int), int)>)
    ensures |r| == |copies|
  {
    seq(|copies|, i requires 0 <= i < |copies| => (TensorKey(copies[i]), copies[i].deviceBytes))
  }

  /* Copies that name the same allocation, arena or tensor describe it alike. */
  predicate Consistent(copies: seq<Copy>) {
    Functional(Allocations(copies)) && Functional(Arenas(copies)) && Functional(Tensors(copies))
  }

  /* The books hold exactly what these copies say. */
  ghost predicate Records(b: Books, copies: seq<Copy>) {
    && Learned(b.allocations, Allocations(copies))
    && Learned(b.arenas, Arenas(copies))
    && Learned(b.tensors, Tensors(copies))
  }

  lemma NoteStep(b: Books, seen: seq<Copy>, c: Copy)
    requires Records(b, seen) && Consistent(seen)
    ensures Fits(b, c) <==> Consistent(seen + [c])
    ensures Fits(b, c) ==> Records(Note(b, c), seen + [c])
  {
    var all := seen + [c];
    assert Allocations(all) == Allocations(seen) + [(AllocationKey(c), AllocationBounds(c))];
    assert Arenas(all) == Arenas(seen) + [(c.arenaId, Arena(c))];
    assert Tensors(all) == Tensors(seen) + [(TensorKey(c), c.deviceBytes)];
    LearnFits(b.allocations, Allocations(seen), AllocationKey(c), AllocationBounds(c));
    LearnFits(b.arenas, Arenas(seen), c.arenaId, Arena(c));
    LearnFits(b.tensors, Tensors(seen), TensorKey(c), c.deviceBytes);
    FunctionalAppend(Allocations(seen), AllocationKey(c), AllocationBounds(c));
    FunctionalAppend(Arenas(seen), c.arenaId, Arena(c));
    FunctionalAppend(Tensors(seen), TensorKey(c), c.deviceBytes);
    if Fits(b, c) {
      LearnMore(b.allocations, Allocations(seen), AllocationKey(c), AllocationBounds(c));
      LearnMore(b.arenas, Arenas(seen), c.arenaId, Arena(c));
      LearnMore(b.tensors, Tensors(seen), TensorKey(c), c.deviceBytes);
    }
  }

  lemma ConsistentPrefix(copies: seq<Copy>, more: seq<Copy>)
    requires Consistent(copies + more)
    ensures Consistent(copies)
  {
    assert Allocations(copies + more) == Allocations(copies) + Allocations(more);
    assert Arenas(copies + more) == Arenas(copies) + Arenas(more);
    assert Tensors(copies + more) == Tensors(copies) + Tensors(more);
    FunctionalPrefix(Allocations(copies), Allocations(more));
    FunctionalPrefix(Arenas(copies), Arenas(more));
    FunctionalPrefix(Tensors(copies), Tensors(more));
  }

  /* The `setdefault` loop succeeds exactly when all copies seen so far, in this part and before, agree pairwise. */
  lemma {:induction false} NoteAllExact(b: Books, seen: seq<Copy>, copies: seq<Copy>)
    requires Records(b, seen) && Consistent(seen)
    ensures NoteAll(b, copies).Some? <==> Consistent(seen + copies)
    ensures NoteAll(b, copies).Some? ==> Records(NoteAll(b, copies).value, seen + copies)
    decreases |copies|
  {
    if copies == [] {
      assert seen + copies == seen;
    } else {
      var c := copies[0];
      assert seen + copies == (seen + [c]) + copies[1..];
      NoteStep(b, seen, c);
      if Fits(b, c) {
        NoteAllExact(Note(b, c), seen + [c], copies[1..]);
      } else if Consistent(seen + copies) {
        ConsistentPrefix(seen + [c], copies[1..]);
      }
    }
  }

  // ---------- Destination ranges ----------

  type Interval = IntervalSweep.Interval

  function Target(c: Copy): Interval { IntervalSweep.Interval(c.device, c.device + c.size) }

  function Targets(copies: seq<Copy>): (r: seq<Interval>)
    ensures |r| == |copies| && forall i :: 0 <= i < |r| ==> r[i] == Target(copies[i])
  {
    seq(|copies|, i requires 0 <= i < |copies| => Target(copies[i]))
  }

  predicate Apart(a: Interval, b: Interval) {
    a.right <= b.left || b.right <= a.left
  }

  predicate PairwiseApart(s: seq<Interval>) {
    forall i, j :: 0 <= i < j < |s| ==> Apart(s[i], s[j])
  }

  predicate Nonempty(s: seq<Interval>) {
    forall i :: i in s ==> i.left < i.right
  }

  /* The neighbour test on the sorted ranges. */
  predicate NeighboursApart(s: seq<Interval>) {
    forall i :: 0 < i < |s| ==> s[i - 1].right <= s[i].left
  }

  /* The same, free of order: no range occurs twice and any two ranges are apart. */
  predicate SetApart(m: multiset<Interval>) {
    && (forall a :: a in m ==> m[a] == 1)
    && (forall a, b :: a in m && b in m && a != b ==> Apart(a, b))
  }

  lemma {:induction false} Occurrences(s: seq<Interval>, a: Interval)
    ensures multiset(s)[a] >= 2 <==> exists i, j :: 0 <= i < j < |s| && s[i] == a && s[j] == a
  {
    if s != [] {
      assert s == [s[0]] + s[1..];
      Occurrences(s[1..], a);
      if i, j :| 0 <= i < j < |s| && s[i] == a && s[j] == a {
        if i > 0 {
          assert s[1..][i - 1] == a && s[1..][j - 1] == a;
        } else {
          assert s[1..][j - 1] == a && a in multiset(s[1..]);
        }
      }
      if multiset(s)[a] >= 2 {
        if s[0] == a {
          assert a in s[1..];
          var j :| 0 <= j < |s[1..]| && s[1..][j] == a;
          assert s[0] == a && s[j + 1] == a;
        } else {
          var i, j :| 0 <= i < j < |s[1..]| && s[1..][i] == a && s[1..][j] == a;
          assert s[i + 1] == a && s[j + 1] == a;
        }
      }
    }
  }

  lemma ApartAsSet(s: seq<Interval>)
    requires Nonempty(s)
    ensures PairwiseApart(s) <==> SetApart(multiset(s))
  {
    if PairwiseApart(s) {
      forall a | a in multiset(s)
        ensures multiset(s)[a] == 1
      {
        Occurrences(s, a);
        assert a in s;
      }
      forall a, b | a in multiset(s) && b in multiset(s) && a != b
        ensures Apart(a, b)
      {
        var i :| 0 <= i < |s| && s[i] == a;
        var j :| 0 <= j < |s| && s[j] == b;
        assert Apart(s[i], s[j]) || Apart(s[j], s[i]);
      }
    }
    if SetApart(multiset(s)) {
      forall i, j | 0 <= i < j < |s|
        ensures Apart(s[i], s[j])
      {
        assert s[i] in multiset(s) && s[j] in multiset(s);
        if s[i] == s[j] { Occurrences(s, s[i]); }
      }
    }
  }

  lemma {:induction false} NeighboursReach(s: seq<Interval>, i: nat, j: nat)
    requires Nonempty(s) && NeighboursApart(s) && i < j < |s|
    ensures s[i].right <= s[j].left
    decreases j - i
  {
    assert s[j - 1] in s;
    if i < j - 1 { NeighboursReach(s, i, j - 1); }
  }

  /* On sorted nonempty ranges, testing neighbours is as good as testing every pair. */
  lemma NeighboursSuffice(s: seq<Interval>)
    requires Nonempty(s) && IntervalSweep.Ordered(s)
    ensures NeighboursApart(s) <==> PairwiseApart(s)
  {
    if NeighboursApart(s) {
      forall i, j | 0 <= i < j < |s|
        ensures Apart(s[i], s[j])
      {
        NeighboursReach(s, i, j);
      }
    }
    if PairwiseApart(s) {
      forall i | 0 < i < |s|
        ensures s[i - 1].right <= s[i].left
      {
        assert Apart(s[i - 1], s[i]) && IntervalSweep.Before(s[i - 1], s[i]);
        assert s[i - 1] in s && s[i] in s;
      }
    }
  }

  lemma SortedApart(s: seq<Interval>)
    requires Nonempty(s)
    ensures NeighboursApart(IntervalSweep.Sorted(s)) <==> PairwiseApart(s)
  {
    var t := IntervalSweep.Sorted(s);
    forall i | i in t
      ensures i.left < i.right
    {
      assert i in multiset(t) && i in multiset(s);
    }
    NeighboursSuffice(t);
    ApartAsSet(s);
    ApartAsSet(t);
  }

  /* The destination ranges of a part share no byte. */
  predicate TargetsApart(copies: seq<Copy>) {
    PairwiseApart(Targets(copies))
  }

  /* The `setdefault` loop of `_part_geometry`. */
  method EnterCopies(copies: seq<Copy>, books: Books) returns (r: Option<Books>)
    ensures r == NoteAll(books, copies)
  {
    var now := books;
    for i := 0 to |copies|
      invariant NoteAll(books, copies) == NoteAll(now, copies[i..])
    {
      if !Fits(now, copies[i]) {
        return None;
      }
      now := Note(now, copies[i]);
      assert copies[i..][1..] == copies[i + 1..];
    }
    r := Some(now);
  }

  /* The sorted-neighbour loop of `_part_geometry`. */
  method NoOverlap(sorted: seq<Interval>) returns (ok: bool)
    ensures ok <==> NeighboursApart(sorted)
  {
    for i := 0 to |sorted|
      invariant NeighboursApart(sorted[..i])
    {
      if i > 0 && sorted[i - 1].right > sorted[i].left {
        return false;
      }
    }
    assert sorted[..|sorted|] == sorted;
    ok := true;
  }

  /* The books after a part, if its copies fit them and its destinations do not overlap. */
  function PartBooks(books: Books, copies: seq<Copy>): Option<Books> {
    if NeighboursApart(IntervalSweep.Sorted(Targets(copies))) then NoteAll(books, copies) else None
  }

  /* A part is accepted exactly when its copies agree with each other and with every earlier copy of the trace and no
  two of its destination ranges share a byte. */
  lemma PartBooksExact(books: Books, seen: seq<Copy>, copies: seq<Copy>)
    requires forall i :: 0 <= i < |copies| ==> copies[i].size >= 1
    requires Records(books, seen) && Consistent(seen)
    ensures PartBooks(books, copies).Some? <==> Consistent(seen + copies) && TargetsApart(copies)
    ensures PartBooks(books, copies).Some? ==> Records(PartBooks(books, copies).value, seen + copies)
  {
    NoteAllExact(books, seen, copies);
    SortedApart(Targets(copies));
  }

  /* `_part_geometry` */
  method PartGeometry(copies: seq<Copy>, books: Books) returns (r: Option<Books>)
    ensures r == PartBooks(books, copies)
  {
    r := EnterCopies(copies, books);
    var apart := NoOverlap(IntervalSweep.Sorted(Targets(copies)));
    if !apart {
      r := None;
    }
  }
}
