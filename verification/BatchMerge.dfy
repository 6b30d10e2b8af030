/** The merge of `submit_saves`: many prepared publish requests become one. */
module BatchMerge {
  type Hash = seq<int>

  datatype Layer = Layer(name: string, ids: seq<int>, hashes: seq<Hash>)

  datatype Request = Request(
    instance: string, generation: seq<int>, tpRank: int, ppRank: int, device: int, layers: seq<Layer>)

  // ---------- The reference meaning ----------

  /* All layers of a batch, in batch order. */
  function Layers(batch: seq<Request>): seq<Layer> {
    if batch == [] then [] else Layers(batch[..|batch| - 1]) + batch[|batch| - 1].layers
  }

  /* The layer names in order of first appearance. */
  function Names(ls: seq<Layer>): (r: seq<string>)
    ensures forall i, j :: 0 <= i < j < |r| ==> r[i] != r[j]
    ensures forall n :: n in r <==> exists k :: 0 <= k < |ls| && ls[k].name == n
  {
    if ls == [] then []
    else
      var l := |ls| - 1;
      var before := Names(ls[..l]);
      assert forall k :: 0 <= k < l ==> ls[k] == ls[..l][k];
      if ls[l].name in before then before else before + [ls[l].name]
  }

  function Ids(ls: seq<Layer>, name: string): seq<int> {
    if ls == [] then []
    else Ids(ls[..|ls| - 1], name) + (if ls[|ls| - 1].name == name then ls[|ls| - 1].ids else [])
  }

  function Hashes(ls: seq<Layer>, name: string): seq<Hash> {
    if ls == [] then []
    else Hashes(ls[..|ls| - 1], name) + (if ls[|ls| - 1].name == name then ls[|ls| - 1].hashes else [])
  }

  /* One layer per name, holding everything the batch said under that name. */
  function Merged(ls: seq<Layer>): (r: seq<Layer>)
    ensures |r| == |Names(ls)|
    ensures forall i :: 0 <= i < |r| ==> r[i] == Layer(Names(ls)[i], Ids(ls, Names(ls)[i]), Hashes(ls, Names(ls)[i]))
  {
    var names := Names(ls);
    seq(|names|, i requires 0 <= i < |names| => Layer(names[i], Ids(ls, names[i]), Hashes(ls, names[i])))
  }

  function MergedRequest(batch: seq<Request>): Request
    requires batch != []
  {
    batch[0].(layers := Merged(Layers(batch)))
  }

  // ---------- One layer at a time ----------

  lemma Grow(ls: seq<Layer>, l: Layer)
    ensures Names(ls + [l]) == if l.name in Names(ls) then Names(ls) else Names(ls) + [l.name]
    ensures forall n :: Ids(ls + [l], n) == Ids(ls, n) + (if l.name == n then l.ids else [])
    ensures forall n :: Hashes(ls + [l], n) == Hashes(ls, n) + (if l.name == n then l.hashes else [])
  {
    assert (ls + [l])[..|ls|] == ls;
  }

  lemma {:induction false} Unseen(ls: seq<Layer>, name: string)
    requires name !in Names(ls)
    ensures Ids(ls, name) == [] && Hashes(ls, name) == []
  {
    if ls != [] {
      var l := |ls| - 1;
      assert ls == ls[..l] + [ls[l]];
      assert ls[l].name in Names(ls);
      Unseen(ls[..l], name);
    }
  }

  lemma MergeNew(ls: seq<Layer>, l: Layer)
    requires l.name !in Names(ls)
    ensures Merged(ls + [l]) == Merged(ls) + [l]
  {
    hide Names, Ids, Hashes;
    Grow(ls, l);
    Unseen(ls, l.name);
    var names := Names(ls + [l]);
    forall i | 0 <= i < |names|
      ensures Merged(ls + [l])[i] == (Merged(ls) + [l])[i]
    {
      if i < |names| - 1 { assert names[i] == Names(ls)[i]; }
    }
  }

  lemma MergeKnown(ls: seq<Layer>, l: Layer, at: nat)
    requires at < |Names(ls)| && Names(ls)[at] == l.name
    ensures var target := Merged(ls)[at];
            Merged(ls + [l]) == Merged(ls)[at := Layer(target.name, target.ids + l.ids, target.hashes + l.hashes)]
  {
    Grow(ls, l);
    var target := Merged(ls)[at];
    var expected := Merged(ls)[at := Layer(target.name, target.ids + l.ids, target.hashes + l.hashes)];
    forall i | 0 <= i < |Names(ls)|
      ensures Merged(ls + [l])[i] == expected[i]
    {
      if i != at { assert Names(ls)[i] != l.name; }
    }
  }

  // ---------- The source's loops ----------

  /* `find` over the layers merged so far. */
  method Find(layers: seq<Layer>, name: string) returns (at: nat)
    ensures at <= |layers|
    ensures at < |layers| ==> layers[at].name == name
    ensures forall i :: 0 <= i < at ==> layers[i].name != name
  {
    at := 0;
    while at < |layers|
      invariant at <= |layers|
      invariant forall i :: 0 <= i < at ==> layers[i].name != name
    {
      if layers[at].name == name {
        return;
      }
      at := at + 1;
    }
  }

  method AddLayer(merged: seq<Layer>, ghost seen: seq<Layer>, layer: Layer) returns (r: seq<Layer>)
    requires merged == Merged(seen)
    ensures r == Merged(seen + [layer])
  {
    var at := Find(merged, layer.name);
    if at < |merged| {
      MergeKnown(seen, layer, at);
      var target := merged[at];
      r := merged[at := Layer(target.name, target.ids + layer.ids, target.hashes + layer.hashes)];
    } else {
      assert forall i :: 0 <= i < |merged| ==> Names(seen)[i] == merged[i].name;
      MergeNew(seen, layer);
      r := merged + [layer];
    }
  }

  method AddRequest(merged: seq<Layer>, ghost seen: seq<Layer>, request: Request) returns (r: seq<Layer>)
    requires merged == Merged(seen)
    ensures r == Merged(seen + request.layers)
  {
    r := merged;
    assert seen + request.layers[..0] == seen;
    for i := 0 to |request.layers|
      invariant r == Merged(seen + request.layers[..i])
    {
      r := AddLayer(r, seen + request.layers[..i], request.layers[i]);
      assert seen + request.layers[..i] + [request.layers[i]] == seen + request.layers[..i + 1];
    }
    assert request.layers[..|request.layers|] == request.layers;
  }

  /* The merged request: the first request's addressing, and the reference layers. */
  method Merge(batch: seq<Request>) returns (r: Request)
    requires batch != []
    ensures r == MergedRequest(batch)
  {
    var layers: seq<Layer> := [];
    for i := 0 to |batch|
      invariant layers == Merged(Layers(batch[..i]))
    {
      layers := AddRequest(layers, Layers(batch[..i]), batch[i]);
      assert batch[..i + 1][..i] == batch[..i];
    }
    assert batch[..|batch|] == batch;
    r := Request(batch[0].instance, batch[0].generation, batch[0].tpRank, batch[0].ppRank, batch[0].device, layers);
  }

  // ---------- What the merge preserves ----------

  function Zip(ids: seq<int>, hashes: seq<Hash>): (r: seq<(int, Hash)>)
    requires |ids| == |hashes|
    ensures |r| == |ids|
  {
    seq(|ids|, i requires 0 <= i < |ids| => (ids[i], hashes[i]))
  }

  predicate Paired(ls: seq<Layer>) {
    forall i :: 0 <= i < |ls| ==> |ls[i].ids| == |ls[i].hashes|
  }

  /* The (block, hash) pairs published under a name, in order. */
  function Pairs(ls: seq<Layer>, name: string): seq<(int, Hash)>
    requires Paired(ls)
  {
    if ls == [] then []
    else
      var l := ls[|ls| - 1];
      Pairs(ls[..|ls| - 1], name) + (if l.name == name then Zip(l.ids, l.hashes) else [])
  }

  lemma {:induction false} PairsAligned(ls: seq<Layer>, name: string)
    requires Paired(ls)
    ensures |Ids(ls, name)| == |Hashes(ls, name)|
    ensures Zip(Ids(ls, name), Hashes(ls, name)) == Pairs(ls, name)
  {
    if ls != [] {
      var n := |ls| - 1;
      PairsAligned(ls[..n], name);
    }
  }

  lemma PairsLast(ls: seq<Layer>, name: string)
    requires Paired(ls) && ls != []
    ensures var l := ls[|ls| - 1];
            Pairs(ls, name) == Pairs(ls[..|ls| - 1], name) + (if l.name == name then Zip(l.ids, l.hashes) else [])
  {
  }

  lemma NoPairs(ls: seq<Layer>, name: string)
    requires ls == []
    ensures Pairs(ls, name) == []
  {
  }

  lemma {:induction false} PairsConcat(a: seq<Layer>, b: seq<Layer>, name: string)
    requires Paired(a) && Paired(b)
    ensures Paired(a + b) && Pairs(a + b, name) == Pairs(a, name) + Pairs(b, name)
    decreases |b|
  {
    hide Zip, Pairs;
    if b == [] {
      assert a + b == a;
      NoPairs(b, name);
    } else {
      var n := |b| - 1;
      PairsConcat(a, b[..n], name);
      assert (a + b)[..|a| + n] == a + b[..n];
      PairsLast(a + b, name);
      PairsLast(b, name);
    }
  }

  predicate AllPaired(batch: seq<Request>) {
    forall i :: 0 <= i < |batch| ==> Paired(batch[i].layers)
  }

  lemma {:induction false} LayersPaired(batch: seq<Request>)
    requires AllPaired(batch)
    ensures Paired(Layers(batch))
  {
    if batch != [] { LayersPaired(batch[..|batch| - 1]); }
  }

  /* The pairs of each input request under a name, concatenated in batch order. */
  function BatchPairs(batch: seq<Request>, name: string): seq<(int, Hash)>
    requires AllPaired(batch)
  {
    if batch == [] then []
    else BatchPairs(batch[..|batch| - 1], name) + Pairs(batch[|batch| - 1].layers, name)
  }

  lemma {:induction false} BatchPairsAre(batch: seq<Request>, name: string)
    requires AllPaired(batch)
    ensures Paired(Layers(batch)) && Pairs(Layers(batch), name) == BatchPairs(batch, name)
  {
    LayersPaired(batch);
    if batch != [] {
      var n := |batch| - 1;
      LayersPaired(batch[..n]);
      BatchPairsAre(batch[..n], name);
      PairsConcat(Layers(batch[..n]), batch[n].layers, name);
    }
  }

  /* The merged request names each layer once, keeps every name, stays paired, and under each name publishes exactly
  the inputs' (block, hash) pairs in batch order. */
  lemma MergePreservesPairs(batch: seq<Request>)
    requires batch != [] && AllPaired(batch)
    ensures var r := MergedRequest(batch);
            && Paired(r.layers)
            && (forall i, j :: 0 <= i < j < |r.layers| ==> r.layers[i].name != r.layers[j].name)
            && (forall i :: 0 <= i < |r.layers| ==>
                  Zip(r.layers[i].ids, r.layers[i].hashes) == BatchPairs(batch, r.layers[i].name))
            && (forall k :: 0 <= k < |Layers(batch)| ==>
                  exists i :: 0 <= i < |r.layers| && r.layers[i].name == Layers(batch)[k].name)
  {
    var ls := Layers(batch);
    var r := MergedRequest(batch);
    forall i | 0 <= i < |r.layers|
      ensures |r.layers[i].ids| == |r.layers[i].hashes|
      ensures Zip(r.layers[i].ids, r.layers[i].hashes) == BatchPairs(batch, r.layers[i].name)
    {
      BatchPairsAre(batch, r.layers[i].name);
      PairsAligned(ls, r.layers[i].name);
    }
    forall k | 0 <= k < |ls|
      ensures exists i :: 0 <= i < |r.layers| && r.layers[i].name == ls[k].name
    {
      assert ls[k].name in Names(ls);
      var i :| 0 <= i < |Names(ls)| && Names(ls)[i] == ls[k].name;
      assert r.layers[i].name == ls[k].name;
    }
  }

  // ---------- Exactly when pairs stay together ----------

  /* Where a merged id or hash was: the layer of the batch, and the position in that layer's list. */
  datatype Source = Source(layer: nat, at: nat)

  function Positions(layer: nat, n: nat): (r: seq<Source>)
    ensures |r| == n
  {
    seq(n, i requires 0 <= i < n => Source(layer, i))
  }

  function IdSources(ls: seq<Layer>, name: string): seq<Source> {
    if ls == [] then []
    else
      var n := |ls| - 1;
      IdSources(ls[..n], name) + (if ls[n].name == name then Positions(n, |ls[n].ids|) else [])
  }

  function HashSources(ls: seq<Layer>, name: string): seq<Source> {
    if ls == [] then []
    else
      var n := |ls| - 1;
      HashSources(ls[..n], name) + (if ls[n].name == name then Positions(n, |ls[n].hashes|) else [])
  }

  /* Element `k` of a merged list stood at its source. */
  predicate IdFrom(ls: seq<Layer>, name: string, id: int, s: Source) {
    s.layer < |ls| && ls[s.layer].name == name && s.at < |ls[s.layer].ids| && ls[s.layer].ids[s.at] == id
  }

  predicate HashFrom(ls: seq<Layer>, name: string, hash: Hash, s: Source) {
    s.layer < |ls| && ls[s.layer].name == name && s.at < |ls[s.layer].hashes| && ls[s.layer].hashes[s.at] == hash
  }

  lemma {:induction false} IdsComeFrom(ls: seq<Layer>, name: string)
    ensures |IdSources(ls, name)| == |Ids(ls, name)|
    ensures forall k :: 0 <= k < |Ids(ls, name)| ==> IdFrom(ls, name, Ids(ls, name)[k], IdSources(ls, name)[k])
  {
    if ls != [] { IdsComeFrom(ls[..|ls| - 1], name); }
  }

  lemma {:induction false} HashesComeFrom(ls: seq<Layer>, name: string)
    ensures |HashSources(ls, name)| == |Hashes(ls, name)|
    ensures forall k :: 0 <= k < |Hashes(ls, name)| ==>
              HashFrom(ls, name, Hashes(ls, name)[k], HashSources(ls, name)[k])
  {
    if ls != [] { HashesComeFrom(ls[..|ls| - 1], name); }
  }

  /* The `k`-th merged id and the `k`-th merged hash were a pair of the input. */
  ghost predicate LinedUp(ids: seq<Source>, hashes: seq<Source>) {
    forall k :: 0 <= k < |ids| && k < |hashes| ==> ids[k] == hashes[k]
  }

  /* Some merged position holds both halves of the pair. */
  ghost predicate PairAt(ids: seq<Source>, hashes: seq<Source>, pair: Source) {
    exists k :: 0 <= k < |ids| && k < |hashes| && ids[k] == pair == hashes[k]
  }

  /* The pairs of the merged layer are pairs of the input, and no pair of the input is lost. */
  ghost predicate PairsKept(ls: seq<Layer>, name: string) {
    && LinedUp(IdSources(ls, name), HashSources(ls, name))
    && forall p, q :: 0 <= p < |ls| && ls[p].name == name && 0 <= q < |ls[p].ids| && q < |ls[p].hashes| ==>
         PairAt(IdSources(ls, name), HashSources(ls, name), Source(p, q))
  }

  /* What the earlier layers of the name gave too much of one kind, layer `p` gives none of the other. */
  predicate LevelAt(ls: seq<Layer>, name: string, p: nat)
    requires p < |ls|
  {
    var ids, hashes := |Ids(ls[..p], name)|, |Hashes(ls[..p], name)|;
    ls[p].name == name ==> (ids > hashes ==> ls[p].hashes == []) && (ids < hashes ==> ls[p].ids == [])
  }

  predicate Level(ls: seq<Layer>, name: string) {
    forall p :: 0 <= p < |ls| ==> LevelAt(ls, name, p)
  }

  lemma LevelLast(ls: seq<Layer>, name: string)
    requires ls != []
    ensures Level(ls, name) <==> Level(ls[..|ls| - 1], name) && LevelAt(ls, name, |ls| - 1)
  {
    hide Ids, Hashes;
    var n := |ls| - 1;
    forall p | 0 <= p < n ensures LevelAt(ls, name, p) <==> LevelAt(ls[..n], name, p) { assert ls[..n][..p] == ls[..p]; }
  }

  /* One more layer on lists that line up. */
  lemma LinedUpLast(ids: seq<Source>, hashes: seq<Source>, n: nat, i: nat, h: nat)
    requires forall k :: 0 <= k < |ids| ==> ids[k].layer < n
    requires forall k :: 0 <= k < |hashes| ==> hashes[k].layer < n
    ensures LinedUp(ids + Positions(n, i), hashes + Positions(n, h)) <==>
            LinedUp(ids, hashes) && (|ids| > |hashes| ==> h == 0) && (|ids| < |hashes| ==> i == 0)
  {
    var ids', hashes' := ids + Positions(n, i), hashes + Positions(n, h);
    if |ids| > |hashes| && h > 0 {
      assert ids'[|hashes|].layer < n && hashes'[|hashes|].layer == n;
    } else if |ids| < |hashes| && i > 0 {
      assert ids'[|ids|].layer == n && hashes'[|ids|].layer < n;
    } else {
      assert forall k :: 0 <= k < |ids| && k < |hashes| ==> ids'[k] == ids[k] && hashes'[k] == hashes[k];
    }
  }

  lemma {:induction false} LinedUpExactly(ls: seq<Layer>, name: string)
    ensures LinedUp(IdSources(ls, name), HashSources(ls, name)) <==> Level(ls, name)
  {
    hide LinedUp, Level, LevelAt;
    if ls == [] {
      NothingLinesUp(ls, name);
    } else {
      var n := |ls| - 1;
      LinedUpExactly(ls[..n], name);
      LevelLast(ls, name);
      LastExactly(ls, name);
    }
  }

  lemma NothingLinesUp(ls: seq<Layer>, name: string)
    requires ls == []
    ensures LinedUp(IdSources(ls, name), HashSources(ls, name)) && Level(ls, name)
  {
  }

  lemma LastExactly(ls: seq<Layer>, name: string)
    requires ls != []
    ensures LinedUp(IdSources(ls, name), HashSources(ls, name)) <==>
            && LinedUp(IdSources(ls[..|ls| - 1], name), HashSources(ls[..|ls| - 1], name))
            && LevelAt(ls, name, |ls| - 1)
  {
    hide LinedUp, Positions;
    var n := |ls| - 1;
    if ls[n].name != name {
      assert IdSources(ls, name) == IdSources(ls[..n], name) && HashSources(ls, name) == HashSources(ls[..n], name);
    }
    IdsComeFrom(ls[..n], name);
    HashesComeFrom(ls[..n], name);
    LinedUpLast(IdSources(ls[..n], name), HashSources(ls[..n], name), n, |ls[n].ids|, |ls[n].hashes|);
  }

  /* The sources grow by what the last layer gives. */
  lemma SourcesLast(ls: seq<Layer>, name: string)
    requires ls != []
    ensures var n := |ls| - 1;
            && IdSources(ls, name) ==
               IdSources(ls[..n], name) + (if ls[n].name == name then Positions(n, |ls[n].ids|) else [])
            && HashSources(ls, name) ==
               HashSources(ls[..n], name) + (if ls[n].name == name then Positions(n, |ls[n].hashes|) else [])
  {
  }

  lemma PairStays(ids: seq<Source>, hashes: seq<Source>, moreIds: seq<Source>, moreHashes: seq<Source>, pair: Source)
    requires PairAt(ids, hashes, pair)
    ensures PairAt(ids + moreIds, hashes + moreHashes, pair)
  {
    var k :| 0 <= k < |ids| && k < |hashes| && ids[k] == pair == hashes[k];
    assert (ids + moreIds)[k] == pair == (hashes + moreHashes)[k];
  }

  lemma PairAdded(ids: seq<Source>, hashes: seq<Source>, n: nat, i: nat, h: nat, q: nat)
    requires |ids| == |hashes| && q < i && q < h
    ensures PairAt(ids + Positions(n, i), hashes + Positions(n, h), Source(n, q))
  {
    assert (ids + Positions(n, i))[|ids| + q] == Source(n, q) == (hashes + Positions(n, h))[|ids| + q];
  }

  lemma {:induction false} NoPairLost(ls: seq<Layer>, name: string, p: nat, q: nat)
    requires Level(ls, name) && p < |ls| && ls[p].name == name && q < |ls[p].ids| && q < |ls[p].hashes|
    ensures PairAt(IdSources(ls, name), HashSources(ls, name), Source(p, q))
  {
    hide Ids, Hashes, IdSources, HashSources, PairAt, Positions, Level;
    var n := |ls| - 1;
    var ids, hashes := IdSources(ls[..n], name), HashSources(ls[..n], name);
    LevelLast(ls, name);
    SourcesLast(ls, name);
    if p < n {
      NoPairLost(ls[..n], name, p, q);
      PairStays(ids, hashes, if ls[n].name == name then Positions(n, |ls[n].ids|) else [],
        if ls[n].name == name then Positions(n, |ls[n].hashes|) else [], Source(p, q));
    } else {
      IdsComeFrom(ls[..n], name);
      HashesComeFrom(ls[..n], name);
      PairAdded(ids, hashes, n, |ls[n].ids|, |ls[n].hashes|, q);
    }
  }

  /* Merging keeps the pairs of a name together if and only if no layer gives hashes where ids ran ahead, nor ids where
  hashes did. */
  lemma PairsKeptExactly(batch: seq<Request>, name: string)
    ensures PairsKept(Layers(batch), name) <==> Level(Layers(batch), name)
  {
    hide LinedUp, Level, PairAt, IdSources, HashSources;
    var ls := Layers(batch);
    LinedUpExactly(ls, name);
    if Level(ls, name) {
      forall p, q | 0 <= p < |ls| && ls[p].name == name && 0 <= q < |ls[p].ids| && q < |ls[p].hashes|
        ensures PairAt(IdSources(ls, name), HashSources(ls, name), Source(p, q))
      {
        NoPairLost(ls, name, p, q);
      }
    }
  }

  /* The sources are those of the merged request. */
  lemma MergedComesFrom(batch: seq<Request>, i: nat)
    requires batch != [] && i < |MergedRequest(batch).layers|
    ensures var l, ls := MergedRequest(batch).layers[i], Layers(batch);
            && |IdSources(ls, l.name)| == |l.ids| && |HashSources(ls, l.name)| == |l.hashes|
            && (forall k :: 0 <= k < |l.ids| ==> IdFrom(ls, l.name, l.ids[k], IdSources(ls, l.name)[k]))
            && (forall k :: 0 <= k < |l.hashes| ==> HashFrom(ls, l.name, l.hashes[k], HashSources(ls, l.name)[k]))
  {
    hide IdSources, HashSources, IdFrom, HashFrom;
    var l := MergedRequest(batch).layers[i];
    IdsComeFrom(Layers(batch), l.name);
    HashesComeFrom(Layers(batch), l.name);
  }

  lemma LayersLast(batch: seq<Request>, r: Request)
    ensures Layers(batch + [r]) == Layers(batch) + r.layers
  {
    assert (batch + [r])[..|batch|] == batch;
  }

  lemma NoLayers(batch: seq<Request>)
    requires batch == []
    ensures Layers(batch) == []
  {
  }

  lemma MergeTwo(batch: seq<Request>, x: Request, y: Request, a: Layer, b: Layer)
    requires batch == [] && x.layers == [a] && y.layers == [b] && a.name == b.name
    ensures Merged(Layers(batch + [x] + [y])) == [Layer(a.name, a.ids + b.ids, a.hashes + b.hashes)]
  {
    LayersLast(batch, x);
    LayersLast(batch + [x], y);
    var none := Layers(batch);
    MergeNew(none, a);
    Grow(none, a);
    MergeKnown(none + [a], b, 0);
  }

  /* Two layers of a name, the first with more ids than hashes, the second with a hash. */
  lemma TwoTorn(x: Request, y: Request, a: Layer, b: Layer)
    requires x.layers == [a] && y.layers == [b] && a.name == b.name && |a.ids| > |a.hashes| && b.hashes != []
    ensures !PairsKept(Layers([x, y]), a.name)
  {
    hide Layers, PairsKept, Ids, Hashes;
    var none: seq<Request> := [];
    NoLayers(none);
    LayersLast(none, x);
    LayersLast([x], y);
    assert none + [x] == [x] && [x] + [y] == [x, y];
    var ls := Layers([x, y]);
    assert ls == [a, b];
    Grow([], a);
    FirstOnly(a);
    assert ls[..1] == [a];
    assert !LevelAt(ls, a.name, 1);
    PairsKeptExactly([x, y], a.name);
  }

  lemma FirstOnly(a: Layer)
    ensures Ids([a], a.name) == a.ids && Hashes([a], a.name) == a.hashes
  {
    assert [a][..0] == [];
  }

  /* Without equal lengths the concatenated lists no longer line up: a hash moves to another block. */
  lemma UnpairedLayersShift()
    ensures var a := Layer("l", [1, 2], [[10]]);
            var b := Layer("l", [3], [[30], [40]]);
            var x, y := Request("i", [], 0, 0, 0, [a]), Request("i", [], 0, 0, 0, [b]);
            var r := MergedRequest([x, y]).layers;
            && |r| == 1 && r[0].ids == [1, 2, 3] && r[0].hashes == [[10], [30], [40]]
            && Zip(r[0].ids, r[0].hashes)[1] == (2, [30])
            && !PairsKept(Layers([x, y]), "l")
  {
    hide Layers, Merged, PairsKept;
    var a := Layer("l", [1, 2], [[10]]);
    var b := Layer("l", [3], [[30], [40]]);
    var x, y := Request("i", [], 0, 0, 0, [a]), Request("i", [], 0, 0, 0, [b]);
    var batch: seq<Request> := [];
    MergeTwo(batch, x, y, a, b);
    assert batch + [x] + [y] == [x, y];
    TwoTorn(x, y, a, b);
  }
}
