/** The registration, unregistration, close, transfer and drop operations of the transfer engine owner, with their loops.

One object stands for the process: its engines, its budget and its retained list.  Each method is one call's critical
sections; what the native library answers is a parameter.  Addresses and lengths are 64-bit words, so that no sum in the
bodies may wrap.
*/
module RegisteredMemory {
  import opened MemoryBooks

  // ---------- The checks of `register_regions` ----------

  predicate ParsedOk(p: Parsed) {
    RegionOk(p.address, p.region) && !p.nul
  }

  /* Each region well formed, no two of the call overlapping. */
  ghost predicate WellFormed(parsed: seq<Parsed>) {
    && (forall i :: 0 <= i < |parsed| ==> ParsedOk(parsed[i]))
    && (forall i, j :: 0 <= i < j < |parsed| ==> Apart(parsed[i], parsed[j]))
  }

  predicate Apart(p: Parsed, q: Parsed) {
    !Overlap(p.address, p.region.length, q.address, q.region.length)
  }

  /* No region of the map shares a byte with `p`, and all are of its kind. */
  ghost predicate Fits(regions: Regions, p: Parsed) {
    forall a :: a in regions ==>
      !Overlap(a, regions[a].length, p.address, p.region.length) && regions[a].owned == p.region.owned
  }

  ghost predicate AllFit(regions: Regions, parsed: seq<Parsed>) {
    forall i :: 0 <= i < |parsed| ==> Fits(regions, parsed[i])
  }

  method CheckParsed(parsed: seq<Parsed>) returns (ok: bool)
    ensures ok <==> WellFormed(parsed)
  {
    for i := 0 to |parsed|
      invariant WellFormed(parsed[..i])
    {
      var Parsed(address, nul, region) := parsed[i];
      if address == 0 || address as int + region.length as int >= U64_LIMIT {
        assert !ParsedOk(parsed[i]);
        return false;
      }
      var end := address + region.length;
      if region.length == 0 || nul {
        assert !ParsedOk(parsed[i]);
        return false;
      }
      for j := 0 to i
        invariant forall k :: 0 <= k < j ==> Apart(parsed[k], parsed[i])
      {
        assert ParsedOk(parsed[..i][j]);
        var previous, other := parsed[j].address, parsed[j].region;
        if previous < end && address < previous + other.length {
          assert !Apart(parsed[j], parsed[i]);
          return false;
        }
      }
      assert forall k, l :: 0 <= k < l < i ==> Apart(parsed[..i][k], parsed[..i][l]);
    }
    assert parsed[..|parsed|] == parsed;
    ok := true;
  }

  method CheckFits(parsed: seq<Parsed>, regions: Regions) returns (ok: bool)
    requires WellFormed(parsed) && Sound(regions)
    ensures ok <==> AllFit(regions, parsed)
  {
    for i := 0 to |parsed|
      invariant forall k :: 0 <= k < i ==> Fits(regions, parsed[k])
    {
      assert ParsedOk(parsed[i]);
      var Parsed(address, _, region) := parsed[i];
      if exists previous ::
           previous in regions && previous < address + region.length && address < previous + regions[previous].length {
        return false;
      }
      if exists previous :: previous in regions && regions[previous].owned != region.owned {
        return false;
      }
      assert Fits(regions, parsed[i]);
    }
    ok := true;
  }

  // ---------- What the operations come to ----------

  /* The map after the first `n` regions of the call registered. */
  function Added(regions: Regions, parsed: seq<Parsed>, n: nat): Regions
    requires n <= |parsed|
  {
    if n == 0 then regions
    else Added(regions, parsed, n - 1)[parsed[n - 1].address := parsed[n - 1].region.(status := Registered)]
  }

  /* The first native refusal, or the number of regions. */
  function FirstFailure(native: seq<bool>, n: nat): (k: nat)
    requires n <= |native|
    ensures k <= n && (forall i :: 0 <= i < k ==> native[i]) && (k < n ==> !native[k])
  {
    if n == 0 then 0
    else
      var k := FirstFailure(native, n - 1);
      if k < n - 1 then k else if native[n - 1] then n else n - 1
  }

  /* The engine after a call whose first native refusal is at `k`. */
  function Registration(engine: Engine, parsed: seq<Parsed>, k: nat): Engine
    requires k <= |parsed|
  {
    if k == |parsed| then engine.(regions := Added(engine.regions, parsed, k))
    else Engine(Added(engine.regions, parsed, k)[parsed[k].address := parsed[k].region], true)
  }

  /* Regions that moved from `before` to `after` by native unregistrations that succeeded. */
  ghost predicate Unregistering(before: Regions, after: Regions, native: U64 -> bool) {
    && after.Keys == before.Keys
    && forall a :: a in before ==>
         || after[a] == before[a]
         || (native(a) && after[a] == before[a].(status := Unregistered) && !before[a].status.Unregistered?)
  }

  /* The addresses `unregister_memory` acts on: nonzero, distinct, all borrowed regions of the map. */
  ghost predicate Unregisterable(regions: Regions, addresses: seq<U64>) {
    && (forall i :: 0 <= i < |addresses| ==> addresses[i] != 0)
    && (forall i, j :: 0 <= i < j < |addresses| ==> addresses[i] != addresses[j])
    && (forall i :: 0 <= i < |addresses| ==> addresses[i] in regions && !regions[addresses[i]].owned)
  }

  /* The native library need not be asked, or agrees. */
  predicate Yields(r: Region, agreed: bool) {
    r.status.Unregistered? || agreed
  }

  lemma UnregisteringMore(before: Regions, now: Regions, a: U64, native: U64 -> bool)
    requires Unregistering(before, now, native) && a in now && native(a) && !now[a].status.Unregistered?
    ensures Unregistering(before, now[a := now[a].(status := Unregistered)], native)
  {
  }

  /* The first `n` addresses are unregistered, the native library agreeing where it was asked; nothing else changed. */
  ghost predicate GivenUp(before: Regions, now: Regions, addresses: seq<U64>, n: nat, native: U64 -> bool) {
    && n <= |addresses| && Unregistering(before, now, native)
    && (forall i :: 0 <= i < |addresses| ==> addresses[i] in before)
    && (forall k :: 0 <= k < n ==>
          Yields(before[addresses[k]], native(addresses[k])) && now[addresses[k]].status.Unregistered?)
    && (forall a :: a in now && a !in Ranges(addresses) ==> now[a] == before[a])
  }

  lemma GivesUp(before: Regions, now: Regions, addresses: seq<U64>, n: nat, native: U64 -> bool)
    requires GivenUp(before, now, addresses, n, native) && n < |addresses|
    ensures addresses[n] in now
    ensures var a := addresses[n];
            && (now[a].status.Unregistered? ==> GivenUp(before, now, addresses, n + 1, native))
            && (native(a) && !now[a].status.Unregistered? ==>
                  GivenUp(before, now[a := now[a].(status := Unregistered)], addresses, n + 1, native))
  {
    var a := addresses[n];
    assert a in Ranges(addresses);
    if native(a) && !now[a].status.Unregistered? { UnregisteringMore(before, now, a, native); }
  }

  lemma RefusesToGiveUp(before: Regions, now: Regions, addresses: seq<U64>, n: nat, native: U64 -> bool)
    requires GivenUp(before, now, addresses, n, native) && n < |addresses| && addresses[n] in now
    requires !Yields(now[addresses[n]], native(addresses[n]))
    ensures !Yields(before[addresses[n]], native(addresses[n])) && Unregistering(before, now, native)
    ensures forall a :: a in now && a !in Ranges(addresses) ==> a in before && now[a] == before[a]
  {
  }

  function Ranges(addresses: seq<U64>): set<U64> {
    set i | 0 <= i < |addresses| :: addresses[i]
  }

  predicate Slice(address: U64, length: U64) {
    address != 0 && length != 0
  }

  /* A registered region of the engine holds every byte of the slice. */
  ghost predicate Inside(regions: Regions, address: U64, length: U64) {
    exists a ::
      && a in regions && regions[a].status.Registered?
      && a <= address && End(address, length) <= End(a, regions[a].length)
  }

  // ---------- The process ----------

  /* Regions of one call are of one kind and apart, so each still fits after the earlier ones went in. */
  lemma {:induction false} StillFits(regions: Regions, parsed: seq<Parsed>, n: nat, j: nat)
    requires n <= j < |parsed| && WellFormed(parsed) && AllFit(regions, parsed)
    requires forall i, k :: 0 <= i < k < |parsed| ==> parsed[i].region.owned == parsed[k].region.owned
    ensures Fits(Added(regions, parsed, n), parsed[j])
    decreases n
  {
    if n == 0 {
      assert Fits(regions, parsed[j]);
    } else {
      StillFits(regions, parsed, n - 1, j);
      assert Apart(parsed[n - 1], parsed[j]);
    }
  }

  lemma WellFormedAt(parsed: seq<Parsed>, i: nat)
    requires WellFormed(parsed) && i < |parsed|
    ensures ParsedOk(parsed[i])
  {
  }

  lemma HeadAttempted(m: Memory, c: nat)
    requires Inv(m) && c in m.calls && m.calls[c] != []
    ensures m.calls[c][0].region.status.Attempted?
  {
    assert CallOk(m, c);
  }

  lemma EngineSound(m: Memory, e: nat)
    requires Inv(m) && e in m.engines
    ensures Sound(m.engines[e].regions)
  {
    assert EngineOk(m, e);
  }

  lemma OneKind(m: Memory, c: nat)
    requires Inv(m) && c in m.calls
    ensures var parsed := m.calls[c];
            forall i, k :: 0 <= i < k < |parsed| ==> parsed[i].region.owned == parsed[k].region.owned
  {
    assert CallOk(m, c);
  }

  /* The engine's value and the call's remaining regions, with everything else as in `m`. */
  ghost predicate Midway(m: Memory, now: Memory, e: nat, c: nat, engine: Engine, rest: seq<Parsed>)
    requires e in m.engines && c in m.calls
  {
    now == m.(engines := m.engines[e := engine], calls := m.calls[c := rest], history := now.history)
  }

  class Process {
    var budget: Budget
    var engines: map<nat, Engine>
    var calls: map<nat, seq<Parsed>>
    var retained: seq<Regions>
    var next: nat
    ghost var history: History

    ghost function Value(): Memory
      reads this
    {
      Memory(budget, engines, calls, retained, next, history)
    }

    ghost predicate Valid()
      reads this
    {
      Inv(Value())
    }

    constructor ()
      ensures Value() == START && Valid()
    {
      budget, engines, calls, retained, next, history := START.budget, map[], map[], [], 0, START.history;
      new;
      Starts();
    }

    method NewEngine(e: nat)
      requires Valid() && e !in engines
      modifies this
      ensures Valid() && Value() == old(Value()).(engines := old(engines)[e := Engine(map[], false)])
    {
      hide Inv;
      EngineAdded(Value(), e);
      engines := engines[e := Engine(map[], false)];
    }

    method BeginCall(c: nat)
      requires Valid() && c !in calls
      modifies this
      ensures Valid() && Value() == old(Value()).(calls := old(calls)[c := []])
    {
      hide Inv;
      CallsChanged(Value(), calls[c := []]);
      calls := calls[c := []];
    }

    method EndCall(c: nat)
      requires Valid() && c in calls && calls[c] == []
      modifies this
      ensures Valid() && Value() == old(Value()).(calls := old(calls) - {c})
    {
      hide Inv;
      CallsChanged(Value(), calls - {c});
      calls := calls - {c};
    }

    /* `RegisteredBytes::acquire` for one parsed region; all regions of a call are of one kind. */
    method Acquire(c: nat, address: U64, nul: bool, owned: bool, charge: U64, length: U64) returns (ok: bool)
      requires Valid() && c in calls && (calls[c] != [] ==> calls[c][0].region.owned == owned)
      modifies this
      ensures Valid()
      ensures ok <==> old(budget.regions) < MAX_REGIONS && old(budget.bytes) + charge as int <= MAX_REGISTERED_BYTES
      ensures var region := Region(old(next), owned, charge, length, Attempted);
              Value() == if ok then Admit(old(Value()), c, Parsed(address, nul, region)) else old(Value())
    {
      hide Inv;
      var total := budget.bytes + charge as int;
      if budget.regions >= MAX_REGIONS || total >= U64_LIMIT || total > MAX_REGISTERED_BYTES {
        return false;
      }
      var p := Parsed(address, nul, Region(next, owned, charge, length, Attempted));
      AdmitKeeps(Value(), c, p);
      history := Admit(Value(), c, p).history;
      budget := Budget(budget.regions + 1, total);
      calls := calls[c := calls[c] + [p]];
      next := next + 1;
      ok := true;
    }

    /* The rest of the call's parsed regions are dropped, each returning its admission. */
    method Abandon(c: nat)
      requires Valid() && c in calls
      modifies this
      ensures Valid() && engines == old(engines) && retained == old(retained) && calls == old(calls) - {c}
    {
      hide Inv;
      while calls[c] != []
        invariant Valid() && engines == old(engines) && retained == old(retained)
        invariant c in calls && calls == old(calls)[c := calls[c]]
        decreases |calls[c]|
      {
        DropOne(c);
      }
      EndCall(c);
    }

    method DropOne(c: nat)
      requires Valid() && c in calls && calls[c] != []
      modifies this
      ensures Valid() && Value() == DropParsed(old(Value()), c)
    {
      hide Inv;
      DropParsedKeeps(Value(), c);
      var r := calls[c][0].region;
      history := DropParsed(Value(), c).history;
      budget := Budget(budget.regions - 1, budget.bytes - r.charge as int);
      calls := calls[c := calls[c][1..]];
    }

    // ---------- Registration ----------

    method InsertOne(e: nat, c: nat)
      requires Valid() && e in engines && c in calls && calls[c] != []
      requires ParsedOk(calls[c][0]) && Fits(engines[e].regions, calls[c][0])
      modifies this
      ensures old(calls[c][0].address) !in old(engines[e].regions)
      ensures Valid() && Value() == Insert(old(Value()), e, c)
    {
      hide Inv;
      InsertKeeps(Value(), e, c);
      var Parsed(address, _, region) := calls[c][0];
      history := Insert(Value(), e, c).history;
      engines := engines[e := engines[e].(regions := engines[e].regions[address := region])];
      calls := calls[c := calls[c][1..]];
    }

    method ConfirmOne(e: nat, a: U64)
      requires Valid() && e in engines && a in engines[e].regions && engines[e].regions[a].status.Attempted?
      modifies this
      ensures Valid() && Value() == SetStatus(old(Value()), e, a, Registered)
    {
      hide Inv;
      ConfirmKeeps(Value(), e, a);
      var regions := engines[e].regions;
      engines := engines[e := engines[e].(regions := regions[a := regions[a].(status := Registered)])];
    }

    method SetRetiring(e: nat)
      requires Valid() && e in engines
      modifies this
      ensures Valid() && Value() == Retire(old(Value()), e)
    {
      hide Inv;
      RetireKeeps(Value(), e);
      engines := engines[e := engines[e].(retiring := true)];
    }

    /* One turn of the registration loop. */
    method RegisterOne(e: nat, c: nat, native: bool)
      requires Valid() && e in engines && c in calls && calls[c] != []
      requires ParsedOk(calls[c][0]) && Fits(engines[e].regions, calls[c][0])
      modifies this
      ensures Valid()
      ensures var p := old(calls[c][0]);
              var region := if native then p.region.(status := Registered) else p.region;
              && p.address !in old(engines[e].regions)
              && Midway(old(Value()), Value(), e, c,
                   Engine(old(engines[e].regions)[p.address := region], old(engines[e].retiring) || !native),
                   old(calls[c])[1..])
    {
      hide Inv;
      var p := calls[c][0];
      assert p.region.status.Attempted? by { HeadAttempted(Value(), c); }
      InsertOne(e, c);
      if native {
        ConfirmOne(e, p.address);
        assert engines[e].regions == old(engines[e].regions)[p.address := p.region.(status := Registered)];
      } else {
        SetRetiring(e);
      }
    }

    /* `register_regions`: a call whose regions are malformed, overlap each other or the map, or mix kinds, or that comes
    to a retiring engine, changes no engine; otherwise the regions go in one by one until the first native refusal, which
    leaves the refused region in the map and the engine retiring.  The call's remaining admissions are returned. */
    method RegisterRegions(e: nat, c: nat, native: seq<bool>) returns (ok: bool)
      requires Valid() && e in engines && c in calls && |native| == |calls[c]|
      modifies this
      ensures Valid() && retained == old(retained) && calls == old(calls) - {c}
      ensures var parsed, engine := old(calls[c]), old(engines[e]);
              var k := FirstFailure(native, |native|);
              var accepted := WellFormed(parsed) && !engine.retiring && AllFit(engine.regions, parsed);
              && (ok <==> accepted && k == |native|)
              && engines == if accepted then old(engines)[e := Registration(engine, parsed, k)] else old(engines)
    {
      hide Inv;
      var parsed := calls[c];
      var good := CheckParsed(parsed);
      if good && !engines[e].retiring {
        EngineSound(Value(), e);
        good := CheckFits(parsed, engines[e].regions);
      }
      if !good || engines[e].retiring {
        Abandon(c);
        return false;
      }
      ok := RegisterAll(e, c, native);
    }

    method RegisterAll(e: nat, c: nat, native: seq<bool>) returns (ok: bool)
      requires Valid() && e in engines && c in calls && |native| == |calls[c]| && !engines[e].retiring
      requires WellFormed(calls[c]) && AllFit(engines[e].regions, calls[c])
      modifies this
      ensures Valid() && retained == old(retained) && calls == old(calls) - {c}
      ensures var parsed, engine, k := old(calls[c]), old(engines[e]), FirstFailure(native, |native|);
              (ok <==> k == |native|) && engines == old(engines)[e := Registration(engine, parsed, k)]
    {
      hide Inv, WellFormed, AllFit, Fits;
      var parsed := calls[c];
      ghost var m, engine, k := Value(), engines[e], FirstFailure(native, |native|);
      OneKind(m, c);
      var i := 0;
      while i < |parsed|
        invariant 0 <= i <= k <= |parsed| && Valid() && parsed == m.calls[c]
        invariant Midway(m, Value(), e, c, Engine(Added(engine.regions, parsed, i), false), parsed[i..])
      {
        StillFits(engine.regions, parsed, i, i);
        WellFormedAt(parsed, i);
        RegisterOne(e, c, native[i]);
        assert parsed[i..][1..] == parsed[i + 1..];
        if !native[i] {
          Abandon(c);
          return false;
        }
        i := i + 1;
      }
      EndCall(c);
      ok := true;
    }

    // ---------- Unregistration ----------

    /* `unregister_region` */
    method UnregisterRegion(e: nat, a: U64, native: bool) returns (ok: bool)
      requires Valid() && e in engines && a in engines[e].regions
      modifies this
      ensures Valid() && (ok <==> Yields(old(engines[e].regions[a]), native))
      ensures Value() == if native && !old(engines[e].regions[a].status.Unregistered?)
                         then Forget(old(Value()), e, a) else old(Value())
      ensures ok ==> engines[e].regions[a].status.Unregistered?
    {
      hide Inv;
      if !engines[e].regions[a].status.Unregistered? {
        if !native {
          return false;
        }
        ForgetKeeps(Value(), e, a);
        history := Forget(Value(), e, a).history;
        var regions := engines[e].regions;
        engines := engines[e := engines[e].(regions := regions[a := regions[a].(status := Unregistered)])];
      }
      ok := true;
    }

    method RemoveOne(e: nat, a: U64)
      requires Valid() && e in engines && a in engines[e].regions && engines[e].regions[a].status.Unregistered?
      modifies this
      ensures Valid() && Value() == Remove(old(Value()), e, a)
    {
      hide Inv;
      RemoveKeeps(Value(), e, a);
      var r := engines[e].regions[a];
      history := Remove(Value(), e, a).history;
      budget := Budget(budget.regions - 1, budget.bytes - r.charge as int);
      engines := engines[e := engines[e].(regions := engines[e].regions - {a})];
    }

    /* The first two loops of `unregister_memory`. */
    method CheckAddresses(e: nat, addresses: seq<U64>) returns (ok: bool)
      requires e in engines
      ensures ok <==> Unregisterable(engines[e].regions, addresses)
    {
      var regions := engines[e].regions;
      var unique: set<U64> := {};
      for i := 0 to |addresses|
        invariant forall k :: 0 <= k < i ==> addresses[k] != 0
        invariant forall k, l :: 0 <= k < l < i ==> addresses[k] != addresses[l]
        invariant forall a :: a in unique <==> exists k :: 0 <= k < i && addresses[k] == a
      {
        if addresses[i] == 0 || addresses[i] in unique {
          return false;
        }
        unique := unique + {addresses[i]};
      }
      for i := 0 to |addresses|
        invariant forall k :: 0 <= k < i ==> addresses[k] in regions && !regions[addresses[k]].owned
      {
        if addresses[i] !in regions || regions[addresses[i]].owned {
          return false;
        }
      }
      ok := true;
    }

    /* The third loop: ask for each region in turn, stop at the first refusal. */
    method ForgetAll(e: nat, addresses: seq<U64>, native: U64 -> bool) returns (ok: bool)
      requires Valid() && e in engines && forall i :: 0 <= i < |addresses| ==> addresses[i] in engines[e].regions
      modifies this
      ensures Valid() && calls == old(calls) && retained == old(retained) && e in engines
      ensures engines == old(engines)[e := old(engines[e]).(regions := engines[e].regions)]
      ensures Unregistering(old(engines[e].regions), engines[e].regions, native)
      ensures ok <==>
                forall i :: 0 <= i < |addresses| ==>
                  Yields(old(engines[e].regions)[addresses[i]], native(addresses[i]))
      ensures ok ==> forall i :: 0 <= i < |addresses| ==> engines[e].regions[addresses[i]].status.Unregistered?
      ensures forall a :: a in engines[e].regions && a !in Ranges(addresses) ==>
                a in old(engines[e].regions) && engines[e].regions[a] == old(engines[e].regions)[a]
    {
      hide Inv;
      ghost var before := engines[e].regions;
      for i := 0 to |addresses|
        invariant Valid() && calls == old(calls) && retained == old(retained) && e in engines
        invariant engines == old(engines)[e := old(engines[e]).(regions := engines[e].regions)]
        invariant GivenUp(before, engines[e].regions, addresses, i, native)
      {
        hide GivenUp;
        var a := addresses[i];
        ghost var now := engines[e].regions;
        GivesUp(before, now, addresses, i, native);
        ok := UnregisterRegion(e, a, native(a));
        if !ok {
          RefusesToGiveUp(before, now, addresses, i, native);
          return;
        }
      }
      ok := true;
    }

    method RemoveAll(e: nat, addresses: seq<U64>)
      requires Valid() && e in engines
      requires forall i, j :: 0 <= i < j < |addresses| ==> addresses[i] != addresses[j]
      requires forall i :: 0 <= i < |addresses| ==>
                 addresses[i] in engines[e].regions && engines[e].regions[addresses[i]].status.Unregistered?
      modifies this
      ensures Valid() && calls == old(calls) && retained == old(retained)
      ensures engines == old(engines)[e := old(engines[e]).(regions := old(engines[e].regions) - Ranges(addresses))]
    {
      hide Inv;
      ghost var before := engines[e].regions;
      assert before - Ranges(addresses[..0]) == before;
      for i := 0 to |addresses|
        invariant Valid() && calls == old(calls) && retained == old(retained)
        invariant engines == old(engines)[e := old(engines[e]).(regions := before - Ranges(addresses[..i]))]
      {
        RemoveOne(e, addresses[i]);
        assert before - Ranges(addresses[..i]) - {addresses[i]} == before - Ranges(addresses[..i + 1]);
      }
      assert addresses[..|addresses|] == addresses;
    }

    /* `unregister_memory`: refused without effect if an address is null, repeated, unknown or of an owned buffer;
    otherwise the regions leave the map if the native library lets all of them go, and if it refuses one they all stay
    and the engine retires. */
    method UnregisterMemory(e: nat, addresses: seq<U64>, native: U64 -> bool) returns (ok: bool)
      requires Valid() && e in engines
      modifies this
      ensures Valid() && calls == old(calls) && retained == old(retained) && e in engines
      ensures engines == old(engines)[e := engines[e]]
      ensures var engine := old(engines[e]);
              var good := Unregisterable(engine.regions, addresses);
              && (ok <==>
                    && good
                    && forall i :: 0 <= i < |addresses| ==> Yields(engine.regions[addresses[i]], native(addresses[i])))
              && (!good ==> engines == old(engines))
              && (ok ==> engines[e] == engine.(regions := engine.regions - Ranges(addresses)))
              && (good && !ok ==> engines[e].retiring && Unregistering(engine.regions, engines[e].regions, native))
    {
      hide Inv;
      var good := CheckAddresses(e, addresses);
      if !good {
        return false;
      }
      ghost var before := engines[e].regions;
      ok := ForgetAll(e, addresses, native);
      if !ok {
        SetRetiring(e);
        return;
      }
      assert engines[e].regions - Ranges(addresses) == before - Ranges(addresses);
      RemoveAll(e, addresses);
    }

    // ---------- Close, transfer and drop ----------

    /* `close_regions`: retire, wait for the source to drain, then unregister every region; `order` is the order in which
    the map is walked. */
    method CloseRegions(e: nat, order: seq<U64>, drained: bool, native: U64 -> bool) returns (ok: bool)
      requires Valid() && e in engines
      requires Ranges(order) == engines[e].regions.Keys && forall i, j :: 0 <= i < j < |order| ==> order[i] != order[j]
      modifies this
      ensures Valid() && calls == old(calls) && retained == old(retained) && e in engines
      ensures engines == old(engines)[e := Engine(engines[e].regions, true)]
      ensures Unregistering(old(engines[e].regions), engines[e].regions, native)
      ensures ok <==>
                drained && forall a :: a in old(engines[e].regions) ==> Yields(old(engines[e].regions)[a], native(a))
      ensures ok ==> forall a :: a in engines[e].regions ==> engines[e].regions[a].status.Unregistered?
    {
      hide Inv;
      ghost var before := engines[e].regions;
      SetRetiring(e);
      if !drained {
        return false;
      }
      assert forall i :: 0 <= i < |order| ==> order[i] in Ranges(order);
      ok := ForgetAll(e, order, native);
      assert forall a :: a in before ==> a in Ranges(order);
    }

    method Close(e: nat, order: seq<U64>, drained: bool, native: U64 -> bool) returns (ok: bool)
      requires Valid() && e in engines
      requires Ranges(order) == engines[e].regions.Keys && forall i, j :: 0 <= i < j < |order| ==> order[i] != order[j]
      modifies this
      ensures Valid() && calls == old(calls) && retained == old(retained) && e in engines
      ensures engines == old(engines)[e := engines[e]]
      ensures ok <==>
                drained && forall a :: a in old(engines[e].regions) ==> Yields(old(engines[e].regions)[a], native(a))
      ensures engines[e].retiring && (ok ==> engines[e].regions == map[])
      ensures !ok ==> Unregistering(old(engines[e].regions), engines[e].regions, native)
    {
      hide Inv;
      ok := CloseRegions(e, order, drained, native);
      if ok {
        assert forall i :: 0 <= i < |order| ==> order[i] in Ranges(order);
        RemoveAll(e, order);
      }
    }

    /* The bounds check of `transfer`: submitted exactly if the engine is not retiring and every slice is nonempty, has a
    nonzero address, does not wrap and lies inside one registered region. */
    method Transfer(e: nat, slices: seq<(U64, U64)>) returns (ok: bool)
      requires Valid() && e in engines
      ensures ok <==>
                && !engines[e].retiring
                && forall i :: 0 <= i < |slices| ==>
                     && Slice(slices[i].0, slices[i].1) && End(slices[i].0, slices[i].1) < U64_LIMIT
                     && Inside(engines[e].regions, slices[i].0, slices[i].1)
    {
      hide Inv;
      for i := 0 to |slices|
        invariant forall k :: 0 <= k < i ==> Slice(slices[k].0, slices[k].1)
      {
        if slices[i].1 == 0 || slices[i].0 == 0 {
          return false;
        }
      }
      if engines[e].retiring {
        return false;
      }
      EngineSound(Value(), e);
      var regions := engines[e].regions;
      for i := 0 to |slices|
        invariant forall k :: 0 <= k < i ==>
                    End(slices[k].0, slices[k].1) < U64_LIMIT && Inside(regions, slices[k].0, slices[k].1)
      {
        var (address, length) := slices[i];
        if address as int + length as int >= U64_LIMIT {
          return false;
        }
        var end := address + length;
        var inside :=
          exists base ::
            base in regions && regions[base].status == Registered && address >= base && end <= base + regions[base].length;
        assert inside <==> Inside(regions, address, length);
        if !inside {
          return false;
        }
      }
      ok := true;
    }

    /* `Drop`: an engine whose earlier native call failed, or whose close fails now, leaves its regions on the retained
    list; otherwise they are all unregistered and released. */
    method DropEngine(e: nat, order: seq<U64>, drained: bool, native: U64 -> bool)
      requires Valid() && e in engines
      requires Ranges(order) == engines[e].regions.Keys && forall i, j :: 0 <= i < j < |order| ==> order[i] != order[j]
      modifies this
      ensures Valid() && calls == old(calls) && engines == old(engines) - {e}
      ensures var engine := old(engines[e]);
              var clean := drained && forall a :: a in engine.regions ==> Yields(engine.regions[a], native(a));
              if engine.regions == map[] || (!engine.retiring && clean) then retained == old(retained)
              else
                && |retained| == |old(retained)| + 1 && retained[..|old(retained)|] == old(retained)
                && Unregistering(engine.regions, retained[|old(retained)|], native)
                && (engine.retiring ==> retained[|old(retained)|] == engine.regions)
    {
      hide Inv;
      if engines[e].regions == map[] {
        Discard(e);
        return;
      }
      if !engines[e].retiring {
        var ok := Close(e, order, drained, native);
        if ok {
          assert engines - {e} == old(engines) - {e};
          Discard(e);
          return;
        }
      }
      assert engines - {e} == old(engines) - {e};
      KeepForever(e);
    }

    method Discard(e: nat)
      requires Valid() && e in engines && engines[e].regions == map[]
      modifies this
      ensures Valid() && Value() == old(Value()).(engines := old(engines) - {e})
    {
      hide Inv;
      EngineRemoved(Value(), e);
      engines := engines - {e};
    }

    method KeepForever(e: nat)
      requires Valid() && e in engines
      modifies this
      ensures Valid() && Value() == Retain(old(Value()), e)
    {
      hide Inv;
      RetainKeeps(Value(), e);
      history := Retain(Value(), e).history;
      retained := retained + [engines[e].regions];
      engines := engines - {e};
    }
  }
}
