/** Every step of the calls on the transfer engine owner keeps the books and every call's place. */
module MemorySteps {
  import opened MemoryBooks
  import opened RegisteredMemory
  import opened MemoryMachine

  // ---------- Registration ----------

  lemma NewEngineKeeps(s: State, s': State, e: nat)
    requires MemoryMachine.Inv(s) && DoNewEngine(s, s', e)
    ensures MemoryMachine.Inv(s')
  {
    hide MemoryBooks.Inv, PcOk, LocksOk;
    EngineAdded(s.mem, e);
    forall c | c in s.pcs ensures PcOk(s'.mem, c, s.pcs[c]) && !Uses(s.pcs[c], e) {
      Here(s, c);
      UsesKnown(s.mem, c, s.pcs[c]);
      Spared(s.mem, s'.mem, c, s.pcs[c]);
    }
  }

  lemma UsesKnown(m: Memory, c: nat, pc: CallPc)
    requires PcOk(m, c, pc)
    ensures forall e :: Uses(pc, e) ==> e in m.engines
  {
  }

  lemma BeginKeeps(s: State, s': State, c: nat, owned: bool)
    requires MemoryMachine.Inv(s) && DoBegin(s, s', c, owned)
    ensures MemoryMachine.Inv(s')
  {
    hide MemoryBooks.Inv, LocksOk, HandlesOk;
    CallsChanged(s.mem, s'.mem.calls);
    assert HandlesOk(s') by { HandlesKept(s, s', c); }
    forall d | d in s.pcs && d != c ensures Spares(s.mem, s'.mem, d, s.pcs[d]) {}
    Advance(s, s', s, c, Parsing(owned), s'.mem);
  }

  lemma AcquireKeeps(s: State, s': State, c: nat, address: U64, nul: bool, charge: U64, length: U64)
    requires MemoryMachine.Inv(s) && DoAcquire(s, s', c, address, nul, charge, length)
    ensures MemoryMachine.Inv(s')
  {
    hide MemoryBooks.Inv, LocksOk, HandlesOk;
    Here(s, c);
    assert HandlesOk(s') by { HandlesKept(s, s', c); }
    if At(s', c).Parsing? {
      AdmitKeeps(s.mem, c, Parsed(address, nul, Region(s.mem.next, At(s, c).owned, charge, length, Attempted)));
    }
    Advance(s, s', s, c, At(s', c), s'.mem);
  }

  lemma ParseFailsKeeps(s: State, s': State, c: nat)
    requires MemoryMachine.Inv(s) && DoParseFails(s, s', c)
    ensures MemoryMachine.Inv(s')
  {
    hide MemoryBooks.Inv, LocksOk, HandlesOk;
    Here(s, c);
    assert HandlesOk(s') by { HandlesKept(s, s', c); }
    Advance(s, s', s, c, Abandoning, s.mem);
  }

  lemma CheckKeeps(s: State, s': State, c: nat, e: nat)
    requires MemoryMachine.Inv(s) && DoCheck(s, s', c, e)
    ensures MemoryMachine.Inv(s')
  {
    hide MemoryBooks.Inv, LocksOk, WellFormed;
    Here(s, c);
    assert HandlesOk(s') by { HandlesKept(s, s', c); }
    Advance(s, s', s, c, At(s', c), s.mem);
  }

  lemma EnterKeeps(s: State, s': State, c: nat)
    requires MemoryMachine.Inv(s) && DoEnter(s, s', c)
    ensures MemoryMachine.Inv(s')
  {
    hide MemoryBooks.Inv, LocksOk, WellFormed, HandlesOk, AllFit;
    Here(s, c);
    assert HandlesOk(s') by { HandlesKept(s, s', c); }
    Advance(s, s', s, c, At(s', c), s.mem);
  }

  /* Regions checked together: after the first went in, the rest still fit. */
  lemma RestFits(regions: Regions, parsed: seq<Parsed>)
    requires parsed != [] && WellFormed(parsed) && AllFit(regions, parsed) && Sound(regions)
    requires forall i, k :: 0 <= i < k < |parsed| ==> parsed[i].region.owned == parsed[k].region.owned
    ensures ParsedOk(parsed[0]) && Fits(regions, parsed[0]) && parsed[0].address !in regions
    ensures WellFormed(parsed[1..]) && AllFit(regions[parsed[0].address := parsed[0].region], parsed[1..])
  {
    var after := regions[parsed[0].address := parsed[0].region];
    assert Fits(regions, parsed[0]) && ParsedOk(parsed[0]);
    forall i | 0 <= i < |parsed[1..]| ensures Fits(after, parsed[1..][i]) {
      assert Apart(parsed[0], parsed[i + 1]) && Fits(regions, parsed[i + 1]);
    }
  }

  lemma InsertNextKeeps(s: State, s': State, c: nat)
    requires MemoryMachine.Inv(s) && DoInsertNext(s, s', c)
    ensures MemoryMachine.Inv(s')
  {
    hide MemoryBooks.Inv, LocksOk, WellFormed, HandlesOk, AllFit, Fits, Sound;
    Here(s, c);
    var e := At(s, c).e;
    assert HandlesOk(s') by { HandlesKept(s, s', c); }
    if s.mem.calls[c] == [] {
      CallsChanged(s.mem, s'.mem.calls);
    } else {
      EngineSound(s.mem, e);
      OneKind(s.mem, c);
      HeadAttempted(s.mem, c);
      RestFits(s.mem.engines[e].regions, s.mem.calls[c]);
      InsertKeeps(s.mem, e, c);
    }
    Moves(s, s', s, c, At(s', c), s'.mem, e);
  }

  /* Neither check looks at a status. */
  lemma StillAllFit(regions: Regions, a: U64, status: Status, parsed: seq<Parsed>)
    requires a in regions && AllFit(regions, parsed)
    ensures AllFit(regions[a := regions[a].(status := status)], parsed)
  {
    forall i | 0 <= i < |parsed| ensures Fits(regions[a := regions[a].(status := status)], parsed[i]) {
      assert Fits(regions, parsed[i]);
    }
  }

  lemma NativeKeeps(s: State, s': State, c: nat, ok: bool)
    requires MemoryMachine.Inv(s) && DoNative(s, s', c, ok)
    ensures MemoryMachine.Inv(s')
  {
    hide MemoryBooks.Inv, LocksOk, WellFormed, HandlesOk, AllFit;
    Here(s, c);
    var Asking(e, a) := At(s, c);
    assert HandlesOk(s') by { HandlesKept(s, s', c); }
    if ok {
      ConfirmKeeps(s.mem, e, a);
      StillAllFit(s.mem.engines[e].regions, a, Registered, s.mem.calls[c]);
    } else {
      RetireKeeps(s.mem, e);
    }
    Moves(s, s', s, c, At(s', c), s'.mem, e);
  }

  lemma DropNextKeeps(s: State, s': State, c: nat)
    requires MemoryMachine.Inv(s) && DoDropNext(s, s', c)
    ensures MemoryMachine.Inv(s')
  {
    hide MemoryBooks.Inv, LocksOk, HandlesOk;
    Here(s, c);
    assert HandlesOk(s') by { HandlesKept(s, s', c); }
    if s.mem.calls[c] == [] { CallsChanged(s.mem, s'.mem.calls); } else { DropParsedKeeps(s.mem, c); }
    Advance(s, s', s, c, At(s', c), s'.mem);
  }

  // ---------- Unregistration, close and drop ----------

  lemma BeginUnregisterKeeps(s: State, s': State, c: nat, e: nat, addresses: seq<U64>)
    requires MemoryMachine.Inv(s) && DoBeginUnregister(s, s', c, e, addresses)
    ensures MemoryMachine.Inv(s')
  {
    hide MemoryBooks.Inv, LocksOk, HandlesOk;
    Here(s, c);
    assert HandlesOk(s') by { HandlesKept(s, s', c); }
    Advance(s, s', s, c, At(s', c), s.mem);
  }

  lemma WalksAll(regions: Regions, order: seq<U64>, purpose: Purpose)
    requires Walks(regions, order)
    ensures Walking(regions, order, 0, purpose)
  {
    forall i | 0 <= i < |order| ensures order[i] in regions { assert order[i] in Ranges(order); }
    forall a | a in regions ensures a in order { assert a in Ranges(order); }
  }

  lemma BeginCloseKeeps(s: State, s': State, c: nat, e: nat, order: seq<U64>, drained: bool)
    requires MemoryMachine.Inv(s) && DoBeginClose(s, s', c, e, order, drained)
    ensures MemoryMachine.Inv(s')
  {
    hide MemoryBooks.Inv, LocksOk, HandlesOk, Walks, Walking;
    Here(s, c);
    assert HandlesOk(s') by { HandlesKept(s, s', c); }
    RetireKeeps(s.mem, e);
    WalksAll(s.mem.engines[e].regions, order, ToClose);
    Moves(s, s', s, c, At(s', c), s'.mem, e);
  }

  lemma HandlesDropped(s: State, s': State, c: nat, e: nat)
    requires HandlesOk(s) && c in s'.pcs && s'.pcs == s.pcs[c := s'.pcs[c]] && s'.handles == s.handles - {e}
    requires forall d :: d in s.pcs ==> !Uses(s.pcs[d], e)
    requires forall f :: f in s.mem.engines && f != e ==> f in s'.mem.engines
    requires s'.pcs[c].Away? || (s'.pcs[c].Forgetting? && s'.pcs[c].e == e)
    ensures HandlesOk(s') && HandlesOk(s.(handles := s.handles - {e}))
  {
  }

  lemma ChangesTouch(m: Memory, c: nat, e: nat)
    requires e in m.engines
    ensures Touches(m, m.(engines := m.engines - {e}), c, e)
    ensures Touches(m, Retire(m, e), c, e) && Touches(m, Retain(m, e), c, e) && Touches(m, Retain(Retire(m, e), e), c, e)
    ensures Retain(m, e).calls == Retain(Retire(m, e), e).calls == m.calls
  {
  }

  lemma DropHandleKeeps(s: State, s': State, c: nat, e: nat, order: seq<U64>, drained: bool)
    requires MemoryMachine.Inv(s) && DoDropHandle(s, s', c, e, order, drained)
    ensures MemoryMachine.Inv(s')
  {
    hide MemoryBooks.Inv, LocksOk, HandlesOk, Walks, Walking, Touches, Retain, Relock;
    Here(s, c);
    DropperGone(s, s', c, e, order, drained);
    ChangesTouch(s.mem, c, e);
    var t := s.(handles := s.handles - {e});
    var engine := s.mem.engines[e];
    if engine.regions == map[] {
      EngineRemoved(s.mem, e);
    } else if engine.retiring {
      RetainKeeps(s.mem, e);
    } else {
      RetireKeeps(s.mem, e);
      WalksAll(engine.regions, order, ToDrop);
      if !drained { RetainKeeps(Retire(s.mem, e), e); }
    }
    Moves(s, s', t, c, At(s', c), s'.mem, e);
  }

  lemma DropperGone(s: State, s': State, c: nat, e: nat, order: seq<U64>, drained: bool)
    requires MemoryMachine.Inv(s) && DoDropHandle(s, s', c, e, order, drained)
    ensures HandlesOk(s') && HandlesOk(s.(handles := s.handles - {e}))
  {
    hide MemoryBooks.Inv, LocksOk, HandlesOk, PcOk, Walks, Relock;
    HandlesDropped(s, s', c, e);
  }

  lemma ForgetOne(regions: Regions, addresses: seq<U64>, i: nat, purpose: Purpose)
    requires Walking(regions, addresses, i, purpose) && i < |addresses|
    ensures Walking(regions[addresses[i] := regions[addresses[i]].(status := Unregistered)], addresses, i + 1, purpose)
    ensures regions[addresses[i]].status.Unregistered? ==> Walking(regions, addresses, i + 1, purpose)
  {
  }

  lemma WalkedAll(regions: Regions, addresses: seq<U64>, purpose: Purpose)
    requires Walking(regions, addresses, |addresses|, purpose)
    ensures Emptying(regions, addresses, 0, purpose)
  {
    assert addresses[0..] == addresses;
  }

  lemma ForgetNextKeeps(s: State, s': State, c: nat, native: bool)
    requires MemoryMachine.Inv(s) && DoForgetNext(s, s', c, native)
    ensures MemoryMachine.Inv(s')
  {
    hide MemoryBooks.Inv, LocksOk, HandlesOk, Walks, Emptying;
    Here(s, c);
    var Forgetting(e, addresses, i, purpose) := At(s, c);
    var regions := s.mem.engines[e].regions;
    assert HandlesOk(s') by { DropperHasNoHandle(s, c); HandlesKept(s, s', c); }
    if i == |addresses| {
      WalkedAll(regions, addresses, purpose);
    } else {
      ForgetOne(regions, addresses, i, purpose);
      if !regions[addresses[i]].status.Unregistered? {
        if native { ForgetKeeps(s.mem, e, addresses[i]); } else { RefusedKeeps(s.mem, e, purpose); }
      }
    }
    assert e in s'.mem.engines || e !in s.handles by { DropperHasNoHandle(s, c); }
    HandlesOf(s);
    Moves(s, s', s, c, At(s', c), s'.mem, e);
  }

  lemma HandlesOf(s: State)
    requires MemoryMachine.Inv(s)
    ensures HandlesOk(s)
  {
  }

  lemma DropperHasNoHandle(s: State, c: nat)
    requires MemoryMachine.Inv(s) && (At(s, c).Forgetting? || At(s, c).Removing?)
    ensures At(s, c).purpose.ToDrop? ==> At(s, c).e !in s.handles
  {
  }

  lemma RefusedKeeps(m: Memory, e: nat, purpose: Purpose)
    requires MemoryBooks.Inv(m) && e in m.engines
    ensures MemoryBooks.Inv(Refused(m, e, purpose))
  {
    hide MemoryBooks.Inv;
    RetireKeeps(m, e);
    RetainKeeps(m, e);
  }

  lemma RemoveOne(regions: Regions, addresses: seq<U64>, i: nat, purpose: Purpose)
    requires Emptying(regions, addresses, i, purpose) && i < |addresses|
    ensures Emptying(regions - {addresses[i]}, addresses, i + 1, purpose)
  {
    if !purpose.ToUnregister? {
      forall a | a in regions - {addresses[i]} ensures a in addresses[i + 1..] {
        assert a in addresses[i..] && addresses[i..] == [addresses[i]] + addresses[i + 1..];
      }
    }
  }

  lemma Emptied(regions: Regions, addresses: seq<U64>, purpose: Purpose)
    requires Emptying(regions, addresses, |addresses|, purpose) && !purpose.ToUnregister?
    ensures regions == map[]
  {
    forall a ensures a !in regions {}
  }

  lemma RemoveNextKeeps(s: State, s': State, c: nat)
    requires MemoryMachine.Inv(s) && DoRemoveNext(s, s', c)
    ensures MemoryMachine.Inv(s')
  {
    hide MemoryBooks.Inv, LocksOk, HandlesOk, Walks;
    Here(s, c);
    HandlesOf(s);
    DropperHasNoHandle(s, c);
    var Removing(e, addresses, i, purpose) := At(s, c);
    var regions := s.mem.engines[e].regions;
    assert HandlesOk(s') by { HandlesKept(s, s', c); }
    if i < |addresses| {
      RemoveOne(regions, addresses, i, purpose);
      RemoveKeeps(s.mem, e, addresses[i]);
    } else if purpose.ToDrop? {
      Emptied(regions, addresses, purpose);
      EngineRemoved(s.mem, e);
    }
    Moves(s, s', s, c, At(s', c), s'.mem, e);
  }

  // ---------- Transfers ----------

  lemma BeginTransferKeeps(s: State, s': State, c: nat, e: nat, slices: seq<(U64, U64)>)
    requires MemoryMachine.Inv(s) && DoBeginTransfer(s, s', c, e, slices)
    ensures MemoryMachine.Inv(s')
  {
    hide MemoryBooks.Inv, LocksOk, HandlesOk, AllInside;
    Here(s, c);
    assert HandlesOk(s') by { HandlesKept(s, s', c); }
    Advance(s, s', s, c, At(s', c), s.mem);
  }

  lemma EndTransferKeeps(s: State, s': State, c: nat)
    requires MemoryMachine.Inv(s) && DoEndTransfer(s, s', c)
    ensures MemoryMachine.Inv(s')
  {
    hide MemoryBooks.Inv, LocksOk, HandlesOk;
    Here(s, c);
    assert HandlesOk(s') by { HandlesKept(s, s', c); }
    Advance(s, s', s, c, Away, s.mem);
  }

  /* Every step keeps the invariant. */
  lemma NextKeeps(s: State, a: Action, s': State)
    requires MemoryMachine.Inv(s) && Next(s, a, s')
    ensures MemoryMachine.Inv(s')
  {
    hide MemoryMachine.Inv;
    match a
    case NewEngine(e) => NewEngineKeeps(s, s', e);
    case Begin(c, owned) => BeginKeeps(s, s', c, owned);
    case Acquire(c, address, nul, charge, length) => AcquireKeeps(s, s', c, address, nul, charge, length);
    case ParseFails(c) => ParseFailsKeeps(s, s', c);
    case Check(c, e) => CheckKeeps(s, s', c, e);
    case Enter(c) => EnterKeeps(s, s', c);
    case InsertNext(c) => InsertNextKeeps(s, s', c);
    case Native(c, ok) => NativeKeeps(s, s', c, ok);
    case DropNext(c) => DropNextKeeps(s, s', c);
    case BeginUnregister(c, e, addresses) => BeginUnregisterKeeps(s, s', c, e, addresses);
    case BeginClose(c, e, order, drained) => BeginCloseKeeps(s, s', c, e, order, drained);
    case DropHandle(c, e, order, drained) => DropHandleKeeps(s, s', c, e, order, drained);
    case ForgetNext(c, native) => ForgetNextKeeps(s, s', c, native);
    case RemoveNext(c) => RemoveNextKeeps(s, s', c);
    case BeginTransfer(c, e, slices) => BeginTransferKeeps(s, s', c, e, slices);
    case EndTransfer(c) => EndTransferKeeps(s, s', c);
  }
}
