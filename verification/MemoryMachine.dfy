/** Calls on the transfer engine owner as a state machine: any number of calls and engines, interleaved one region at a
time.

A call tests its regions once, under the engine's `registrations` mutex, and then inserts, forgets or removes them one by
one.  Actions are guarded by the call's place, the mutex and the tests the code itself makes; what the native library
answers is chosen arbitrarily.  An engine is dropped when nobody refers to it any more.
*/
module MemoryMachine {
  import opened Wrappers
  import opened MemoryBooks
  import opened RegisteredMemory

  datatype Purpose = ToUnregister | ToClose | ToDrop

  datatype CallPc =
    | Away
    // register_memory
    | Parsing(owned: bool)
    | Ready(e: nat)
    | Inserting(e: nat)
    | Asking(e: nat, a: U64)
    | Abandoning
    // unregister_memory, close and drop
    | Forgetting(e: nat, addresses: seq<U64>, next: nat, purpose: Purpose)
    | Removing(e: nat, addresses: seq<U64>, next: nat, purpose: Purpose)
    // transfer
    | Transferring(e: nat, slices: seq<(U64, U64)>)

  /* `handles` are the engines that still have a reference from outside. */
  datatype State = State(mem: Memory, pcs: map<nat, CallPc>, locks: map<nat, nat>, handles: set<nat>)

  const INITIAL := State(START, map[], map[], {})

  function At(s: State, c: nat): CallPc {
    if c in s.pcs then s.pcs[c] else Away
  }

  /* The engine whose `registrations` mutex the call holds. */
  function LockOf(pc: CallPc): Option<nat> {
    match pc
    case Inserting(e) => Some(e)
    case Asking(e, _) => Some(e)
    case Forgetting(e, _, _, _) => Some(e)
    case Removing(e, _, _, _) => Some(e)
    case Transferring(e, _) => Some(e)
    case _ => None
  }

  predicate Uses(pc: CallPc, e: nat) {
    LockOf(pc) == Some(e) || pc == Ready(e)
  }

  predicate Relock(locks: map<nat, nat>, locks': map<nat, nat>, before: Option<nat>, after: Option<nat>, c: nat) {
    if before == after then locks' == locks
    else
      var freed := if before.Some? then locks - {before.value} else locks;
      if after.None? then locks' == freed else after.value !in locks && locks' == freed[after.value := c]
  }

  /* Call `c` moves to `pc`, taking or releasing its mutex, and leaves `mem` behind. */
  predicate Step(s: State, s': State, c: nat, pc: CallPc, mem: Memory) {
    && s'.mem == mem && s'.pcs == s.pcs[c := pc] && s'.handles == s.handles
    && Relock(s.locks, s'.locks, LockOf(At(s, c)), LockOf(pc), c)
  }

  // ---------- Actions ----------

  datatype Action =
    | NewEngine(e: nat)
    | Begin(c: nat, owned: bool)
    | Acquire(c: nat, address: U64, nul: bool, charge: U64, length: U64)
    | ParseFails(c: nat)
    | Check(c: nat, e: nat)
    | Enter(c: nat)
    | InsertNext(c: nat)
    | Native(c: nat, ok: bool)
    | DropNext(c: nat)
    | BeginUnregister(c: nat, e: nat, addresses: seq<U64>)
    | BeginClose(c: nat, e: nat, order: seq<U64>, drained: bool)
    | DropHandle(c: nat, e: nat, order: seq<U64>, drained: bool)
    | ForgetNext(c: nat, native: bool)
    | RemoveNext(c: nat)
    | BeginTransfer(c: nat, e: nat, slices: seq<(U64, U64)>)
    | EndTransfer(c: nat)

  predicate DoNewEngine(s: State, s': State, e: nat) {
    && e !in s.mem.engines && e !in s.handles
    && s' == s.(mem := s.mem.(engines := s.mem.engines[e := Engine(map[], false)]), handles := s.handles + {e})
  }

  predicate DoBegin(s: State, s': State, c: nat, owned: bool) {
    && At(s, c).Away? && c !in s.mem.calls
    && Step(s, s', c, Parsing(owned), s.mem.(calls := s.mem.calls[c := []]))
  }

  /* `RegisteredBytes::acquire`: a full budget abandons the call. */
  predicate DoAcquire(s: State, s': State, c: nat, address: U64, nul: bool, charge: U64, length: U64) {
    && At(s, c).Parsing? && c in s.mem.calls
    && if s.mem.budget.regions >= MAX_REGIONS || s.mem.budget.bytes + charge as int > MAX_REGISTERED_BYTES
       then Step(s, s', c, Abandoning, s.mem)
       else
         var region := Region(s.mem.next, At(s, c).owned, charge, length, Attempted);
         Step(s, s', c, At(s, c), Admit(s.mem, c, Parsed(address, nul, region)))
  }

  predicate DoParseFails(s: State, s': State, c: nat) {
    At(s, c).Parsing? && Step(s, s', c, Abandoning, s.mem)
  }

  /* The checks before the mutex. */
  ghost predicate DoCheck(s: State, s': State, c: nat, e: nat) {
    && At(s, c).Parsing? && c in s.mem.calls && e in s.handles
    && Step(s, s', c, if WellFormed(s.mem.calls[c]) then Ready(e) else Abandoning, s.mem)
  }

  /* The checks under the mutex, once for all regions. */
  ghost predicate DoEnter(s: State, s': State, c: nat) {
    && At(s, c).Ready? && c in s.mem.calls && At(s, c).e in s.mem.engines && At(s, c).e !in s.locks
    && var engine := s.mem.engines[At(s, c).e];
       Step(s, s', c,
         if !engine.retiring && AllFit(engine.regions, s.mem.calls[c]) then Inserting(At(s, c).e) else Abandoning, s.mem)
  }

  /* Hand the next region over; a key that is taken would keep its old region.  After the last the mutex is released. */
  predicate DoInsertNext(s: State, s': State, c: nat) {
    && At(s, c).Inserting? && c in s.mem.calls && At(s, c).e in s.mem.engines
    && var e := At(s, c).e;
       if s.mem.calls[c] == [] then Step(s, s', c, Away, s.mem.(calls := s.mem.calls - {c}))
       else
         var a := s.mem.calls[c][0].address;
         Step(s, s', c, Asking(e, a), if a in s.mem.engines[e].regions then DropParsed(s.mem, c) else Insert(s.mem, e, c))
  }

  predicate DoNative(s: State, s': State, c: nat, ok: bool) {
    && At(s, c).Asking? && At(s, c).e in s.mem.engines && At(s, c).a in s.mem.engines[At(s, c).e].regions
    && var Asking(e, a) := At(s, c);
       if ok then Step(s, s', c, Inserting(e), SetStatus(s.mem, e, a, Registered))
       else Step(s, s', c, Abandoning, Retire(s.mem, e))
  }

  predicate DoDropNext(s: State, s': State, c: nat) {
    && At(s, c).Abandoning? && c in s.mem.calls
    && if s.mem.calls[c] == [] then Step(s, s', c, Away, s.mem.(calls := s.mem.calls - {c}))
       else Step(s, s', c, Abandoning, DropParsed(s.mem, c))
  }

  /* The checks of `unregister_memory`; a call that fails them changes nothing. */
  ghost predicate DoBeginUnregister(s: State, s': State, c: nat, e: nat, addresses: seq<U64>) {
    && At(s, c).Away? && e in s.handles && e in s.mem.engines && e !in s.locks
    && Step(s, s', c,
         if Unregisterable(s.mem.engines[e].regions, addresses) then Forgetting(e, addresses, 0, ToUnregister) else Away,
         s.mem)
  }

  /* `order` is the order in which the map is walked. */
  predicate Walks(regions: Regions, order: seq<U64>) {
    Ranges(order) == regions.Keys && forall i, j :: 0 <= i < j < |order| ==> order[i] != order[j]
  }

  predicate DoBeginClose(s: State, s': State, c: nat, e: nat, order: seq<U64>, drained: bool) {
    && At(s, c).Away? && e in s.handles && e in s.mem.engines && e !in s.locks && Walks(s.mem.engines[e].regions, order)
    && Step(s, s', c, if drained then Forgetting(e, order, 0, ToClose) else Away, Retire(s.mem, e))
  }

  /* The last reference goes, and `Drop` runs. */
  predicate DoDropHandle(s: State, s': State, c: nat, e: nat, order: seq<U64>, drained: bool) {
    && At(s, c).Away? && e in s.handles && e in s.mem.engines && e !in s.locks && Walks(s.mem.engines[e].regions, order)
    && (forall d :: d in s.pcs ==> !Uses(s.pcs[d], e))
    && var engine := s.mem.engines[e];
       var t := s.(handles := s.handles - {e});
       if engine.regions == map[] then Step(t, s', c, Away, s.mem.(engines := s.mem.engines - {e}))
       else if engine.retiring then Step(t, s', c, Away, Retain(s.mem, e))
       else if drained then Step(t, s', c, Forgetting(e, order, 0, ToDrop), Retire(s.mem, e))
       else Step(t, s', c, Away, Retain(Retire(s.mem, e), e))
  }

  /* What a native refusal leaves: the unregistering caller retires the engine, `Drop` retains its regions. */
  function Refused(m: Memory, e: nat, purpose: Purpose): Memory
    requires e in m.engines
  {
    match purpose
    case ToUnregister => Retire(m, e)
    case ToClose => m
    case ToDrop => Retain(m, e)
  }

  /* `unregister_region` on the next address. */
  predicate DoForgetNext(s: State, s': State, c: nat, native: bool) {
    && At(s, c).Forgetting? && At(s, c).e in s.mem.engines
    && var Forgetting(e, addresses, i, purpose) := At(s, c);
       var regions := s.mem.engines[e].regions;
       if i >= |addresses| then Step(s, s', c, Removing(e, addresses, 0, purpose), s.mem)
       else if addresses[i] !in regions then Step(s, s', c, Away, s.mem)
       else if regions[addresses[i]].status.Unregistered? then
         Step(s, s', c, Forgetting(e, addresses, i + 1, purpose), s.mem)
       else if native then Step(s, s', c, Forgetting(e, addresses, i + 1, purpose), Forget(s.mem, e, addresses[i]))
       else Step(s, s', c, Away, Refused(s.mem, e, purpose))
  }

  /* Take the next region out of the map, whatever its status; at the end a dropped engine is gone. */
  predicate DoRemoveNext(s: State, s': State, c: nat) {
    && At(s, c).Removing? && At(s, c).e in s.mem.engines
    && var Removing(e, addresses, i, purpose) := At(s, c);
       if i >= |addresses| then
         Step(s, s', c, Away, if purpose.ToDrop? then s.mem.(engines := s.mem.engines - {e}) else s.mem)
       else
         Step(s, s', c, Removing(e, addresses, i + 1, purpose),
           if addresses[i] in s.mem.engines[e].regions then Remove(s.mem, e, addresses[i]) else s.mem)
  }

  /* Every slice lies in one registered region. */
  ghost predicate AllInside(regions: Regions, slices: seq<(U64, U64)>) {
    forall i :: 0 <= i < |slices| ==>
      && Slice(slices[i].0, slices[i].1) && End(slices[i].0, slices[i].1) < U64_LIMIT
      && Inside(regions, slices[i].0, slices[i].1)
  }

  /* The bounds check of `transfer`; the mutex is held while the native transfer runs. */
  ghost predicate DoBeginTransfer(s: State, s': State, c: nat, e: nat, slices: seq<(U64, U64)>) {
    && At(s, c).Away? && e in s.handles && e in s.mem.engines && e !in s.locks
    && var engine := s.mem.engines[e];
       Step(s, s', c,
         if !engine.retiring && AllInside(engine.regions, slices) then Transferring(e, slices) else Away, s.mem)
  }

  predicate DoEndTransfer(s: State, s': State, c: nat) {
    At(s, c).Transferring? && Step(s, s', c, Away, s.mem)
  }

  ghost predicate Next(s: State, a: Action, s': State) {
    match a
    case NewEngine(e) => DoNewEngine(s, s', e)
    case Begin(c, owned) => DoBegin(s, s', c, owned)
    case Acquire(c, address, nul, charge, length) => DoAcquire(s, s', c, address, nul, charge, length)
    case ParseFails(c) => DoParseFails(s, s', c)
    case Check(c, e) => DoCheck(s, s', c, e)
    case Enter(c) => DoEnter(s, s', c)
    case InsertNext(c) => DoInsertNext(s, s', c)
    case Native(c, ok) => DoNative(s, s', c, ok)
    case DropNext(c) => DoDropNext(s, s', c)
    case BeginUnregister(c, e, addresses) => DoBeginUnregister(s, s', c, e, addresses)
    case BeginClose(c, e, order, drained) => DoBeginClose(s, s', c, e, order, drained)
    case DropHandle(c, e, order, drained) => DoDropHandle(s, s', c, e, order, drained)
    case ForgetNext(c, native) => DoForgetNext(s, s', c, native)
    case RemoveNext(c) => DoRemoveNext(s, s', c)
    case BeginTransfer(c, e, slices) => DoBeginTransfer(s, s', c, e, slices)
    case EndTransfer(c) => DoEndTransfer(s, s', c)
  }

  // ---------- The invariant ----------

  ghost predicate OneOwner(parsed: seq<Parsed>, owned: bool) {
    forall i :: 0 <= i < |parsed| ==> parsed[i].region.owned == owned
  }

  /* The walk's addresses are all in the map, those behind `next` unregistered. */
  ghost predicate Walking(regions: Regions, addresses: seq<U64>, next: nat, purpose: Purpose) {
    && next <= |addresses| && (forall i, j :: 0 <= i < j < |addresses| ==> addresses[i] != addresses[j])
    && (forall i :: 0 <= i < |addresses| ==> addresses[i] in regions)
    && (forall i :: 0 <= i < next ==> regions[addresses[i]].status.Unregistered?)
    && (!purpose.ToUnregister? ==> forall a :: a in regions ==> a in addresses)
  }

  /* The regions still to be taken out are in the map and unregistered. */
  ghost predicate Emptying(regions: Regions, addresses: seq<U64>, next: nat, purpose: Purpose) {
    && next <= |addresses| && (forall i, j :: 0 <= i < j < |addresses| ==> addresses[i] != addresses[j])
    && (forall i :: next <= i < |addresses| ==>
          addresses[i] in regions && regions[addresses[i]].status.Unregistered?)
    && (!purpose.ToUnregister? ==> forall a :: a in regions ==> a in addresses[next..])
  }

  ghost predicate PcOk(m: Memory, c: nat, pc: CallPc) {
    match pc
    case Away => c !in m.calls
    case Parsing(owned) => c in m.calls && OneOwner(m.calls[c], owned)
    case Ready(e) => c in m.calls && e in m.engines && WellFormed(m.calls[c])
    case Inserting(e) =>
      c in m.calls && e in m.engines && WellFormed(m.calls[c]) && AllFit(m.engines[e].regions, m.calls[c])
    case Asking(e, a) =>
      && c in m.calls && e in m.engines && WellFormed(m.calls[c]) && AllFit(m.engines[e].regions, m.calls[c])
      && a in m.engines[e].regions && m.engines[e].regions[a].status.Attempted?
    case Abandoning => c in m.calls
    case Forgetting(e, addresses, i, purpose) =>
      c !in m.calls && e in m.engines && Walking(m.engines[e].regions, addresses, i, purpose)
    case Removing(e, addresses, i, purpose) =>
      c !in m.calls && e in m.engines && Emptying(m.engines[e].regions, addresses, i, purpose)
    case Transferring(e, slices) =>
      c !in m.calls && e in m.engines && !m.engines[e].retiring && AllInside(m.engines[e].regions, slices)
  }

  ghost predicate LocksOk(pcs: map<nat, CallPc>, locks: map<nat, nat>) {
    && (forall c :: c in pcs && LockOf(pcs[c]).Some? ==>
          LockOf(pcs[c]).value in locks && locks[LockOf(pcs[c]).value] == c)
    && (forall e :: e in locks ==> locks[e] in pcs && LockOf(pcs[locks[e]]) == Some(e))
  }

  ghost predicate HandlesOk(s: State) {
    && (forall e :: e in s.handles ==> e in s.mem.engines)
    && (forall c :: c in s.pcs && s.pcs[c].Ready? ==> s.pcs[c].e in s.handles)
    && (forall c :: c in s.pcs && (s.pcs[c].Forgetting? || s.pcs[c].Removing?) && s.pcs[c].purpose.ToDrop? ==>
          s.pcs[c].e !in s.handles)
  }

  ghost predicate Inv(s: State) {
    && MemoryBooks.Inv(s.mem) && LocksOk(s.pcs, s.locks) && HandlesOk(s)
    && (forall c :: c in s.pcs ==> PcOk(s.mem, c, s.pcs[c]))
    && (forall c :: c in s.mem.calls ==> c in s.pcs)
  }

  lemma Starts()
    ensures Inv(INITIAL)
  {
    MemoryBooks.Starts();
  }

  // ---------- Calls that look on ----------

  /* A change leaves call `c` its regions and the engine it uses. */
  predicate Spares(m: Memory, m': Memory, c: nat, pc: CallPc) {
    && (c in m'.calls <==> c in m.calls) && (c in m.calls ==> m'.calls[c] == m.calls[c])
    && (LockOf(pc).Some? && LockOf(pc).value in m.engines ==>
          LockOf(pc).value in m'.engines && m'.engines[LockOf(pc).value] == m.engines[LockOf(pc).value])
    && (pc.Ready? && pc.e in m.engines ==> pc.e in m'.engines)
  }

  lemma Spared(m: Memory, m': Memory, c: nat, pc: CallPc)
    requires PcOk(m, c, pc) && Spares(m, m', c, pc)
    ensures PcOk(m', c, pc)
  {
    hide WellFormed, AllFit, AllInside, Walking, Emptying, OneOwner;
  }

  lemma LocksStep(
      pcs: map<nat, CallPc>, locks: map<nat, nat>, locks': map<nat, nat>, c: nat, before: CallPc, after: CallPc)
    requires LocksOk(pcs, locks) && before == (if c in pcs then pcs[c] else Away)
    requires Relock(locks, locks', LockOf(before), LockOf(after), c)
    ensures LocksOk(pcs[c := after], locks')
  {
  }

  lemma Advance(s: State, s': State, t: State, c: nat, after: CallPc, m: Memory)
    requires Inv(s) && t == s.(handles := t.handles) && Step(t, s', c, after, m)
    requires MemoryBooks.Inv(m) && PcOk(m, c, after) && HandlesOk(s')
    requires forall d :: d in s.pcs && d != c ==> Spares(s.mem, m, d, s.pcs[d])
    requires forall d :: d in m.calls && d != c ==> d in s.mem.calls
    ensures Inv(s')
  {
    hide MemoryBooks.Inv, LocksOk, HandlesOk, PcOk, Spares, Relock;
    assert At(t, c) == At(s, c);
    LocksStep(s.pcs, s.locks, s'.locks, c, At(s, c), after);
    forall d | d in s'.pcs ensures PcOk(s'.mem, d, s'.pcs[d]) {
      if d != c { Spared(s.mem, m, d, s.pcs[d]); }
    }
  }

  // ---------- What a change of one call and one engine spares ----------

  /* At most call `c` and engine `e` differ. */
  ghost predicate Touches(m: Memory, m': Memory, c: nat, e: nat) {
    && (forall d :: d != c ==> (d in m'.calls <==> d in m.calls))
    && (forall d :: d != c && d in m.calls ==> m'.calls[d] == m.calls[d])
    && (forall f :: f != e ==> (f in m'.engines <==> f in m.engines))
    && (forall f :: f != e && f in m.engines ==> m'.engines[f] == m.engines[f])
  }

  /* Nobody but `c` is inside engine `e`'s mutex. */
  predicate Mine(s: State, c: nat, e: nat) {
    LockOf(At(s, c)) == Some(e) || e !in s.locks
  }

  lemma SparesOthers(s: State, m': Memory, c: nat, e: nat, d: nat)
    requires LocksOk(s.pcs, s.locks) && HandlesOk(s) && Mine(s, c, e) && Touches(s.mem, m', c, e)
    requires e in m'.engines || e !in s.handles
    requires d in s.pcs && d != c
    ensures Spares(s.mem, m', d, s.pcs[d])
  {
  }

  /* A step that touches only the mover and the engine whose mutex it holds or may take. */
  lemma Moves(s: State, s': State, t: State, c: nat, after: CallPc, m: Memory, e: nat)
    requires Inv(s) && t == s.(handles := t.handles) && t.handles <= s.handles && HandlesOk(t) && Step(t, s', c, after, m)
    requires MemoryBooks.Inv(m) && PcOk(m, c, after) && HandlesOk(s')
    requires Mine(s, c, e) && Touches(s.mem, m, c, e) && (e in m.engines || e !in t.handles)
    ensures Inv(s')
  {
    hide MemoryBooks.Inv, LocksOk, HandlesOk, PcOk, Spares, Relock, Touches, Mine;
    forall d | d in s.pcs && d != c ensures Spares(s.mem, m, d, s.pcs[d]) {
      assert Mine(t, c, e) by { assert At(t, c) == At(s, c) && t.locks == s.locks; MineSame(s, t, c, e); }
      SparesOthers(t, m, c, e, d);
    }
    forall d | d in m.calls && d != c ensures d in s.mem.calls { TouchesCall(s.mem, m, c, e, d); }
    Advance(s, s', t, c, after, m);
  }

  lemma MineSame(s: State, t: State, c: nat, e: nat)
    requires Mine(s, c, e) && t.pcs == s.pcs && t.locks == s.locks
    ensures Mine(t, c, e)
  {
  }

  lemma TouchesCall(m: Memory, m': Memory, c: nat, e: nat, d: nat)
    requires Touches(m, m', c, e) && d != c && d in m'.calls
    ensures d in m.calls
  {
  }

  lemma Here(s: State, c: nat)
    requires Inv(s)
    ensures PcOk(s.mem, c, At(s, c))
    ensures LockOf(At(s, c)).Some? ==> Mine(s, c, LockOf(At(s, c)).value)
  {
  }

  /* `HandlesOk` after a step that gives up no handle. */
  lemma HandlesKept(s: State, s': State, c: nat)
    requires HandlesOk(s) && s'.handles == s.handles && c in s'.pcs && s'.pcs == s.pcs[c := s'.pcs[c]]
    requires forall e :: e in s.mem.engines && e in s.handles ==> e in s'.mem.engines
    requires s'.pcs[c].Ready? ==> s'.pcs[c].e in s.handles
    requires (s'.pcs[c].Forgetting? || s'.pcs[c].Removing?) && s'.pcs[c].purpose.ToDrop? ==> s'.pcs[c].e !in s.handles
    ensures HandlesOk(s')
  {
  }
}
