/** The invariant of the save lifecycle, and its preservation by every action. */
module SaveSafety {
  import opened Wrappers
  import opened SaveLifecycle

  // ---------- Memory ----------

  /* What the ledger says a claimed save's receipt must be, once there is one. */
  function Verdict(l: Ledger, f: Fate): Option<Receipt> {
    match f
    case ByCancel => Some(Canceled)
    case ByRetire => Some(Retired)
    case ByBatch(b) => if b < |l.batches| then l.batches[b].verdict else None
  }

  /* Admitted and without a receipt. */
  predicate Pending(m: Memory, id: SaveId) {
    id in m.heap && m.heap[id].charged && m.heap[id].result.None?
  }

  /* Claimed and without a receipt. */
  predicate Unpaid(m: Memory, id: SaveId) {
    id in m.heap && !m.heap[id].prepared && m.heap[id].result.None?
  }

  ghost predicate SaveOk(m: Memory, id: SaveId)
    requires id in m.heap
  {
    var save := m.heap[id];
    && save.slot.client == id.client
    && id.op < NextOp(m, id.client)
    && (save.prepared <==> id !in m.ledger.fate)
    && (save.result.Some? ==> id in m.ledger.fate && save.result == Verdict(m.ledger, m.ledger.fate[id]))
    && (!save.charged ==> save.prepared && save.result.None?)
    && (Pending(m, id) ==> id in m.saves && save.slot in m.local && m.local[save.slot] == save.worker)
  }

  ghost predicate SavesOk(m: Memory) {
    && (forall id :: id in m.heap ==> SaveOk(m, id))
    && (forall id :: id in m.ledger.fate ==> id.op < NextOp(m, id.client))
    && (forall id :: id in m.saves ==> id in m.heap && m.heap[id].charged)
    && (forall id :: id in m.handles ==> id in m.heap && m.heap[id].charged)
  }

  /* The saves whose payloads the batch has taken. */
  function TakenIds(batch: Batch): seq<SaveId> {
    if batch.taken <= |batch.ids| then batch.ids[..batch.taken] else batch.ids
  }

  ghost predicate BatchOk(l: Ledger, b: nat)
    requires b < |l.batches|
  {
    var batch := l.batches[b];
    && Distinct(batch.ids) && batch.taken <= |batch.ids|
    && (forall id :: id in TakenIds(batch) ==> id in l.fate && l.fate[id] == ByBatch(b))
    && (batch.sent ==> batch.taken == |batch.ids|)
    && (batch.verdict.Some? ==> (batch.sent <==> batch.verdict.value.Done? || batch.verdict.value.Failed?))
  }

  ghost predicate LedgerOk(l: Ledger) {
    && (forall b :: 0 <= b < |l.batches| ==> BatchOk(l, b))
    && (forall id :: id in l.fate && l.fate[id].ByBatch? ==>
          l.fate[id].batch < |l.batches| && id in TakenIds(l.batches[l.fate[id].batch]))
  }

  ghost function Charged(heap: map<SaveId, Save>): set<SaveId> {
    set id | id in heap && heap[id].charged
  }

  ghost function SumBytes(heap: map<SaveId, Save>, ids: set<SaveId>): int
    requires forall id :: id in ids ==> id in heap
  {
    if ids == {} then 0
    else
      var id :| id in ids;
      heap[id].bytes + SumBytes(heap, ids - {id})
  }

  /* The budget counts exactly the admitted saves still alive. */
  ghost predicate UsageOk(m: Memory) {
    && m.count == |Charged(m.heap)| <= MAX_PENDING_SAVES
    && m.bytes == SumBytes(m.heap, Charged(m.heap)) <= MAX_PENDING_SAVE_BYTES
  }

  ghost predicate MemoryOk(m: Memory) {
    SavesOk(m) && LedgerOk(m.ledger) && UsageOk(m)
  }

  // ---------- Threads ----------

  predicate Preparing(pc: Pc) {
    pc.Built? || pc.Admitting? || pc.Charging?
  }

  predicate HasBatch(pc: Pc) {
    pc.Taking? || pc.Claimed? || pc.Failing? || pc.Publishing? || pc.Completing?
  }

  ghost predicate RefsOk(m: Memory, pc: Pc) {
    forall id :: id in Refs(m.ledger, pc) ==> id in m.heap && (m.heap[id].charged <==> !Preparing(pc))
  }

  /* Between the registration check and the charge, the worker stays registered: `local` is held. */
  ghost predicate WorkerOk(m: Memory, id: SaveId) {
    id in m.heap ==>
      var save := m.heap[id];
      save.slot in m.local && m.local[save.slot] == save.worker
  }

  /* The first `n` saves of a batch have their receipts. */
  ghost predicate Written(m: Memory, b: nat, n: nat)
    requires b < |m.ledger.batches|
  {
    var ids := m.ledger.batches[b].ids;
    n <= |ids| && forall i :: 0 <= i < n ==> ids[i] in m.heap && m.heap[ids[i]].result.Some?
  }

  ghost predicate BatchAt(m: Memory, b: nat, sent: bool, decided: bool, n: nat) {
    && b < |m.ledger.batches|
    && m.ledger.batches[b].sent == sent && m.ledger.batches[b].verdict.Some? == decided && Written(m, b, n)
    && m.ledger.batches[b].taken == |m.ledger.batches[b].ids|
  }

  predicate OfClient(ids: seq<SaveId>, c: Client) {
    forall i :: 0 <= i < |ids| ==> ids[i].client == c
  }

  /* The payloads a submitting thread has still to take are there. */
  ghost predicate ToTake(m: Memory, c: Client, b: nat) {
    && b < |m.ledger.batches|
    && var batch := m.ledger.batches[b];
       && !batch.sent && batch.taken <= |batch.ids| && OfClient(batch.ids, c)
       && (forall i :: batch.taken <= i < |batch.ids| ==> batch.ids[i] in m.heap && m.heap[batch.ids[i]].prepared)
  }

  /* Every admitted save of the scope that has no receipt yet is still ahead on the list. */
  ghost predicate Ahead(m: Memory, scope: Scope, list: seq<SaveId>, next: nat) {
    next <= |list| && forall id :: Pending(m, id) && Matches(scope, m.heap[id].slot) ==> id in list[next..]
  }

  /* No admitted save of the scope is prepared or in flight. */
  ghost predicate Quiet(m: Memory, scope: Scope) {
    forall id :: Pending(m, id) ==> !Matches(scope, m.heap[id].slot)
  }

  predicate ClaimedBy(l: Ledger, id: SaveId, f: Fate) {
    id in l.fate && l.fate[id] == f
  }

  ghost predicate PlaceOk(m: Memory, pc: Pc) {
    match pc
    case Admitting(id) => WorkerOk(m, id)
    case Charging(id) => WorkerOk(m, id)
    case Canceling(id) => ClaimedBy(m.ledger, id, ByCancel)
    case Locking(c, ids, n) => n <= |ids| && Distinct(ids) && OfClient(ids, c)
    case Taking(c, b) => ToTake(m, c, b)
    case Claimed(_, b) => BatchAt(m, b, false, false, 0)
    case Failing(_, b, n) => BatchAt(m, b, false, true, n)
    case Publishing(b) => BatchAt(m, b, true, false, 0)
    case Completing(b, n) => BatchAt(m, b, true, true, n)
    case RetireAt(scope, list, n) => Ahead(m, scope, list, n)
    case RetireTaken(scope, list, n) => n < |list| && Ahead(m, scope, list, n) && ClaimedBy(m.ledger, list[n], ByRetire)
    case RetireWaiting(scope, list, n) => n < |list| && Ahead(m, scope, list, n)
    case RetireDrained(scope) => Quiet(m, scope)
    case RetireCalled(scope) => Quiet(m, scope)
    case _ => true
  }

  ghost predicate ThreadOk(m: Memory, pc: Pc) {
    RefsOk(m, pc) && PlaceOk(m, pc)
  }

  /* What only one thread can be working on. */
  datatype Task = NoTask | Building(id: SaveId) | Serving(batch: nat)

  function TaskOf(pc: Pc): Task {
    if Preparing(pc) then Building(pc.id) else if HasBatch(pc) then Serving(pc.batch) else NoTask
  }

  ghost predicate Exclusive(threads: map<Tid, Pc>) {
    forall t, u :: t in threads && u in threads && TaskOf(threads[t]) == TaskOf(threads[u]) != NoTask ==> t == u
  }

  /* The thread at `pc` will write this claimed save's receipt. */
  predicate Owes(l: Ledger, pc: Pc, id: SaveId) {
    match pc
    case Canceling(i) => i == id
    case Taking(_, b) => b < |l.batches| && id in TakenIds(l.batches[b])
    case Claimed(_, b) => id in BatchIds(l, b)
    case Failing(_, b, _) => id in BatchIds(l, b)
    case Publishing(b) => id in BatchIds(l, b)
    case Completing(b, _) => id in BatchIds(l, b)
    case RetireTaken(_, list, n) => n < |list| && list[n] == id
    case _ => false
  }

  ghost predicate Owed(m: Memory, threads: map<Tid, Pc>, id: SaveId) {
    exists t :: t in threads && Owes(m.ledger, threads[t], id)
  }

  ghost predicate LocalHeld(threads: map<Tid, Pc>, locks: map<Client, Tid>) {
    && (forall t :: t in threads && LocalOf(threads[t]).Some? ==>
          LocalOf(threads[t]).value in locks && locks[LocalOf(threads[t]).value] == t)
    && (forall c :: c in locks ==> locks[c] in threads && LocalOf(threads[locks[c]]) == Some(c))
  }

  ghost predicate SavesHeld(threads: map<Tid, Pc>, locks: map<Client, Tid>) {
    && (forall t :: t in threads && SavesOf(threads[t]).Some? ==>
          SavesOf(threads[t]).value in locks && locks[SavesOf(threads[t]).value] == t)
    && (forall c :: c in locks ==> locks[c] in threads && SavesOf(threads[locks[c]]) == Some(c))
  }

  ghost predicate Inv(s: State) {
    && MemoryOk(s.mem)
    && (forall t :: t in s.threads ==> ThreadOk(s.mem, s.threads[t]))
    && Exclusive(s.threads)
    && (forall id :: Unpaid(s.mem, id) ==> Owed(s.mem, s.threads, id))
    && LocalHeld(s.threads, s.localLock) && SavesHeld(s.threads, s.savesLock)
  }

  lemma Starts()
    ensures Inv(START)
  {
    assert Charged(START.mem.heap) == {};
  }

  // ---------- A thread's step, given what it does to the memory ----------

  /* Batches are only added, keep their saves and give no payload back. */
  ghost predicate IdsKept(l: Ledger, l': Ledger) {
    && |l.batches| <= |l'.batches|
    && forall b :: 0 <= b < |l.batches| ==>
         l'.batches[b].ids == l.batches[b].ids && l.batches[b].taken <= l'.batches[b].taken
  }

  lemma LocalStep(threads: map<Tid, Pc>, locks: map<Client, Tid>, locks': map<Client, Tid>, t: Tid, before: Pc, after: Pc)
    requires LocalHeld(threads, locks) && before == (if t in threads then threads[t] else Idle)
    requires Relock(locks, locks', LocalOf(before), LocalOf(after), t)
    ensures LocalHeld(threads[t := after], locks')
  {
  }

  lemma SavesStep(threads: map<Tid, Pc>, locks: map<Client, Tid>, locks': map<Client, Tid>, t: Tid, before: Pc, after: Pc)
    requires SavesHeld(threads, locks) && before == (if t in threads then threads[t] else Idle)
    requires Relock(locks, locks', SavesOf(before), SavesOf(after), t)
    ensures SavesHeld(threads[t := after], locks')
  {
  }

  /* What the mover's step must show about receipts that are owed. */
  ghost predicate DebtsKept(m: Memory, m': Memory, before: Pc, after: Pc) {
    && IdsKept(m.ledger, m'.ledger)
    && forall id :: Unpaid(m', id) ==>
         || Owes(m'.ledger, after, id)
         || (Unpaid(m, id) && !Owes(m.ledger, before, id))
  }

  lemma OwedStep(m: Memory, m': Memory, threads: map<Tid, Pc>, t: Tid, before: Pc, after: Pc, id: SaveId)
    requires before == (if t in threads then threads[t] else Idle)
    requires DebtsKept(m, m', before, after) && Unpaid(m', id) && (Unpaid(m, id) ==> Owed(m, threads, id))
    ensures Owed(m', threads[t := after], id)
  {
    var threads' := threads[t := after];
    if Owes(m'.ledger, after, id) {
      assert threads'[t] == after;
    } else {
      var u :| u in threads && Owes(m.ledger, threads[u], id);
      assert Owes(m'.ledger, threads'[u], id);
    }
  }

  lemma Advance(s: State, s': State, t: Tid, after: Pc, m: Memory)
    requires Inv(s) && Step(s, s', t, after, m)
    requires MemoryOk(m) && ThreadOk(m, after)
    requires forall u :: u in s.threads && u != t ==> ThreadOk(m, s.threads[u])
    requires forall u :: u in s.threads && u != t && TaskOf(s.threads[u]) == TaskOf(after) ==> TaskOf(after) == NoTask
    requires DebtsKept(s.mem, m, At(s, t), after)
    ensures Inv(s')
  {
    hide MemoryOk, ThreadOk, LocalHeld, SavesHeld, Owed;
    LocalStep(s.threads, s.localLock, s'.localLock, t, At(s, t), after);
    SavesStep(s.threads, s.savesLock, s'.savesLock, t, At(s, t), after);
    forall id | Unpaid(s'.mem, id) ensures Owed(s'.mem, s'.threads, id) {
      OwedStep(s.mem, m, s.threads, t, At(s, t), after, id);
    }
  }
}
