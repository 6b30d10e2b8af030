/** What each change to the shared memory keeps: the memory's own invariant, and that of every thread it does not belong to. */
module SaveEffects {
  import opened Wrappers
  import opened SaveLifecycle
  import opened SaveSafety

  // ---------- The budget ----------

  lemma {:induction false} SumRemove(heap: map<SaveId, Save>, ids: set<SaveId>, id: SaveId)
    requires (forall k :: k in ids ==> k in heap) && id in ids
    ensures SumBytes(heap, ids) == heap[id].bytes + SumBytes(heap, ids - {id})
    decreases |ids|
  {
    var first :| first in ids && SumBytes(heap, ids) == heap[first].bytes + SumBytes(heap, ids - {first});
    if first != id {
      SumRemove(heap, ids - {first}, id);
      SumRemove(heap, ids - {id}, first);
      assert ids - {first} - {id} == ids - {id} - {first};
    }
  }

  lemma {:induction false} SumSame(heap: map<SaveId, Save>, heap': map<SaveId, Save>, ids: set<SaveId>)
    requires forall k :: k in ids ==> k in heap && k in heap' && heap[k].bytes == heap'[k].bytes
    ensures SumBytes(heap, ids) == SumBytes(heap', ids)
    decreases |ids|
  {
    if ids != {} {
      var first :| first in ids;
      SumSame(heap, heap', ids - {first});
      SumRemove(heap, ids, first);
      SumRemove(heap', ids, first);
    }
  }

  lemma UsageSame(m: Memory, m': Memory)
    requires UsageOk(m) && m'.count == m.count && m'.bytes == m.bytes
    requires forall id :: id in m.heap && m.heap[id].charged ==>
               id in m'.heap && m'.heap[id].charged && m'.heap[id].bytes == m.heap[id].bytes
    requires forall id :: id in m'.heap && m'.heap[id].charged ==> id in m.heap && m.heap[id].charged
    ensures UsageOk(m')
  {
    assert Charged(m'.heap) == Charged(m.heap);
    SumSame(m.heap, m'.heap, Charged(m.heap));
  }

  lemma UsageCharged(m: Memory, id: SaveId)
    requires UsageOk(m) && id in m.heap && !m.heap[id].charged
    requires m.count < MAX_PENDING_SAVES && m.bytes + m.heap[id].bytes <= MAX_PENDING_SAVE_BYTES
    ensures UsageOk(Charge(m, id))
  {
    var m' := Charge(m, id);
    assert Charged(m'.heap) == Charged(m.heap) + {id};
    SumRemove(m'.heap, Charged(m'.heap), id);
    assert Charged(m'.heap) - {id} == Charged(m.heap);
    SumSame(m.heap, m'.heap, Charged(m.heap));
  }

  lemma UsageFreed(m: Memory, id: SaveId)
    requires UsageOk(m) && id in m.heap
    ensures UsageOk(Free(m, id))
  {
    var m' := Free(m, id);
    if m.heap[id].charged {
      assert Charged(m'.heap) == Charged(m.heap) - {id};
      SumRemove(m.heap, Charged(m.heap), id);
      SumSame(m.heap, m'.heap, Charged(m'.heap));
    } else {
      UsageSame(m, m');
    }
  }

  // ---------- Threads that look on ----------

  /* Saves stay where they are with their targets, receipts stay, nothing is newly admitted, batches keep their saves. */
  ghost predicate Steady(m: Memory, m': Memory) {
    && m'.local == m.local
    && (forall id :: id in m.heap ==> id in m'.heap && SaveSteady(m.heap[id], m'.heap[id]))
    && (forall id :: id in m'.heap && m'.heap[id].charged ==> id in m.heap)
    && (forall id :: id in m.ledger.fate ==> id in m'.ledger.fate && m'.ledger.fate[id] == m.ledger.fate[id])
    && IdsKept(m.ledger, m'.ledger)
  }

  predicate SaveSteady(before: Save, after: Save) {
    && after.slot == before.slot && after.worker == before.worker && after.charged == before.charged
    && (before.result.Some? ==> after.result.Some?)
  }

  /* The batch a thread serves is as sent and as decided as before. */
  predicate BatchSteady(l: Ledger, l': Ledger, pc: Pc) {
    HasBatch(pc) && pc.batch < |l.batches| ==>
      && pc.batch < |l'.batches| && l'.batches[pc.batch].sent == l.batches[pc.batch].sent
      && l'.batches[pc.batch].verdict.Some? == l.batches[pc.batch].verdict.Some?
      && l'.batches[pc.batch].taken == l.batches[pc.batch].taken
  }

  /* No payload whose mutex the thread holds is taken. */
  ghost predicate PayloadSteady(m: Memory, m': Memory, pc: Pc) {
    forall id :: id in PayloadsOf(m.ledger, pc) && id in m.heap && m.heap[id].prepared ==>
      id in m'.heap && m'.heap[id].prepared
  }

  lemma SteadyRefs(m: Memory, m': Memory, pc: Pc)
    requires Steady(m, m') && RefsOk(m, pc) && (HasBatch(pc) ==> pc.batch < |m.ledger.batches|)
    ensures RefsOk(m', pc)
  {
    assert HasBatch(pc) ==> BatchIds(m'.ledger, pc.batch) == BatchIds(m.ledger, pc.batch);
    assert Refs(m'.ledger, pc) == Refs(m.ledger, pc);
  }

  lemma SteadyPlace(m: Memory, m': Memory, pc: Pc)
    requires Steady(m, m') && BatchSteady(m.ledger, m'.ledger, pc) && PayloadSteady(m, m', pc) && PlaceOk(m, pc)
    requires Preparing(pc) ==> pc.id in m.heap
    ensures PlaceOk(m', pc)
  {
    assert forall id :: Pending(m', id) ==> Pending(m, id) && m'.heap[id].slot == m.heap[id].slot;
  }

  lemma SteadyAside(m: Memory, m': Memory, pc: Pc)
    requires Steady(m, m') && BatchSteady(m.ledger, m'.ledger, pc) && PayloadSteady(m, m', pc) && ThreadOk(m, pc)
    ensures ThreadOk(m', pc)
  {
    hide Steady, BatchSteady, PayloadSteady, Ahead, Quiet, Written;
    assert Preparing(pc) ==> pc.id in Refs(m.ledger, pc);
    SteadyRefs(m, m', pc);
    SteadyPlace(m, m', pc);
  }

  // ---------- Admission ----------

  lemma CreateSaves(m: Memory, id: SaveId, save: Save)
    requires SavesOk(m) && id.op == NextOp(m, id.client)
    requires save.slot.client == id.client && save.prepared && save.result.None? && !save.charged
    ensures id !in m.heap && id !in m.ledger.fate && SavesOk(Create(m, id, save))
  {
  }

  lemma CreateKeeps(m: Memory, id: SaveId, save: Save)
    requires MemoryOk(m) && id.op == NextOp(m, id.client)
    requires save.slot.client == id.client && save.prepared && save.result.None? && !save.charged
    ensures MemoryOk(Create(m, id, save))
  {
    hide LedgerOk;
    CreateSaves(m, id, save);
    UsageSame(m, Create(m, id, save));
  }

  lemma CreateAside(m: Memory, id: SaveId, save: Save, pc: Pc)
    requires MemoryOk(m) && id.op == NextOp(m, id.client) && ThreadOk(m, pc)
    requires save.slot.client == id.client && save.prepared && save.result.None? && !save.charged
    ensures ThreadOk(Create(m, id, save), pc)
  {
    hide ThreadOk, SavesOk, LedgerOk, UsageOk;
    CreateSaves(m, id, save);
    SteadyAside(m, Create(m, id, save), pc);
  }

  lemma PruneKeeps(m: Memory, c: Client)
    requires MemoryOk(m)
    ensures MemoryOk(Prune(m, c))
  {
    hide LedgerOk;
    UsageSame(m, Prune(m, c));
  }

  lemma PruneAside(m: Memory, c: Client, pc: Pc)
    requires ThreadOk(m, pc)
    ensures ThreadOk(Prune(m, c), pc)
  {
    hide ThreadOk;
    SteadyAside(m, Prune(m, c), pc);
  }

  lemma ChargeKeeps(m: Memory, id: SaveId)
    requires MemoryOk(m) && id in m.heap && !m.heap[id].charged && WorkerOk(m, id)
    requires m.count < MAX_PENDING_SAVES && m.bytes + m.heap[id].bytes <= MAX_PENDING_SAVE_BYTES
    ensures MemoryOk(Charge(m, id))
  {
    hide LedgerOk;
    UsageCharged(m, id);
  }

  lemma ChargeRefs(m: Memory, id: SaveId, pc: Pc)
    requires id in m.heap && !m.heap[id].charged && RefsOk(m, pc) && TaskOf(pc) != Building(id)
    ensures RefsOk(Charge(m, id), pc)
  {
    if Preparing(pc) { assert Refs(m.ledger, pc) == {pc.id}; }
  }

  lemma ChargePlace(m: Memory, id: SaveId, pc: Pc)
    requires id in m.heap && m.heap[id].slot.client == id.client && PlaceOk(m, pc) && LocalOf(pc) != Some(id.client)
    ensures PlaceOk(Charge(m, id), pc)
  {
    var m' := Charge(m, id);
    assert forall k :: Pending(m', k) ==> (Pending(m, k) || k == id) && m'.heap[k].slot == m.heap[k].slot;
  }

  lemma ChargeAside(m: Memory, id: SaveId, pc: Pc)
    requires MemoryOk(m) && id in m.heap && !m.heap[id].charged && ThreadOk(m, pc)
    requires TaskOf(pc) != Building(id) && LocalOf(pc) != Some(id.client)
    ensures ThreadOk(Charge(m, id), pc)
  {
    hide LedgerOk, UsageOk, RefsOk, PlaceOk;
    assert SaveOk(m, id);
    ChargeRefs(m, id, pc);
    ChargePlace(m, id, pc);
  }

  // ---------- Claims ----------

  lemma ClaimLedger(l: Ledger, id: SaveId, f: Fate)
    requires LedgerOk(l) && id !in l.fate && !f.ByBatch?
    ensures LedgerOk(l.(fate := Assign(l.fate, {id}, f)))
  {
    var l' := l.(fate := Assign(l.fate, {id}, f));
    forall b | 0 <= b < |l'.batches| ensures BatchOk(l', b) {
      assert BatchOk(l, b);
    }
  }

  lemma ClaimSaves(m: Memory, id: SaveId, f: Fate)
    requires SavesOk(m) && id in m.heap && m.heap[id].prepared && m.heap[id].charged
    ensures SavesOk(Claim(m, id, f))
  {
  }

  lemma ClaimKeeps(m: Memory, id: SaveId, f: Fate)
    requires MemoryOk(m) && id in m.heap && m.heap[id].prepared && m.heap[id].charged && !f.ByBatch?
    ensures MemoryOk(Claim(m, id, f))
  {
    ClaimLedger(m.ledger, id, f);
    ClaimSaves(m, id, f);
    UsageSame(m, Claim(m, id, f));
  }

  lemma ClaimSteady(m: Memory, id: SaveId, f: Fate)
    requires SavesOk(m) && id in m.heap && m.heap[id].prepared
    ensures Steady(m, Claim(m, id, f))
  {
    assert SaveOk(m, id);
  }

  lemma ClaimAside(m: Memory, id: SaveId, f: Fate, pc: Pc)
    requires MemoryOk(m) && id in m.heap && m.heap[id].prepared && ThreadOk(m, pc) && id !in PayloadsOf(m.ledger, pc)
    ensures ThreadOk(Claim(m, id, f), pc)
  {
    hide ThreadOk, SavesOk, LedgerOk, UsageOk, Steady;
    ClaimSteady(m, id, f);
    SteadyAside(m, Claim(m, id, f), pc);
  }

  // ---------- Receipts ----------

  lemma PaySaves(m: Memory, id: SaveId, r: Receipt)
    requires SavesOk(m) && id in m.heap && id in m.ledger.fate && Verdict(m.ledger, m.ledger.fate[id]) == Some(r)
    ensures SavesOk(Pay(m, id, r))
  {
  }

  lemma PayUsage(m: Memory, id: SaveId, r: Receipt)
    requires UsageOk(m) && id in m.heap
    ensures UsageOk(Pay(m, id, r))
  {
    hide UsageOk;
    UsageSame(m, Pay(m, id, r));
  }

  lemma PayKeeps(m: Memory, id: SaveId, r: Receipt)
    requires MemoryOk(m) && id in m.heap && id in m.ledger.fate && Verdict(m.ledger, m.ledger.fate[id]) == Some(r)
    ensures MemoryOk(Pay(m, id, r))
  {
    hide LedgerOk, SavesOk, UsageOk;
    PaySaves(m, id, r);
    PayUsage(m, id, r);
  }

  lemma PayAside(m: Memory, id: SaveId, r: Receipt, pc: Pc)
    requires id in m.heap && ThreadOk(m, pc)
    ensures ThreadOk(Pay(m, id, r), pc)
  {
    hide ThreadOk;
    SteadyAside(m, Pay(m, id, r), pc);
  }

  // ---------- Drops and registrations ----------

  lemma FreeKeeps(m: Memory, id: SaveId)
    requires MemoryOk(m) && id in m.heap && id !in m.saves && id !in m.handles
    ensures MemoryOk(Free(m, id))
  {
    hide LedgerOk;
    UsageFreed(m, id);
  }

  lemma FreeAside(m: Memory, id: SaveId, pc: Pc)
    requires id in m.heap && id !in Refs(m.ledger, pc) && ThreadOk(m, pc)
    ensures ThreadOk(Free(m, id), pc)
  {
  }

  lemma EvictKeeps(m: Memory, scope: Scope)
    requires MemoryOk(m) && Quiet(m, scope)
    ensures MemoryOk(Evict(m, scope))
  {
    hide LedgerOk;
    UsageSame(m, Evict(m, scope));
  }

  lemma EvictAside(m: Memory, scope: Scope, pc: Pc)
    requires MemoryOk(m) && ThreadOk(m, pc) && LocalOf(pc) != Some(scope.client)
    ensures ThreadOk(Evict(m, scope), pc)
  {
    hide LedgerOk, UsageOk;
  }

  lemma EnrolKeeps(m: Memory, slot: Slot, worker: Worker)
    requires MemoryOk(m) && slot !in m.local
    ensures MemoryOk(m.(local := m.local[slot := worker]))
  {
    hide LedgerOk;
    UsageSame(m, m.(local := m.local[slot := worker]));
  }

  lemma EnrolAside(m: Memory, slot: Slot, worker: Worker, pc: Pc)
    requires ThreadOk(m, pc) && slot !in m.local
    ensures ThreadOk(m.(local := m.local[slot := worker]), pc)
  {
  }

  // ---------- Batches ----------

  lemma OpenLedger(l: Ledger, batch: Batch)
    requires LedgerOk(l) && Distinct(batch.ids) && !batch.sent && batch.taken == 0
    requires batch.verdict.Some? ==> !batch.verdict.value.Done? && !batch.verdict.value.Failed?
    ensures LedgerOk(l.(batches := l.batches + [batch]))
  {
    var l' := l.(batches := l.batches + [batch]);
    forall b | 0 <= b < |l'.batches| ensures BatchOk(l', b) {
      if b < |l.batches| { assert BatchOk(l, b); }
    }
  }

  lemma OpenKeeps(m: Memory, batch: Batch)
    requires MemoryOk(m) && Distinct(batch.ids) && batch == Batch(batch.ids, batch.request, false, batch.verdict, 0)
    requires batch.verdict.Some? ==> !batch.verdict.value.Done? && !batch.verdict.value.Failed?
    ensures MemoryOk(Open(m, batch.ids, batch.request, batch.verdict))
  {
    hide LedgerOk;
    OpenLedger(m.ledger, batch);
    UsageSame(m, Open(m, batch.ids, batch.request, batch.verdict));
  }

  lemma OpenAside(m: Memory, batch: Batch, pc: Pc)
    requires ThreadOk(m, pc) && batch == Batch(batch.ids, batch.request, false, batch.verdict, 0)
    ensures ThreadOk(Open(m, batch.ids, batch.request, batch.verdict), pc)
  {
    hide ThreadOk;
    SteadyAside(m, Open(m, batch.ids, batch.request, batch.verdict), pc);
  }

  /* The next save of a batch that is being taken is there. */
  ghost predicate NextThere(m: Memory, b: nat) {
    && b < |m.ledger.batches|
    && var batch := m.ledger.batches[b];
       && !batch.sent && batch.taken < |batch.ids|
       && var id := batch.ids[batch.taken];
          id in m.heap && m.heap[id].prepared && m.heap[id].charged
  }

  lemma TakeLedger(m: Memory, b: nat)
    requires SavesOk(m) && LedgerOk(m.ledger) && NextThere(m, b)
    ensures LedgerOk(TakeOne(m, b).ledger)
  {
    var l, l' := m.ledger, TakeOne(m, b).ledger;
    var batch := l.batches[b];
    var id := batch.ids[batch.taken];
    assert SaveOk(m, id);
    assert TakenIds(l'.batches[b]) == TakenIds(batch) + [id];
    forall c | 0 <= c < |l'.batches| ensures BatchOk(l', c) {
      assert BatchOk(l, c);
    }
  }

  lemma TakeSaves(m: Memory, b: nat)
    requires SavesOk(m) && NextThere(m, b)
    ensures SavesOk(TakeOne(m, b))
  {
  }

  lemma TakeKeeps(m: Memory, b: nat)
    requires MemoryOk(m) && NextThere(m, b)
    ensures MemoryOk(TakeOne(m, b))
  {
    hide SavesOk, LedgerOk;
    TakeLedger(m, b);
    TakeSaves(m, b);
    UsageSame(m, TakeOne(m, b));
  }

  lemma TakeSteady(m: Memory, b: nat)
    requires SavesOk(m) && NextThere(m, b)
    ensures Steady(m, TakeOne(m, b))
  {
    assert SaveOk(m, m.ledger.batches[b].ids[m.ledger.batches[b].taken]);
  }

  lemma TakeAside(m: Memory, b: nat, pc: Pc)
    requires SavesOk(m) && NextThere(m, b) && ThreadOk(m, pc) && TaskOf(pc) != Serving(b)
    requires m.ledger.batches[b].ids[m.ledger.batches[b].taken] !in PayloadsOf(m.ledger, pc)
    ensures ThreadOk(TakeOne(m, b), pc)
  {
    hide ThreadOk, SavesOk, Steady;
    TakeSteady(m, b);
    SteadyAside(m, TakeOne(m, b), pc);
  }

  lemma MarkLedger(m: Memory, b: nat, sent: bool, verdict: Option<Receipt>)
    requires LedgerOk(m.ledger) && b < |m.ledger.batches|
    requires sent ==> m.ledger.batches[b].taken == |m.ledger.batches[b].ids|
    requires verdict.Some? ==> (sent <==> verdict.value.Done? || verdict.value.Failed?)
    ensures LedgerOk(Mark(m, b, sent, verdict).ledger)
  {
    var l' := Mark(m, b, sent, verdict).ledger;
    forall c | 0 <= c < |l'.batches| ensures BatchOk(l', c) {
      assert BatchOk(m.ledger, c);
    }
  }

  lemma MarkKeeps(m: Memory, b: nat, sent: bool, verdict: Option<Receipt>)
    requires MemoryOk(m) && b < |m.ledger.batches| && m.ledger.batches[b].verdict.None?
    requires sent ==> m.ledger.batches[b].taken == |m.ledger.batches[b].ids|
    requires verdict.Some? ==> (sent <==> verdict.value.Done? || verdict.value.Failed?)
    ensures MemoryOk(Mark(m, b, sent, verdict))
  {
    hide LedgerOk;
    UsageSame(m, Mark(m, b, sent, verdict));
    MarkLedger(m, b, sent, verdict);
  }

  lemma MarkAside(m: Memory, b: nat, sent: bool, verdict: Option<Receipt>, pc: Pc)
    requires ThreadOk(m, pc) && b < |m.ledger.batches| && TaskOf(pc) != Serving(b)
    ensures ThreadOk(Mark(m, b, sent, verdict), pc)
  {
    hide ThreadOk;
    SteadyAside(m, Mark(m, b, sent, verdict), pc);
  }
}
