/** Every run of the save lifecycle keeps the invariant; what that says to callers. */
module SaveRuns {
  import opened Wrappers
  import opened SaveLifecycle
  import opened SaveSafety
  import opened SaveEffects
  import BatchMerge

  predicate Debtless(pc: Pc) {
    !pc.Canceling? && !HasBatch(pc) && !pc.RetireTaken?
  }

  lemma MoveKeeps(s: State, s': State, t: Tid, after: Pc)
    requires Inv(s) && Step(s, s', t, after, s.mem) && ThreadOk(s.mem, after)
    requires TaskOf(after) == NoTask || TaskOf(after) == TaskOf(At(s, t))
    requires Debtless(At(s, t))
    ensures Inv(s')
  {
    hide SavesOk, LedgerOk, UsageOk, LocalHeld, SavesHeld;
    assert DebtsKept(s.mem, s.mem, At(s, t), after);
    Advance(s, s', t, after, s.mem);
  }

  // ---------- prepare_save ----------

  lemma RegisterKeeps(s: State, s': State, slot: Slot, worker: Worker)
    requires Inv(s) && DoRegister(s, s', slot, worker)
    ensures Inv(s')
  {
    hide SavesOk, LedgerOk, UsageOk, LocalHeld, SavesHeld;
    EnrolKeeps(s.mem, slot, worker);
    forall t | t in s.threads ensures ThreadOk(s'.mem, s.threads[t]) {
      EnrolAside(s.mem, slot, worker, s.threads[t]);
    }
    forall id | Unpaid(s'.mem, id) ensures Owed(s'.mem, s'.threads, id) {
      assert Unpaid(s.mem, id);
    }
  }

  lemma LookKeeps(s: State, s': State, t: Tid, slot: Slot, request: BatchMerge.Request, bytes: nat)
    requires Inv(s) && DoLook(s, s', t, slot, request, bytes)
    ensures Inv(s')
  {
    hide MemoryOk, LocalHeld, SavesHeld, Exclusive;
    MoveKeeps(s, s', t, Looked(slot, s.mem.local[slot], request, bytes));
  }

  lemma CreateAsides(s: State, id: SaveId, save: Save, u: Tid)
    requires Inv(s) && u in s.threads && id.op == NextOp(s.mem, id.client)
    requires save.slot.client == id.client && save.prepared && save.result.None? && !save.charged
    ensures ThreadOk(Create(s.mem, id, save), s.threads[u]) && TaskOf(s.threads[u]) != Building(id)
  {
    CreateAside(s.mem, id, save, s.threads[u]);
    assert RefsOk(s.mem, s.threads[u]) && id !in s.mem.heap;
    assert Preparing(s.threads[u]) ==> s.threads[u].id in Refs(s.mem.ledger, s.threads[u]);
  }

  lemma CreateDebts(m: Memory, id: SaveId, save: Save, before: Pc)
    requires before.Looked? && save.prepared && !save.charged
    ensures DebtsKept(m, Create(m, id, save), before, Built(id)) && ThreadOk(Create(m, id, save), Built(id))
  {
  }

  lemma BuildKeeps(s: State, s': State, t: Tid)
    requires Inv(s) && DoBuild(s, s', t)
    ensures Inv(s')
  {
    hide SavesOk, LedgerOk, UsageOk, LocalHeld, SavesHeld, Exclusive;
    var Looked(slot, worker, request, bytes) := At(s, t);
    var id := SaveId(slot.client, NextOp(s.mem, slot.client));
    if id.op >= MAX_OPERATION {
      MoveKeeps(s, s', t, Idle);
    } else {
      var save := Save(slot, worker, request, bytes, true, None, false);
      CreateKeeps(s.mem, id, save);
      CreateDebts(s.mem, id, save, At(s, t));
      forall u | u in s.threads ensures ThreadOk(s'.mem, s.threads[u]) && TaskOf(s.threads[u]) != Building(id) {
        CreateAsides(s, id, save, u);
      }
      Advance(s, s', t, Built(id), s'.mem);
    }
  }

  lemma AdmitLockKeeps(s: State, s': State, t: Tid)
    requires Inv(s) && DoAdmitLock(s, s', t)
    ensures Inv(s')
  {
    hide MemoryOk, LocalHeld, SavesHeld, Exclusive;
    assert ThreadOk(s.mem, s.threads[t]);
    MoveKeeps(s, s', t, s'.threads[t]);
  }

  lemma AdmitPruneKeeps(s: State, s': State, t: Tid)
    requires Inv(s) && DoAdmitPrune(s, s', t)
    ensures Inv(s')
  {
    hide SavesOk, LedgerOk, UsageOk, LocalHeld, SavesHeld;
    var id := s.threads[t].id;
    PruneKeeps(s.mem, id.client);
    forall u | u in s.threads ensures ThreadOk(s'.mem, s.threads[u]) {
      PruneAside(s.mem, id.client, s.threads[u]);
    }
    Advance(s, s', t, Charging(id), s'.mem);
  }

  /* A mutex has one holder. */
  lemma OneLocalHolder(s: State, t: Tid, u: Tid)
    requires Inv(s) && t in s.threads && u in s.threads && LocalOf(s.threads[t]).Some?
    requires LocalOf(s.threads[u]) == LocalOf(s.threads[t])
    ensures t == u
  {
  }

  lemma ChargeDebts(m: Memory, id: SaveId)
    requires id in m.heap
    ensures DebtsKept(m, Charge(m, id), Charging(id), Idle)
  {
  }

  lemma ChargeTurn(s: State, s': State, t: Tid, id: SaveId)
    requires Inv(s) && At(s, t) == Charging(id) && id in s.mem.heap && Step(s, s', t, Idle, Charge(s.mem, id))
    requires MemoryOk(s'.mem) && forall u :: u in s.threads && u != t ==> ThreadOk(s'.mem, s.threads[u])
    ensures Inv(s')
  {
    hide SavesOk, LedgerOk, UsageOk, LocalHeld, SavesHeld;
    ChargeDebts(s.mem, id);
    Advance(s, s', t, Idle, s'.mem);
  }

  lemma ChargeAsides(s: State, t: Tid, id: SaveId, u: Tid)
    requires Inv(s) && t in s.threads && s.threads[t] == Charging(id) && id in s.mem.heap
    requires !s.mem.heap[id].charged && u in s.threads && u != t
    ensures ThreadOk(Charge(s.mem, id), s.threads[u])
  {
    assert TaskOf(s.threads[t]) == Building(id);
    ChargeAside(s.mem, id, s.threads[u]);
  }

  lemma ChargingOk(s: State, t: Tid)
    requires Inv(s) && At(s, t).Charging?
    ensures s.threads[t].id in s.mem.heap && !s.mem.heap[s.threads[t].id].charged && WorkerOk(s.mem, s.threads[t].id)
  {
    assert s.threads[t].id in Refs(s.mem.ledger, s.threads[t]);
    assert ThreadOk(s.mem, s.threads[t]);
  }

  lemma AdmitChargeKeeps(s: State, s': State, t: Tid)
    requires Inv(s) && DoAdmitCharge(s, s', t)
    ensures Inv(s')
  {
    hide SavesOk, LedgerOk, UsageOk, LocalHeld, SavesHeld, Exclusive;
    var id := s.threads[t].id;
    if s.mem.count >= MAX_PENDING_SAVES || s.mem.bytes + s.mem.heap[id].bytes > MAX_PENDING_SAVE_BYTES {
      MoveKeeps(s, s', t, Idle);
    } else {
      ChargingOk(s, t);
      ChargeKeeps(s.mem, id);
      forall u | u in s.threads && u != t ensures ThreadOk(s'.mem, s.threads[u]) {
        ChargeAsides(s, t, id, u);
      }
      ChargeTurn(s, s', t, id);
    }
  }

  // ---------- cancel_save ----------

  lemma ClaimDebts(m: Memory, id: SaveId, f: Fate, before: Pc, after: Pc)
    requires (forall k :: !Owes(m.ledger, before, k)) && Owes(Claim(m, id, f).ledger, after, id)
    ensures DebtsKept(m, Claim(m, id, f), before, after)
  {
  }

  lemma ClaimStep(s: State, s': State, t: Tid, id: SaveId, f: Fate, after: Pc)
    requires Inv(s) && id in s.mem.heap && s.mem.heap[id].prepared && s.mem.heap[id].charged && !f.ByBatch?
    requires Step(s, s', t, after, Claim(s.mem, id, f)) && ThreadOk(s'.mem, after) && TaskOf(after) == NoTask
    requires DebtsKept(s.mem, s'.mem, At(s, t), after) && PayloadFree(s, t, id)
    ensures Inv(s')
  {
    hide SavesOk, LedgerOk, UsageOk, LocalHeld, SavesHeld;
    ClaimKeeps(s.mem, id, f);
    forall u | u in s.threads && u != t ensures ThreadOk(s'.mem, s.threads[u]) {
      ClaimAside(s.mem, id, f, s.threads[u]);
    }
    Advance(s, s', t, after, s'.mem);
  }

  lemma CancelingOk(m: Memory, id: SaveId)
    requires id in m.heap && m.heap[id].charged
    ensures ThreadOk(Claim(m, id, ByCancel), Canceling(id))
  {
  }

  lemma CancelKeeps(s: State, s': State, t: Tid, id: SaveId)
    requires Inv(s) && DoCancel(s, s', t, id)
    ensures Inv(s')
  {
    if s.mem.heap[id].prepared {
      CancelingOk(s.mem, id);
      ClaimDebts(s.mem, id, ByCancel, At(s, t), Canceling(id));
      ClaimStep(s, s', t, id, ByCancel, Canceling(id));
    }
  }

  lemma PayStep(s: State, s': State, t: Tid, after: Pc, id: SaveId, r: Receipt)
    requires Inv(s) && id in s.mem.heap && id in s.mem.ledger.fate
    requires Verdict(s.mem.ledger, s.mem.ledger.fate[id]) == Some(r)
    requires Step(s, s', t, after, Pay(s.mem, id, r)) && ThreadOk(s'.mem, after)
    requires TaskOf(after) == NoTask || TaskOf(after) == TaskOf(At(s, t))
    requires DebtsKept(s.mem, s'.mem, At(s, t), after)
    ensures Inv(s')
  {
    hide SavesOk, LedgerOk, UsageOk, LocalHeld, SavesHeld;
    PayKeeps(s.mem, id, r);
    forall u | u in s.threads ensures ThreadOk(s'.mem, s.threads[u]) {
      PayAside(s.mem, id, r, s.threads[u]);
    }
    Advance(s, s', t, after, s'.mem);
  }

  lemma CancelDoneKeeps(s: State, s': State, t: Tid)
    requires Inv(s) && DoCancelDone(s, s', t)
    ensures Inv(s')
  {
    hide MemoryOk, LocalHeld, SavesHeld, Exclusive;
    assert ThreadOk(s.mem, s.threads[t]);
    PayStep(s, s', t, Idle, s.threads[t].id, Canceled);
  }

  // ---------- submit_saves ----------

  lemma SubmitKeeps(s: State, s': State, t: Tid, ids: seq<SaveId>)
    requires Inv(s) && DoSubmit(s, s', t, ids)
    ensures Inv(s')
  {
    hide LedgerOk, UsageOk, LocalHeld, SavesHeld, Exclusive;
    forall id | id in ids ensures id in s.mem.heap && s.mem.heap[id].charged {
      assert id in s.mem.handles;
    }
    MoveKeeps(s, s', t, s'.threads[t]);
  }

  lemma LockNextKeeps(s: State, s': State, t: Tid)
    requires Inv(s) && DoLockNext(s, s', t)
    ensures Inv(s')
  {
    hide MemoryOk, LocalHeld, SavesHeld, Exclusive;
    assert ThreadOk(s.mem, s.threads[t]);
    MoveKeeps(s, s', t, s'.threads[t]);
  }

  lemma OpeningOk(m: Memory, batch: Batch, c: Client, n: nat)
    requires ThreadOk(m, Locking(c, batch.ids, n)) && batch == Batch(batch.ids, batch.request, false, batch.verdict, 0)
    requires forall i :: 0 <= i < |batch.ids| ==> batch.ids[i] in m.heap && m.heap[batch.ids[i]].prepared
    ensures var m' := Open(m, batch.ids, batch.request, batch.verdict);
            var after := Taking(c, |m.ledger.batches|);
            ThreadOk(m', after) && DebtsKept(m, m', Locking(c, batch.ids, n), after)
  {
    var m' := Open(m, batch.ids, batch.request, batch.verdict);
    assert BatchIds(m'.ledger, |m.ledger.batches|) == Ids(batch.ids);
  }

  lemma OpenAsides(s: State, batch: Batch, u: Tid)
    requires Inv(s) && u in s.threads && batch == Batch(batch.ids, batch.request, false, batch.verdict, 0)
    ensures ThreadOk(Open(s.mem, batch.ids, batch.request, batch.verdict), s.threads[u])
    ensures TaskOf(s.threads[u]) != Serving(|s.mem.ledger.batches|)
  {
    assert ThreadOk(s.mem, s.threads[u]);
    OpenAside(s.mem, batch, s.threads[u]);
  }

  lemma OpenStep(s: State, s': State, t: Tid, batch: Batch, c: Client, n: nat)
    requires Inv(s) && At(s, t) == Locking(c, batch.ids, n)
    requires batch == Batch(batch.ids, batch.request, false, batch.verdict, 0)
    requires batch.verdict == None || batch.verdict == Some(Mismatched)
    requires forall i :: 0 <= i < |batch.ids| ==> batch.ids[i] in s.mem.heap && s.mem.heap[batch.ids[i]].prepared
    requires Step(s, s', t, Taking(c, |s.mem.ledger.batches|), Open(s.mem, batch.ids, batch.request, batch.verdict))
    ensures Inv(s')
  {
    hide SavesOk, LedgerOk, UsageOk, LocalHeld, SavesHeld, Exclusive;
    assert ThreadOk(s.mem, s.threads[t]);
    OpenKeeps(s.mem, batch);
    OpeningOk(s.mem, batch, c, n);
    forall u | u in s.threads
      ensures ThreadOk(s'.mem, s.threads[u]) && TaskOf(s.threads[u]) != Serving(|s.mem.ledger.batches|)
    {
      OpenAsides(s, batch, u);
    }
    Advance(s, s', t, Taking(c, |s.mem.ledger.batches|), s'.mem);
  }

  lemma DecideKeeps(s: State, s': State, t: Tid)
    requires Inv(s) && DoDecide(s, s', t)
    ensures Inv(s')
  {
    hide Inv, Step;
    var Locking(c, ids, n) := s.threads[t];
    if exists i :: 0 <= i < |ids| && !s.mem.heap[ids[i]].prepared {
      RefusedKeeps(s, s', t);
    } else {
      var request := BatchMerge.MergedRequest(Requests(s.mem.heap, ids));
      var verdict := if SameTarget(s.mem.heap, ids) then None else Some(Mismatched);
      OpenStep(s, s', t, Batch(ids, request, false, verdict, 0), c, n);
    }
  }

  lemma RefusedKeeps(s: State, s': State, t: Tid)
    requires Inv(s) && At(s, t).Locking? && Step(s, s', t, Idle, s.mem)
    ensures Inv(s')
  {
    hide MemoryOk, LocalHeld, SavesHeld, Exclusive;
    MoveKeeps(s, s', t, Idle);
  }

  lemma OneSavesHolder(s: State, t: Tid, u: Tid)
    requires Inv(s) && t in s.threads && u in s.threads && SavesOf(s.threads[t]).Some?
    requires SavesOf(s.threads[u]) == SavesOf(s.threads[t])
    ensures t == u
  {
  }

  lemma PayloadClient(m: Memory, pc: Pc, id: SaveId)
    requires ThreadOk(m, pc) && id in PayloadsOf(m.ledger, pc)
    ensures SavesOf(pc) == Some(id.client)
  {
  }

  /* Two submitting threads are of two clients, so neither holds a mutex of the other's saves. */
  lemma PayloadsApart(s: State, t: Tid, u: Tid, id: SaveId)
    requires Inv(s) && t in s.threads && u in s.threads && t != u && SavesOf(s.threads[t]) == Some(id.client)
    ensures id !in PayloadsOf(s.mem.ledger, s.threads[u])
  {
    assert ThreadOk(s.mem, s.threads[u]);
    hide Inv, ThreadOk, PayloadsOf;
    if id in PayloadsOf(s.mem.ledger, s.threads[u]) {
      PayloadClient(s.mem, s.threads[u], id);
      OneSavesHolder(s, t, u);
    }
  }

  lemma NextIsThere(m: Memory, c: Client, b: nat)
    requires ThreadOk(m, Taking(c, b)) && b < |m.ledger.batches|
    requires m.ledger.batches[b].taken < |m.ledger.batches[b].ids|
    ensures NextThere(m, b) && m.ledger.batches[b].ids[m.ledger.batches[b].taken].client == c
  {
    assert m.ledger.batches[b].ids[m.ledger.batches[b].taken] in Refs(m.ledger, Taking(c, b));
  }

  lemma TakerOk(m: Memory, c: Client, b: nat)
    requires LedgerOk(m.ledger) && ThreadOk(m, Taking(c, b)) && NextThere(m, b)
    ensures ThreadOk(TakeOne(m, b), Taking(c, b)) && DebtsKept(m, TakeOne(m, b), Taking(c, b), Taking(c, b))
  {
    var m' := TakeOne(m, b);
    var batch := m.ledger.batches[b];
    assert BatchOk(m.ledger, b);
    assert BatchIds(m'.ledger, b) == BatchIds(m.ledger, b);
    assert TakenIds(m'.ledger.batches[b]) == TakenIds(batch) + [batch.ids[batch.taken]];
  }

  lemma TakeOneKeeps(s: State, s': State, t: Tid, c: Client, b: nat)
    requires Inv(s) && At(s, t) == Taking(c, b) && NextThere(s.mem, b) && Step(s, s', t, Taking(c, b), TakeOne(s.mem, b))
    ensures Inv(s')
  {
    hide SavesOk, LedgerOk, UsageOk, LocalHeld, SavesHeld, PayloadsOf;
    assert ThreadOk(s.mem, s.threads[t]);
    hide ThreadOk;
    NextIsThere(s.mem, c, b);
    TakeKeeps(s.mem, b);
    TakerOk(s.mem, c, b);
    var id := s.mem.ledger.batches[b].ids[s.mem.ledger.batches[b].taken];
    forall u | u in s.threads && u != t ensures ThreadOk(s'.mem, s.threads[u]) {
      PayloadsApart(s, t, u, id);
      TakeAside(s.mem, b, s.threads[u]);
    }
    Advance(s, s', t, Taking(c, b), s'.mem);
  }

  lemma AllTaken(m: Memory, c: Client, b: nat, after: Pc)
    requires ThreadOk(m, Taking(c, b)) && m.ledger.batches[b].taken >= |m.ledger.batches[b].ids|
    requires after == if m.ledger.batches[b].verdict.None? then Claimed(c, b) else Failing(c, b, 0)
    ensures ThreadOk(m, after) && DebtsKept(m, m, Taking(c, b), after)
  {
    assert TakenIds(m.ledger.batches[b]) == m.ledger.batches[b].ids;
  }

  lemma AllTakenKeeps(s: State, s': State, t: Tid, c: Client, b: nat, after: Pc)
    requires Inv(s) && At(s, t) == Taking(c, b) && b < |s.mem.ledger.batches|
    requires s.mem.ledger.batches[b].taken >= |s.mem.ledger.batches[b].ids|
    requires after == if s.mem.ledger.batches[b].verdict.None? then Claimed(c, b) else Failing(c, b, 0)
    requires Step(s, s', t, after, s.mem)
    ensures Inv(s')
  {
    hide SavesOk, LedgerOk, UsageOk, LocalHeld, SavesHeld, ThreadOk;
    AllTaken(s.mem, c, b, after);
    Advance(s, s', t, after, s.mem);
  }

  /* The payload to take is always there, because its mutex has been held since it was seen. */
  lemma TakeNextKeeps(s: State, s': State, t: Tid)
    requires Inv(s) && DoTakeNext(s, s', t)
    ensures Inv(s')
  {
    hide MemoryOk, LocalHeld, SavesHeld, Exclusive, ThreadOk, Step;
    var Taking(c, b) := s.threads[t];
    var batch := s.mem.ledger.batches[b];
    if batch.taken < |batch.ids| {
      NextIsThere(s.mem, c, b);
      TakeOneKeeps(s, s', t, c, b);
    } else {
      AllTakenKeeps(s, s', t, c, b, if batch.verdict.None? then Claimed(c, b) else Failing(c, b, 0));
    }
  }

  lemma MarkedOk(m: Memory, b: nat, sent: bool, verdict: Option<Receipt>, before: Pc, after: Pc)
    requires HasBatch(before) && HasBatch(after) && before.batch == after.batch == b < |m.ledger.batches|
    requires RefsOk(m, before) && !before.Taking? && !after.Taking?
    ensures RefsOk(Mark(m, b, sent, verdict), after) && DebtsKept(m, Mark(m, b, sent, verdict), before, after)
  {
    assert BatchIds(Mark(m, b, sent, verdict).ledger, b) == BatchIds(m.ledger, b);
    assert Refs(m.ledger, before) == BatchIds(m.ledger, b);
  }

  lemma MarkStep(s: State, s': State, t: Tid, after: Pc, sent: bool, verdict: Option<Receipt>)
    requires Inv(s) && HasBatch(At(s, t)) && HasBatch(after) && after.batch == At(s, t).batch
    requires after.batch < |s.mem.ledger.batches| && s.mem.ledger.batches[after.batch].verdict.None?
    requires s.mem.ledger.batches[after.batch].taken == |s.mem.ledger.batches[after.batch].ids|
    requires !At(s, t).Taking? && !after.Taking?
    requires verdict.Some? ==> (sent <==> verdict.value.Done? || verdict.value.Failed?)
    requires Step(s, s', t, after, Mark(s.mem, after.batch, sent, verdict)) && PlaceOk(s'.mem, after)
    ensures Inv(s')
  {
    hide SavesOk, LedgerOk, UsageOk, LocalHeld, SavesHeld;
    var b := after.batch;
    MarkKeeps(s.mem, b, sent, verdict);
    MarkedOk(s.mem, b, sent, verdict, s.threads[t], after);
    forall u | u in s.threads && u != t ensures ThreadOk(s'.mem, s.threads[u]) {
      MarkAside(s.mem, b, sent, verdict, s.threads[u]);
    }
    Advance(s, s', t, after, s'.mem);
  }

  lemma SpawnFailsKeeps(s: State, s': State, t: Tid)
    requires Inv(s) && DoSpawnFails(s, s', t)
    ensures Inv(s')
  {
    hide SavesOk, UsageOk, LocalHeld, SavesHeld, Exclusive;
    assert ThreadOk(s.mem, s.threads[t]);
    MarkStep(s, s', t, s'.threads[t], false, Some(NotSpawned));
  }

  lemma PublishReturnsKeeps(s: State, s': State, t: Tid, outcome: Receipt)
    requires Inv(s) && DoPublishReturns(s, s', t, outcome)
    ensures Inv(s')
  {
    hide SavesOk, UsageOk, LocalHeld, SavesHeld, Exclusive;
    assert ThreadOk(s.mem, s.threads[t]);
    MarkStep(s, s', t, s'.threads[t], true, Some(outcome));
  }

  // ---------- unregister_context and close ----------

  lemma SnapshotOk(m: Memory, scope: Scope, list: seq<SaveId>)
    requires SavesOk(m)
    requires forall id :: id in list <==> id in m.saves && id in m.heap && Matches(scope, m.heap[id].slot)
    ensures ThreadOk(m, RetireAt(scope, list, 0))
  {
    assert list[0..] == list;
  }

  lemma TakenOk(m: Memory, scope: Scope, list: seq<SaveId>, next: nat)
    requires next < |list| && ThreadOk(m, RetireAt(scope, list, next))
    ensures list[next] in m.heap && m.heap[list[next]].charged
    ensures ThreadOk(m, RetireWaiting(scope, list, next))
    ensures ThreadOk(Claim(m, list[next], ByRetire), RetireTaken(scope, list, next))
  {
    assert list[next] in Refs(m.ledger, RetireAt(scope, list, next));
  }

  lemma RetireTakeKeeps(s: State, s': State, t: Tid)
    requires Inv(s) && DoRetireTake(s, s', t)
    ensures Inv(s')
  {
    hide MemoryOk, LocalHeld, SavesHeld, Exclusive;
    var RetireAt(scope, list, next) := s.threads[t];
    TakenOk(s.mem, scope, list, next);
    if s.mem.heap[list[next]].prepared {
      ClaimDebts(s.mem, list[next], ByRetire, s.threads[t], RetireTaken(scope, list, next));
      ClaimStep(s, s', t, list[next], ByRetire, RetireTaken(scope, list, next));
    } else {
      MoveKeeps(s, s', t, RetireWaiting(scope, list, next));
    }
  }

  lemma RetiredOk(m: Memory, scope: Scope, list: seq<SaveId>, next: nat)
    requires next < |list| && list[next] in m.heap && ThreadOk(m, RetireTaken(scope, list, next))
    ensures ThreadOk(Pay(m, list[next], Retired), RetireWaiting(scope, list, next))
    ensures DebtsKept(m, Pay(m, list[next], Retired), RetireTaken(scope, list, next), RetireWaiting(scope, list, next))
  {
    PayAside(m, list[next], Retired, RetireTaken(scope, list, next));
  }

  lemma RetireCompleteKeeps(s: State, s': State, t: Tid)
    requires Inv(s) && DoRetireComplete(s, s', t)
    ensures Inv(s')
  {
    hide MemoryOk, LocalHeld, SavesHeld, Exclusive;
    var RetireTaken(scope, list, next) := s.threads[t];
    RetiredOk(s.mem, scope, list, next);
    PayStep(s, s', t, RetireWaiting(scope, list, next), list[next], Retired);
  }

  lemma WaitedOk(m: Memory, scope: Scope, list: seq<SaveId>, next: nat)
    requires next < |list| && ThreadOk(m, RetireWaiting(scope, list, next)) && !Pending(m, list[next])
    ensures ThreadOk(m, RetireAt(scope, list, next + 1))
  {
    forall id | Pending(m, id) && Matches(scope, m.heap[id].slot) ensures id in list[next + 1..] {
      assert id in list[next..] && id != list[next];
    }
  }

  lemma DrainedOk(m: Memory, scope: Scope, list: seq<SaveId>, next: nat)
    requires next >= |list| && ThreadOk(m, RetireAt(scope, list, next))
    ensures ThreadOk(m, RetireDrained(scope)) && ThreadOk(m, RetireCalled(scope))
  {
  }

  lemma RetiredQuiet(m: Memory, pc: Pc)
    requires (pc.RetireDrained? || pc.RetireCalled?) && ThreadOk(m, pc)
    ensures Quiet(m, pc.scope)
  {
  }

  lemma EvictRest(m: Memory, scope: Scope)
    ensures var m' := Evict(m, scope); m'.heap == m.heap && m'.ledger == m.ledger
  {
  }

  lemma RetireRemoveKeeps(s: State, s': State, t: Tid)
    requires Inv(s) && DoRetireRemove(s, s', t)
    ensures Inv(s')
  {
    hide SavesOk, LedgerOk, UsageOk, SavesHeld, LocalHeld, Exclusive, ThreadOk, Quiet, Evict;
    var scope := s.threads[t].scope;
    RetiredQuiet(s.mem, s.threads[t]);
    EvictKeeps(s.mem, scope);
    forall u | u in s.threads && u != t ensures ThreadOk(s'.mem, s.threads[u]) {
      if LocalOf(s.threads[u]) == Some(scope.client) { OneLocalHolder(s, t, u); }
      EvictAside(s.mem, scope, s.threads[u]);
    }
    IdleOk(s'.mem, Idle);
    EvictRest(s.mem, scope);
    Advance(s, s', t, Idle, s'.mem);
  }

  // ---------- Drops ----------

  lemma HandleAside(m: Memory, m': Memory, pc: Pc)
    requires ThreadOk(m, pc) && m' == m.(handles := m'.handles)
    ensures ThreadOk(m', pc)
  {
    hide ThreadOk;
    SteadyAside(m, m', pc);
  }

  lemma DropHandleKeeps(s: State, s': State, id: SaveId)
    requires Inv(s) && DoDropHandle(s, s', id)
    ensures Inv(s')
  {
    hide ThreadOk, LocalHeld, SavesHeld, LedgerOk, Exclusive;
    UsageSame(s.mem, s'.mem);
    forall t | t in s.threads ensures ThreadOk(s'.mem, s.threads[t]) {
      HandleAside(s.mem, s'.mem, s.threads[t]);
    }
    forall k | Unpaid(s'.mem, k) ensures Owed(s'.mem, s'.threads, k) {
      assert Unpaid(s.mem, k);
    }
  }

  lemma DropSaveKeeps(s: State, s': State, id: SaveId)
    requires Inv(s) && DoDropSave(s, s', id)
    ensures Inv(s')
  {
    hide SavesOk, LedgerOk, UsageOk, LocalHeld, SavesHeld;
    FreeKeeps(s.mem, id);
    forall t | t in s.threads ensures ThreadOk(s'.mem, s.threads[t]) {
      FreeAside(s.mem, id, s.threads[t]);
    }
    forall k | Unpaid(s'.mem, k) ensures Owed(s'.mem, s'.threads, k) {
      assert Unpaid(s.mem, k);
    }
  }

  // ---------- Receipts of a batch ----------

  function Onward(pc: Pc): Pc
    requires pc.Failing? || pc.Completing?
  {
    match pc
    case Failing(c, b, next) => Failing(c, b, next + 1)
    case Completing(b, next) => Completing(b, next + 1)
  }

  lemma WriteOk(m: Memory, m': Memory, b: nat, next: nat, before: Pc, after: Pc)
    requires LedgerOk(m.ledger) && WriteNext(m, m', b, next) && ThreadOk(m, before)
    requires before.Failing? || before.Completing?
    requires before.batch == b && before.next == next && after == Onward(before)
    ensures ThreadOk(m', after) && DebtsKept(m, m', before, after)
    ensures var id := m.ledger.batches[b].ids[next];
            id in m.ledger.fate && Verdict(m.ledger, m.ledger.fate[id]) == m.ledger.batches[b].verdict
  {
    var id := m.ledger.batches[b].ids[next];
    assert BatchOk(m.ledger, b) && id in m.ledger.batches[b].ids;
    PayAside(m, id, m.ledger.batches[b].verdict.value, before);
    assert Refs(m'.ledger, after) == Refs(m.ledger, before);
  }

  lemma WriteKeeps(s: State, s': State, t: Tid, b: nat, next: nat, after: Pc)
    requires Inv(s) && (At(s, t).Failing? || At(s, t).Completing?)
    requires At(s, t).batch == b && At(s, t).next == next && after == Onward(At(s, t))
    requires WriteNext(s.mem, s'.mem, b, next) && Step(s, s', t, after, s'.mem)
    ensures Inv(s')
  {
    hide SavesOk, UsageOk, LocalHeld, SavesHeld, Exclusive;
    var batch := s.mem.ledger.batches[b];
    WriteOk(s.mem, s'.mem, b, next, s.threads[t], after);
    PayStep(s, s', t, after, batch.ids[next], batch.verdict.value);
  }

  /* A batch whose every save has its receipt leaves nothing owed. */
  lemma WrittenDebts(m: Memory, pc: Pc)
    requires pc.Failing? || pc.Completing?
    requires ThreadOk(m, pc) && pc.next >= |m.ledger.batches[pc.batch].ids|
    ensures DebtsKept(m, m, pc, Idle)
  {
    forall id | Unpaid(m, id) ensures !Owes(m.ledger, pc, id) {
      assert Written(m, pc.batch, pc.next);
    }
  }

  lemma BatchDoneKeeps(s: State, s': State, t: Tid)
    requires Inv(s) && (At(s, t).Failing? || At(s, t).Completing?)
    requires At(s, t).batch < |s.mem.ledger.batches| && At(s, t).next >= |s.mem.ledger.batches[At(s, t).batch].ids|
    requires Step(s, s', t, Idle, s.mem)
    ensures Inv(s')
  {
    hide SavesOk, LedgerOk, UsageOk, LocalHeld, SavesHeld;
    WrittenDebts(s.mem, s.threads[t]);
    Advance(s, s', t, Idle, s.mem);
  }

  // ---------- Spawning the publish thread ----------

  /* The publish thread takes the batch over before the submitter lets go of it. */
  lemma SpawnKeeps(s: State, s': State, t: Tid, publisher: Tid)
    requires Inv(s) && DoSpawn(s, s', t, publisher)
    ensures Inv(s')
  {
    hide SavesOk, LedgerOk, UsageOk, LocalHeld, SavesHeld, Relock, Owed;
    var b := s.threads[t].batch;
    assert ThreadOk(s.mem, s.threads[t]);
    MarkKeeps(s.mem, b, true, None);
    MarkedOk(s.mem, b, true, None, s.threads[t], Publishing(b));
    forall u | u in s.threads && u != t ensures ThreadOk(s'.mem, s.threads[u]) {
      MarkAside(s.mem, b, true, None, s.threads[u]);
    }
    forall id | Unpaid(s'.mem, id) ensures Owed(s'.mem, s'.threads, id) {
      SpawnOwed(s, s', t, publisher, id);
    }
    SpawnLocks(s, s', t, publisher);
  }

  lemma SpawnLocks(s: State, s': State, t: Tid, publisher: Tid)
    requires LocalHeld(s.threads, s.localLock) && SavesHeld(s.threads, s.savesLock) && DoSpawn(s, s', t, publisher)
    ensures LocalHeld(s'.threads, s'.localLock) && SavesHeld(s'.threads, s'.savesLock)
  {
    hide LocalHeld, SavesHeld;
    var b := s.threads[t].batch;
    LocalStep(s.threads, s.localLock, s.localLock, publisher, At(s, publisher), Publishing(b));
    SavesStep(s.threads, s.savesLock, s.savesLock, publisher, At(s, publisher), Publishing(b));
    LocalStep(s.threads[publisher := Publishing(b)], s.localLock, s'.localLock, t, s.threads[t], Idle);
    SavesStep(s.threads[publisher := Publishing(b)], s.savesLock, s'.savesLock, t, s.threads[t], Idle);
  }

  lemma SpawnOwed(s: State, s': State, t: Tid, publisher: Tid, id: SaveId)
    requires DoSpawn(s, s', t, publisher) && Owed(s.mem, s.threads, id)
    ensures Owed(s'.mem, s'.threads, id)
  {
    var u :| u in s.threads && Owes(s.mem.ledger, s.threads[u], id);
    var u' := if u == t then publisher else u;
    assert Owes(s'.mem.ledger, s'.threads[u'], id);
  }

  // ---------- Every action ----------

  predicate Moving(a: Action) {
    a.RetireLock? || a.RetireSnapshot? || a.RetireWaited? || a.RetireDrain? || a.RetireCall?
  }

  /* The retiring thread's next place, with nothing changed in memory. */
  ghost predicate Goes(s: State, s': State, t: Tid) {
    && ThreadOk(s.mem, At(s', t)) && Step(s, s', t, At(s', t), s.mem)
    && Debtless(At(s, t)) && TaskOf(At(s', t)) == NoTask
  }

  lemma LockPlace(s: State, s': State, t: Tid, scope: Scope)
    requires DoRetireLock(s, s', t, scope)
    ensures Goes(s, s', t)
  {
    hide Relock, Ahead, Quiet, Matches;
  }

  lemma SnapshotPlace(s: State, s': State, t: Tid, list: seq<SaveId>)
    requires DoRetireSnapshot(s, s', t, list) && SavesOk(s.mem)
    ensures Goes(s, s', t)
  {
    hide Relock, Ahead, Quiet, Matches, SavesOk, ThreadOk;
    SnapshotOk(s.mem, At(s, t).scope, list);
  }

  lemma WaitedPlace(s: State, s': State, t: Tid)
    requires DoRetireWaited(s, s', t) && ThreadOk(s.mem, At(s, t))
    ensures Goes(s, s', t)
  {
    hide Relock, Ahead, Quiet, Matches, ThreadOk;
    WaitedOk(s.mem, At(s, t).scope, At(s, t).list, At(s, t).next);
  }

  lemma DrainPlace(s: State, s': State, t: Tid)
    requires DoRetireDrain(s, s', t) && ThreadOk(s.mem, At(s, t))
    ensures Goes(s, s', t)
  {
    hide Relock, Ahead, Quiet, Matches, ThreadOk;
    DrainedOk(s.mem, At(s, t).scope, At(s, t).list, At(s, t).next);
  }

  lemma CallPlace(s: State, s': State, t: Tid, ok: bool)
    requires DoRetireCall(s, s', t, ok) && ThreadOk(s.mem, At(s, t))
    ensures Goes(s, s', t)
  {
    hide Relock, Ahead, Quiet, Matches;
  }

  lemma RetirePlace(s: State, a: Action, s': State)
    requires Moving(a) && NextRetirement(s, a, s') && SavesOk(s.mem) && ThreadOk(s.mem, At(s, a.t))
    ensures Goes(s, s', a.t)
  {
    hide Goes, SavesOk, ThreadOk, DoRetireLock, DoRetireSnapshot, DoRetireWaited, DoRetireDrain, DoRetireCall, At;
    match a
    case RetireLock(t, scope) => LockPlace(s, s', t, scope);
    case RetireSnapshot(t, list) => SnapshotPlace(s, s', t, list);
    case RetireWaited(t) => WaitedPlace(s, s', t);
    case RetireDrain(t) => DrainPlace(s, s', t);
    case RetireCall(t, ok) => CallPlace(s, s', t, ok);
  }

  /* The steps of a retirement that only move its thread along. */
  lemma RetireMoves(s: State, a: Action, s': State)
    requires Inv(s) && Moving(a) && NextRetirement(s, a, s')
    ensures Inv(s')
  {
    IdleOk(s.mem, Idle);
    assert ThreadOk(s.mem, At(s, a.t));
    hide SavesOk, LedgerOk, UsageOk, LocalHeld, SavesHeld, Exclusive, ThreadOk, Step, NextRetirement;
    RetirePlace(s, a, s');
    MoveKeeps(s, s', a.t, At(s', a.t));
  }

  lemma IdleOk(m: Memory, pc: Pc)
    requires pc.Idle?
    ensures ThreadOk(m, pc)
  {
  }

  /* The next receipt of a batch, or the end of it. */
  lemma FailTurn(s: State, s': State, t: Tid)
    requires Inv(s) && DoFailNext(s, s', t)
    ensures Inv(s')
  {
    hide Inv, WriteNext, Step;
    var pc := At(s, t);
    if pc.next >= |s.mem.ledger.batches[pc.batch].ids| {
      BatchDoneKeeps(s, s', t);
    } else {
      WriteKeeps(s, s', t, pc.batch, pc.next, Onward(pc));
    }
  }

  lemma CompleteTurn(s: State, s': State, t: Tid)
    requires Inv(s) && DoCompleteNext(s, s', t)
    ensures Inv(s')
  {
    hide Inv, WriteNext, Step;
    var pc := At(s, t);
    if pc.next >= |s.mem.ledger.batches[pc.batch].ids| {
      BatchDoneKeeps(s, s', t);
    } else {
      WriteKeeps(s, s', t, pc.batch, pc.next, Onward(pc));
    }
  }

  lemma RetirementKeeps(s: State, a: Action, s': State)
    requires Inv(s) && OfRetirement(a) && NextRetirement(s, a, s')
    ensures Inv(s')
  {
    hide Inv, Step;
    match a
    case RetireLock(t, scope) => RetireMoves(s, a, s');
    case RetireSnapshot(t, list) => RetireMoves(s, a, s');
    case RetireTake(t) => RetireTakeKeeps(s, s', t);
    case RetireComplete(t) => RetireCompleteKeeps(s, s', t);
    case RetireWaited(t) => RetireMoves(s, a, s');
    case RetireDrain(t) => RetireMoves(s, a, s');
    case RetireCall(t, ok) => RetireMoves(s, a, s');
    case RetireRemove(t) => RetireRemoveKeeps(s, s', t);
  }

  predicate OfPreparation(a: Action) {
    || a.Register? || a.Look? || a.Build? || a.AdmitLock? || a.AdmitPrune? || a.AdmitCharge? || a.DropHandle?
    || a.DropSave?
  }

  lemma PreparationKeeps(s: State, a: Action, s': State)
    requires Inv(s) && OfPreparation(a) && NextSave(s, a, s')
    ensures Inv(s')
  {
    hide Inv, Step;
    match a
    case Register(slot, worker) => RegisterKeeps(s, s', slot, worker);
    case Look(t, slot, request, bytes) => LookKeeps(s, s', t, slot, request, bytes);
    case Build(t) => BuildKeeps(s, s', t);
    case AdmitLock(t) => AdmitLockKeeps(s, s', t);
    case AdmitPrune(t) => AdmitPruneKeeps(s, s', t);
    case AdmitCharge(t) => AdmitChargeKeeps(s, s', t);
    case DropHandle(id) => DropHandleKeeps(s, s', id);
    case DropSave(id) => DropSaveKeeps(s, s', id);
  }

  lemma SaveKeeps(s: State, a: Action, s': State)
    requires Inv(s) && !OfRetirement(a) && NextSave(s, a, s')
    ensures Inv(s')
  {
    hide Inv, Step, WriteNext, PayloadFree, SameTarget;
    if OfPreparation(a) {
      PreparationKeeps(s, a, s');
    } else {
      match a
      case Cancel(t, id) => CancelKeeps(s, s', t, id);
      case CancelDone(t) => CancelDoneKeeps(s, s', t);
      case Submit(t, ids) => SubmitKeeps(s, s', t, ids);
      case LockNext(t) => LockNextKeeps(s, s', t);
      case Decide(t) => DecideKeeps(s, s', t);
      case TakeNext(t) => TakeNextKeeps(s, s', t);
      case Spawn(t, publisher) => SpawnKeeps(s, s', t, publisher);
      case SpawnFails(t) => SpawnFailsKeeps(s, s', t);
      case FailNext(t) => FailTurn(s, s', t);
      case PublishReturns(t, outcome) => PublishReturnsKeeps(s, s', t, outcome);
      case CompleteNext(t) => CompleteTurn(s, s', t);
    }
  }

  lemma NextKeeps(s: State, a: Action, s': State)
    requires Inv(s) && Next(s, a, s')
    ensures Inv(s')
  {
    hide Inv, NextRetirement, NextSave;
    if OfRetirement(a) { RetirementKeeps(s, a, s'); } else { SaveKeeps(s, a, s'); }
  }
}
