/** What the save lifecycle promises over whole runs. */
module SaveTheorems {
  import opened Wrappers
  import opened SaveLifecycle
  import opened SaveSafety
  import opened SaveRuns
  import BatchMerge

  ghost predicate Run(states: seq<State>, actions: seq<Action>) {
    && |states| == |actions| + 1 && states[0] == START
    && forall i :: 0 <= i < |actions| ==> Next(states[i], actions[i], states[i + 1])
  }

  lemma {:induction false} RunKeeps(states: seq<State>, actions: seq<Action>, i: nat)
    requires Run(states, actions) && i < |states|
    ensures Inv(states[i])
  {
    hide Inv;
    if i == 0 {
      Starts();
    } else {
      RunKeeps(states, actions, i - 1);
      NextKeeps(states[i - 1], actions[i - 1], states[i]);
    }
  }

  // ---------- Nothing that has been decided changes ----------

  /* A save's target and payload are fixed; a claimed payload stays claimed; a receipt stays. */
  predicate SaveGrows(before: Save, after: Save) {
    && after.slot == before.slot && after.worker == before.worker
    && after.request == before.request && after.bytes == before.bytes
    && (!before.prepared ==> !after.prepared)
    && (before.result.Some? ==> after.result == before.result)
    && (before.charged ==> after.charged)
  }

  predicate BatchGrows(before: Batch, after: Batch) {
    && after.ids == before.ids && after.request == before.request && before.taken <= after.taken
    && (before.sent ==> after.sent)
    && (before.verdict.Some? ==> after.verdict == before.verdict && after.sent == before.sent)
  }

  ghost predicate LedgerGrows(l: Ledger, l': Ledger) {
    && (forall id :: id in l.fate ==> id in l'.fate && l'.fate[id] == l.fate[id])
    && |l.batches| <= |l'.batches|
    && (forall b :: 0 <= b < |l.batches| ==> BatchGrows(l.batches[b], l'.batches[b]))
  }

  ghost predicate HeapGrows(m: Memory, m': Memory) {
    && (forall c :: NextOp(m, c) <= NextOp(m', c))
    && (forall id :: id in m.heap && id in m'.heap ==> SaveGrows(m.heap[id], m'.heap[id]))
    && (forall id :: id in m'.heap && id !in m.heap ==> NextOp(m, id.client) <= id.op)
  }

  ghost predicate Grows(m: Memory, m': Memory) {
    LedgerGrows(m.ledger, m'.ledger) && HeapGrows(m, m')
  }

  lemma CreateGrows(m: Memory, id: SaveId, save: Save)
    requires SavesOk(m) && id.op == NextOp(m, id.client)
    ensures Grows(m, Create(m, id, save))
  {
  }

  lemma ChargeGrows(m: Memory, id: SaveId)
    requires id in m.heap
    ensures Grows(m, Charge(m, id))
  {
  }

  lemma ClaimGrows(m: Memory, id: SaveId, f: Fate)
    requires SavesOk(m) && id in m.heap && m.heap[id].prepared
    ensures Grows(m, Claim(m, id, f))
  {
  }

  lemma OpenGrows(m: Memory, ids: seq<SaveId>, request: BatchMerge.Request, verdict: Option<Receipt>)
    ensures Grows(m, Open(m, ids, request, verdict))
  {
  }

  lemma TakeGrows(m: Memory, b: nat)
    requires SavesOk(m) && b < |m.ledger.batches| && m.ledger.batches[b].taken < |m.ledger.batches[b].ids|
    requires var id := m.ledger.batches[b].ids[m.ledger.batches[b].taken]; id in m.heap && m.heap[id].prepared
    ensures Grows(m, TakeOne(m, b))
  {
    hide LedgerGrows, HeapGrows;
    TakeLedgerGrows(m, b);
    TakeHeapGrows(m, b);
  }

  lemma TakeLedgerGrows(m: Memory, b: nat)
    requires SavesOk(m) && b < |m.ledger.batches| && m.ledger.batches[b].taken < |m.ledger.batches[b].ids|
    requires var id := m.ledger.batches[b].ids[m.ledger.batches[b].taken]; id in m.heap && m.heap[id].prepared
    ensures LedgerGrows(m.ledger, TakeOne(m, b).ledger)
  {
    assert SaveOk(m, m.ledger.batches[b].ids[m.ledger.batches[b].taken]);
  }

  lemma TakeHeapGrows(m: Memory, b: nat)
    requires b < |m.ledger.batches| && m.ledger.batches[b].taken < |m.ledger.batches[b].ids|
    requires m.ledger.batches[b].ids[m.ledger.batches[b].taken] in m.heap
    ensures HeapGrows(m, TakeOne(m, b))
  {
  }

  lemma MarkGrows(m: Memory, b: nat, sent: bool, verdict: Option<Receipt>)
    requires b < |m.ledger.batches| && m.ledger.batches[b].verdict.None? && (m.ledger.batches[b].sent ==> sent)
    ensures Grows(m, Mark(m, b, sent, verdict))
  {
  }

  lemma PayGrows(m: Memory, id: SaveId, r: Receipt)
    requires id in m.heap
    ensures Grows(m, Pay(m, id, r))
  {
  }

  lemma FreeGrows(m: Memory, id: SaveId)
    requires id in m.heap
    ensures Grows(m, Free(m, id))
  {
  }

  /* A thread about to decide a batch finds it undecided. */
  lemma Undecided(s: State, t: Tid)
    requires Inv(s) && (At(s, t).Claimed? || At(s, t).Publishing?)
    ensures At(s, t).batch < |s.mem.ledger.batches|
    ensures s.mem.ledger.batches[At(s, t).batch].verdict.None?
    ensures s.mem.ledger.batches[At(s, t).batch].sent ==> At(s, t).Publishing?
  {
    assert ThreadOk(s.mem, s.threads[t]);
  }

  lemma DecidedGrows(s: State, a: Action, s': State)
    requires Inv(s) && Next(s, a, s') && (a.Spawn? || a.SpawnFails? || a.PublishReturns?)
    ensures Grows(s.mem, s'.mem)
  {
    hide Inv, Grows;
    Undecided(s, a.t);
    match a
    case Spawn(t, _) => MarkGrows(s.mem, At(s, t).batch, true, None);
    case SpawnFails(t) => MarkGrows(s.mem, At(s, t).batch, false, Some(NotSpawned));
    case PublishReturns(t, outcome) => MarkGrows(s.mem, At(s, t).batch, true, Some(outcome));
  }

  lemma RetirementGrows(s: State, a: Action, s': State)
    requires Inv(s) && OfRetirement(a) && NextRetirement(s, a, s')
    ensures Grows(s.mem, s'.mem)
  {
    hide Inv, Grows, Relock, Pay;
    match a
    case RetireTake(t) => RetireTakeGrows(s, s', t);
    case RetireComplete(t) => PayGrows(s.mem, At(s, t).list[At(s, t).next], Retired);
    case RetireLock(_, _) => SameGrows(s.mem, s'.mem);
    case RetireSnapshot(_, _) => SameGrows(s.mem, s'.mem);
    case RetireWaited(_) => SameGrows(s.mem, s'.mem);
    case RetireDrain(_) => SameGrows(s.mem, s'.mem);
    case RetireCall(_, _) => SameGrows(s.mem, s'.mem);
    case RetireRemove(_) => SameGrows(s.mem, s'.mem);
  }

  lemma PreparationGrows(s: State, a: Action, s': State)
    requires OfPreparation(a) && Next(s, a, s') && Inv(s)
    ensures Grows(s.mem, s'.mem)
  {
    hide Inv, Grows, Relock, Charge, DoBuild, Free;
    match a
    case Register(_, _) => SameGrows(s.mem, s'.mem);
    case Look(_, _, _, _) => SameGrows(s.mem, s'.mem);
    case Build(t) => BuildGrows(s, s', t);
    case AdmitLock(_) => SameGrows(s.mem, s'.mem);
    case AdmitPrune(_) => SameGrows(s.mem, s'.mem);
    case AdmitCharge(t) => if s'.mem == s.mem { SameGrows(s.mem, s'.mem); } else { ChargeGrows(s.mem, At(s, t).id); }
    case DropHandle(_) => SameGrows(s.mem, s'.mem);
    case DropSave(id) => FreeGrows(s.mem, id);
  }

  lemma SubmissionGrows(s: State, a: Action, s': State)
    requires !OfRetirement(a) && !OfPreparation(a) && NextSave(s, a, s') && Inv(s)
    ensures Grows(s.mem, s'.mem)
  {
    hide Inv, Grows, Relock, Pay, WriteNext, DoDecide, DoTakeNext, DoCancel, DoSpawn, DoSpawnFails, DoPublishReturns;
    match a
    case Cancel(t, id) => CancelGrows(s, s', t, id);
    case CancelDone(t) => PayGrows(s.mem, At(s, t).id, Canceled);
    case Submit(_, _) => SameGrows(s.mem, s'.mem);
    case LockNext(_) => SameGrows(s.mem, s'.mem);
    case Decide(t) => DecideGrows(s, s', t);
    case TakeNext(t) => TakeNextGrows(s, s', t);
    case Spawn(_, _) => DecidedGrows(s, a, s');
    case SpawnFails(_) => DecidedGrows(s, a, s');
    case FailNext(t) => WriteGrows(s.mem, s'.mem, At(s, t).batch, At(s, t).next);
    case PublishReturns(_, _) => DecidedGrows(s, a, s');
    case CompleteNext(t) => WriteGrows(s.mem, s'.mem, At(s, t).batch, At(s, t).next);
  }

  lemma NextGrows(s: State, a: Action, s': State)
    requires Inv(s) && Next(s, a, s')
    ensures Grows(s.mem, s'.mem)
  {
    hide Inv, Grows, NextRetirement, NextSave;
    if OfRetirement(a) {
      RetirementGrows(s, a, s');
    } else if OfPreparation(a) {
      PreparationGrows(s, a, s');
    } else {
      SubmissionGrows(s, a, s');
    }
  }

  lemma SameGrows(m: Memory, m': Memory)
    requires m'.heap == m.heap && m'.next == m.next && m'.ledger == m.ledger
    ensures Grows(m, m')
  {
  }

  lemma BuildGrows(s: State, s': State, t: Tid)
    requires Inv(s) && DoBuild(s, s', t)
    ensures Grows(s.mem, s'.mem)
  {
    hide LedgerOk, UsageOk, Exclusive, LocalHeld, SavesHeld, Grows;
    var Looked(slot, worker, request, bytes) := At(s, t);
    var id := SaveId(slot.client, NextOp(s.mem, slot.client));
    if id.op >= MAX_OPERATION {
      SameGrows(s.mem, s'.mem);
    } else {
      CreateGrows(s.mem, id, Save(slot, worker, request, bytes, true, None, false));
    }
  }

  lemma CancelGrows(s: State, s': State, t: Tid, id: SaveId)
    requires Inv(s) && DoCancel(s, s', t, id)
    ensures Grows(s.mem, s'.mem)
  {
    hide LedgerOk, UsageOk, Exclusive, LocalHeld, SavesHeld, Grows;
    if s.mem.heap[id].prepared { ClaimGrows(s.mem, id, ByCancel); } else { SameGrows(s.mem, s'.mem); }
  }

  lemma RetireTakeGrows(s: State, s': State, t: Tid)
    requires Inv(s) && DoRetireTake(s, s', t)
    ensures Grows(s.mem, s'.mem)
  {
    hide LedgerOk, UsageOk, Exclusive, LocalHeld, SavesHeld, Grows;
    var id := At(s, t).list[At(s, t).next];
    if s.mem.heap[id].prepared { ClaimGrows(s.mem, id, ByRetire); } else { SameGrows(s.mem, s'.mem); }
  }

  lemma DecideGrows(s: State, s': State, t: Tid)
    requires DoDecide(s, s', t)
    ensures Grows(s.mem, s'.mem)
  {
    hide Grows;
    var Locking(c, ids, n) := At(s, t);
    if exists i :: 0 <= i < |ids| && !s.mem.heap[ids[i]].prepared {
      SameGrows(s.mem, s'.mem);
    } else {
      var request := BatchMerge.MergedRequest(Requests(s.mem.heap, ids));
      OpenGrows(s.mem, ids, request, if SameTarget(s.mem.heap, ids) then None else Some(Mismatched));
    }
  }

  lemma TakeNextGrows(s: State, s': State, t: Tid)
    requires Inv(s) && DoTakeNext(s, s', t)
    ensures Grows(s.mem, s'.mem)
  {
    hide LedgerOk, UsageOk, Exclusive, LocalHeld, SavesHeld, Grows;
    if s'.mem == s.mem { SameGrows(s.mem, s'.mem); } else { TakeGrows(s.mem, At(s, t).batch); }
  }

  lemma WriteGrows(m: Memory, m': Memory, b: nat, next: nat)
    requires m' == m || WriteNext(m, m', b, next)
    ensures Grows(m, m')
  {
    if m' != m {
      PayGrows(m, m.ledger.batches[b].ids[next], m.ledger.batches[b].verdict.value);
    }
  }

  lemma GrowsTransitive(m: Memory, m1: Memory, m2: Memory)
    requires SavesOk(m) && Grows(m, m1) && Grows(m1, m2)
    ensures Grows(m, m2)
  {
    forall id | id in m.heap && id in m2.heap ensures SaveGrows(m.heap[id], m2.heap[id]) {
      assert SaveOk(m, id);
      assert id in m1.heap;
    }
  }

  lemma {:induction false} RunGrows(states: seq<State>, actions: seq<Action>, i: nat, j: nat)
    requires Run(states, actions) && i <= j < |states|
    ensures Grows(states[i].mem, states[j].mem)
    decreases j
  {
    hide Grows, Inv, Next;
    RunKeeps(states, actions, i);
    if i == j {
      SameGrows(states[i].mem, states[j].mem);
    } else {
      RunGrows(states, actions, i, j - 1);
      RunKeeps(states, actions, j - 1);
      NextGrows(states[j - 1], actions[j - 1], states[j]);
      assert SavesOk(states[i].mem) by { InvSaves(states[i]); }
      GrowsTransitive(states[i].mem, states[j - 1].mem, states[j].mem);
    }
  }

  lemma InvSaves(s: State)
    requires Inv(s)
    ensures SavesOk(s.mem)
  {
  }

  // ---------- One fate ----------

  /* The save's payload was given to a publish thread. */
  ghost predicate Published(l: Ledger, id: SaveId) {
    exists b :: 0 <= b < |l.batches| && l.batches[b].sent && id in l.batches[b].ids
  }

  /* A payload is claimed once: a batch shares no save with another, nor with a cancellation or a retirement. */
  lemma OneClaim(s: State, b: nat, i: nat, c: nat, j: nat)
    requires Inv(s) && b < |s.mem.ledger.batches| && i < |TakenIds(s.mem.ledger.batches[b])|
    requires c < |s.mem.ledger.batches| && j < |TakenIds(s.mem.ledger.batches[c])|
    requires TakenIds(s.mem.ledger.batches[b])[i] == TakenIds(s.mem.ledger.batches[c])[j]
    ensures b == c && i == j
  {
    var l := s.mem.ledger;
    assert BatchOk(l, b) && BatchOk(l, c);
    assert TakenIds(l.batches[b])[i] in TakenIds(l.batches[b]) && TakenIds(l.batches[c])[j] in TakenIds(l.batches[c]);
  }

  /* A batch succeeds or fails as a whole: its saves have one receipt among them, the one its ledger entry records. */
  lemma BatchSharesReceipt(s: State, b: nat, id: SaveId)
    requires Inv(s) && b < |s.mem.ledger.batches| && id in TakenIds(s.mem.ledger.batches[b])
    requires id in s.mem.heap && s.mem.heap[id].result.Some?
    ensures s.mem.heap[id].result == s.mem.ledger.batches[b].verdict
  {
    hide UsageOk, Exclusive, LocalHeld, SavesHeld, Owed, ThreadOk;
    assert SaveOk(s.mem, id) && BatchOk(s.mem.ledger, b);
  }

  /* The receipt says whether the payload was published: one that was cancelled, retired, mismatched or never handed to
     a thread was not, and one that reports the publish was. */
  lemma ReceiptTellsTruth(s: State, id: SaveId)
    requires Inv(s) && id in s.mem.heap && s.mem.heap[id].result.Some?
    ensures var r := s.mem.heap[id].result.value; (r.Done? || r.Failed?) <==> Published(s.mem.ledger, id)
  {
    hide UsageOk, Exclusive, LocalHeld, SavesHeld, Owed;
    var l := s.mem.ledger;
    assert SaveOk(s.mem, id);
    if Published(l, id) {
      var b :| 0 <= b < |l.batches| && l.batches[b].sent && id in l.batches[b].ids;
      assert BatchOk(l, b) && TakenIds(l.batches[b]) == l.batches[b].ids;
    } else if l.fate[id].ByBatch? {
      assert BatchOk(l, l.fate[id].batch);
    }
  }

  /* Over any stretch of a run, whoever claimed the payload stays the only one, and a receipt seen once is the receipt
     seen ever after. */
  lemma FateIsFinal(states: seq<State>, actions: seq<Action>, i: nat, j: nat, id: SaveId)
    requires Run(states, actions) && i <= j < |states|
    ensures id in states[i].mem.ledger.fate ==>
              id in states[j].mem.ledger.fate && states[j].mem.ledger.fate[id] == states[i].mem.ledger.fate[id]
    ensures id in states[i].mem.heap && id in states[j].mem.heap && states[i].mem.heap[id].result.Some? ==>
              states[j].mem.heap[id].result == states[i].mem.heap[id].result
    ensures id in states[i].mem.ledger.fate && !states[i].mem.ledger.fate[id].ByBatch? ==>
              !Published(states[j].mem.ledger, id)
  {
    RunGrows(states, actions, i, j);
    RunKeeps(states, actions, j);
    UnbatchedStays(states[j], id);
  }

  lemma UnbatchedStays(s: State, id: SaveId)
    requires Inv(s)
    ensures id in s.mem.ledger.fate && !s.mem.ledger.fate[id].ByBatch? ==> !Published(s.mem.ledger, id)
  {
    hide SavesOk, UsageOk, Exclusive, LocalHeld, SavesHeld, Owed, ThreadOk;
    var l := s.mem.ledger;
    if id in l.fate && Published(l, id) {
      var b :| 0 <= b < |l.batches| && l.batches[b].sent && id in l.batches[b].ids;
      assert BatchOk(l, b) && TakenIds(l.batches[b]) == l.batches[b].ids;
    }
  }

  // ---------- Retirement ----------

  predicate RetiringPc(pc: Pc, c: Client) {
    (pc.Retiring? || pc.RetireAt? || pc.RetireTaken? || pc.RetireWaiting? || pc.RetireDrained? || pc.RetireCalled?)
    && pc.scope.client == c
  }

  /* When the worker is told to unregister, every admitted save of the scope has its receipt. */
  lemma QuietAtUnregister(states: seq<State>, actions: seq<Action>, i: nat, t: Tid, id: SaveId)
    requires Run(states, actions) && i < |states| && (At(states[i], t).RetireDrained? || At(states[i], t).RetireCalled?)
    requires id in states[i].mem.heap && states[i].mem.heap[id].charged
    requires Matches(At(states[i], t).scope, states[i].mem.heap[id].slot)
    ensures states[i].mem.heap[id].result.Some? && id in states[i].mem.ledger.fate
  {
    RunKeeps(states, actions, i);
    ReceiptInScope(states[i], t, id);
  }

  lemma ReceiptInScope(s: State, t: Tid, id: SaveId)
    requires Inv(s) && (At(s, t).RetireDrained? || At(s, t).RetireCalled?)
    requires id in s.mem.heap && s.mem.heap[id].charged && Matches(At(s, t).scope, s.mem.heap[id].slot)
    ensures s.mem.heap[id].result.Some? && id in s.mem.ledger.fate
  {
    hide LedgerOk, UsageOk, LocalHeld, SavesHeld, Exclusive, Owed, ThreadOk;
    assert SaveOk(s.mem, id) && ThreadOk(s.mem, s.threads[t]);
    RetiredQuiet(s.mem, s.threads[t]);
  }

  lemma ClaimsAdmitNone(s: State, a: Action, s': State, id: SaveId)
    requires Next(s, a, s') && (a.Cancel? || a.TakeNext? || a.RetireTake?)
    requires id in s'.mem.heap && s'.mem.heap[id].charged
    ensures id in s.mem.heap && s.mem.heap[id].charged
  {
    hide Relock, Assign, SameTarget;
  }

  lemma ReceiptsAdmitNone(s: State, a: Action, s': State, id: SaveId)
    requires Next(s, a, s') && (a.CancelDone? || a.FailNext? || a.CompleteNext? || a.RetireComplete?)
    requires id in s'.mem.heap && s'.mem.heap[id].charged
    ensures id in s.mem.heap && s.mem.heap[id].charged
  {
    hide Pay, WriteNext, Relock;
    match a
    case CancelDone(t) => PayAdmitsNone(s.mem, At(s, t).id, Canceled, id);
    case RetireComplete(t) => PayAdmitsNone(s.mem, At(s, t).list[At(s, t).next], Retired, id);
    case FailNext(t) => WriteAdmitsNone(s.mem, s'.mem, At(s, t).batch, At(s, t).next, id);
    case CompleteNext(t) => WriteAdmitsNone(s.mem, s'.mem, At(s, t).batch, At(s, t).next, id);
  }

  lemma PayAdmitsNone(m: Memory, paid: SaveId, r: Receipt, id: SaveId)
    requires paid in m.heap && id in Pay(m, paid, r).heap && Pay(m, paid, r).heap[id].charged
    ensures id in m.heap && m.heap[id].charged
  {
  }

  lemma WriteAdmitsNone(m: Memory, m': Memory, b: nat, next: nat, id: SaveId)
    requires (m' == m || WriteNext(m, m', b, next)) && id in m'.heap && m'.heap[id].charged
    ensures id in m.heap && m.heap[id].charged
  {
  }

  lemma OnlyChargeAdmits(s: State, a: Action, s': State, id: SaveId)
    requires Next(s, a, s') && id in s'.mem.heap && s'.mem.heap[id].charged
    requires !(id in s.mem.heap && s.mem.heap[id].charged)
    ensures a.AdmitCharge? && At(s, a.t) == Charging(id)
  {
    hide Relock;
    if a.Cancel? || a.TakeNext? || a.RetireTake? {
      ClaimsAdmitNone(s, a, s', id);
    } else if a.CancelDone? || a.FailNext? || a.CompleteNext? || a.RetireComplete? {
      ReceiptsAdmitNone(s, a, s', id);
    }
  }

  /* While a client retires, none of its saves is admitted. */
  lemma NoAdmission(s: State, a: Action, s': State, t: Tid, c: Client, id: SaveId)
    requires Inv(s) && Next(s, a, s') && RetiringPc(At(s, t), c)
    requires id in s'.mem.heap && s'.mem.heap[id].charged && id.client == c
    ensures id in s.mem.heap && s.mem.heap[id].charged
  {
    hide MemoryOk, ThreadOk, Exclusive, Owed, SavesHeld, Next;
    assert LocalOf(At(s, t)) == Some(c);
    if !(id in s.mem.heap && s.mem.heap[id].charged) {
      OnlyChargeAdmits(s, a, s', id);
    }
  }

  lemma {:induction false} RetirementFreezes(
      states: seq<State>, actions: seq<Action>, i: nat, j: nat, t: Tid, c: Client, id: SaveId)
    requires Run(states, actions) && i <= j < |states|
    requires forall k :: i <= k < j ==> RetiringPc(At(states[k], t), c)
    requires id in states[j].mem.heap && states[j].mem.heap[id].charged && id.client == c
    ensures id in states[i].mem.heap && states[i].mem.heap[id].charged
    decreases j
  {
    hide Inv, Next;
    if i < j {
      RunKeeps(states, actions, j - 1);
      assert Next(states[j - 1], actions[j - 1], states[j]) by { StepOf(states, actions, j - 1); }
      NoAdmission(states[j - 1], actions[j - 1], states[j], t, c, id);
      RetirementFreezes(states, actions, i, j - 1, t, c, id);
    }
  }

  lemma StepOf(states: seq<State>, actions: seq<Action>, i: nat)
    requires Run(states, actions) && i < |actions|
    ensures Next(states[i], actions[i], states[i + 1])
  {
  }

  /* A save that is prepared or in flight is in its client's map and its worker is the one registered now. */
  lemma PendingIsReachable(s: State, id: SaveId)
    requires Inv(s) && Pending(s.mem, id)
    ensures id in s.mem.saves && s.mem.heap[id].slot in s.mem.local
    ensures s.mem.local[s.mem.heap[id].slot] == s.mem.heap[id].worker
  {
    assert SaveOk(s.mem, id);
  }

  // ---------- The budget ----------

  /* Usage is the number and total size of the admitted saves alive, within both limits, and back to zero without them. */
  lemma BudgetExact(states: seq<State>, actions: seq<Action>, i: nat)
    requires Run(states, actions) && i < |states|
    ensures var m := states[i].mem;
            && m.count == |Charged(m.heap)| <= 1024
            && m.bytes == SumBytes(m.heap, Charged(m.heap)) <= 33_554_432
            && (Charged(m.heap) == {} ==> m.count == 0 && m.bytes == 0)
  {
    RunKeeps(states, actions, i);
    InvUsage(states[i]);
  }

  lemma InvUsage(s: State)
    requires Inv(s)
    ensures UsageOk(s.mem)
  {
  }
}
