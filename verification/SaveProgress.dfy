/** Nobody waits for a receipt that will not come: whoever owes one can always move, and each move brings it closer. */
module SaveProgress {
  import opened Wrappers
  import opened SaveLifecycle
  import opened SaveSafety
  import opened SaveRuns
  import opened SaveTheorems

  /* The thread that acts; registrations and drops belong to none. */
  function Mover(a: Action): Option<Tid> {
    match a
    case Register(_, _) => None
    case DropHandle(_) => None
    case DropSave(_) => None
    case _ => Some(a.t)
  }

  /* How many steps of the owing thread remain at most before every receipt it owes is written. */
  function Distance(l: Ledger, pc: Pc): int {
    match pc
    case Taking(_, b) => 2 * |BatchSeq(l, b)| - BatchTaken(l, b) + 3
    case Claimed(_, b) => |BatchSeq(l, b)| + 2
    case Publishing(b) => |BatchSeq(l, b)| + 1
    case Failing(_, b, n) => |BatchSeq(l, b)| - n
    case Completing(b, n) => |BatchSeq(l, b)| - n
    case _ => 1
  }

  function BatchSeq(l: Ledger, b: nat): seq<SaveId> {
    if b < |l.batches| then l.batches[b].ids else []
  }

  function BatchTaken(l: Ledger, b: nat): nat {
    if b < |l.batches| then l.batches[b].taken else 0
  }

  predicate Debtor(pc: Pc) {
    pc.Canceling? || HasBatch(pc) || pc.RetireTaken?
  }

  lemma StepsElsewhere(s: State, s': State, u: Tid, t: Tid)
    requires u != t
    ensures forall pc, mem :: Step(s, s', u, pc, mem) ==> At(s', t) == At(s, t)
  {
  }

  lemma RetirementElsewhere(s: State, a: Action, s': State, t: Tid)
    requires OfRetirement(a) && NextRetirement(s, a, s') && a.t != t
    ensures At(s', t) == At(s, t)
  {
    hide Step, PayloadFree, Claim, Pay, Evict;
    StepsElsewhere(s, s', a.t, t);
  }

  predicate OfSubmission(a: Action) {
    a.Submit? || a.LockNext? || a.Decide? || a.TakeNext? || a.SpawnFails? || a.FailNext? || a.PublishReturns?
    || a.CompleteNext?
  }

  lemma SubmissionElsewhere(s: State, a: Action, s': State, t: Tid)
    requires OfSubmission(a) && NextSave(s, a, s') && a.t != t
    ensures At(s', t) == At(s, t)
  {
    hide Step, PayloadFree, SameTarget, Open, TakeOne, Mark, WriteNext;
    StepsElsewhere(s, s', a.t, t);
  }

  lemma OthersStay(s: State, a: Action, s': State, t: Tid)
    requires Next(s, a, s') && !At(s, t).Idle? && Mover(a) != Some(t)
    ensures At(s', t) == At(s, t)
  {
    hide NextRetirement, NextSave;
    if OfRetirement(a) {
      RetirementElsewhere(s, a, s', t);
    } else if OfSubmission(a) {
      SubmissionElsewhere(s, a, s', t);
    } else {
      RestElsewhere(s, a, s', t);
    }
  }

  lemma RestElsewhere(s: State, a: Action, s': State, t: Tid)
    requires !OfRetirement(a) && !OfSubmission(a) && NextSave(s, a, s') && !At(s, t).Idle? && Mover(a) != Some(t)
    ensures At(s', t) == At(s, t)
  {
    hide Relock, PayloadFree, Create, Prune, Charge, Claim, Pay, Free, Unreferenced;
  }

  /* A step of `t` that takes no mutex. */
  function Release(locks: map<Client, Tid>, before: Option<Client>, after: Option<Client>): map<Client, Tid> {
    if before == after || before.None? then locks else Unlock(locks, before.value)
  }

  function Stepped(s: State, t: Tid, pc: Pc, mem: Memory): (s': State)
    requires LocalOf(pc) == LocalOf(At(s, t)) || LocalOf(pc).None?
    requires SavesOf(pc) == SavesOf(At(s, t)) || SavesOf(pc).None?
    ensures Step(s, s', t, pc, mem)
  {
    State(
      mem, s.threads[t := pc],
      Release(s.localLock, LocalOf(At(s, t)), LocalOf(pc)), Release(s.savesLock, SavesOf(At(s, t)), SavesOf(pc)))
  }

  lemma MoveAlone(s: State, t: Tid) returns (s': State)
    requires ThreadOk(s.mem, At(s, t)) && (At(s, t).Canceling? || At(s, t).RetireTaken?)
    ensures if At(s, t).Canceling? then DoCancelDone(s, s', t) else DoRetireComplete(s, s', t)
  {
    hide Ahead, Step;
    var m, pc := s.mem, s.threads[t];
    match pc
    case Canceling(id) =>
      assert id in Refs(m.ledger, pc);
      s' := Stepped(s, t, Idle, Pay(m, id, Canceled));
    case RetireTaken(scope, list, n) =>
      assert list[n] in Refs(m.ledger, pc);
      s' := Stepped(s, t, RetireWaiting(scope, list, n), Pay(m, list[n], Retired));
  }

  lemma MoveBatch(s: State, t: Tid) returns (s': State)
    requires (At(s, t).Claimed? || At(s, t).Publishing?) && ThreadOk(s.mem, At(s, t))
    ensures if At(s, t).Claimed? then DoSpawnFails(s, s', t) else DoPublishReturns(s, s', t, Done)
  {
    hide RefsOk, Written, Step;
    var m := s.mem;
    match s.threads[t]
    case Claimed(c, b) => s' := Stepped(s, t, Failing(c, b, 0), Mark(m, b, false, Some(NotSpawned)));
    case Publishing(b) => s' := Stepped(s, t, Completing(b, 0), Mark(m, b, true, Some(Done)));
  }

  lemma MoveTake(s: State, t: Tid) returns (s': State)
    requires At(s, t).Taking? && ThreadOk(s.mem, At(s, t))
    ensures DoTakeNext(s, s', t)
  {
    hide Step;
    var Taking(c, b) := s.threads[t];
    var batch := s.mem.ledger.batches[b];
    if batch.taken < |batch.ids| {
      assert batch.ids[batch.taken] in Refs(s.mem.ledger, s.threads[t]);
      s' := Stepped(s, t, Taking(c, b), TakeOne(s.mem, b));
    } else {
      s' := Stepped(s, t, if batch.verdict.None? then Claimed(c, b) else Failing(c, b, 0), s.mem);
    }
  }

  lemma MoveWrite(s: State, t: Tid) returns (s': State)
    requires (At(s, t).Failing? || At(s, t).Completing?) && ThreadOk(s.mem, At(s, t))
    ensures if At(s, t).Failing? then DoFailNext(s, s', t) else DoCompleteNext(s, s', t)
  {
    hide RefsOk, Written, Step, WriteNext;
    s' := WriteMove(s, t, At(s, t).batch, At(s, t).next);
  }

  ghost function WriteMove(s: State, t: Tid, b: nat, n: nat): (s': State)
    requires At(s, t).Failing? || At(s, t).Completing?
    requires At(s, t).batch == b && At(s, t).next == n && ThreadOk(s.mem, At(s, t))
    ensures if n >= |s.mem.ledger.batches[b].ids| then Step(s, s', t, Idle, s.mem)
            else WriteNext(s.mem, s'.mem, b, n) && Step(s, s', t, Onward(At(s, t)), s'.mem)
  {
    var batch := s.mem.ledger.batches[b];
    if n >= |batch.ids| then Stepped(s, t, Idle, s.mem)
    else
      assert batch.ids[n] in Refs(s.mem.ledger, At(s, t));
      Stepped(s, t, Onward(At(s, t)), Pay(s.mem, batch.ids[n], batch.verdict.value))
  }

  lemma ThreadOf(s: State, t: Tid)
    requires Inv(s) && t in s.threads
    ensures ThreadOk(s.mem, s.threads[t])
  {
  }

  /* What a thread that owes receipts does next. */
  function NextMove(pc: Pc, t: Tid): Action {
    match pc
    case Canceling(_) => CancelDone(t)
    case RetireTaken(_, _, _) => RetireComplete(t)
    case Taking(_, _) => TakeNext(t)
    case Claimed(_, _) => SpawnFails(t)
    case Publishing(_) => PublishReturns(t, Done)
    case Failing(_, _, _) => FailNext(t)
    case _ => CompleteNext(t)
  }

  lemma CanMove(s: State, t: Tid) returns (s': State)
    requires Inv(s) && Debtor(At(s, t))
    ensures Next(s, NextMove(At(s, t), t), s')
  {
    hide Inv, ThreadOk, DoCancelDone, DoRetireComplete, DoSpawnFails, DoPublishReturns, DoFailNext, DoCompleteNext;
    hide DoTakeNext;
    ThreadOf(s, t);
    var pc := s.threads[t];
    if pc.Failing? || pc.Completing? {
      s' := MoveWrite(s, t);
    } else if pc.Taking? {
      s' := MoveTake(s, t);
    } else if HasBatch(pc) {
      s' := MoveBatch(s, t);
    } else {
      s' := MoveAlone(s, t);
    }
  }

  /* The thread with the receipt to write is never behind a mutex. */
  lemma DebtorCanMove(s: State, t: Tid)
    requires Inv(s) && Debtor(At(s, t))
    ensures exists a, s' :: Next(s, a, s') && Mover(a) == Some(t)
  {
    hide Inv, Next;
    var s' := CanMove(s, t);
    assert Mover(NextMove(At(s, t), t)) == Some(t);
  }

  /* The thread that owes after `t` has moved: its publish thread, if it has just spawned one. */
  function Heir(a: Action, t: Tid): Tid {
    if a.Spawn? && a.t == t then a.publisher else t
  }

  /* `t` has less to do before `id`'s receipt is written, or has written it. */
  ghost predicate Closer(s: State, a: Action, s': State, t: Tid, id: SaveId)
    requires t in s.threads
  {
    Unpaid(s'.mem, id) ==>
      && Owes(s'.mem.ledger, At(s', Heir(a, t)), id)
      && 0 <= Distance(s'.mem.ledger, At(s', Heir(a, t))) < Distance(s.mem.ledger, s.threads[t])
  }

  lemma AloneCloser(s: State, a: Action, s': State, t: Tid, id: SaveId)
    requires t in s.threads && Owes(s.mem.ledger, s.threads[t], id)
    requires (a == CancelDone(t) && DoCancelDone(s, s', t)) || (a == RetireComplete(t) && DoRetireComplete(s, s', t))
    ensures Closer(s, a, s', t, id)
  {
  }

  lemma DecideCloser(s: State, a: Action, s': State, t: Tid, id: SaveId)
    requires t in s.threads && Owes(s.mem.ledger, s.threads[t], id)
    requires || (a.Spawn? && a.t == t && DoSpawn(s, s', t, a.publisher))
             || (a == SpawnFails(t) && DoSpawnFails(s, s', t))
             || (a.PublishReturns? && a.t == t && DoPublishReturns(s, s', t, a.outcome))
    ensures Closer(s, a, s', t, id)
  {
    hide Relock;
  }

  lemma TakeCloser(s: State, s': State, t: Tid, id: SaveId)
    requires t in s.threads && ThreadOk(s.mem, s.threads[t]) && Owes(s.mem.ledger, s.threads[t], id)
    requires DoTakeNext(s, s', t)
    ensures Closer(s, TakeNext(t), s', t, id)
  {
    var b := s.threads[t].batch;
    var batch := s.mem.ledger.batches[b];
    if batch.taken < |batch.ids| {
      assert batch.ids[batch.taken] in Refs(s.mem.ledger, s.threads[t]);
      assert TakenIds(s'.mem.ledger.batches[b]) == TakenIds(batch) + [batch.ids[batch.taken]];
    } else {
      assert TakenIds(batch) == batch.ids;
    }
  }

  lemma WriteCloser(m: Memory, m': Memory, pc: Pc, id: SaveId)
    requires pc.Failing? || pc.Completing?
    requires ThreadOk(m, pc) && Owes(m.ledger, pc, id) && Unpaid(m, id)
    ensures pc.next < |m.ledger.batches[pc.batch].ids|
    ensures WriteNext(m, m', pc.batch, pc.next) ==>
              Owes(m'.ledger, Onward(pc), id) && 0 <= Distance(m'.ledger, Onward(pc)) < Distance(m.ledger, pc)
  {
    assert Written(m, pc.batch, pc.next);
  }

  lemma BatchCloser(s: State, a: Action, s': State, t: Tid, id: SaveId)
    requires t in s.threads && ThreadOk(s.mem, s.threads[t]) && Owes(s.mem.ledger, s.threads[t], id) && Unpaid(s.mem, id)
    requires (a == FailNext(t) && DoFailNext(s, s', t)) || (a == CompleteNext(t) && DoCompleteNext(s, s', t))
    ensures Closer(s, a, s', t, id)
  {
    WriteCloser(s.mem, s'.mem, s.threads[t], id);
  }

  /* The only actions of a thread that owes a receipt. */
  lemma DebtorActions(s: State, a: Action, s': State, t: Tid)
    requires Next(s, a, s') && Debtor(At(s, t)) && Mover(a) == Some(t)
    ensures a.CancelDone? || a.RetireComplete? || a.Spawn? || a.SpawnFails? || a.PublishReturns? || a.FailNext?
            || a.CompleteNext? || a.TakeNext?
  {
    hide Step, PayloadFree, WriteNext;
  }

  lemma OwesDebtor(l: Ledger, pc: Pc, id: SaveId)
    requires Owes(l, pc, id)
    ensures Debtor(pc)
  {
  }

  /* What the debtor does, action by action. */
  ghost predicate DebtorDoes(s: State, a: Action, s': State, t: Tid) {
    match a
    case CancelDone(u) => u == t && DoCancelDone(s, s', t)
    case RetireComplete(u) => u == t && DoRetireComplete(s, s', t)
    case FailNext(u) => u == t && DoFailNext(s, s', t)
    case CompleteNext(u) => u == t && DoCompleteNext(s, s', t)
    case TakeNext(u) => u == t && DoTakeNext(s, s', t)
    case Spawn(u, publisher) => u == t && DoSpawn(s, s', t, publisher)
    case SpawnFails(u) => u == t && DoSpawnFails(s, s', t)
    case PublishReturns(u, outcome) => u == t && DoPublishReturns(s, s', t, outcome)
    case _ => false
  }

  lemma DebtorSteps(s: State, a: Action, s': State, t: Tid)
    requires Next(s, a, s') && Debtor(At(s, t)) && Mover(a) == Some(t)
    ensures DebtorDoes(s, a, s', t)
  {
    hide DoCancelDone, DoRetireComplete, DoFailNext, DoCompleteNext, DoTakeNext, DoSpawn, DoSpawnFails;
    hide DoPublishReturns, DoRegister, DoLook, DoBuild, DoAdmitLock, DoAdmitPrune, DoAdmitCharge, DoCancel, DoSubmit;
    hide DoLockNext, DoDecide, DoDropHandle, DoDropSave, DoRetireLock, DoRetireSnapshot, DoRetireTake, DoRetireWaited;
    hide DoRetireDrain, DoRetireCall, DoRetireRemove;
    DebtorActions(s, a, s', t);
  }

  lemma OwnStepCloser(s: State, a: Action, s': State, t: Tid, id: SaveId)
    requires Inv(s) && Next(s, a, s') && t in s.threads && Owes(s.mem.ledger, s.threads[t], id) && Unpaid(s.mem, id)
    requires Mover(a) == Some(t)
    ensures Closer(s, a, s', t, id)
  {
    hide Inv, Next, ThreadOk, Closer, Owes, Unpaid, DoCancelDone, DoRetireComplete, DoFailNext, DoCompleteNext;
    hide DoTakeNext, DoSpawn, DoSpawnFails, DoPublishReturns;
    OwesDebtor(s.mem.ledger, s.threads[t], id);
    DebtorSteps(s, a, s', t);
    ThreadOf(s, t);
    match a
    case CancelDone(_) => AloneCloser(s, a, s', t, id);
    case RetireComplete(_) => AloneCloser(s, a, s', t, id);
    case FailNext(_) => BatchCloser(s, a, s', t, id);
    case CompleteNext(_) => BatchCloser(s, a, s', t, id);
    case TakeNext(_) => TakeCloser(s, s', t, id);
    case Spawn(_, _) => DecideCloser(s, a, s', t, id);
    case SpawnFails(_) => DecideCloser(s, a, s', t, id);
    case PublishReturns(_, _) => DecideCloser(s, a, s', t, id);
  }

  /* Each step of the thread that owes a receipt writes it or leaves strictly less to do, and nobody else's step changes
     what it owes or puts it further back. */
  lemma EachStepCloser(s: State, a: Action, s': State, t: Tid, id: SaveId)
    requires Inv(s) && Next(s, a, s') && t in s.threads && Owes(s.mem.ledger, s.threads[t], id) && Unpaid(s.mem, id)
    ensures Mover(a) == Some(t) ==> Closer(s, a, s', t, id)
    ensures Mover(a) != Some(t) ==>
              && At(s', t) == s.threads[t] && Owes(s'.mem.ledger, At(s', t), id)
              && Distance(s'.mem.ledger, At(s', t)) <= Distance(s.mem.ledger, s.threads[t])
  {
    hide Inv, Closer, Next, Owes, Distance;
    OwesDebtor(s.mem.ledger, s.threads[t], id);
    if Mover(a) == Some(t) {
      OwnStepCloser(s, a, s', t, id);
    } else {
      OthersStay(s, a, s', t);
      NextGrows(s, a, s');
      SameDistance(s.mem.ledger, s'.mem.ledger, s.threads[t], id);
    }
  }

  lemma SameDistance(l: Ledger, l': Ledger, pc: Pc, id: SaveId)
    requires LedgerGrows(l, l') && Owes(l, pc, id)
    ensures Owes(l', pc, id) && Distance(l', pc) <= Distance(l, pc)
  {
  }
}
