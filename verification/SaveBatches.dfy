/** `submit_saves` takes all of its payloads or none, although it locks and takes them one at a time while a retirement,
which holds none of its mutexes, takes payloads too. */
module SaveBatches {
  import opened Wrappers
  import opened SaveLifecycle
  import opened SaveSafety
  import opened SaveRuns
  import opened SaveTheorems
  import opened SaveProgress
  import BatchMerge

  /* Between the argument checks and the last payload. */
  predicate InCall(pc: Pc) {
    pc.Locking? || pc.Taking?
  }

  predicate AllIn(heap: map<SaveId, Save>, ids: seq<SaveId>) {
    forall i :: 0 <= i < |ids| ==> ids[i] in heap
  }

  /* The batch of a call on `ids`, with the merge of exactly their requests and a verdict only on a mismatch. */
  ghost predicate BatchOf(m: Memory, b: nat, ids: seq<SaveId>) {
    && b < |m.ledger.batches| && |ids| > 0 && AllIn(m.heap, ids)
    && var batch := m.ledger.batches[b];
       && batch.ids == ids && batch.request == BatchMerge.MergedRequest(Requests(m.heap, ids))
       && (batch.verdict.Some? <==> !SameTarget(m.heap, ids))
  }

  /* Every payload of the call is claimed by the one batch `b`. */
  ghost predicate WholeBatch(m: Memory, b: nat, ids: seq<SaveId>) {
    && b < |m.ledger.batches|
    && m.ledger.batches[b].ids == ids && m.ledger.batches[b].taken == |ids|
    && forall i :: 0 <= i < |ids| ==> ids[i] in m.ledger.fate && m.ledger.fate[ids[i]] == ByBatch(b)
  }

  /* Some payload of the call had been claimed by someone else. */
  ghost predicate SomeGone(m: Memory, ids: seq<SaveId>) {
    exists i :: 0 <= i < |ids| && ids[i] in m.ledger.fate
  }

  /* None of `t`'s steps in `i..j` changed the shared memory. */
  ghost predicate Untouched(states: seq<State>, actions: seq<Action>, i: nat, j: nat, t: Tid)
    requires j < |states| == |actions| + 1
  {
    forall k :: i <= k < j && Mover(actions[k]) == Some(t) ==> states[k + 1].mem == states[k].mem
  }

  // ---------- One step ----------

  lemma SameRequests(m: Memory, m': Memory, ids: seq<SaveId>)
    requires HeapGrows(m, m') && AllIn(m.heap, ids) && AllIn(m'.heap, ids)
    ensures Requests(m'.heap, ids) == Requests(m.heap, ids)
    ensures |ids| > 0 ==> SameTarget(m'.heap, ids) == SameTarget(m.heap, ids)
  {
    assert forall i :: 0 <= i < |ids| ==> SaveGrows(m.heap[ids[i]], m'.heap[ids[i]]);
  }

  /* While its submitter has it, nobody decides the batch. */
  lemma BatchOfStays(m: Memory, m': Memory, b: nat, ids: seq<SaveId>)
    requires BatchOf(m, b, ids) && Grows(m, m') && AllIn(m'.heap, ids)
    requires m'.ledger.batches[b].verdict == m.ledger.batches[b].verdict
    ensures BatchOf(m', b, ids)
  {
    SameRequests(m, m', ids);
  }

  lemma CallRefs(s: State, t: Tid, ids: seq<SaveId>)
    requires Inv(s) && InCall(At(s, t))
    requires At(s, t).Locking? ==> At(s, t).ids == ids
    requires At(s, t).Taking? ==> At(s, t).batch < |s.mem.ledger.batches| && s.mem.ledger.batches[At(s, t).batch].ids == ids
    ensures AllIn(s.mem.heap, ids)
  {
    hide Inv, LedgerOk, SavesOk, PlaceOk;
    InvThread(s, t);
    assert forall i :: 0 <= i < |ids| ==> ids[i] in Refs(s.mem.ledger, s.threads[t]);
  }

  /* The steps of a thread in the call. */
  lemma CallActions(s: State, a: Action, s': State, t: Tid)
    requires Next(s, a, s') && InCall(At(s, t)) && Mover(a) == Some(t)
    ensures if At(s, t).Taking? then a == TakeNext(t) && DoTakeNext(s, s', t)
            else (a == LockNext(t) && DoLockNext(s, s', t)) || (a == Decide(t) && DoDecide(s, s', t))
  {
    hide Step, PayloadFree, WriteNext;
  }

  lemma OpenedBatch(s: State, s': State, t: Tid)
    requires DoDecide(s, s', t) && At(s', t).Taking?
    ensures BatchOf(s'.mem, At(s', t).batch, At(s, t).ids) && s'.mem.heap == s.mem.heap
  {
    hide Relock;
  }

  lemma RefusedDecision(s: State, s': State, t: Tid)
    requires SavesOk(s.mem) && DoDecide(s, s', t) && !At(s', t).Taking?
    ensures At(s', t).Idle? && s'.mem == s.mem && SomeGone(s.mem, At(s, t).ids)
  {
    hide Relock;
    var ids := At(s, t).ids;
    var i :| 0 <= i < |ids| && !s.mem.heap[ids[i]].prepared;
    assert SaveOk(s.mem, ids[i]);
  }

  lemma TakenStep(s: State, s': State, t: Tid, ids: seq<SaveId>)
    requires Inv(s) && DoTakeNext(s, s', t) && BatchOf(s.mem, At(s, t).batch, ids)
    ensures var b := At(s, t).batch;
            && s'.mem.ledger.batches[b].verdict == s.mem.ledger.batches[b].verdict
            && (At(s', t).Taking? ==> At(s', t).batch == b)
            && (!At(s', t).Taking? ==>
                  && s'.mem == s.mem && WholeBatch(s.mem, b, ids)
                  && (At(s', t) == Claimed(At(s, t).client, b) || At(s', t) == Failing(At(s, t).client, b, 0)))
  {
    hide Relock, Inv, ThreadOk, LedgerOk, SavesOk;
    InvThread(s, t);
    var Taking(c, b) := s.threads[t];
    var batch := s.mem.ledger.batches[b];
    if batch.taken < |batch.ids| { NextIsThere(s.mem, c, b); } else { WholeTaken(s.mem, c, b); }
  }

  lemma InvThread(s: State, t: Tid)
    requires Inv(s) && t in s.threads
    ensures SavesOk(s.mem) && LedgerOk(s.mem.ledger) && ThreadOk(s.mem, s.threads[t])
  {
    hide SavesOk, LedgerOk, UsageOk, ThreadOk;
  }

  lemma WholeTaken(m: Memory, c: Client, b: nat)
    requires LedgerOk(m.ledger) && ThreadOk(m, Taking(c, b)) && m.ledger.batches[b].taken >= |m.ledger.batches[b].ids|
    ensures WholeBatch(m, b, m.ledger.batches[b].ids)
  {
    assert BatchOk(m.ledger, b) && TakenIds(m.ledger.batches[b]) == m.ledger.batches[b].ids;
  }

  // ---------- The whole call ----------

  /* Where a call on `ids` that began at step `i` can be. */
  ghost predicate Tracks(states: seq<State>, actions: seq<Action>, i: nat, k: nat, t: Tid, ids: seq<SaveId>)
    requires k < |states| == |actions| + 1
  {
    var pc := At(states[k], t);
    && (pc.Locking? ==> pc.ids == ids && Untouched(states, actions, i, k, t))
    && (pc.Taking? ==> BatchOf(states[k].mem, pc.batch, ids))
    && (!InCall(pc) ==>
          || (pc.Idle? && Untouched(states, actions, i, k, t) && SomeGone(states[k].mem, ids))
          || ((pc.Claimed? || (pc.Failing? && pc.next == 0)) && BatchOf(states[k].mem, pc.batch, ids)
              && WholeBatch(states[k].mem, pc.batch, ids)))
  }

  lemma VerdictsKept(s: State, a: Action, s': State, b: nat)
    requires Next(s, a, s') && b < |s.mem.ledger.batches| && b < |s'.mem.ledger.batches|
    requires !(a.Spawn? || a.SpawnFails? || a.PublishReturns?)
    ensures s'.mem.ledger.batches[b].verdict == s.mem.ledger.batches[b].verdict
  {
    hide NextRetirement, NextSave;
    if OfRetirement(a) {
      RetirementVerdicts(s, a, s', b);
    } else if OfPreparation(a) {
      PreparationVerdicts(s, a, s', b);
    } else {
      SubmissionVerdicts(s, a, s', b);
    }
  }

  lemma RetirementVerdicts(s: State, a: Action, s': State, b: nat)
    requires OfRetirement(a) && NextRetirement(s, a, s')
    requires b < |s.mem.ledger.batches| && b < |s'.mem.ledger.batches|
    ensures s'.mem.ledger.batches[b].verdict == s.mem.ledger.batches[b].verdict
  {
    hide Relock, PayloadFree;
  }

  lemma PreparationVerdicts(s: State, a: Action, s': State, b: nat)
    requires OfPreparation(a) && NextSave(s, a, s')
    requires b < |s.mem.ledger.batches| && b < |s'.mem.ledger.batches|
    ensures s'.mem.ledger.batches[b].verdict == s.mem.ledger.batches[b].verdict
  {
    hide Relock, PayloadFree;
  }

  lemma SubmissionVerdicts(s: State, a: Action, s': State, b: nat)
    requires !OfRetirement(a) && !OfPreparation(a) && NextSave(s, a, s')
    requires b < |s.mem.ledger.batches| && b < |s'.mem.ledger.batches|
    requires !(a.Spawn? || a.SpawnFails? || a.PublishReturns?)
    ensures s'.mem.ledger.batches[b].verdict == s.mem.ledger.batches[b].verdict
  {
    hide Relock, PayloadFree, SameTarget, Submittable;
  }

  lemma DecidesOwn(s: State, a: Action, s': State, b: nat)
    requires Next(s, a, s') && b < |s.mem.ledger.batches| && b < |s'.mem.ledger.batches|
    requires s'.mem.ledger.batches[b].verdict != s.mem.ledger.batches[b].verdict
    ensures (a.Spawn? || a.SpawnFails? || a.PublishReturns?) && HasBatch(At(s, a.t)) && At(s, a.t).batch == b
  {
    hide Relock, PayloadFree, SameTarget, Submittable, NextRetirement;
    if !(a.Spawn? || a.SpawnFails? || a.PublishReturns?) { VerdictsKept(s, a, s', b); }
  }

  lemma UndecidedByOthers(s: State, a: Action, s': State, t: Tid)
    requires Inv(s) && Next(s, a, s') && At(s, t).Taking? && Mover(a) != Some(t)
    requires At(s, t).batch < |s.mem.ledger.batches| && At(s, t).batch < |s'.mem.ledger.batches|
    ensures s'.mem.ledger.batches[At(s, t).batch].verdict == s.mem.ledger.batches[At(s, t).batch].verdict
  {
    hide Next, MemoryOk, ThreadOk, LocalHeld, SavesHeld, Owed;
    var b := At(s, t).batch;
    assert TaskOf(At(s, t)) == Serving(b);
    if s'.mem.ledger.batches[b].verdict != s.mem.ledger.batches[b].verdict {
      DecidesOwn(s, a, s', b);
    }
  }

  lemma OthersStep(states: seq<State>, actions: seq<Action>, i: nat, k: nat, t: Tid, ids: seq<SaveId>)
    requires Run(states, actions) && i < k < |actions| && InCall(At(states[k], t)) && Mover(actions[k]) != Some(t)
    requires Tracks(states, actions, i, k, t, ids)
    ensures Tracks(states, actions, i, k + 1, t, ids)
  {
    hide Inv, Next, Grows, BatchOf;
    RunKeeps(states, actions, k);
    RunKeeps(states, actions, k + 1);
    OthersStay(states[k], actions[k], states[k + 1], t);
    if At(states[k], t).Taking? {
      var b := At(states[k], t).batch;
      RunGrows(states, actions, k, k + 1);
      BatchKeptByOthers(states[k], actions[k], states[k + 1], t, ids);
    }
  }

  lemma BatchKeptByOthers(s: State, a: Action, s': State, t: Tid, ids: seq<SaveId>)
    requires Inv(s) && Inv(s') && Next(s, a, s') && Grows(s.mem, s'.mem) && Mover(a) != Some(t)
    requires At(s, t).Taking? && At(s', t) == At(s, t) && BatchOf(s.mem, At(s, t).batch, ids)
    ensures BatchOf(s'.mem, At(s, t).batch, ids)
  {
    hide Inv, Next;
    UndecidedByOthers(s, a, s', t);
    CallRefs(s', t, ids);
    BatchOfStays(s.mem, s'.mem, At(s, t).batch, ids);
  }

  lemma OwnStep(states: seq<State>, actions: seq<Action>, i: nat, k: nat, t: Tid, ids: seq<SaveId>)
    requires Run(states, actions) && i < k < |actions| && InCall(At(states[k], t)) && Mover(actions[k]) == Some(t)
    requires Tracks(states, actions, i, k, t, ids)
    ensures Tracks(states, actions, i, k + 1, t, ids)
  {
    hide Inv, Next, Grows, BatchOf, DoTakeNext, DoDecide, WholeBatch;
    var s, s' := states[k], states[k + 1];
    RunKeeps(states, actions, k);
    CallActions(s, actions[k], s', t);
    if At(s, t).Taking? {
      OwnTake(s, s', t, ids);
    } else if actions[k].Decide? {
      if At(s', t).Taking? {
        OpenedBatch(s, s', t);
      } else {
        assert SavesOk(s.mem) by { InvSaves(s); }
        RefusedDecision(s, s', t);
      }
    }
  }

  lemma OwnTake(s: State, s': State, t: Tid, ids: seq<SaveId>)
    requires Inv(s) && DoTakeNext(s, s', t) && BatchOf(s.mem, At(s, t).batch, ids)
    ensures var pc, b := At(s', t), At(s, t).batch;
            && (pc.Taking? || pc.Claimed? || (pc.Failing? && pc.next == 0)) && pc.batch == b
            && BatchOf(s'.mem, b, ids) && (!pc.Taking? ==> WholeBatch(s'.mem, b, ids))
  {
    hide Inv, BatchOf, WholeBatch;
    TakenStep(s, s', t, ids);
    if At(s', t).Taking? {
      TakeNextGrows(s, s', t);
      StillIn(s, s', t, ids);
      BatchOfStays(s.mem, s'.mem, At(s, t).batch, ids);
    }
  }

  lemma StillIn(s: State, s': State, t: Tid, ids: seq<SaveId>)
    requires DoTakeNext(s, s', t) && BatchOf(s.mem, At(s, t).batch, ids)
    ensures AllIn(s'.mem.heap, ids)
  {
    hide Relock;
  }

  lemma {:induction false} CallTracks(
      states: seq<State>, actions: seq<Action>, i: nat, k: nat, t: Tid, ids: seq<SaveId>)
    requires Run(states, actions) && i < k < |states| && actions[i] == Submit(t, ids)
    requires forall m :: i < m < k ==> InCall(At(states[m], t))
    ensures Tracks(states, actions, i, k, t, ids)
    decreases k
  {
    hide Tracks;
    if k == i + 1 {
      Begins(states, actions, i, t, ids);
    } else {
      CallTracks(states, actions, i, k - 1, t, ids);
      if Mover(actions[k - 1]) == Some(t) {
        OwnStep(states, actions, i, k - 1, t, ids);
      } else {
        OthersStep(states, actions, i, k - 1, t, ids);
      }
    }
  }

  lemma Begins(states: seq<State>, actions: seq<Action>, i: nat, t: Tid, ids: seq<SaveId>)
    requires Run(states, actions) && i < |actions| && actions[i] == Submit(t, ids)
    ensures Tracks(states, actions, i, i + 1, t, ids)
  {
    StepOf(states, actions, i);
    hide Run, Relock;
  }

  /* However its steps are interleaved with cancellations, retirements and other submissions: a call on `ids` that began at
  step `i` and left its critical section at `j` either changed nothing, because some payload had been claimed before, or
  claimed every payload for one batch that carries the merge of exactly their requests, and fails as a whole exactly if
  they have different targets. */
  lemma SubmitAllOrNothing(states: seq<State>, actions: seq<Action>, i: nat, j: nat, t: Tid, ids: seq<SaveId>)
    requires Run(states, actions) && i < j < |states| && actions[i] == Submit(t, ids)
    requires (forall m :: i < m < j ==> InCall(At(states[m], t))) && !InCall(At(states[j], t))
    ensures var pc := At(states[j], t);
            if pc.Idle? then Untouched(states, actions, i, j, t) && SomeGone(states[j].mem, ids)
            else
              && HasBatch(pc) && WholeBatch(states[j].mem, pc.batch, ids) && BatchOf(states[j].mem, pc.batch, ids)
              && (pc.Claimed? <==> SameTarget(states[j].mem.heap, ids))
  {
    hide Run, Untouched, WholeBatch, SomeGone;
    CallTracks(states, actions, i, j, t, ids);
    RunKeeps(states, actions, j);
    VerdictPlace(states[j], t);
  }

  lemma VerdictPlace(s: State, t: Tid)
    requires Inv(s)
    ensures At(s, t).Claimed? ==> s.mem.ledger.batches[At(s, t).batch].verdict.None?
    ensures At(s, t).Failing? ==> s.mem.ledger.batches[At(s, t).batch].verdict.Some?
  {
    assert t in s.threads ==> ThreadOk(s.mem, s.threads[t]);
  }

  /* From then on every save of the batch keeps that claim, and whatever receipt it gets is the batch's one verdict. */
  lemma BatchForGood(states: seq<State>, actions: seq<Action>, j: nat, k: nat, b: nat, ids: seq<SaveId>, i: nat)
    requires Run(states, actions) && j <= k < |states| && WholeBatch(states[j].mem, b, ids) && i < |ids|
    ensures b < |states[k].mem.ledger.batches| && WholeBatch(states[k].mem, b, ids)
    ensures states[k].mem.ledger.batches[b].request == states[j].mem.ledger.batches[b].request
    ensures ids[i] in states[k].mem.heap && states[k].mem.heap[ids[i]].result.Some? ==>
              states[k].mem.heap[ids[i]].result == states[k].mem.ledger.batches[b].verdict
  {
    hide Run, Inv;
    RunGrows(states, actions, j, k);
    RunKeeps(states, actions, k);
    InvLedger(states[k]);
    WholeStays(states[j].mem, states[k].mem, b, ids);
    if ids[i] in states[k].mem.heap && states[k].mem.heap[ids[i]].result.Some? {
      assert TakenIds(states[k].mem.ledger.batches[b]) == ids;
      BatchSharesReceipt(states[k], b, ids[i]);
    }
  }

  lemma InvLedger(s: State)
    requires Inv(s)
    ensures LedgerOk(s.mem.ledger)
  {
  }

  lemma WholeStays(m: Memory, m': Memory, b: nat, ids: seq<SaveId>)
    requires WholeBatch(m, b, ids) && Grows(m, m') && LedgerOk(m'.ledger)
    ensures WholeBatch(m', b, ids) && m'.ledger.batches[b].request == m.ledger.batches[b].request
  {
    assert BatchOk(m'.ledger, b);
  }
}
