/** Handle-based saves of the cache client as a state machine.

Threads of many clients interleave.  Each action below is one critical section of the source, or one access to a single
mutex or atomic; the `local` and `saves` mutexes are explicit because some are held across several actions.  A
`PendingSave` is a heap object: it lives while the `saves` map, a Python handle or a running thread refers to it, and
dropping it is an action of its own.  `Ledger` records who claimed each payload and what each submitted batch came to;
it only grows, and a submitting or publishing thread names its batch by its position there.  A save's `prepared` mutex is
held by the thread whose place says so (`PayloadsOf`).
*/
module SaveLifecycle {
  import opened Wrappers
  import opened BatchMerge

  const MAX_PENDING_SAVES := 1024
  const MAX_PENDING_SAVE_BYTES := 32 * 1024 * 1024
  const MAX_OPERATION := 0xFFFF_FFFF_FFFF_FFFF

  type Client = nat

  type Tid = nat

  type Worker = nat

  /* The key of the `local` map, with the client that owns the map. */
  datatype Slot = Slot(client: Client, instance: string, tpRank: int, device: int)

  datatype SaveId = SaveId(client: Client, op: nat)

  datatype Receipt = Done | Canceled | Retired | Mismatched | NotSpawned | Failed(code: int)

  datatype Save = Save(
    slot: Slot, worker: Worker, request: Request, bytes: nat, prepared: bool, result: Option<Receipt>, charged: bool)

  /* One instance of a client (`unregister_context`), or all of them (`close`). */
  datatype Scope = Scope(client: Client, instance: Option<string>)

  datatype Pc =
    | Idle
    // prepare_save
    | Looked(slot: Slot, worker: Worker, request: Request, bytes: nat)
    | Built(id: SaveId)
    | Admitting(id: SaveId)
    | Charging(id: SaveId)
    // cancel_save
    | Canceling(id: SaveId)
    // submit_saves
    | Locking(client: Client, ids: seq<SaveId>, next: nat)
    | Taking(client: Client, batch: nat)
    | Claimed(client: Client, batch: nat)
    | Failing(client: Client, batch: nat, next: nat)
    // the publish thread
    | Publishing(batch: nat)
    | Completing(batch: nat, next: nat)
    // unregister_context and close
    | Retiring(scope: Scope)
    | RetireAt(scope: Scope, list: seq<SaveId>, next: nat)
    | RetireTaken(scope: Scope, list: seq<SaveId>, next: nat)
    | RetireWaiting(scope: Scope, list: seq<SaveId>, next: nat)
    | RetireDrained(scope: Scope)
    | RetireCalled(scope: Scope)

  datatype Fate = ByCancel | ByRetire | ByBatch(batch: nat)

  /* One `submit_saves` call that found every payload there: the saves it is to take, how many it has taken so far, the
  merged request, whether a publish thread was given them, the outcome. */
  datatype Batch = Batch(ids: seq<SaveId>, request: Request, sent: bool, verdict: Option<Receipt>, taken: nat)

  datatype Ledger = Ledger(fate: map<SaveId, Fate>, batches: seq<Batch>)

  /* What the clients of one process share; `saves` and `next` are per client, the budget is per process. */
  datatype Memory = Memory(
    local: map<Slot, Worker>,
    heap: map<SaveId, Save>,
    saves: set<SaveId>,
    handles: set<SaveId>,
    next: map<Client, nat>,
    count: int,
    bytes: int,
    ledger: Ledger)

  datatype State = State(mem: Memory, threads: map<Tid, Pc>, localLock: map<Client, Tid>, savesLock: map<Client, Tid>)

  const START := State(Memory(map[], map[], {}, {}, map[], 0, 0, Ledger(map[], [])), map[], map[], map[])

  // ---------- Mutexes ----------

  /* The client whose `local` map the thread has locked. */
  function LocalOf(pc: Pc): Option<Client> {
    match pc
    case Admitting(id) => Some(id.client)
    case Charging(id) => Some(id.client)
    case Retiring(scope) => Some(scope.client)
    case RetireAt(scope, _, _) => Some(scope.client)
    case RetireTaken(scope, _, _) => Some(scope.client)
    case RetireWaiting(scope, _, _) => Some(scope.client)
    case RetireDrained(scope) => Some(scope.client)
    case RetireCalled(scope) => Some(scope.client)
    case _ => None
  }

  /* The client whose `saves` map the thread has locked. */
  function SavesOf(pc: Pc): Option<Client> {
    match pc
    case Charging(id) => Some(id.client)
    case Canceling(id) => Some(id.client)
    case Locking(client, _, _) => Some(client)
    case Taking(client, _) => Some(client)
    case Claimed(client, _) => Some(client)
    case Failing(client, _, _) => Some(client)
    case _ => None
  }

  function Unlock(locks: map<Client, Tid>, c: Client): map<Client, Tid> {
    map k | k in locks && k != c :: locks[k]
  }

  /* Thread `t` goes from holding `before` to holding `after`; it can only take a mutex nobody holds. */
  predicate Relock(
      locks: map<Client, Tid>, locks': map<Client, Tid>, before: Option<Client>, after: Option<Client>, t: Tid) {
    if before == after then locks' == locks
    else
      var freed := if before.Some? then Unlock(locks, before.value) else locks;
      if after.None? then locks' == freed
      else after.value !in locks && locks' == freed[after.value := t]
  }

  function At(s: State, t: Tid): Pc {
    if t in s.threads then s.threads[t] else Idle
  }

  /* Thread `t` moves to `pc`, taking and releasing mutexes as the two places demand, and leaves `mem` behind. */
  predicate Step(s: State, s': State, t: Tid, pc: Pc, mem: Memory) {
    && s'.mem == mem
    && s'.threads == s.threads[t := pc]
    && Relock(s.localLock, s'.localLock, LocalOf(At(s, t)), LocalOf(pc), t)
    && Relock(s.savesLock, s'.savesLock, SavesOf(At(s, t)), SavesOf(pc), t)
  }

  // ---------- Small operations ----------

  /* `PendingSave::complete` */
  function Complete(heap: map<SaveId, Save>, id: SaveId, r: Receipt): map<SaveId, Save>
    requires id in heap
  {
    if heap[id].result.Some? then heap else heap[id := heap[id].(result := Some(r))]
  }

  /* Taking the payloads of several saves. */
  function Take(heap: map<SaveId, Save>, ids: set<SaveId>): map<SaveId, Save> {
    map id | id in heap :: if id in ids then heap[id].(prepared := false) else heap[id]
  }

  function Assign(fate: map<SaveId, Fate>, ids: set<SaveId>, f: Fate): map<SaveId, Fate> {
    fate + map id | id in ids :: f
  }

  function Ids(list: seq<SaveId>): set<SaveId> {
    set id | id in list
  }

  predicate Matches(scope: Scope, slot: Slot) {
    slot.client == scope.client && (scope.instance.Some? ==> slot.instance == scope.instance.value)
  }

  function Requests(heap: map<SaveId, Save>, ids: seq<SaveId>): (r: seq<Request>)
    requires forall i :: 0 <= i < |ids| ==> ids[i] in heap
    ensures |r| == |ids|
  {
    seq(|ids|, i requires 0 <= i < |ids| => heap[ids[i]].request)
  }

  function Refs(l: Ledger, pc: Pc): set<SaveId> {
    match pc
    case Built(id) => {id}
    case Admitting(id) => {id}
    case Charging(id) => {id}
    case Canceling(id) => {id}
    case Locking(_, ids, _) => Ids(ids)
    case Taking(_, b) => BatchIds(l, b)
    case Claimed(_, b) => BatchIds(l, b)
    case Failing(_, b, _) => BatchIds(l, b)
    case Publishing(b) => BatchIds(l, b)
    case Completing(b, _) => BatchIds(l, b)
    case RetireAt(_, list, _) => Ids(list)
    case RetireTaken(_, list, _) => Ids(list)
    case RetireWaiting(_, list, _) => Ids(list)
    case _ => {}
  }

  /* The saves whose `prepared` mutex the thread holds. */
  function PayloadsOf(l: Ledger, pc: Pc): set<SaveId> {
    match pc
    case Locking(_, ids, n) => if n <= |ids| then Ids(ids[..n]) else {}
    case Taking(_, b) => BatchIds(l, b)
    case _ => {}
  }

  /* No thread but `t` holds the save's `prepared` mutex. */
  predicate PayloadFree(s: State, t: Tid, id: SaveId) {
    forall u :: u in s.threads && u != t ==> id !in PayloadsOf(s.mem.ledger, s.threads[u])
  }

  function BatchIds(l: Ledger, b: nat): set<SaveId> {
    if b < |l.batches| then Ids(l.batches[b].ids) else {}
  }

  function NextOp(m: Memory, c: Client): nat {
    if c in m.next then m.next[c] else 1
  }

  /* A new pending save, not yet admitted. */
  function Create(m: Memory, id: SaveId, save: Save): Memory {
    m.(next := m.next[id.client := id.op + 1], heap := m.heap[id := save])
  }

  function Finished(m: Memory, c: Client): set<SaveId> {
    set id | id in m.saves && id in m.heap && id.client == c && m.heap[id].result.Some?
  }

  function Prune(m: Memory, c: Client): Memory {
    m.(saves := m.saves - Finished(m, c))
  }

  /* Admission: charge the budget, enter the save in the map, hand out a handle. */
  function Charge(m: Memory, id: SaveId): Memory
    requires id in m.heap
  {
    m.(
      saves := m.saves + {id}, count := m.count + 1, bytes := m.bytes + m.heap[id].bytes, handles := m.handles + {id},
      heap := m.heap[id := m.heap[id].(charged := true)])
  }

  /* Take the payload of one save. */
  function Claim(m: Memory, id: SaveId, f: Fate): Memory {
    m.(heap := Take(m.heap, {id}), ledger := m.ledger.(fate := Assign(m.ledger.fate, {id}, f)))
  }

  /* A batch about to be taken. */
  function Open(m: Memory, ids: seq<SaveId>, request: Request, verdict: Option<Receipt>): Memory {
    m.(ledger := m.ledger.(batches := m.ledger.batches + [Batch(ids, request, false, verdict, 0)]))
  }

  /* Take the next payload of a batch. */
  function TakeOne(m: Memory, b: nat): Memory
    requires b < |m.ledger.batches| && m.ledger.batches[b].taken < |m.ledger.batches[b].ids|
  {
    var batch := m.ledger.batches[b];
    var id := batch.ids[batch.taken];
    m.(
      heap := Take(m.heap, {id}),
      ledger := Ledger(
        Assign(m.ledger.fate, {id}, ByBatch(b)), m.ledger.batches[b := batch.(taken := batch.taken + 1)]))
  }

  /* What becomes of a batch. */
  function Mark(m: Memory, b: nat, sent: bool, verdict: Option<Receipt>): Memory
    requires b < |m.ledger.batches|
  {
    m.(ledger := m.ledger.(
      batches := m.ledger.batches[b := m.ledger.batches[b].(sent := sent, verdict := verdict)]))
  }

  /* Write a receipt. */
  function Pay(m: Memory, id: SaveId, r: Receipt): Memory
    requires id in m.heap
  {
    m.(heap := Complete(m.heap, id, r))
  }

  /* `Drop for PendingSave` */
  function Free(m: Memory, id: SaveId): Memory
    requires id in m.heap
  {
    var save := m.heap[id];
    m.(
      heap := map k | k in m.heap && k != id :: m.heap[k],
      count := if save.charged then m.count - 1 else m.count,
      bytes := if save.charged then m.bytes - save.bytes else m.bytes)
  }

  function Evict(m: Memory, scope: Scope): Memory {
    m.(local := map slot | slot in m.local && !Matches(scope, slot) :: m.local[slot])
  }

  // ---------- Actions ----------

  datatype Action =
    | Register(slot: Slot, worker: Worker)
    | Look(t: Tid, slot: Slot, request: Request, bytes: nat)
    | Build(t: Tid)
    | AdmitLock(t: Tid)
    | AdmitPrune(t: Tid)
    | AdmitCharge(t: Tid)
    | Cancel(t: Tid, id: SaveId)
    | CancelDone(t: Tid)
    | Submit(t: Tid, ids: seq<SaveId>)
    | LockNext(t: Tid)
    | Decide(t: Tid)
    | TakeNext(t: Tid)
    | Spawn(t: Tid, publisher: Tid)
    | SpawnFails(t: Tid)
    | FailNext(t: Tid)
    | PublishReturns(t: Tid, outcome: Receipt)
    | CompleteNext(t: Tid)
    | RetireLock(t: Tid, scope: Scope)
    | RetireSnapshot(t: Tid, list: seq<SaveId>)
    | RetireTake(t: Tid)
    | RetireComplete(t: Tid)
    | RetireWaited(t: Tid)
    | RetireDrain(t: Tid)
    | RetireCall(t: Tid, ok: bool)
    | RetireRemove(t: Tid)
    | DropHandle(id: SaveId)
    | DropSave(id: SaveId)

  /* `register_context_batch`'s final critical section: a new worker under a key that has none. */
  predicate DoRegister(s: State, s': State, slot: Slot, worker: Worker) {
    && slot.client !in s.localLock && slot !in s.mem.local
    && s' == s.(mem := s.mem.(local := s.mem.local[slot := worker]))
  }

  /* `registered_worker`: the worker currently under the key. */
  predicate DoLook(s: State, s': State, t: Tid, slot: Slot, request: Request, bytes: nat) {
    && At(s, t).Idle? && slot.client !in s.localLock && slot in s.mem.local
    && Step(s, s', t, Looked(slot, s.mem.local[slot], request, bytes), s.mem)
  }

  /* Build the pending save and its handle, or run out of operation numbers. */
  predicate DoBuild(s: State, s': State, t: Tid) {
    && At(s, t).Looked?
    && var Looked(slot, worker, request, bytes) := At(s, t);
       var op := NextOp(s.mem, slot.client);
       var id := SaveId(slot.client, op);
       if op >= MAX_OPERATION then Step(s, s', t, Idle, s.mem)
       else Step(s, s', t, Built(id), Create(s.mem, id, Save(slot, worker, request, bytes, true, None, false)))
  }

  /* Lock `local` and check that the worker is still the registered one. */
  predicate DoAdmitLock(s: State, s': State, t: Tid) {
    && At(s, t).Built? && At(s, t).id in s.mem.heap
    && var id := At(s, t).id;
       var save := s.mem.heap[id];
       && id.client !in s.localLock
       && if save.slot in s.mem.local && s.mem.local[save.slot] == save.worker
          then Step(s, s', t, Admitting(id), s.mem)
          else Step(s, s', t, Idle, s.mem)
  }

  /* Lock `saves` as well and forget the finished ones. */
  predicate DoAdmitPrune(s: State, s': State, t: Tid) {
    && At(s, t).Admitting?
    && var id := At(s, t).id;
       Step(s, s', t, Charging(id), Prune(s.mem, id.client))
  }

  /* Admit the save, or refuse it; both mutexes are released. */
  predicate DoAdmitCharge(s: State, s': State, t: Tid) {
    && At(s, t).Charging? && At(s, t).id in s.mem.heap
    && var id := At(s, t).id;
       if s.mem.count >= MAX_PENDING_SAVES || s.mem.bytes + s.mem.heap[id].bytes > MAX_PENDING_SAVE_BYTES
       then Step(s, s', t, Idle, s.mem)
       else Step(s, s', t, Idle, Charge(s.mem, id))
  }

  predicate DoCancel(s: State, s': State, t: Tid, id: SaveId) {
    && At(s, t).Idle? && id in s.mem.handles && id in s.mem.heap && id.client !in s.savesLock && PayloadFree(s, t, id)
    && if s.mem.heap[id].prepared then Step(s, s', t, Canceling(id), Claim(s.mem, id, ByCancel)) else s' == s
  }

  predicate DoCancelDone(s: State, s': State, t: Tid) {
    && At(s, t).Canceling? && At(s, t).id in s.mem.heap
    && Step(s, s', t, Idle, Pay(s.mem, At(s, t).id, Canceled))
  }

  predicate Distinct(ids: seq<SaveId>) {
    forall i, j :: 0 <= i < j < |ids| ==> ids[i] != ids[j]
  }

  predicate SameTarget(heap: map<SaveId, Save>, ids: seq<SaveId>)
    requires forall i :: 0 <= i < |ids| ==> ids[i] in heap
  {
    forall i :: 0 <= i < |ids| ==>
      heap[ids[i]].worker == heap[ids[0]].worker && heap[ids[i]].request.ppRank == heap[ids[0]].request.ppRank
  }

  /* The arguments `submit_saves` accepts: handles of one client, no repeats. */
  predicate Submittable(m: Memory, ids: seq<SaveId>) {
    && 0 < |ids| <= MAX_PENDING_SAVES && Distinct(ids)
    && forall i :: 0 <= i < |ids| ==> ids[i] in m.handles && ids[i] in m.heap && ids[i].client == ids[0].client
  }

  /* The arguments are sound; lock `saves`. */
  predicate DoSubmit(s: State, s': State, t: Tid, ids: seq<SaveId>) {
    && At(s, t).Idle? && Submittable(s.mem, ids)
    && Step(s, s', t, Locking(ids[0].client, ids, 0), s.mem)
  }

  /* Lock the next save's `prepared` mutex. */
  predicate DoLockNext(s: State, s': State, t: Tid) {
    && At(s, t).Locking?
    && var Locking(c, ids, n) := At(s, t);
       && n < |ids| && PayloadFree(s, t, ids[n])
       && Step(s, s', t, Locking(c, ids, n + 1), s.mem)
  }

  /* With every mutex held: refuse the call if a payload is gone, else merge the requests and start taking. */
  predicate DoDecide(s: State, s': State, t: Tid) {
    && At(s, t).Locking?
    && var Locking(c, ids, n) := At(s, t);
       && n >= |ids| > 0 && (forall i :: 0 <= i < |ids| ==> ids[i] in s.mem.heap)
       && if exists i :: 0 <= i < |ids| && !s.mem.heap[ids[i]].prepared then Step(s, s', t, Idle, s.mem)
          else
            var request := MergedRequest(Requests(s.mem.heap, ids));
            var verdict := if SameTarget(s.mem.heap, ids) then None else Some(Mismatched);
            Step(s, s', t, Taking(c, |s.mem.ledger.batches|), Open(s.mem, ids, request, verdict))
  }

  /* Take the next payload; one that has disappeared would abandon the rest.  After the last, the mutexes are released. */
  predicate DoTakeNext(s: State, s': State, t: Tid) {
    && At(s, t).Taking? && At(s, t).batch < |s.mem.ledger.batches|
    && var Taking(c, b) := At(s, t);
       var batch := s.mem.ledger.batches[b];
       if batch.taken < |batch.ids| then
         && batch.ids[batch.taken] in s.mem.heap
         && if s.mem.heap[batch.ids[batch.taken]].prepared then Step(s, s', t, Taking(c, b), TakeOne(s.mem, b))
            else Step(s, s', t, Idle, s.mem)
       else Step(s, s', t, if batch.verdict.None? then Claimed(c, b) else Failing(c, b, 0), s.mem)
  }

  predicate DoSpawn(s: State, s': State, t: Tid, publisher: Tid) {
    && At(s, t).Claimed? && At(s, publisher).Idle? && At(s, t).batch < |s.mem.ledger.batches|
    && var b := At(s, t).batch;
       Step(s.(threads := s.threads[publisher := Publishing(b)]), s', t, Idle, Mark(s.mem, b, true, None))
  }

  predicate DoSpawnFails(s: State, s': State, t: Tid) {
    && At(s, t).Claimed? && At(s, t).batch < |s.mem.ledger.batches|
    && var Claimed(c, b) := At(s, t);
       Step(s, s', t, Failing(c, b, 0), Mark(s.mem, b, false, Some(NotSpawned)))
  }

  /* Write the verdict to the next save of the batch. */
  predicate WriteNext(m: Memory, m': Memory, b: nat, next: nat) {
    && b < |m.ledger.batches|
    && var batch := m.ledger.batches[b];
       && next < |batch.ids| && batch.ids[next] in m.heap && batch.verdict.Some?
       && m' == Pay(m, batch.ids[next], batch.verdict.value)
  }

  predicate DoFailNext(s: State, s': State, t: Tid) {
    && At(s, t).Failing? && At(s, t).batch < |s.mem.ledger.batches|
    && var Failing(c, b, next) := At(s, t);
       if next >= |s.mem.ledger.batches[b].ids| then Step(s, s', t, Idle, s.mem)
       else WriteNext(s.mem, s'.mem, b, next) && Step(s, s', t, Failing(c, b, next + 1), s'.mem)
  }

  predicate DoPublishReturns(s: State, s': State, t: Tid, outcome: Receipt) {
    && At(s, t).Publishing? && At(s, t).batch < |s.mem.ledger.batches| && (outcome.Done? || outcome.Failed?)
    && var b := At(s, t).batch;
       Step(s, s', t, Completing(b, 0), Mark(s.mem, b, true, Some(outcome)))
  }

  predicate DoCompleteNext(s: State, s': State, t: Tid) {
    && At(s, t).Completing? && At(s, t).batch < |s.mem.ledger.batches|
    && var Completing(b, next) := At(s, t);
       if next >= |s.mem.ledger.batches[b].ids| then Step(s, s', t, Idle, s.mem)
       else WriteNext(s.mem, s'.mem, b, next) && Step(s, s', t, Completing(b, next + 1), s'.mem)
  }

  predicate DoRetireLock(s: State, s': State, t: Tid, scope: Scope) {
    At(s, t).Idle? && Step(s, s', t, Retiring(scope), s.mem)
  }

  /* The saves of the scope that the map holds now, in some order. */
  ghost predicate DoRetireSnapshot(s: State, s': State, t: Tid, list: seq<SaveId>) {
    && At(s, t).Retiring?
    && var scope := At(s, t).scope;
       && scope.client !in s.savesLock
       && (forall id :: id in list <==> id in s.mem.saves && id in s.mem.heap && Matches(scope, s.mem.heap[id].slot))
       && Step(s, s', t, RetireAt(scope, list, 0), s.mem)
  }

  predicate DoRetireTake(s: State, s': State, t: Tid) {
    && At(s, t).RetireAt?
    && var RetireAt(scope, list, next) := At(s, t);
       && next < |list| && list[next] in s.mem.heap && PayloadFree(s, t, list[next])
       && if s.mem.heap[list[next]].prepared
          then Step(s, s', t, RetireTaken(scope, list, next), Claim(s.mem, list[next], ByRetire))
          else Step(s, s', t, RetireWaiting(scope, list, next), s.mem)
  }

  predicate DoRetireComplete(s: State, s': State, t: Tid) {
    && At(s, t).RetireTaken?
    && var RetireTaken(scope, list, next) := At(s, t);
       && next < |list| && list[next] in s.mem.heap
       && Step(s, s', t, RetireWaiting(scope, list, next), Pay(s.mem, list[next], Retired))
  }

  predicate DoRetireWaited(s: State, s': State, t: Tid) {
    && At(s, t).RetireWaiting?
    && var RetireWaiting(scope, list, next) := At(s, t);
       && next < |list| && list[next] in s.mem.heap && s.mem.heap[list[next]].result.Some?
       && Step(s, s', t, RetireAt(scope, list, next + 1), s.mem)
  }

  /* The list is done and the workers of the scope have drained. */
  predicate DoRetireDrain(s: State, s': State, t: Tid) {
    && At(s, t).RetireAt? && At(s, t).next >= |At(s, t).list|
    && Step(s, s', t, RetireDrained(At(s, t).scope), s.mem)
  }

  /* The Unregister call (or the session close), which may be refused. */
  predicate DoRetireCall(s: State, s': State, t: Tid, ok: bool) {
    && At(s, t).RetireDrained?
    && Step(s, s', t, if ok then RetireCalled(At(s, t).scope) else Idle, s.mem)
  }

  predicate DoRetireRemove(s: State, s': State, t: Tid) {
    At(s, t).RetireCalled? && Step(s, s', t, Idle, Evict(s.mem, At(s, t).scope))
  }

  predicate DoDropHandle(s: State, s': State, id: SaveId) {
    id in s.mem.handles && s' == s.(mem := s.mem.(handles := s.mem.handles - {id}))
  }

  predicate Unreferenced(s: State, id: SaveId) {
    && id !in s.mem.saves && id !in s.mem.handles
    && forall t :: t in s.threads ==> id !in Refs(s.mem.ledger, s.threads[t])
  }

  predicate DoDropSave(s: State, s': State, id: SaveId) {
    id in s.mem.heap && Unreferenced(s, id) && s' == s.(mem := Free(s.mem, id))
  }

  predicate OfRetirement(a: Action) {
    a.RetireLock? || a.RetireSnapshot? || a.RetireTake? || a.RetireComplete? || a.RetireWaited? || a.RetireDrain?
    || a.RetireCall? || a.RetireRemove?
  }

  /* An action of `unregister_context` or `close`. */
  ghost predicate NextRetirement(s: State, a: Action, s': State)
    requires OfRetirement(a)
  {
    match a
    case RetireLock(t, scope) => DoRetireLock(s, s', t, scope)
    case RetireSnapshot(t, list) => DoRetireSnapshot(s, s', t, list)
    case RetireTake(t) => DoRetireTake(s, s', t)
    case RetireComplete(t) => DoRetireComplete(s, s', t)
    case RetireWaited(t) => DoRetireWaited(s, s', t)
    case RetireDrain(t) => DoRetireDrain(s, s', t)
    case RetireCall(t, ok) => DoRetireCall(s, s', t, ok)
    case RetireRemove(t) => DoRetireRemove(s, s', t)
  }

  /* Any other action. */
  ghost predicate NextSave(s: State, a: Action, s': State)
    requires !OfRetirement(a)
  {
    match a
    case Register(slot, worker) => DoRegister(s, s', slot, worker)
    case Look(t, slot, request, bytes) => DoLook(s, s', t, slot, request, bytes)
    case Build(t) => DoBuild(s, s', t)
    case AdmitLock(t) => DoAdmitLock(s, s', t)
    case AdmitPrune(t) => DoAdmitPrune(s, s', t)
    case AdmitCharge(t) => DoAdmitCharge(s, s', t)
    case Cancel(t, id) => DoCancel(s, s', t, id)
    case CancelDone(t) => DoCancelDone(s, s', t)
    case Submit(t, ids) => DoSubmit(s, s', t, ids)
    case LockNext(t) => DoLockNext(s, s', t)
    case Decide(t) => DoDecide(s, s', t)
    case TakeNext(t) => DoTakeNext(s, s', t)
    case Spawn(t, publisher) => DoSpawn(s, s', t, publisher)
    case SpawnFails(t) => DoSpawnFails(s, s', t)
    case FailNext(t) => DoFailNext(s, s', t)
    case PublishReturns(t, outcome) => DoPublishReturns(s, s', t, outcome)
    case CompleteNext(t) => DoCompleteNext(s, s', t)
    case DropHandle(id) => DoDropHandle(s, s', id)
    case DropSave(id) => DoDropSave(s, s', id)
  }

  ghost predicate Next(s: State, a: Action, s': State) {
    if OfRetirement(a) then NextRetirement(s, a, s') else NextSave(s, a, s')
  }
}
