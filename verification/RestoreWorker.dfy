/** One engine-local restore worker, its callers and its shutdown, as a state machine.

Callers run `start_restore` or a shutdown (`unregister_context`, `close`) under the client's `local` mutex; the worker
thread runs its own loop.  Every action is one atomic operation, one channel operation or one step of the loop.  The
Manager and the executor decide nondeterministically.
*/
module RestoreWorker {
  import opened Wrappers

  const MAX_PENDING := 1024

  type Tid = nat

  type Job = nat

  type Byte = b: int | 0 <= b < 256

  /* The terminal answer to a restore. */
  datatype Outcome = Outcome(succeeded: bool, message: seq<Byte>)

  datatype CallerPc =
    | Away
    // start_restore
    | Looking
    | Validating
    | Asking
    | Granted
    | Cancelling
    // unregister_context and close
    | Draining
    | Unregistering
    | Stopping
    | Awaiting

  datatype WorkerPc =
    | Receiving
    | Passing(index: nat)
    | Storing(index: nat, job: Job, outcome: Outcome)
    | Counting(index: nat, job: Job)
    | Testing
    | DroppingExecutor
    | DroppingTensors
    | Releasing
    | Gone

  /* The channel, the active list, and what has been accepted and answered so far. */
  datatype Work = Work(queue: seq<Job>, active: seq<Job>, accepted: seq<Job>, results: map<Job, Outcome>)

  datatype State = State(
    registered: bool,
    local: Option<Tid>,
    callers: map<Tid, CallerPc>,
    pending: int,
    work: Work,
    worker: WorkerPc,
    executor: bool,
    tensors: bool,
    stopping: bool,
    released: bool)

  const START := State(true, None, map[], 0, Work([], [], [], map[]), Receiving, true, true, false, false)

  datatype Action =
    | Lock(t: Tid)
    | Reserve(t: Tid)
    | Validate(t: Tid, ok: bool)
    | Ask(t: Tid, ok: bool)
    | Send(t: Tid, job: Job)
    | Cancel(t: Tid)
    | LockForShutdown(t: Tid)
    | Drained(t: Tid)
    | Unregister(t: Tid, ok: bool)
    | Stop(t: Tid)
    | SeeReleased(t: Tid)
    | Receive
    | Advance(outcome: Option<Outcome>)
    | Store
    | Count
    | Test
    | DropExecutor
    | DropTensors
    | Release

  function At(s: State, t: Tid): CallerPc {
    if t in s.callers then s.callers[t] else Away
  }

  function Go(s: State, t: Tid, pc: CallerPc): State {
    s.(callers := s.callers[t := pc])
  }

  /* Back to the caller, `local` released. */
  function Leave(s: State, t: Tid): State {
    s.(callers := s.callers[t := Away], local := None)
  }

  /* `Vec::swap_remove` */
  function SwapRemove(active: seq<Job>, index: nat): (r: seq<Job>)
    requires index < |active|
    ensures |r| == |active| - 1
  {
    var last := |active| - 1;
    if index == last then active[..last] else active[..last][index := active[last]]
  }

  /* It takes out one element and leaves those before it where they are. */
  lemma SwapRemoves(active: seq<Job>, index: nat)
    requires index < |active|
    ensures multiset(active) == multiset(SwapRemove(active, index)) + multiset{active[index]}
    ensures SwapRemove(active, index)[..index] == active[..index]
  {
    var last := |active| - 1;
    assert active == active[..last] + [active[last]];
  }

  // ---------- Callers ----------

  predicate DoLock(s: State, s': State, t: Tid) {
    && At(s, t).Away? && s.local.None? && s.registered
    && s' == Go(s, t, Looking).(local := Some(t))
  }

  predicate DoReserve(s: State, s': State, t: Tid) {
    && At(s, t).Looking?
    && s' == if s.pending < MAX_PENDING then Go(s, t, Validating).(pending := s.pending + 1) else Leave(s, t)
  }

  /* A missing executor or a refused event list gives the reservation back. */
  predicate DoValidate(s: State, s': State, t: Tid, ok: bool) {
    && At(s, t).Validating?
    && s' == Go(s, t, if s.executor && ok then Asking else Cancelling)
  }

  predicate DoAsk(s: State, s': State, t: Tid, ok: bool) {
    At(s, t).Asking? && s' == Go(s, t, if ok then Granted else Cancelling)
  }

  /* The bounded channel takes the job when it has room. */
  predicate DoSend(s: State, s': State, t: Tid, job: Job) {
    && At(s, t).Granted? && job !in s.work.accepted && |s.work.queue| < MAX_PENDING && !s.worker.Gone?
    && s' == Leave(s, t).(work := s.work.(queue := s.work.queue + [job], accepted := s.work.accepted + [job]))
  }

  predicate DoCancel(s: State, s': State, t: Tid) {
    At(s, t).Cancelling? && s' == Leave(s, t).(pending := s.pending - 1)
  }

  predicate DoLockForShutdown(s: State, s': State, t: Tid) {
    && At(s, t).Away? && s.local.None? && s.registered
    && s' == Go(s, t, Draining).(local := Some(t))
  }

  /* `wait_drained` returns. */
  predicate DoDrained(s: State, s': State, t: Tid) {
    At(s, t).Draining? && s.pending == 0 && s' == Go(s, t, Unregistering)
  }

  predicate DoUnregister(s: State, s': State, t: Tid, ok: bool) {
    At(s, t).Unregistering? && s' == if ok then Go(s, t, Stopping) else Leave(s, t)
  }

  /* `shutdown` waits again, then signals. */
  predicate DoStop(s: State, s': State, t: Tid) {
    At(s, t).Stopping? && s.pending == 0 && s' == Go(s, t, Awaiting).(stopping := true)
  }

  predicate DoSeeReleased(s: State, s': State, t: Tid) {
    At(s, t).Awaiting? && s.released && s' == Leave(s, t).(registered := false)
  }

  // ---------- The worker thread ----------

  predicate DoReceive(s: State, s': State) {
    && s.worker.Receiving?
    && s' == if s.work.queue == [] then s.(worker := Passing(0))
             else s.(work := s.work.(queue := s.work.queue[1..], active := s.work.active + [s.work.queue[0]]))
  }

  predicate DoAdvance(s: State, s': State, outcome: Option<Outcome>) {
    && s.worker.Passing?
    && var i := s.worker.index;
       if i >= |s.work.active| then s' == s.(worker := Testing)
       else if outcome.None? then s' == s.(worker := Passing(i + 1))
       else 
         s' == s.(
           worker := Storing(i, s.work.active[i], outcome.value),
           work := s.work.(active := SwapRemove(s.work.active, i)))
  }

  predicate DoStore(s: State, s': State) {
    && s.worker.Storing?
    && s' == s.(
         worker := Counting(s.worker.index, s.worker.job),
         work := s.work.(results := s.work.results[s.worker.job := s.worker.outcome]))
  }

  predicate DoCount(s: State, s': State) {
    s.worker.Counting? && s' == s.(worker := Passing(s.worker.index), pending := s.pending - 1)
  }

  predicate DoTest(s: State, s': State) {
    && s.worker.Testing?
    && s' == s.(worker := if s.stopping && s.work.active == [] then DroppingExecutor else Receiving)
  }

  predicate DoDropExecutor(s: State, s': State) {
    s.worker.DroppingExecutor? && s' == s.(worker := DroppingTensors, executor := false)
  }

  predicate DoDropTensors(s: State, s': State) {
    s.worker.DroppingTensors? && s' == s.(worker := Releasing, tensors := false)
  }

  predicate DoRelease(s: State, s': State) {
    s.worker.Releasing? && s' == s.(worker := Gone, released := true)
  }

  predicate NextCaller(s: State, a: Action, s': State) {
    match a
    case Lock(t) => DoLock(s, s', t)
    case Reserve(t) => DoReserve(s, s', t)
    case Validate(t, ok) => DoValidate(s, s', t, ok)
    case Ask(t, ok) => DoAsk(s, s', t, ok)
    case Send(t, job) => DoSend(s, s', t, job)
    case Cancel(t) => DoCancel(s, s', t)
    case LockForShutdown(t) => DoLockForShutdown(s, s', t)
    case Drained(t) => DoDrained(s, s', t)
    case Unregister(t, ok) => DoUnregister(s, s', t, ok)
    case Stop(t) => DoStop(s, s', t)
    case SeeReleased(t) => DoSeeReleased(s, s', t)
    case _ => false
  }

  predicate NextWorker(s: State, a: Action, s': State) {
    match a
    case Receive => DoReceive(s, s')
    case Advance(outcome) => DoAdvance(s, s', outcome)
    case Store => DoStore(s, s')
    case Count => DoCount(s, s')
    case Test => DoTest(s, s')
    case DropExecutor => DoDropExecutor(s, s')
    case DropTensors => DoDropTensors(s, s')
    case Release => DoRelease(s, s')
    case _ => false
  }

  predicate Next(s: State, a: Action, s': State) {
    NextCaller(s, a, s') || NextWorker(s, a, s')
  }

  // ---------- The invariant ----------

  /* The caller's place holds a reservation. */
  predicate Reserving(pc: CallerPc) {
    pc.Validating? || pc.Asking? || pc.Granted? || pc.Cancelling?
  }

  /* Reservations not yet sent or given back; `local` admits one caller. */
  function Reserved(s: State): nat {
    if s.local.Some? && Reserving(At(s, s.local.value)) then 1 else 0
  }

  /* Taken off the active list and not yet counted down. */
  function Completing(s: State): seq<Job> {
    match s.worker
    case Storing(_, job, _) => [job]
    case Counting(_, job) => [job]
    case _ => []
  }

  predicate Dropped(w: WorkerPc) {
    w.DroppingExecutor? || w.DroppingTensors? || w.Releasing? || w.Gone?
  }

  function InStore(w: WorkerPc): multiset<Job> {
    if w.Storing? then multiset{w.job} else multiset{}
  }

  /* Accepted and not known terminal. */
  function Unfinished(s: State): multiset<Job> {
    multiset(s.work.queue) + multiset(s.work.active) + InStore(s.worker)
  }

  ghost predicate TokensOk(s: State) {
    s.pending == Reserved(s) + |s.work.queue| + |s.work.active| + |Completing(s)| <= MAX_PENDING
  }

  ghost predicate LocalOk(s: State) {
    && (forall t :: t in s.callers && !s.callers[t].Away? ==> s.local == Some(t))
    && (s.local.Some? ==> s.local.value in s.callers && !s.callers[s.local.value].Away?)
  }

  /* Once stopping, the stopping caller keeps `local` until nobody can find the worker any more. */
  ghost predicate StopOk(s: State) {
    && (s.stopping ==> s.pending == 0)
    && (s.stopping && s.registered ==> s.local.Some? && At(s, s.local.value).Awaiting?)
    && (s.local.Some? && At(s, s.local.value).Awaiting? ==> s.stopping)
    && (s.local.Some? && (At(s, s.local.value).Unregistering? || At(s, s.local.value).Stopping?) ==> s.pending == 0)
    && (s.local.Some? ==> s.registered)
    && (!s.registered ==> s.stopping)
  }

  ghost predicate OwnersOk(s: State) {
    && (Dropped(s.worker) ==> s.stopping)
    && (s.executor <==> !s.worker.DroppingTensors? && !s.worker.Releasing? && !s.worker.Gone?)
    && (s.tensors <==> !s.worker.Releasing? && !s.worker.Gone?)
    && (s.released <==> s.worker.Gone?)
  }

  /* Each accepted job is, once, in the queue, on the active list, being stored, or has its result. */
  ghost predicate JobsOk(s: State) {
    && (forall job :: job in s.work.accepted ==> Unfinished(s)[job] == if job in s.work.results then 0 else 1)
    && (forall job :: job !in s.work.accepted ==> Unfinished(s)[job] == 0 && job !in s.work.results)
  }

  ghost predicate Inv(s: State) {
    TokensOk(s) && LocalOk(s) && StopOk(s) && OwnersOk(s) && JobsOk(s)
  }

  lemma Starts()
    ensures Inv(START)
  {
  }

  ghost predicate ControlOk(s: State) {
    TokensOk(s) && LocalOk(s) && StopOk(s) && OwnersOk(s)
  }

  predicate Starting(a: Action) {
    a.Lock? || a.Reserve? || a.Validate? || a.Ask? || a.Send? || a.Cancel?
  }

  lemma StartControl(s: State, a: Action, s': State)
    requires ControlOk(s) && NextCaller(s, a, s') && Starting(a)
    ensures ControlOk(s')
  {
  }

  lemma ShutdownControl(s: State, a: Action, s': State)
    requires ControlOk(s) && NextCaller(s, a, s') && !Starting(a)
    ensures ControlOk(s')
  {
  }

  lemma CallerControl(s: State, a: Action, s': State)
    requires ControlOk(s) && NextCaller(s, a, s')
    ensures ControlOk(s')
  {
    hide ControlOk, NextCaller, Starting;
    if Starting(a) { StartControl(s, a, s'); } else { ShutdownControl(s, a, s'); }
  }

  lemma WorkerControl(s: State, a: Action, s': State)
    requires ControlOk(s) && NextWorker(s, a, s')
    ensures ControlOk(s')
  {
    hide SwapRemove;
  }

  lemma SendJobs(s: State, s': State, t: Tid, job: Job)
    requires JobsOk(s) && DoSend(s, s', t, job)
    ensures JobsOk(s')
  {
    assert Unfinished(s') == Unfinished(s) + multiset{job};
  }

  lemma ReceiveJobs(s: State, s': State)
    requires JobsOk(s) && DoReceive(s, s')
    ensures JobsOk(s')
  {
    if s.work.queue != [] {
      assert s.work.queue == [s.work.queue[0]] + s.work.queue[1..];
    }
    assert Unfinished(s') == Unfinished(s);
  }

  lemma Extracted(w: Work, i: nat)
    requires i < |w.active|
    ensures multiset(w.queue) + multiset(SwapRemove(w.active, i)) + multiset{w.active[i]}
         == multiset(w.queue) + multiset(w.active)
  {
    SwapRemoves(w.active, i);
  }

  lemma AdvanceUnfinished(s: State, s': State, outcome: Option<Outcome>)
    requires DoAdvance(s, s', outcome)
    ensures Unfinished(s') == Unfinished(s)
  {
    hide SwapRemove;
    if s.worker.index < |s.work.active| { Extracted(s.work, s.worker.index); }
  }

  lemma AdvanceAccepted(s: State, s': State, outcome: Option<Outcome>)
    requires DoAdvance(s, s', outcome)
    ensures s'.work.accepted == s.work.accepted && s'.work.results == s.work.results
  {
    hide SwapRemove;
  }

  lemma AdvanceJobs(s: State, s': State, outcome: Option<Outcome>)
    requires JobsOk(s) && DoAdvance(s, s', outcome)
    ensures JobsOk(s')
  {
    hide DoAdvance, Unfinished;
    AdvanceUnfinished(s, s', outcome);
    AdvanceAccepted(s, s', outcome);
  }

  lemma StoreJobs(s: State, s': State)
    requires JobsOk(s) && DoStore(s, s')
    ensures JobsOk(s')
  {
    assert Unfinished(s) == Unfinished(s') + multiset{s.worker.job};
  }

  lemma CallerSteps(s: State, a: Action, s': State)
    requires NextCaller(s, a, s') && !a.Send?
    ensures s'.work == s.work && s'.worker == s.worker
  {
    hide At;
    if a.Lock? || a.Reserve? || a.Validate? || a.Ask? || a.Cancel? { StartSteps(s, a, s'); }
  }

  lemma StartSteps(s: State, a: Action, s': State)
    requires NextCaller(s, a, s') && (a.Lock? || a.Reserve? || a.Validate? || a.Ask? || a.Cancel?)
    ensures s'.work == s.work && s'.worker == s.worker
  {
    hide At;
  }

  lemma WorkerSteps(s: State, a: Action, s': State)
    requires NextWorker(s, a, s') && !a.Receive? && !a.Advance? && !a.Store?
    ensures s'.work == s.work && !s.worker.Storing? && !s'.worker.Storing?
  {
  }

  lemma OtherJobs(s: State, a: Action, s': State)
    requires JobsOk(s) && Next(s, a, s') && !a.Send? && !a.Receive? && !a.Advance? && !a.Store?
    ensures JobsOk(s')
  {
    hide NextCaller, NextWorker;
    if NextCaller(s, a, s') { CallerSteps(s, a, s'); } else { WorkerSteps(s, a, s'); }
  }

  lemma NextKeeps(s: State, a: Action, s': State)
    requires Inv(s) && Next(s, a, s')
    ensures Inv(s')
  {
    hide TokensOk, LocalOk, StopOk, OwnersOk, JobsOk;
    if NextCaller(s, a, s') { CallerControl(s, a, s'); } else { WorkerControl(s, a, s'); }
    match a
    case Send(t, job) => SendJobs(s, s', t, job);
    case Receive => ReceiveJobs(s, s');
    case Advance(outcome) => AdvanceJobs(s, s', outcome);
    case Store => StoreJobs(s, s');
    case _ => OtherJobs(s, a, s');
  }

  // ---------- Whole runs ----------

  ghost predicate Run(states: seq<State>, actions: seq<Action>) {
    && |states| == |actions| + 1 && states[0] == START
    && forall i :: 0 <= i < |actions| ==> Next(states[i], actions[i], states[i + 1])
  }

  lemma {:induction false} RunKeeps(states: seq<State>, actions: seq<Action>, i: nat)
    requires Run(states, actions) && i < |states|
    ensures Inv(states[i])
  {
    hide Inv;
    if i == 0 {
      Starts();
    } else {
      RunKeeps(states, actions, i - 1);
      NextKeeps(states[i - 1], actions[i - 1], states[i]);
    }
  }

  /* The counter is the number of restores reserved, queued, active or being completed, at most 1024. */
  lemma TokensConserved(states: seq<State>, actions: seq<Action>, i: nat)
    requires Run(states, actions) && i < |states|
    ensures var s := states[i]; s.pending == Reserved(s) + |s.work.queue| + |s.work.active| + |Completing(s)| <= 1024
  {
    RunKeeps(states, actions, i);
  }

  /* A caller with a grant finds the executor alive, the channel open and room in it: the send neither blocks nor fails. */
  lemma SendNeverBlocks(states: seq<State>, actions: seq<Action>, i: nat, t: Tid)
    requires Run(states, actions) && i < |states| && At(states[i], t).Granted?
    ensures |states[i].work.queue| < 1024 && states[i].executor && !states[i].worker.Gone?
  {
    RunKeeps(states, actions, i);
  }

  /* When `wait_drained` has returned, and until `local` is released, nothing is outstanding and every accepted restore
  has its terminal result. */
  lemma DrainedMeansDone(states: seq<State>, actions: seq<Action>, i: nat, t: Tid)
    requires Run(states, actions) && i < |states|
    requires At(states[i], t).Unregistering? || At(states[i], t).Stopping? || At(states[i], t).Awaiting?
    ensures var s := states[i];
            && Reserved(s) == 0 && s.work.queue == [] && s.work.active == [] && Completing(s) == []
            && forall job :: job in s.work.accepted ==> job in s.work.results
  {
    RunKeeps(states, actions, i);
    NothingOutstanding(states[i]);
  }

  lemma NothingOutstanding(s: State)
    requires Inv(s) && s.pending == 0
    ensures Reserved(s) == 0 && s.work.queue == [] && s.work.active == [] && Completing(s) == []
    ensures forall job :: job in s.work.accepted ==> job in s.work.results
  {
    assert Unfinished(s) == multiset{};
  }

  /* The GPU owners outlive accepted work: once the executor or the tensors are gone, or about to go, nothing is reserved,
  queued or active, every accepted restore has its terminal result, and no further one can be accepted. */
  lemma OwnersOutlive(states: seq<State>, actions: seq<Action>, i: nat)
    requires Run(states, actions) && i < |states|
    requires !states[i].executor || !states[i].tensors || states[i].worker.DroppingExecutor?
    ensures var s := states[i];
            && Reserved(s) == 0 && s.work.queue == [] && s.work.active == [] && Completing(s) == []
            && (forall job :: job in s.work.accepted ==> job in s.work.results)
            && (forall t :: t in s.callers ==> s.callers[t].Away? || s.callers[t].Awaiting?)
  {
    RunKeeps(states, actions, i);
    NothingOutstanding(states[i]);
  }

  /* From then on the set of accepted restores and their results stay as they are. */
  lemma {:induction false} OwnersGoneForGood(states: seq<State>, actions: seq<Action>, i: nat, j: nat)
    requires Run(states, actions) && i <= j < |states| && states[i].stopping
    ensures states[j].stopping && states[j].work == states[i].work
    decreases j
  {
    hide Inv, Next;
    if i < j {
      OwnersGoneForGood(states, actions, i, j - 1);
      RunKeeps(states, actions, j - 1);
      StoppedStep(states[j - 1], actions[j - 1], states[j]);
    }
  }

  lemma StoppedStep(s: State, a: Action, s': State)
    requires Inv(s) && Next(s, a, s') && s.stopping
    ensures s'.stopping && s'.work == s.work
  {
    hide JobsOk, SwapRemove;
  }

  /* A result is stored only for a job that has none, so storing never overwrites. */
  lemma StoredFresh(s: State, s': State)
    requires Inv(s) && DoStore(s, s')
    ensures s.worker.job in s.work.accepted && s.worker.job !in s.work.results
  {
    hide TokensOk, LocalOk, StopOk, OwnersOk;
    assert Unfinished(s)[s.worker.job] >= 1;
  }

  lemma ResultsGrow(s: State, a: Action, s': State)
    requires Inv(s) && Next(s, a, s')
    ensures forall job :: job in s.work.results ==>
              job in s'.work.results && s'.work.results[job] == s.work.results[job]
  {
    hide Inv, NextCaller, NextWorker;
    if a.Store? {
      NotACaller(s, a, s');
      StoredFresh(s, s');
    } else {
      SameResults(s, a, s');
    }
  }

  lemma NotACaller(s: State, a: Action, s': State)
    requires Next(s, a, s') && a.Store?
    ensures DoStore(s, s')
  {
  }

  lemma SameResults(s: State, a: Action, s': State)
    requires Next(s, a, s') && !a.Store?
    ensures s'.work.results == s.work.results
  {
    hide SwapRemove, At, DoAdvance;
    match a
    case Send(t, job) => assert DoSend(s, s', t, job);
    case Receive => assert DoReceive(s, s');
    case Advance(outcome) => AdvanceAccepted(s, s', outcome);
    case _ => SameWork(s, a, s');
  }

  lemma SameWork(s: State, a: Action, s': State)
    requires Next(s, a, s') && !a.Send? && !a.Receive? && !a.Advance? && !a.Store?
    ensures s'.work == s.work
  {
    hide NextCaller, NextWorker;
    if NextCaller(s, a, s') { CallerSteps(s, a, s'); } else { WorkerSteps(s, a, s'); }
  }

  /* A stored result stays for the rest of the run. */
  lemma {:induction false} ResultIsFinal(states: seq<State>, actions: seq<Action>, i: nat, j: nat, job: Job)
    requires Run(states, actions) && i <= j < |states| && job in states[i].work.results
    ensures job in states[j].work.results && states[j].work.results[job] == states[i].work.results[job]
    decreases j
  {
    hide Inv, Next;
    if i < j {
      ResultIsFinal(states, actions, i, j - 1, job);
      RunKeeps(states, actions, j - 1);
      ResultsGrow(states[j - 1], actions[j - 1], states[j]);
    }
  }

  /* No job's result is stored twice in a run. */
  lemma StoredOnce(states: seq<State>, actions: seq<Action>, i: nat, j: nat)
    requires Run(states, actions) && i < j < |actions|
    requires actions[i].Store? && actions[j].Store? && states[i].worker.Storing? && states[j].worker.Storing?
    ensures states[i].worker.job != states[j].worker.job
  {
    hide Inv, Next;
    RunKeeps(states, actions, j);
    NotACaller(states[i], actions[i], states[i + 1]);
    NotACaller(states[j], actions[j], states[j + 1]);
    ResultIsFinal(states, actions, i + 1, j, states[i].worker.job);
    StoredFresh(states[j], states[j + 1]);
  }

  /* The worker never finds the executor missing when it advances a restore. */
  lemma ExecutorPresent(states: seq<State>, actions: seq<Action>, i: nat)
    requires Run(states, actions) && i < |states| && states[i].work.active != []
    ensures states[i].executor && states[i].tensors
  {
    RunKeeps(states, actions, i);
  }
}
