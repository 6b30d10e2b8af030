/** The restore worker together with the result cells of its jobs.

A job's cell is made when the job is accepted.  The worker marks and retains in the cell of the job it is advancing, and
stores the outcome; whoever holds the restore polls and waits at any time.  Each cell's operations are kept in order, so
that what the cell answers is a function of them.
*/
module RestoreDelivery {
  import W = RestoreWorker
  import opened RestoreCell

  type Job = W.Job

  datatype State = State(worker: W.State, cells: map<Job, seq<Op>>)

  datatype Action =
    | Work(a: W.Action)
    | Report(op: Op)
    | Look(job: Job, op: Op)

  const INITIAL := State(W.START, map[])

  /* The response the worker stores. */
  function ResponseOf(job: Job, o: W.Outcome): Response {
    Response(job, if o.succeeded then Succeeded else Failed, o.message)
  }

  function Logged(cells: map<Job, seq<Op>>, job: Job, op: Op): map<Job, seq<Op>> {
    cells[job := (if job in cells then cells[job] else []) + [op]]
  }

  predicate DoWork(s: State, s': State, a: W.Action) {
    && W.Next(s.worker, a, s'.worker)
    && match a
       case Send(_, job) => s'.cells == s.cells[job := []]
       case Store =>
         && s.worker.worker.Storing?
         && var job := s.worker.worker.job;
            s'.cells == Logged(s.cells, job, OpComplete(ResponseOf(job, s.worker.worker.outcome)))
       case _ => s'.cells == s.cells
  }

  /* `advance` marks or retains in the cell of the job at hand. */
  predicate DoReport(s: State, s': State, op: Op) {
    && s.worker.worker.Passing? && s.worker.worker.index < |s.worker.work.active|
    && (op.OpMark? || op.OpRetain?)
    && s' == s.(cells := Logged(s.cells, s.worker.work.active[s.worker.worker.index], op))
  }

  predicate DoLook(s: State, s': State, job: Job, op: Op) {
    job in s.cells && Takes(op) && s' == s.(cells := Logged(s.cells, job, op))
  }

  predicate Next(s: State, a: Action, s': State) {
    match a
    case Work(b) => DoWork(s, s', b)
    case Report(op) => DoReport(s, s', op)
    case Look(job, op) => DoLook(s, s', job, op)
  }

  // ---------- One completion per cell, and it is the stored result ----------

  ghost predicate Uncompleted(ops: seq<Op>) {
    forall i :: 0 <= i < |ops| ==> !ops[i].OpComplete?
  }

  ghost predicate CompletedWith(ops: seq<Op>, response: Response) {
    exists c: nat :: CompletedAt(ops, c) && ops[c].response == response
  }

  ghost predicate CellOk(work: W.Work, job: Job, ops: seq<Op>) {
    if job in work.results then CompletedWith(ops, ResponseOf(job, work.results[job])) else Uncompleted(ops)
  }

  ghost predicate CellsOk(work: W.Work, cells: map<Job, seq<Op>>) {
    && (forall job :: job in cells <==> job in work.accepted)
    && (forall job :: job in cells ==> CellOk(work, job, cells[job]))
  }

  ghost predicate Inv(s: State) {
    W.Inv(s.worker) && CellsOk(s.worker.work, s.cells)
  }

  lemma AppendOther(work: W.Work, job: Job, ops: seq<Op>, op: Op)
    requires CellOk(work, job, ops) && !op.OpComplete?
    ensures CellOk(work, job, ops + [op])
  {
    if job in work.results {
      var c: nat :| CompletedAt(ops, c) && ops[c].response == ResponseOf(job, work.results[job]);
      assert CompletedAt(ops + [op], c) && (ops + [op])[c] == ops[c];
    }
  }

  lemma AppendCompletion(ops: seq<Op>, response: Response)
    requires Uncompleted(ops) && !response.state.Pending?
    ensures CompletedWith(ops + [OpComplete(response)], response)
  {
    assert CompletedAt(ops + [OpComplete(response)], |ops|);
  }

  lemma LoggedOk(work: W.Work, cells: map<Job, seq<Op>>, job: Job, op: Op)
    requires CellsOk(work, cells) && job in cells && !op.OpComplete?
    ensures CellsOk(work, Logged(cells, job, op))
  {
    hide CellOk;
    AppendOther(work, job, cells[job], op);
  }

  lemma SendOk(s: W.State, s': W.State, t: W.Tid, job: Job, cells: map<Job, seq<Op>>)
    requires W.Inv(s) && W.DoSend(s, s', t, job) && CellsOk(s.work, cells)
    ensures CellsOk(s'.work, cells[job := []])
  {
    hide CompletedWith, W.TokensOk, W.LocalOk, W.StopOk, W.OwnersOk, W.Unfinished;
  }

  lemma StoreOk(s: W.State, s': W.State, cells: map<Job, seq<Op>>)
    requires W.Inv(s) && W.DoStore(s, s') && CellsOk(s.work, cells)
    ensures s.worker.job in cells
    ensures CellsOk(s'.work, Logged(cells, s.worker.job, OpComplete(ResponseOf(s.worker.job, s.worker.outcome))))
  {
    hide CompletedWith, Uncompleted, W.Inv;
    W.StoredFresh(s, s');
    AppendCompletion(cells[s.worker.job], ResponseOf(s.worker.job, s.worker.outcome));
  }

  lemma SameCells(s: W.State, a: W.Action, s': W.State, cells: map<Job, seq<Op>>)
    requires W.Next(s, a, s') && !a.Send? && !a.Store? && CellsOk(s.work, cells)
    ensures CellsOk(s'.work, cells)
  {
    hide CompletedWith, Uncompleted, W.Next;
    KeptWork(s, a, s');
  }

  lemma KeptWork(s: W.State, a: W.Action, s': W.State)
    requires W.Next(s, a, s') && !a.Send? && !a.Store?
    ensures s'.work.accepted == s.work.accepted && s'.work.results == s.work.results
  {
    hide W.SwapRemove, W.At, W.DoAdvance;
    match a
    case Receive => assert W.DoReceive(s, s');
    case Advance(outcome) => W.AdvanceAccepted(s, s', outcome);
    case _ => W.SameWork(s, a, s');
  }

  lemma WorkKeeps(s: State, a: W.Action, s': State)
    requires Inv(s) && DoWork(s, s', a)
    ensures Inv(s')
  {
    hide CellsOk, W.Inv, W.Next, W.DoSend, W.DoStore;
    W.NextKeeps(s.worker, a, s'.worker);
    match a
    case Send(t, job) =>
      IsSend(s.worker, s'.worker, t, job);
      SendOk(s.worker, s'.worker, t, job, s.cells);
    case Store =>
      W.NotACaller(s.worker, a, s'.worker);
      StoreOk(s.worker, s'.worker, s.cells);
    case _ =>
      SameCells(s.worker, a, s'.worker, s.cells);
  }

  lemma IsSend(s: W.State, s': W.State, t: W.Tid, job: Job)
    requires W.Next(s, W.Action.Send(t, job), s')
    ensures W.DoSend(s, s', t, job)
  {
  }

  lemma ActiveHasCell(s: State, i: nat)
    requires Inv(s) && i < |s.worker.work.active|
    ensures s.worker.work.active[i] in s.cells
  {
    hide W.TokensOk, W.LocalOk, W.StopOk, W.OwnersOk, CellOk;
    assert s.worker.work.active[i] in multiset(s.worker.work.active);
    assert W.Unfinished(s.worker)[s.worker.work.active[i]] >= 1;
  }

  lemma NextKeeps(s: State, a: Action, s': State)
    requires Inv(s) && Next(s, a, s')
    ensures Inv(s')
  {
    hide W.Inv, CellsOk, DoWork, Logged;
    match a
    case Work(b) => WorkKeeps(s, b, s');
    case Report(op) =>
      ActiveHasCell(s, s.worker.worker.index);
      LoggedOk(s.worker.work, s.cells, s.worker.work.active[s.worker.worker.index], op);
    case Look(job, op) => LoggedOk(s.worker.work, s.cells, job, op);
  }

  // ---------- Whole runs ----------

  ghost predicate Run(states: seq<State>, actions: seq<Action>) {
    && |states| == |actions| + 1 && states[0] == INITIAL
    && forall i :: 0 <= i < |actions| ==> Next(states[i], actions[i], states[i + 1])
  }

  lemma {:induction false} RunKeeps(states: seq<State>, actions: seq<Action>, i: nat)
    requires Run(states, actions) && i < |states|
    ensures Inv(states[i])
  {
    hide Inv, Next;
    if i == 0 {
      Starts();
    } else {
      RunKeeps(states, actions, i - 1);
      NextKeeps(states[i - 1], actions[i - 1], states[i]);
    }
  }

  lemma Starts()
    ensures Inv(INITIAL)
  {
    W.Starts();
  }

  /* The operation at `i` is the first take after the completion. */
  ghost predicate FirstTake(ops: seq<Op>, i: nat) {
    i < |ops| && Takes(ops[i]) && exists c :: 0 <= c < i && ops[c].OpComplete? && !TakenBefore(ops, c, i)
  }

  /* In every run: a poll or wait delivers a terminal response exactly when it is the first after the worker stored the
  result, and what it delivers is that result. */
  lemma DeliveredExactly(states: seq<State>, actions: seq<Action>, n: nat, job: Job, i: nat)
    requires Run(states, actions) && n < |states| && job in states[n].cells && i < |states[n].cells[job]|
    ensures var ops, results := states[n].cells[job], states[n].worker.work.results;
            && (Terminal(Answer(job, ops, i)) <==> FirstTake(ops, i))
            && (Terminal(Answer(job, ops, i)) ==>
                  job in results && Answer(job, ops, i) == Given(ResponseOf(job, results[job])))
  {
    hide W.Inv, Next, Answer, Terminal;
    RunKeeps(states, actions, n);
    var ops, results := states[n].cells[job], states[n].worker.work.results;
    assert CellOk(states[n].worker.work, job, ops);
    if job in results {
      var c: nat :| CompletedAt(ops, c) && ops[c].response == ResponseOf(job, results[job]);
      OneDelivery(job, ops, c, i);
    } else {
      NoEarlyDelivery(job, ops, i);
    }
  }

  /* At most one terminal response is delivered per restore. */
  lemma DeliveredOnce(states: seq<State>, actions: seq<Action>, n: nat, job: Job, i: nat, j: nat)
    requires Run(states, actions) && n < |states| && job in states[n].cells
    requires i < |states[n].cells[job]| && Terminal(Answer(job, states[n].cells[job], i))
    requires j < |states[n].cells[job]| && Terminal(Answer(job, states[n].cells[job], j))
    ensures i == j
  {
    hide W.Inv, Next, Answer, Terminal, TakenBefore;
    RunKeeps(states, actions, n);
    DeliveredExactly(states, actions, n, job, i);
    var ops := states[n].cells[job];
    assert CellOk(states[n].worker.work, job, ops);
    var c: nat :| CompletedAt(ops, c) && ops[c].response == ResponseOf(job, states[n].worker.work.results[job]);
    AtMostOneDelivery(job, ops, c, i, j);
  }

  /* What `wait_enqueued` says in any state of a run. */
  lemma EnqueuedTellsTruth(states: seq<State>, actions: seq<Action>, n: nat, job: Job)
    requires Run(states, actions) && n < |states| && job in states[n].cells
    ensures var ops, results := states[n].cells[job], states[n].worker.work.results;
            var answer := EnqueuedOf(After(job, ops));
            && (job !in results ==> answer == if MarkedBefore(ops, |ops|) then Yes else NotYet)
            && (job in results && (forall i :: 0 <= i < |ops| ==> !FirstTake(ops, i)) ==>
                  answer == if results[job].succeeded then Yes else Error(results[job].message))
            && (job in results && (exists i :: FirstTake(ops, i)) ==> answer.Gone?)
  {
    hide W.Inv, Next, After, EnqueuedOf, MarkedBefore, TakenBefore;
    RunKeeps(states, actions, n);
    var ops, results := states[n].cells[job], states[n].worker.work.results;
    assert CellOk(states[n].worker.work, job, ops);
    assert ops[..|ops|] == ops;
    if job in results {
      var c: nat :| CompletedAt(ops, c) && ops[c].response == ResponseOf(job, results[job]);
      EnqueuedExactly(job, ops, c, |ops|);
      TakenIsFirst(ops, c);
    } else {
      EnqueuedBefore(job, ops, |ops|);
    }
  }

  /* If anyone took the result, someone was first. */
  lemma TakenIsFirst(ops: seq<Op>, c: nat)
    requires CompletedAt(ops, c)
    ensures TakenBefore(ops, c, |ops|) <==> exists i :: FirstTake(ops, i)
  {
    if TakenBefore(ops, c, |ops|) {
      var k :| c < k < |ops| && Takes(ops[k]);
      FirstExists(ops, c, k);
    }
  }

  lemma {:induction false} FirstExists(ops: seq<Op>, c: nat, k: nat)
    requires CompletedAt(ops, c) && c < k < |ops| && Takes(ops[k])
    ensures exists i :: FirstTake(ops, i)
    decreases k
  {
    if TakenBefore(ops, c, k) {
      var i :| c < i < k && i < |ops| && Takes(ops[i]);
      FirstExists(ops, c, i);
    } else {
      assert FirstTake(ops, k);
    }
  }
}
