/** The one-shot result cell of a restore. */
module RestoreCell {
  import opened Wrappers
  import RestoreWorker

  type Byte = RestoreWorker.Byte

  datatype Progress = Pending | Succeeded | Failed

  datatype Response = Response(operation: int, state: Progress, message: seq<Byte>)

  datatype Cell =
    | Unfinished(enqueued: bool, retained: Option<seq<Byte>>)
    | Ready(response: Response)
    | Consumed

  /* `Refused` is "already consumed". */
  datatype Taken = Nothing | Given(response: Response) | Refused

  const MAX_MESSAGE := 1024

  // ---------- The operations as functions ----------

  function Marked(c: Cell): Cell {
    if c.Unfinished? then c.(enqueued := true) else c
  }

  function Retained(c: Cell, message: seq<Byte>): Cell {
    if c.Unfinished? then c.(retained := Some(message)) else c
  }

  function Take(c: Cell): (Taken, Cell) {
    match c
    case Unfinished(_, _) => (Nothing, c)
    case Ready(response) => (Given(response), Consumed)
    case Consumed => (Refused, c)
  }

  /* A retained operation answers with its message and stays pending. */
  function Polled(operation: int, c: Cell): (Taken, Cell) {
    if c.Unfinished? && c.retained.Some? then (Given(Response(operation, Pending, c.retained.value)), c) else Take(c)
  }

  /* Whether the layer events were submitted, or why not. */
  datatype Enqueued = Yes | NotYet | Error(message: seq<Byte>) | Gone

  function EnqueuedOf(c: Cell): Enqueued {
    match c
    case Unfinished(enqueued, _) => if enqueued then Yes else NotYet
    case Ready(response) => if response.state.Succeeded? then Yes else Error(response.message)
    case Consumed => Gone
  }

  // ---------- Cutting a message at a character boundary ----------

  /* `is_char_boundary` on UTF-8 bytes. */
  predicate Boundary(message: seq<Byte>, i: nat)
    requires i <= |message|
  {
    i == 0 || i == |message| || !(0x80 <= message[i] < 0xC0)
  }

  /* The longest prefix of at most 1024 bytes that ends at a boundary. */
  ghost predicate Cut(message: seq<Byte>, end: nat) {
    && end <= |message| && end <= MAX_MESSAGE && Boundary(message, end)
    && forall k :: end < k <= |message| && k <= MAX_MESSAGE ==> !Boundary(message, k)
  }

  method Truncate(message: seq<Byte>) returns (r: seq<Byte>)
    ensures |r| <= |message| && r == message[..|r|] && Cut(message, |r|)
    ensures |message| <= MAX_MESSAGE ==> r == message
  {
    var end := if |message| < MAX_MESSAGE then |message| else MAX_MESSAGE;
    while !Boundary(message, end)
      invariant 0 <= end <= |message| && end <= MAX_MESSAGE
      invariant forall k :: end < k <= |message| && k <= MAX_MESSAGE ==> !Boundary(message, k)
      invariant |message| <= MAX_MESSAGE ==> end == |message|
      decreases end
    {
      end := end - 1;
    }
    r := message[..end];
  }

  /* A cut message is not cut again. */
  lemma CutOnce(message: seq<Byte>, end: nat)
    requires Cut(message, end)
    ensures Cut(message[..end], end)
    ensures forall other :: Cut(message, other) ==> other == end
  {
  }

  // ---------- The cell ----------

  class LocalRestore {
    const operation: int
    var result: Cell

    constructor (operation: int)
      ensures this.operation == operation && result == Unfinished(false, None)
    {
      this.operation := operation;
      result := Unfinished(false, None);
    }

    method MarkEnqueued()
      modifies this
      ensures result == Marked(old(result))
    {
      if result.Unfinished? {
        result := result.(enqueued := true);
      }
    }

    method RetainUnproven(message: seq<Byte>) returns (cut: seq<Byte>)
      modifies this
      ensures |cut| <= |message| && cut == message[..|cut|] && Cut(message, |cut|)
      ensures result == Retained(old(result), cut)
    {
      cut := Truncate(message);
      if result.Unfinished? && result.retained != Some(cut) {
        result := result.(retained := Some(cut));
      }
    }

    /* `RestoreResult::take` */
    method TakeResult() returns (r: Taken)
      modifies this
      ensures (r, result) == Take(old(result))
    {
      var before := result;
      result := Consumed;
      match before
      case Unfinished(_, _) =>
        result := before;
        r := Nothing;
      case Ready(response) =>
        r := Given(response);
      case Consumed =>
        r := Refused;
    }

    method Poll() returns (r: Taken)
      modifies this
      ensures (r, result) == Polled(operation, old(result))
    {
      if result.Unfinished? && result.retained.Some? {
        return Given(Response(operation, Pending, result.retained.value));
      }
      r := TakeResult();
    }

    /* After the condition variable woke or timed out. */
    method Wait() returns (r: Taken)
      modifies this
      ensures (r, result) == Take(old(result))
    {
      r := TakeResult();
    }

    method WaitEnqueued() returns (r: Enqueued)
      ensures r == EnqueuedOf(result)
    {
      match result
      case Ready(response) =>
        r := if response.state != Succeeded then Error(response.message) else Yes;
      case Consumed =>
        r := Gone;
      case Unfinished(enqueued, _) =>
        r := if enqueued then Yes else NotYet;
    }

    /* The worker stores the outcome. */
    method Complete(response: Response)
      modifies this
      ensures result == Ready(response)
    {
      result := Ready(response);
    }
  }

  // ---------- Any interleaving of the operations ----------

  datatype Op = OpMark | OpRetain(message: seq<Byte>) | OpComplete(response: Response) | OpPoll | OpWait

  function Apply(operation: int, c: Cell, op: Op): (Taken, Cell) {
    match op
    case OpMark => (Nothing, Marked(c))
    case OpRetain(message) => (Nothing, Retained(c, message))
    case OpComplete(response) => (Nothing, Ready(response))
    case OpPoll => Polled(operation, c)
    case OpWait => Take(c)
  }

  function After(operation: int, ops: seq<Op>): Cell {
    if ops == [] then Unfinished(false, None)
    else Apply(operation, After(operation, ops[..|ops| - 1]), ops[|ops| - 1]).1
  }

  /* What the operation at `i` answered. */
  function Answer(operation: int, ops: seq<Op>, i: nat): Taken
    requires i < |ops|
  {
    Apply(operation, After(operation, ops[..i]), ops[i]).0
  }

  predicate Takes(op: Op) {
    op.OpPoll? || op.OpWait?
  }

  predicate Terminal(t: Taken) {
    t.Given? && !t.response.state.Pending?
  }

  /* The worker completes the restore once, at `c`, with a terminal response. */
  ghost predicate CompletedAt(ops: seq<Op>, c: nat) {
    && c < |ops| && ops[c].OpComplete? && !ops[c].response.state.Pending?
    && forall i :: 0 <= i < |ops| && ops[i].OpComplete? ==> i == c
  }

  /* Someone took the result between completion and `n`. */
  ghost predicate TakenBefore(ops: seq<Op>, c: nat, n: nat) {
    exists k :: c < k < n && k < |ops| && Takes(ops[k])
  }

  lemma {:induction false} BeforeCompletion(operation: int, ops: seq<Op>, n: nat)
    requires n <= |ops| && forall i :: 0 <= i < n ==> !ops[i].OpComplete?
    ensures After(operation, ops[..n]).Unfinished?
    decreases n
  {
    if n > 0 {
      BeforeCompletion(operation, ops, n - 1);
      assert ops[..n][..n - 1] == ops[..n - 1];
    }
  }

  lemma {:induction false} AfterCompletion(operation: int, ops: seq<Op>, c: nat, n: nat)
    requires CompletedAt(ops, c) && c < n <= |ops|
    ensures After(operation, ops[..n]) == if TakenBefore(ops, c, n) then Consumed else Ready(ops[c].response)
    decreases n
  {
    assert ops[..n][..n - 1] == ops[..n - 1];
    if n == c + 1 {
      BeforeCompletion(operation, ops, c);
    } else {
      AfterCompletion(operation, ops, c, n - 1);
      if TakenBefore(ops, c, n) && !Takes(ops[n - 1]) {
        var k :| c < k < n && k < |ops| && Takes(ops[k]);
        assert TakenBefore(ops, c, n - 1);
      }
    }
  }

  /* The operation at `i` delivers a terminal response exactly when it is the first take after completion, and then it
  delivers what the worker stored. */
  lemma OneDelivery(operation: int, ops: seq<Op>, c: nat, i: nat)
    requires CompletedAt(ops, c) && i < |ops|
    ensures Terminal(Answer(operation, ops, i)) <==> i > c && Takes(ops[i]) && !TakenBefore(ops, c, i)
    ensures Terminal(Answer(operation, ops, i)) ==> Answer(operation, ops, i) == Given(ops[c].response)
    ensures i > c && Takes(ops[i]) && TakenBefore(ops, c, i) ==> Answer(operation, ops, i).Refused?
  {
    if i <= c {
      BeforeCompletion(operation, ops, i);
    } else {
      AfterCompletion(operation, ops, c, i);
    }
  }

  /* At most one terminal response is delivered. */
  lemma AtMostOneDelivery(operation: int, ops: seq<Op>, c: nat, i: nat, j: nat)
    requires CompletedAt(ops, c) && i < |ops| && j < |ops|
    requires Terminal(Answer(operation, ops, i)) && Terminal(Answer(operation, ops, j))
    ensures i == j
  {
    OneDelivery(operation, ops, c, i);
    OneDelivery(operation, ops, c, j);
  }

  /* Nothing is delivered for a restore the worker has not completed, and its cell never looks finished. */
  lemma NoEarlyDelivery(operation: int, ops: seq<Op>, i: nat)
    requires i < |ops| && forall k :: 0 <= k < |ops| ==> !ops[k].OpComplete?
    ensures !Terminal(Answer(operation, ops, i)) && !Answer(operation, ops, i).Refused?
  {
    BeforeCompletion(operation, ops, i);
  }

  ghost predicate MarkedBefore(ops: seq<Op>, n: nat) {
    exists k :: 0 <= k < n && k < |ops| && ops[k].OpMark?
  }

  lemma {:induction false} EnqueuedBefore(operation: int, ops: seq<Op>, n: nat)
    requires n <= |ops| && forall i :: 0 <= i < n ==> !ops[i].OpComplete?
    ensures EnqueuedOf(After(operation, ops[..n])) == if MarkedBefore(ops, n) then Yes else NotYet
    decreases n
  {
    BeforeCompletion(operation, ops, n);
    if n > 0 {
      BeforeCompletion(operation, ops, n - 1);
      EnqueuedBefore(operation, ops, n - 1);
      assert ops[..n][..n - 1] == ops[..n - 1];
      if MarkedBefore(ops, n) && !ops[n - 1].OpMark? {
        var k :| 0 <= k < n && k < |ops| && ops[k].OpMark?;
        assert MarkedBefore(ops, n - 1);
      }
    }
  }

  /* What `wait_enqueued` answers after `n` operations: before completion whether the records were marked as submitted;
  after it, until the result is taken, whether the restore succeeded, or its message; then that it is gone. */
  lemma EnqueuedExactly(operation: int, ops: seq<Op>, c: nat, n: nat)
    requires CompletedAt(ops, c) && n <= |ops|
    ensures var answer := EnqueuedOf(After(operation, ops[..n]));
            var response := ops[c].response;
            && (n <= c ==> answer == if MarkedBefore(ops, n) then Yes else NotYet)
            && (n > c && !TakenBefore(ops, c, n) ==>
                  answer == if response.state.Succeeded? then Yes else Error(response.message))
            && (n > c && TakenBefore(ops, c, n) ==> answer.Gone?)
  {
    if n <= c { EnqueuedBefore(operation, ops, n); } else { AfterCompletion(operation, ops, c, n); }
  }

  /* A finished cell never becomes pending again. */
  lemma {:induction false} FinishedStays(operation: int, ops: seq<Op>, i: nat, j: nat)
    requires i <= j <= |ops| && !After(operation, ops[..i]).Unfinished?
    ensures !After(operation, ops[..j]).Unfinished?
    decreases j
  {
    if i < j {
      FinishedStays(operation, ops, i, j - 1);
      assert ops[..j][..j - 1] == ops[..j - 1];
    }
  }
}
