/** The two-host lease and drain protocol: endpoints that export GPU memory, one owner per host that launches and reaps
them under resource leases, and a controller that may do anything with the receipts it has been sent.

Crashes, refusals, timeouts and lost control are actions like any other.  An owner starts a (cell, name) at most once,
because its log file must be new; so a process is known by its host, cell and name.  The frozen contract fixes which host
runs a cell's reader.
*/
module HostLease {
  import opened Wrappers

  type Host = nat

  type Cell = nat

  /* `gpu-reader`, `gpu-peer`, or a service such as a manager. */
  datatype Name = Reader | Peer | Service(id: nat)

  datatype Proc = Proc(host: Host, cell: Cell, name: Name)

  /* What an owner's `stop` returns; `actual_wait_reap` is true and `forced_cleanup` false in every one. */
  datatype Receipt = Receipt(host: Host, cell: Cell, name: Name, nativeStopped: bool, exitCode: int)

  datatype Command = Work(ok: bool) | StopCommand(receipt: Option<Receipt>)

  datatype Frame = ReadyFrame | ResultFrame | StoppedFrame | UnknownFrame | EofFrame

  datatype Phase = Starting | Serving | Unwinding | Ended | Retained | Exited(code: int)

  datatype Endpoint = Endpoint(
    phase: Phase, buffers: bool, exposed: bool, registered: bool, stopped: bool, native: bool, failed: bool,
    crashed: bool, input: seq<Command>, output: seq<Frame>)

  datatype Child = Child(cell: Cell, nativeStopped: bool)

  datatype OwnerPc = Listening | Waiting(name: Name, expected: Frame) | Reaping(name: Name) | Leaving | Paused | Closed

  datatype Owner = Owner(
    children: map<Name, Child>, launched: set<(Cell, Name)>, uncertain: bool, workAdmitted: bool, finished: bool,
    pc: OwnerPc)

  /* The receipts owners have issued, those on their way to the controller, and those it has. */
  datatype Control = Control(receipts: set<Receipt>, sent: seq<Receipt>, known: set<Receipt>)

  datatype State = State(
    readerHost: map<Cell, Host>, owners: map<Host, Owner>, endpoints: map<Proc, Endpoint>, reaped: set<Proc>,
    control: Control)

  const FRESH_OWNER := Owner(map[], {}, false, false, false, Listening)
  const FRESH_ENDPOINT := Endpoint(Starting, false, false, false, false, false, false, false, [], [])

  /* Owners that hold their leases and have launched nothing. */
  predicate Initial(s: State) {
    && s.endpoints == map[] && s.reaped == {} && s.control == Control({}, [], {})
    && forall h :: h in s.owners ==> s.owners[h] == FRESH_OWNER
  }

  predicate Gpu(name: Name) {
    !name.Service?
  }

  // ---------- Endpoints ----------

  /* `validate_stop` */
  predicate ValidStop(readerHost: map<Cell, Host>, p: Proc, receipt: Option<Receipt>) {
    p.name.Peer? ==>
      && receipt.Some? && p.cell in readerHost
      && var r := receipt.value;
         && r.cell == p.cell && r.host == readerHost[p.cell] && r.name.Reader?
         && r.nativeStopped && (r.exitCode == 0 || r.exitCode == 1)
  }

  datatype EndpointMove =
    | Allocate
    | Register(ok: bool)
    | Announce
    | Fault
    | Handle
    | ControlEof
    | NicBusy
    | Unregister(ok: bool)
    | Free(ok: bool)
    | EmitStopped
    | Quit
    | Crash(code: int)

  function Emit(e: Endpoint, f: Frame): Endpoint {
    e.(output := e.output + [f])
  }

  function Retain(e: Endpoint): Endpoint {
    e.(phase := Phase.Retained, output := e.output + [UnknownFrame])
  }

  predicate CanMove(p: Proc, e: Endpoint, m: EndpointMove) {
    match m
    case Allocate => Gpu(p.name) && e.phase.Starting? && !e.buffers
    case Register(_) => Gpu(p.name) && e.phase.Starting? && e.buffers && !e.exposed
    case Announce => Gpu(p.name) && e.phase.Starting? && e.registered
    case Fault => Gpu(p.name) && (e.phase.Starting? || e.phase.Serving?)
    case Handle => Gpu(p.name) && e.phase.Serving? && e.input != []
    case ControlEof => Gpu(p.name) && e.phase.Serving?
    case NicBusy => Gpu(p.name) && e.phase.Unwinding?
    case Unregister(_) => Gpu(p.name) && e.phase.Unwinding? && e.registered
    case Free(_) => Gpu(p.name) && e.phase.Unwinding? && !e.registered && e.buffers
    case EmitStopped => Gpu(p.name) && e.phase.Unwinding? && !e.registered && !e.buffers
    case Quit => e.phase.Ended? || (p.name.Service? && !e.phase.Exited?)
    case Crash(_) => !e.phase.Exited?
  }

  function Handled(readerHost: map<Cell, Host>, p: Proc, e: Endpoint, c: Command): (r: Endpoint)
    ensures r.input == e.input && r.native == e.native
  {
    match c
    case Work(ok) => Emit(e.(failed := e.failed || !ok), ResultFrame)
    case StopCommand(receipt) =>
      if ValidStop(readerHost, p, receipt) then e.(stopped := true, phase := Unwinding)
      else Emit(e.(failed := true), ResultFrame)
  }

  /* `main` of the endpoint, one step at a time. */
  function Moved(readerHost: map<Cell, Host>, p: Proc, e: Endpoint, m: EndpointMove): Endpoint
    requires CanMove(p, e, m)
  {
    match m
    case Allocate => e.(buffers := true)
    case Register(ok) =>
      var attempted := e.(exposed := true, registered := true);
      if ok then attempted else Retain(attempted)
    case Announce => Emit(e.(phase := Serving), ReadyFrame)
    case Fault => if e.exposed && !e.stopped then Retain(e) else e.(phase := Unwinding, failed := true)
    case Handle => Handled(readerHost, p, e.(input := e.input[1..]), e.input[0])
    case ControlEof => Retain(e)
    case NicBusy => Retain(e)
    case Unregister(ok) => if ok then e.(registered := false) else Retain(e)
    case Free(ok) => if ok then e.(buffers := false) else Retain(e)
    case EmitStopped => Emit(e.(phase := Ended, native := true), StoppedFrame)
    case Quit => Emit(e.(phase := Exited(if e.failed then 1 else 0)), EofFrame)
    case Crash(code) =>
      Emit(e.(phase := Exited(code), buffers := false, registered := false, crashed := true), EofFrame)
  }

  // ---------- Owners ----------

  datatype Action =
    | Process(p: Proc, move: EndpointMove)
    | Launch(h: Host, cell: Cell, name: Name, started: bool)
    | Call(h: Host, name: Name, request: Option<Command>)
    | Reply(h: Host)
    | CallTimeout(h: Host)
    | CallError(h: Host)
    | Stop(h: Host, name: Name, idleProven: bool)
    | Reaped(h: Host)
    | Learn
    | StopTimeout(h: Host)
    | Finish(h: Host, quiet: bool)
    | Break(h: Host, quarantine: bool)
    | Leave(h: Host)

  function SetOwner(s: State, h: Host, o: Owner): State {
    s.(owners := s.owners[h := o])
  }

  function SetEndpoint(s: State, p: Proc, e: Endpoint): State {
    s.(endpoints := s.endpoints[p := e])
  }

  predicate Listens(s: State, h: Host) {
    h in s.owners && s.owners[h].pc.Listening?
  }

  predicate DoEndpoint(s: State, s': State, p: Proc, m: EndpointMove) {
    && p in s.endpoints && p !in s.reaped && CanMove(p, s.endpoints[p], m)
    && s' == SetEndpoint(s, p, Moved(s.readerHost, p, s.endpoints[p], m))
  }

  /* A refused admission changes nothing; a spawn that fails leaves its log file behind. */
  predicate DoLaunch(s: State, s': State, h: Host, cell: Cell, name: Name, started: bool) {
    && Listens(s, h)
    && var o := s.owners[h];
       && !o.uncertain && name !in o.children && (cell, name) !in o.launched
       && var logged := o.(launched := o.launched + {(cell, name)});
          if started then
            s' == SetEndpoint(
              SetOwner(s, h, logged.(children := o.children[name := Child(cell, false)], workAdmitted := true)),
              Proc(h, cell, name), FRESH_ENDPOINT)
          else s' == SetOwner(s, h, logged)
  }

  function Expected(request: Option<Command>): Frame {
    if request.None? then ReadyFrame else if request.value.StopCommand? then StoppedFrame else ResultFrame
  }

  /* A stop request carries no receipt, or one the controller has received. */
  predicate DoCall(s: State, s': State, h: Host, name: Name, request: Option<Command>) {
    && Listens(s, h)
    && var o := s.owners[h];
       && !o.uncertain && name in o.children && Gpu(name)
       && (request.Some? && request.value.StopCommand? && request.value.receipt.Some? ==>
             request.value.receipt.value in s.control.known)
       && var p := Proc(h, o.children[name].cell, name);
          var waiting := SetOwner(s, h, o.(pc := Waiting(name, Expected(request))));
          if request.Some? && p in s.endpoints then
            s' == SetEndpoint(waiting, p, s.endpoints[p].(input := s.endpoints[p].input + [request.value]))
          else s' == waiting
  }

  function Quarantined(o: Owner): Owner {
    o.(uncertain := true)
  }

  /* The next frame is the expected one, or the owner is quarantined. */
  predicate DoReply(s: State, s': State, h: Host) {
    && h in s.owners && s.owners[h].pc.Waiting?
    && var o := s.owners[h];
       var Waiting(name, expected) := o.pc;
       && name in o.children
       && var p := Proc(h, o.children[name].cell, name);
          && p in s.endpoints && s.endpoints[p].output != []
          && var frame := s.endpoints[p].output[0];
             var popped := SetEndpoint(s, p, s.endpoints[p].(output := s.endpoints[p].output[1..]));
             var o' :=
               if frame != expected then Quarantined(o)
               else if expected.StoppedFrame? then
                 o.(children := o.children[name := o.children[name].(nativeStopped := true)])
               else o;
             s' == SetOwner(popped, h, o'.(pc := Listening))
  }

  predicate DoCallTimeout(s: State, s': State, h: Host) {
    && h in s.owners && s.owners[h].pc.Waiting?
    && s' == SetOwner(s, h, Quarantined(s.owners[h]).(pc := Listening))
  }

  /* A broken pipe, or a stop frame without its counts: an error response, no quarantine. */
  predicate DoCallError(s: State, s': State, h: Host) {
    && h in s.owners && s.owners[h].pc.Waiting?
    && s' == SetOwner(s, h, s.owners[h].(pc := Listening))
  }

  predicate DoStop(s: State, s': State, h: Host, name: Name, idleProven: bool) {
    && Listens(s, h)
    && var o := s.owners[h];
       && name in o.children
       && (if Gpu(name) then o.children[name].nativeStopped else idleProven)
       && s' == SetOwner(s, h, o.(pc := Reaping(name)))
  }

  predicate DoReaped(s: State, s': State, h: Host) {
    && h in s.owners && s.owners[h].pc.Reaping?
    && var o := s.owners[h];
       var name := o.pc.name;
       && name in o.children
       && var p := Proc(h, o.children[name].cell, name);
          && p in s.endpoints && s.endpoints[p].phase.Exited?
          && var receipt := Receipt(h, p.cell, name, o.children[name].nativeStopped, s.endpoints[p].phase.code);
             s' == SetOwner(s, h, o.(children := o.children - {name}, pc := Listening)).(
               reaped := s.reaped + {p},
               control := s.control.(receipts := s.control.receipts + {receipt}, sent := s.control.sent + [receipt]))
  }

  /* The controller reads an owner's response to a stop. */
  predicate DoLearn(s: State, s': State) {
    && s.control.sent != []
    && s' == s.(control := s.control.(sent := s.control.sent[1..], known := s.control.known + {s.control.sent[0]}))
  }

  predicate DoStopTimeout(s: State, s': State, h: Host) {
    && h in s.owners && s.owners[h].pc.Reaping?
    && s' == SetOwner(s, h, Quarantined(s.owners[h]).(pc := Listening))
  }

  /* `finish` returns once the host is quiet, and quarantines if it does not become quiet. */
  predicate DoFinish(s: State, s': State, h: Host, quiet: bool) {
    && Listens(s, h)
    && var o := s.owners[h];
       && o.children == map[] && !o.uncertain
       && s' == SetOwner(s, h, if quiet then o.(finished := true, pc := Leaving) else Quarantined(o))
  }

  /* The command loop ends: controller EOF and bad frames quarantine, an unforeseen exception does not. */
  predicate DoBreak(s: State, s': State, h: Host, quarantine: bool) {
    && Listens(s, h)
    && var o := s.owners[h];
       s' == SetOwner(s, h, (if quarantine then Quarantined(o) else o).(pc := Leaving))
  }

  /* The `finally` block of the owner's `main`. */
  predicate DoLeave(s: State, s': State, h: Host) {
    && h in s.owners && s.owners[h].pc.Leaving?
    && var o := s.owners[h];
       s' == SetOwner(s, h,
         if !o.finished && (o.children != map[] || o.workAdmitted) then Quarantined(o).(pc := Paused)
         else if !o.finished && o.uncertain then o.(pc := Paused)
         else o.(pc := Closed))
  }

  predicate Next(s: State, a: Action, s': State) {
    match a
    case Process(p, move) => DoEndpoint(s, s', p, move)
    case Launch(h, cell, name, started) => DoLaunch(s, s', h, cell, name, started)
    case Call(h, name, request) => DoCall(s, s', h, name, request)
    case Reply(h) => DoReply(s, s', h)
    case CallTimeout(h) => DoCallTimeout(s, s', h)
    case CallError(h) => DoCallError(s, s', h)
    case Stop(h, name, idleProven) => DoStop(s, s', h, name, idleProven)
    case Reaped(h) => DoReaped(s, s', h)
    case Learn => DoLearn(s, s')
    case StopTimeout(h) => DoStopTimeout(s, s', h)
    case Finish(h, quiet) => DoFinish(s, s', h, quiet)
    case Break(h, quarantine) => DoBreak(s, s', h, quarantine)
    case Leave(h) => DoLeave(s, s', h)
  }

  // ---------- The invariant ----------

  /* The cell's reader stopped natively and was reaped. */
  ghost predicate ReaderDone(readerHost: map<Cell, Host>, reaped: set<Proc>, cell: Cell) {
    cell in readerHost && Proc(readerHost[cell], cell, Reader) in reaped
  }

  /* Every stop command on its way carries no receipt or an issued one. */
  ghost predicate CommandsOk(receipts: set<Receipt>, e: Endpoint) {
    forall i :: 0 <= i < |e.input| && e.input[i].StopCommand? && e.input[i].receipt.Some? ==>
      e.input[i].receipt.value in receipts
  }

  ghost predicate MemoryOk(readerHost: map<Cell, Host>, reaped: set<Proc>, p: Proc, e: Endpoint) {
    && (e.native ==> !e.registered && !e.buffers && !e.phase.Serving? && !e.phase.Starting? && !e.phase.Unwinding?)
    && (StoppedFrame in e.output ==> e.native)
    && (e.phase.Ended? ==> e.native)
    && (e.phase.Starting? || e.phase.Serving? ==> !e.stopped)
    && (e.registered ==> e.exposed)
    && (e.crashed ==> e.phase.Exited?)
    && (e.exposed && (!e.registered || !e.buffers || e.phase.Unwinding? || e.phase.Ended?) ==> e.stopped || e.crashed)
    && (e.exposed && e.stopped && p.name.Peer? ==> ReaderDone(readerHost, reaped, p.cell))
    && (p.name.Service? ==> !e.buffers && !e.exposed && !e.registered)
  }

  ghost predicate EndpointOk(s: State, p: Proc)
    requires p in s.endpoints
  {
    var e := s.endpoints[p];
    && MemoryOk(s.readerHost, s.reaped, p, e) && CommandsOk(s.control.receipts, e)
    && p.host in s.owners && (p.cell, p.name) in s.owners[p.host].launched && s.owners[p.host].workAdmitted
    && (if p in s.reaped then e.phase.Exited? && (Gpu(p.name) ==> e.native)
        else p.name in s.owners[p.host].children && s.owners[p.host].children[p.name].cell == p.cell)
  }

  ghost predicate OwnerOk(s: State, h: Host)
    requires h in s.owners
  {
    var o := s.owners[h];
    && (forall name :: name in o.children ==>
          && Proc(h, o.children[name].cell, name) in s.endpoints
          && Proc(h, o.children[name].cell, name) !in s.reaped
          && (o.children[name].nativeStopped ==> s.endpoints[Proc(h, o.children[name].cell, name)].native))
    && (o.finished ==> o.children == map[] && (o.pc.Leaving? || o.pc.Closed?))
    && (o.pc.Closed? ==> o.finished || (o.children == map[] && !o.workAdmitted && !o.uncertain))
    && (o.pc.Reaping? ==> o.pc.name in o.children && (Gpu(o.pc.name) ==> o.children[o.pc.name].nativeStopped))
  }

  ghost predicate ReceiptOk(s: State, r: Receipt) {
    Proc(r.host, r.cell, r.name) in s.reaped
  }

  /* Whatever the controller has or will get was issued. */
  ghost predicate ControlOk(c: Control) {
    c.known <= c.receipts && forall i :: 0 <= i < |c.sent| ==> c.sent[i] in c.receipts
  }

  ghost predicate Inv(s: State) {
    && (forall p :: p in s.endpoints ==> EndpointOk(s, p))
    && (forall h :: h in s.owners ==> OwnerOk(s, h))
    && (forall r :: r in s.control.receipts ==> ReceiptOk(s, r))
    && (forall p :: p in s.reaped ==> p in s.endpoints)
    && ControlOk(s.control)
  }

  lemma Starts(s: State)
    requires Initial(s)
    ensures Inv(s)
  {
  }

  // ---------- Preservation ----------

  lemma MoveKeepsMemory(s: State, p: Proc, e: Endpoint, m: EndpointMove)
    requires MemoryOk(s.readerHost, s.reaped, p, e) && CommandsOk(s.control.receipts, e) && CanMove(p, e, m)
    requires forall r :: r in s.control.receipts ==> ReceiptOk(s, r)
    ensures MemoryOk(s.readerHost, s.reaped, p, Moved(s.readerHost, p, e, m))
  {
    if m.Handle? && e.input[0].StopCommand? && e.input[0].receipt.Some? {
      assert e.input[0].receipt.value in s.control.receipts;
    }
  }

  lemma MoveKeepsCommands(s: State, p: Proc, e: Endpoint, m: EndpointMove)
    requires CommandsOk(s.control.receipts, e) && CanMove(p, e, m)
    ensures CommandsOk(s.control.receipts, Moved(s.readerHost, p, e, m))
    ensures e.native ==> Moved(s.readerHost, p, e, m).native
  {
    hide Moved, CanMove;
    MovedInput(s.readerHost, p, e, m);
  }

  /* Handling takes the first command; nothing else touches the input, and a native stop stays one. */
  lemma MovedInput(readerHost: map<Cell, Host>, p: Proc, e: Endpoint, m: EndpointMove)
    requires CanMove(p, e, m)
    ensures m.Handle? ==> e.input != []
    ensures Moved(readerHost, p, e, m).input == if m.Handle? then e.input[1..] else e.input
    ensures e.native ==> Moved(readerHost, p, e, m).native
  {
    hide ValidStop, Gpu, Handled;
  }

  /* Owner `h` forgets nothing it has launched and keeps its children's cells. */
  predicate OwnerKeeps(s: State, s': State, h: Host) {
    && h in s.owners && h in s'.owners
    && s.owners[h].launched <= s'.owners[h].launched
    && (s.owners[h].workAdmitted ==> s'.owners[h].workAdmitted)
    && (forall name :: name in s.owners[h].children ==>
          name in s'.owners[h].children && s'.owners[h].children[name].cell == s.owners[h].children[name].cell)
  }

  lemma SameEndpoint(s: State, s': State, q: Proc)
    requires q in s.endpoints && EndpointOk(s, q) && q in s'.endpoints && s'.endpoints[q] == s.endpoints[q]
    requires s'.readerHost == s.readerHost && s'.reaped == s.reaped && s'.control == s.control
    requires OwnerKeeps(s, s', q.host)
    ensures EndpointOk(s', q)
  {
    hide MemoryOk, CommandsOk;
  }

  lemma SameOwner(s: State, s': State, g: Host)
    requires g in s.owners && OwnerOk(s, g) && g in s'.owners && s'.owners[g] == s.owners[g] && s'.reaped == s.reaped
    requires forall p :: p in s.endpoints ==> p in s'.endpoints && (s.endpoints[p].native ==> s'.endpoints[p].native)
    ensures OwnerOk(s', g)
  {
  }

  lemma HostKnown(s: State, q: Proc)
    requires q in s.endpoints && EndpointOk(s, q)
    ensures q.host in s.owners
  {
  }

  /* What stands about an endpoint and its owner, whatever the endpoint's own state. */
  predicate Placed(s: State, p: Proc) {
    && p.host in s.owners && (p.cell, p.name) in s.owners[p.host].launched && s.owners[p.host].workAdmitted
    && p.name in s.owners[p.host].children && s.owners[p.host].children[p.name].cell == p.cell
  }

  lemma LiveIsPlaced(s: State, p: Proc)
    requires p in s.endpoints && p !in s.reaped && EndpointOk(s, p)
    ensures MemoryOk(s.readerHost, s.reaped, p, s.endpoints[p]) && CommandsOk(s.control.receipts, s.endpoints[p])
    ensures Placed(s, p)
  {
    hide MemoryOk, CommandsOk;
  }

  lemma PlacedIsOk(s: State, p: Proc)
    requires p in s.endpoints && p !in s.reaped && Placed(s, p)
    requires MemoryOk(s.readerHost, s.reaped, p, s.endpoints[p]) && CommandsOk(s.control.receipts, s.endpoints[p])
    ensures EndpointOk(s, p)
  {
    hide MemoryOk, CommandsOk;
  }

  /* One endpoint not yet reaped is replaced. */
  lemma EndpointReplaced(s: State, s': State, p: Proc, e: Endpoint)
    requires Inv(s) && p in s.endpoints && p !in s.reaped && s' == SetEndpoint(s, p, e)
    requires MemoryOk(s.readerHost, s.reaped, p, e) && CommandsOk(s.control.receipts, e)
    requires s.endpoints[p].native ==> e.native
    ensures Inv(s')
  {
    hide EndpointOk, OwnerOk, MemoryOk, CommandsOk, ControlOk;
    LiveIsPlaced(s, p);
    PlacedIsOk(s', p);
    forall q | q in s'.endpoints && q != p ensures EndpointOk(s', q) {
      HostKnown(s, q);
      SameEndpoint(s, s', q);
    }
    forall h | h in s'.owners ensures OwnerOk(s', h) {
      SameOwner(s, s', h);
    }
    forall r | r in s'.control.receipts ensures ReceiptOk(s', r) {
      assert ReceiptOk(s, r);
    }
  }

  lemma EndpointKeeps(s: State, s': State, p: Proc, m: EndpointMove)
    requires Inv(s) && DoEndpoint(s, s', p, m)
    ensures Inv(s')
  {
    hide EndpointOk, OwnerOk, MemoryOk, CommandsOk, Moved, ReceiptOk;
    var e := s.endpoints[p];
    LiveIsPlaced(s, p);
    MoveKeepsMemory(s, p, e, m);
    MoveKeepsCommands(s, p, e, m);
    EndpointReplaced(s, s', p, Moved(s.readerHost, p, e, m));
  }

  lemma ReplacedOwner(s: State, s': State, h: Host, o: Owner)
    requires h in s.owners && OwnerOk(s, h) && s' == SetOwner(s, h, o) && Lawful(s.owners[h], o)
    ensures OwnerOk(s', h) && OwnerKeeps(s, s', h)
  {
  }

  /* One owner is replaced, keeping its children and what it has launched. */
  lemma OwnerReplaced(s: State, s': State, h: Host, o: Owner)
    requires Inv(s) && h in s.owners && s' == SetOwner(s, h, o) && Lawful(s.owners[h], o)
    ensures Inv(s')
  {
    hide EndpointOk, OwnerOk, Lawful, ControlOk;
    ReplacedOwner(s, s', h, o);
    forall q | q in s'.endpoints ensures EndpointOk(s', q) {
      HostKnown(s, q);
      SameEndpoint(s, s', q);
    }
    forall g | g in s'.owners && g != h ensures OwnerOk(s', g) {
      SameOwner(s, s', g);
    }
    forall r | r in s'.control.receipts ensures ReceiptOk(s', r) {
      assert ReceiptOk(s, r);
    }
  }

  /* An owner's new place is allowed. */
  predicate Lawful(o: Owner, o': Owner) {
    && o'.children == o.children && o.launched <= o'.launched && (o.workAdmitted ==> o'.workAdmitted)
    && (o'.finished ==> o'.children == map[] && (o'.pc.Leaving? || o'.pc.Closed?))
    && (o'.pc.Closed? ==> o'.finished || (o'.children == map[] && !o'.workAdmitted && !o'.uncertain))
    && (o'.pc.Reaping? ==> o'.pc.name in o'.children && (Gpu(o'.pc.name) ==> o'.children[o'.pc.name].nativeStopped))
  }

  predicate OwnerOnly(a: Action) {
    a.CallTimeout? || a.CallError? || a.Stop? || a.StopTimeout? || a.Finish? || a.Break? || a.Leave?
  }

  lemma OwnerPcLawful(s: State, a: Action, s': State)
    requires OwnerOnly(a) && Next(s, a, s') && a.h in s.owners && OwnerOk(s, a.h)
    ensures a.h in s'.owners && s' == SetOwner(s, a.h, s'.owners[a.h]) && Lawful(s.owners[a.h], s'.owners[a.h])
  {
  }

  lemma OwnerPcKeeps(s: State, a: Action, s': State)
    requires Inv(s) && Next(s, a, s') && OwnerOnly(a)
    ensures Inv(s')
  {
    hide EndpointOk, OwnerOk, Inv;
    OwnerKnown(s, a, s');
    OwnerPcLawful(s, a, s');
    OwnerReplaced(s, s', a.h, s'.owners[a.h]);
  }

  lemma OwnerKnown(s: State, a: Action, s': State)
    requires Inv(s) && Next(s, a, s') && OwnerOnly(a)
    ensures a.h in s.owners && OwnerOk(s, a.h)
  {
    hide EndpointOk, OwnerOk, ReceiptOk, ControlOk;
  }

  lemma LaunchKeeps(s: State, s': State, h: Host, cell: Cell, name: Name, started: bool)
    requires Inv(s) && DoLaunch(s, s', h, cell, name, started)
    ensures Inv(s')
  {
    assert OwnerOk(s, h);
    if started {
      LaunchedKeeps(s, s', h, cell, name);
    } else {
      OwnerReplaced(s, s', h, s'.owners[h]);
    }
  }

  lemma NotLaunched(s: State, p: Proc)
    requires Inv(s) && p.host in s.owners && (p.cell, p.name) !in s.owners[p.host].launched
    ensures p !in s.endpoints
  {
    assert forall q :: q in s.endpoints ==> EndpointOk(s, q);
  }

  lemma LaunchedOwner(s: State, s': State, h: Host, cell: Cell, name: Name)
    requires DoLaunch(s, s', h, cell, name, true) && OwnerOk(s, h)
    requires Proc(h, cell, name) !in s.endpoints && Proc(h, cell, name) !in s.reaped
    ensures OwnerOk(s', h) && EndpointOk(s', Proc(h, cell, name)) && OwnerKeeps(s, s', h)
  {
  }

  /* The new process was never launched before, so no process, receipt or child is confused with it. */
  lemma LaunchedKeeps(s: State, s': State, h: Host, cell: Cell, name: Name)
    requires Inv(s) && DoLaunch(s, s', h, cell, name, true)
    ensures Inv(s')
  {
    var p := Proc(h, cell, name);
    hide EndpointOk, OwnerOk;
    NotLaunched(s, p);
    LaunchedOwner(s, s', h, cell, name);
    forall q | q in s'.endpoints && q != p ensures EndpointOk(s', q) {
      HostKnown(s, q);
      SameEndpoint(s, s', q);
    }
    forall g | g in s'.owners && g != h ensures OwnerOk(s', g) {
      SameOwner(s, s', g);
    }
    forall r | r in s'.control.receipts ensures ReceiptOk(s', r) {
      assert ReceiptOk(s, r);
    }
  }

  lemma Appended(s: State, e: Endpoint, c: Command)
    requires ControlOk(s.control) && CommandsOk(s.control.receipts, e)
    requires c.StopCommand? && c.receipt.Some? ==> c.receipt.value in s.control.known
    ensures CommandsOk(s.control.receipts, e.(input := e.input + [c]))
  {
  }

  /* The owner's child is a live endpoint of its own. */
  lemma ChildIs(s: State, h: Host, name: Name)
    requires Inv(s) && h in s.owners && name in s.owners[h].children
    ensures var p := Proc(h, s.owners[h].children[name].cell, name);
            p in s.endpoints && p !in s.reaped && EndpointOk(s, p)
    ensures OwnerOk(s, h) && ControlOk(s.control)
  {
    assert OwnerOk(s, h);
  }

  lemma StartsWaiting(s: State, h: Host, pc: OwnerPc)
    requires Inv(s) && h in s.owners && s.owners[h].pc.Listening? && (pc.Waiting? || pc.Listening?)
    ensures Lawful(s.owners[h], s.owners[h].(pc := pc))
  {
    assert OwnerOk(s, h);
  }

  lemma CallKeeps(s: State, s': State, h: Host, name: Name, request: Option<Command>)
    requires Inv(s) && DoCall(s, s', h, name, request)
    ensures Inv(s')
  {
    hide EndpointOk, OwnerOk, MemoryOk, CommandsOk, Inv, ControlOk;
    var o := s.owners[h];
    var p := Proc(h, o.children[name].cell, name);
    var waiting := SetOwner(s, h, o.(pc := Waiting(name, Expected(request))));
    StartsWaiting(s, h, waiting.owners[h].pc);
    OwnerReplaced(s, waiting, h, waiting.owners[h]);
    ChildIs(waiting, h, name);
    LiveIsPlaced(waiting, p);
    if request.Some? {
      Appended(waiting, waiting.endpoints[p], request.value);
      InputAside(waiting, p, waiting.endpoints[p], s'.endpoints[p]);
      EndpointReplaced(waiting, s', p, s'.endpoints[p]);
    }
  }

  lemma InputAside(s: State, p: Proc, e: Endpoint, e': Endpoint)
    requires MemoryOk(s.readerHost, s.reaped, p, e) && e' == e.(input := e'.input)
    ensures MemoryOk(s.readerHost, s.reaped, p, e')
  {
  }

  /* A frame comes off the child's output; the stop frame was there only if the child stopped natively. */
  lemma Popped(s: State, p: Proc, e: Endpoint)
    requires MemoryOk(s.readerHost, s.reaped, p, e) && CommandsOk(s.control.receipts, e) && e.output != []
    ensures MemoryOk(s.readerHost, s.reaped, p, e.(output := e.output[1..]))
    ensures CommandsOk(s.control.receipts, e.(output := e.output[1..]))
    ensures e.output[0].StoppedFrame? ==> e.native
  {
    assert e.output[0] in e.output;
  }

  lemma ReplyKeeps(s: State, s': State, h: Host)
    requires Inv(s) && DoReply(s, s', h)
    ensures Inv(s')
  {
    hide EndpointOk, OwnerOk, MemoryOk, CommandsOk, Inv, Lawful;
    var o := s.owners[h];
    var name := o.pc.name;
    var p := Proc(h, o.children[name].cell, name);
    var e := s.endpoints[p];
    ChildIs(s, h, name);
    LiveIsPlaced(s, p);
    Popped(s, p, e);
    var popped := SetEndpoint(s, p, e.(output := e.output[1..]));
    EndpointReplaced(s, popped, p, popped.endpoints[p]);
    if s'.owners[h].children == o.children {
      StopsWaiting(popped, h, s'.owners[h]);
      OwnerReplaced(popped, s', h, s'.owners[h]);
    } else {
      StoppedSeen(popped, s', h, name);
    }
  }

  lemma StopsWaiting(s: State, h: Host, o: Owner)
    requires Inv(s) && h in s.owners && s.owners[h].pc.Waiting?
    requires o == s.owners[h].(pc := Listening, uncertain := o.uncertain)
    ensures Lawful(s.owners[h], o)
  {
    assert OwnerOk(s, h);
  }

  lemma StoppedOwner(s: State, s': State, h: Host, name: Name)
    requires h in s.owners && OwnerOk(s, h) && s.owners[h].pc.Waiting? && name in s.owners[h].children
    requires var p := Proc(h, s.owners[h].children[name].cell, name); p in s.endpoints && s.endpoints[p].native
    requires var o := s.owners[h];
             s' == SetOwner(s, h, o.(
               children := o.children[name := o.children[name].(nativeStopped := true)], pc := Listening))
    ensures OwnerOk(s', h) && OwnerKeeps(s, s', h)
  {
  }

  lemma StoppedSeen(s: State, s': State, h: Host, name: Name)
    requires Inv(s) && h in s.owners && s.owners[h].pc.Waiting? && name in s.owners[h].children
    requires var p := Proc(h, s.owners[h].children[name].cell, name); p in s.endpoints && s.endpoints[p].native
    requires var o := s.owners[h];
             s' == SetOwner(s, h, o.(
               children := o.children[name := o.children[name].(nativeStopped := true)], pc := Listening))
    ensures Inv(s')
  {
    hide EndpointOk, OwnerOk;
    StoppedOwner(s, s', h, name);
    forall q | q in s'.endpoints ensures EndpointOk(s', q) {
      HostKnown(s, q);
      SameEndpoint(s, s', q);
    }
    forall g | g in s'.owners && g != h ensures OwnerOk(s', g) {
      SameOwner(s, s', g);
    }
    forall r | r in s'.control.receipts ensures ReceiptOk(s', r) {
      assert ReceiptOk(s, r);
    }
  }

  lemma ReapedEndpoint(s: State, s': State, h: Host, q: Proc)
    requires h in s.owners && OwnerOk(s, h) && DoReaped(s, s', h) && q in s.endpoints && EndpointOk(s, q)
    ensures EndpointOk(s', q)
  {
    assert MemoryOk(s'.readerHost, s'.reaped, q, s.endpoints[q]) && CommandsOk(s'.control.receipts, s.endpoints[q]);
  }

  lemma ReapedOwner(s: State, s': State, h: Host, g: Host)
    requires DoReaped(s, s', h) && g in s.owners && OwnerOk(s, g)
    ensures OwnerOk(s', g)
  {
    hide EndpointOk;
  }

  lemma ReapedReceipts(s: State, s': State, h: Host)
    requires DoReaped(s, s', h) && ControlOk(s.control)
    requires forall r :: r in s.control.receipts ==> ReceiptOk(s, r)
    ensures ControlOk(s'.control) && forall r :: r in s'.control.receipts ==> ReceiptOk(s', r)
  {
  }

  lemma ReapedHosts(s: State, s': State, h: Host)
    requires DoReaped(s, s', h)
    ensures s'.endpoints == s.endpoints && s'.owners.Keys == s.owners.Keys && h in s.owners
    ensures forall p :: p in s'.reaped ==> p in s.reaped || p in s.endpoints
  {
  }

  lemma ReapedKeeps(s: State, s': State, h: Host)
    requires Inv(s) && DoReaped(s, s', h)
    ensures Inv(s')
  {
    hide OwnerOk, EndpointOk, ReceiptOk, DoReaped, ControlOk;
    ReapedHosts(s, s', h);
    ReapedReceipts(s, s', h);
    forall q | q in s'.endpoints ensures EndpointOk(s', q) {
      ReapedEndpoint(s, s', h, q);
    }
    forall g | g in s'.owners ensures OwnerOk(s', g) {
      ReapedOwner(s, s', h, g);
    }
  }

  lemma LearnKeeps(s: State, s': State)
    requires Inv(s) && DoLearn(s, s')
    ensures Inv(s')
  {
    hide OwnerOk, MemoryOk, CommandsOk;
    forall q | q in s'.endpoints ensures EndpointOk(s', q) { assert EndpointOk(s, q); }
    forall g | g in s'.owners ensures OwnerOk(s', g) { SameOwner(s, s', g); }
    forall r | r in s'.control.receipts ensures ReceiptOk(s', r) { assert ReceiptOk(s, r); }
  }

  lemma NextKeeps(s: State, a: Action, s': State)
    requires Inv(s) && Next(s, a, s')
    ensures Inv(s')
  {
    hide Inv;
    match a
    case Process(p, move) => EndpointKeeps(s, s', p, move);
    case Launch(h, cell, name, started) => LaunchKeeps(s, s', h, cell, name, started);
    case Call(h, name, request) => CallKeeps(s, s', h, name, request);
    case Reply(h) => ReplyKeeps(s, s', h);
    case Reaped(h) => ReapedKeeps(s, s', h);
    case Learn => LearnKeeps(s, s');
    case _ => OwnerPcKeeps(s, a, s');
  }

  // ---------- Whole runs ----------

  ghost predicate Run(states: seq<State>, actions: seq<Action>) {
    && |states| == |actions| + 1 && Initial(states[0])
    && forall i :: 0 <= i < |actions| ==> Next(states[i], actions[i], states[i + 1])
  }

  lemma {:induction false} RunKeeps(states: seq<State>, actions: seq<Action>, i: nat)
    requires Run(states, actions) && i < |states|
    ensures Inv(states[i])
  {
    hide Inv, Next;
    if i == 0 {
      Starts(states[0]);
    } else {
      RunKeeps(states, actions, i - 1);
      NextKeeps(states[i - 1], actions[i - 1], states[i]);
    }
  }

  /* A peer that has not crashed gives up exported memory only after the same cell's reader unregistered and freed its own,
  said so, and was reaped. */
  lemma PeerOutlivesReader(states: seq<State>, actions: seq<Action>, i: nat, p: Proc)
    requires Run(states, actions) && i < |states| && p in states[i].endpoints && p.name.Peer?
    requires var e := states[i].endpoints[p]; e.exposed && (!e.registered || !e.buffers) && !e.crashed
    ensures var s := states[i];
            && p.cell in s.readerHost
            && var r := Proc(s.readerHost[p.cell], p.cell, Reader);
               && r in s.endpoints && r in s.reaped && s.endpoints[r].phase.Exited?
               && s.endpoints[r].native && !s.endpoints[r].registered && !s.endpoints[r].buffers
  {
    RunKeeps(states, actions, i);
    ReaderGone(states[i], p);
  }

  lemma ReaderGone(s: State, p: Proc)
    requires Inv(s) && p in s.endpoints && p.name.Peer?
    requires s.endpoints[p].exposed && (!s.endpoints[p].registered || !s.endpoints[p].buffers)
    requires !s.endpoints[p].crashed
    ensures p.cell in s.readerHost
    ensures var r := Proc(s.readerHost[p.cell], p.cell, Reader);
            && r in s.endpoints && r in s.reaped && s.endpoints[r].phase.Exited?
            && s.endpoints[r].native && !s.endpoints[r].registered && !s.endpoints[r].buffers
  {
    assert EndpointOk(s, p);
    assert EndpointOk(s, Proc(s.readerHost[p.cell], p.cell, Reader));
  }

  /* An owner that has closed its leases returned from `finish`, or admitted no child and was never quarantined; and every
  process it ever started has exited, the GPU endpoints with nothing registered or allocated. */
  lemma LeasesOutliveWork(states: seq<State>, actions: seq<Action>, i: nat, h: Host)
    requires Run(states, actions) && i < |states| && h in states[i].owners && states[i].owners[h].pc.Closed?
    ensures var o := states[i].owners[h];
            && (o.finished || (o.children == map[] && !o.workAdmitted && !o.uncertain))
            && (forall p :: p in states[i].endpoints && p.host == h ==>
                  var e := states[i].endpoints[p];
                  e.phase.Exited? && !e.registered && !e.buffers && (Gpu(p.name) ==> e.native))
  {
    RunKeeps(states, actions, i);
    ClosedMeansDone(states[i], h);
  }

  lemma ClosedMeansDone(s: State, h: Host)
    requires Inv(s) && h in s.owners && s.owners[h].pc.Closed?
    ensures var o := s.owners[h]; o.finished || (o.children == map[] && !o.workAdmitted && !o.uncertain)
    ensures forall p :: p in s.endpoints && p.host == h ==>
              var e := s.endpoints[p];
              e.phase.Exited? && !e.registered && !e.buffers && (Gpu(p.name) ==> e.native)
  {
    assert OwnerOk(s, h);
    forall p | p in s.endpoints && p.host == h
      ensures p in s.reaped && EndpointOk(s, p)
    {
      assert EndpointOk(s, p);
    }
  }

  lemma QuarantineStep(s: State, a: Action, s': State, h: Host)
    requires Next(s, a, s') && h in s.owners && s.owners[h].uncertain
    ensures h in s'.owners && s'.owners[h].uncertain
    ensures s'.owners[h].launched == s.owners[h].launched
    ensures !s.owners[h].finished ==> !s'.owners[h].finished
  {
  }

  /* Quarantine is for good: such an owner starts nothing more and never closes its leases. */
  lemma {:induction false} QuarantineIsFinal(states: seq<State>, actions: seq<Action>, i: nat, j: nat, h: Host)
    requires Run(states, actions) && i <= j < |states| && h in states[i].owners
    requires states[i].owners[h].uncertain && !states[i].owners[h].finished
    ensures h in states[j].owners && states[j].owners[h].uncertain && !states[j].owners[h].finished
    ensures states[j].owners[h].launched == states[i].owners[h].launched && !states[j].owners[h].pc.Closed?
    decreases j
  {
    hide Next, Inv;
    if i < j {
      QuarantineIsFinal(states, actions, i, j - 1, h);
      QuarantineStep(states[j - 1], actions[j - 1], states[j], h);
    }
    RunKeeps(states, actions, j);
    QuarantineOpen(states[j], h);
  }

  lemma QuarantineOpen(s: State, h: Host)
    requires Inv(s) && h in s.owners && s.owners[h].uncertain && !s.owners[h].finished
    ensures !s.owners[h].pc.Closed?
  {
    assert OwnerOk(s, h);
  }

  /* The order of `gpu_cell`: the receipt of a reader that stopped natively and exited normally lets its peer stop. */
  lemma ReceiptLetsPeerStop(s: State, s': State, h: Host, peer: Proc)
    requires Inv(s) && DoReaped(s, s', h) && s.owners[h].pc.name.Reader?
    requires peer.name.Peer? && peer.cell == s.owners[h].children[Reader].cell
    requires peer.cell in s.readerHost && s.readerHost[peer.cell] == h
    requires s.endpoints[Proc(h, peer.cell, Reader)].phase.code in {0, 1}
    ensures exists r :: r in s'.control.sent && ValidStop(s'.readerHost, peer, Some(r))
  {
    assert OwnerOk(s, h);
    var r := Receipt(h, peer.cell, Reader, true, s.endpoints[Proc(h, peer.cell, Reader)].phase.code);
    assert r in s'.control.sent;
  }
}
