/** Sealing of the CUDA driver trace: any number of driver calls against one sealer, one atomic operation at a time.

`word` is the 64-bit `active` counter whose top bit is the seal.  A call is a driver call seen by its ENTER and EXIT
callbacks; what it remembers between them is its correlation cell, here its place in the protocol.  The clock, the
function name, the consistency checks of EXIT and the unsubscription are answered by the environment.
*/
module DriverTraceSeal {
  const LIMIT: nat := 262144
  const SEAL: nat := 0x8000_0000_0000_0000
  const WORD: nat := 0x1_0000_0000_0000_0000

  type Call = nat

  datatype Event =
    | Blank
    | Begun(call: Call, begin: int)
    | Ended(call: Call, begin: int, end: int, result: int, consistent: bool)

  datatype CallPc =
    // ENTER
    | Refused
    | Ignored
    | Admitted
    | Overflowed
    | Leaving
    | Spoiled
    | Holding(index: nat)
    | Running(index: nat)
    // EXIT
    | Finished(index: nat)
    | Published(index: nat)
    | Done(index: nat)

  datatype SealPc =
    | Unsealed
    | Sealed(inFlight: nat)
    | Counted(inFlight: nat, total: nat)
    | Scanning(complete: bool, total: nat, output: seq<Event>, next: nat)
    | Closing(complete: bool, total: nat, output: seq<Event>)
    | Footer(complete: bool, total: nat, output: seq<Event>)

  /* `entered` lists the calls admitted, `taken` the calls that took a slot number, each in order. */
  datatype State = State(
    word: nat, count: nat, invalid: bool, events: map<nat, Event>, published: set<nat>, calls: map<Call, CallPc>,
    sealer: SealPc, entered: seq<Call>, taken: seq<Call>)

  const START := State(0, 0, false, map[], {}, map[], Unsealed, [], [])

  datatype Action =
    | Enter(c: Call)
    | Refuse(c: Call)
    | Take(c: Call, named: bool)
    | Overflow(c: Call)
    | Leave(c: Call)
    | Write(c: Call, begin: int, clock: bool)
    | Finish(c: Call, end: int, result: int, consistent: bool)
    | Publish(c: Call)
    | Depart(c: Call)
    | Stray
    | Seal
    | LoadCount
    | LoadInvalid
    | Scan
    | Unsubscribe(ok: bool)

  predicate At(s: State, c: Call, pc: CallPc) {
    c in s.calls && s.calls[c] == pc
  }

  function Go(s: State, c: Call, pc: CallPc): State {
    s.(calls := s.calls[c := pc])
  }

  /* Inside a callback pair that has been counted and not yet discounted. */
  predicate Busy(pc: CallPc) {
    !pc.Ignored? && !pc.Spoiled? && !pc.Done?
  }

  function InFlight(s: State): set<Call> {
    set c | c in s.calls && Busy(s.calls[c])
  }

  function Added(word: nat): nat {
    (word + 1) % WORD
  }

  function Subtracted(word: nat): nat {
    (word + WORD - 1) % WORD
  }

  predicate HasSeal(word: nat) {
    word / SEAL % 2 == 1
  }

  /* Fewer than 2^63 callbacks run at once. */
  predicate DoEnter(s: State, s': State, c: Call) {
    && c !in s.calls && |InFlight(s)| + 1 < SEAL
    && s' == if HasSeal(s.word) then Go(s, c, Refused).(word := Added(s.word))
             else Go(s, c, Admitted).(word := Added(s.word), entered := s.entered + [c])
  }

  predicate DoRefuse(s: State, s': State, c: Call) {
    At(s, c, Refused) && s' == Go(s, c, Ignored).(word := Subtracted(s.word))
  }

  predicate DoTake(s: State, s': State, c: Call, named: bool) {
    && At(s, c, Admitted)
    && s' == Go(s, c, if s.count >= LIMIT || !named then Overflowed else Holding(s.count)).(
         count := s.count + 1, taken := s.taken + [c])
  }

  predicate DoOverflow(s: State, s': State, c: Call) {
    At(s, c, Overflowed) && s' == Go(s, c, Leaving).(invalid := true)
  }

  predicate DoLeave(s: State, s': State, c: Call) {
    At(s, c, Leaving) && s' == Go(s, c, Spoiled).(word := Subtracted(s.word))
  }

  predicate DoWrite(s: State, s': State, c: Call, begin: int, clock: bool) {
    && c in s.calls && s.calls[c].Holding?
    && var i := s.calls[c].index;
       s' == Go(s, c, Running(i)).(events := s.events[i := Begun(c, begin)], invalid := s.invalid || !clock)
  }

  function Slot(s: State, i: nat): Event {
    if i in s.events then s.events[i] else Blank
  }

  predicate DoFinish(s: State, s': State, c: Call, end: int, result: int, consistent: bool) {
    && c in s.calls && s.calls[c].Running?
    && var i := s.calls[c].index;
       var event := Slot(s, i);
       && !event.Blank?
       && s' == Go(s, c, Finished(i)).(
            events := s.events[i := Ended(event.call, event.begin, end, result, consistent)],
            invalid := s.invalid || !consistent || end < event.begin || i in s.published)
  }

  predicate DoPublish(s: State, s': State, c: Call) {
    && c in s.calls && s.calls[c].Finished?
    && var i := s.calls[c].index;
       s' == Go(s, c, Published(i)).(published := s.published + {i})
  }

  predicate DoDepart(s: State, s': State, c: Call) {
    && c in s.calls && s.calls[c].Published?
    && s' == Go(s, c, Done(s.calls[c].index)).(word := Subtracted(s.word))
  }

  /* A callback without data, of an unknown site, or an EXIT whose cell holds no slot number. */
  predicate DoStray(s: State, s': State) {
    s' == s.(invalid := true)
  }

  predicate DoSeal(s: State, s': State) {
    && s.sealer.Unsealed?
    && s' == s.(
         sealer := Sealed(s.word % SEAL), word := if HasSeal(s.word) then s.word else s.word + SEAL)
  }

  predicate DoLoadCount(s: State, s': State) {
    s.sealer.Sealed? && s' == s.(sealer := Counted(s.sealer.inFlight, s.count))
  }

  predicate DoLoadInvalid(s: State, s': State) {
    && s.sealer.Counted?
    && s' == s.(sealer := Scanning(
         s.sealer.inFlight == 0 && s.sealer.total <= LIMIT && !s.invalid, s.sealer.total, [], 0))
  }

  function Stored(total: nat): nat {
    if total < LIMIT then total else LIMIT
  }

  predicate DoScan(s: State, s': State) {
    && s.sealer.Scanning?
    && var Scanning(complete, total, output, next) := s.sealer;
       s' == s.(sealer :=
         if next >= Stored(total) then Closing(complete, total, output)
         else if next in s.published then Scanning(complete, total, output + [Slot(s, next)], next + 1)
         else Scanning(false, total, output, next + 1))
  }

  predicate DoUnsubscribe(s: State, s': State, ok: bool) {
    && s.sealer.Closing?
    && s' == s.(sealer := Footer(s.sealer.complete && ok, s.sealer.total, s.sealer.output))
  }

  predicate NextCall(s: State, a: Action, s': State) {
    match a
    case Enter(c) => DoEnter(s, s', c)
    case Refuse(c) => DoRefuse(s, s', c)
    case Take(c, named) => DoTake(s, s', c, named)
    case Overflow(c) => DoOverflow(s, s', c)
    case Leave(c) => DoLeave(s, s', c)
    case Write(c, begin, clock) => DoWrite(s, s', c, begin, clock)
    case Finish(c, end, result, consistent) => DoFinish(s, s', c, end, result, consistent)
    case Publish(c) => DoPublish(s, s', c)
    case Depart(c) => DoDepart(s, s', c)
    case Stray => DoStray(s, s')
    case _ => false
  }

  predicate NextSealer(s: State, a: Action, s': State) {
    match a
    case Seal => DoSeal(s, s')
    case LoadCount => DoLoadCount(s, s')
    case LoadInvalid => DoLoadInvalid(s, s')
    case Scan => DoScan(s, s')
    case Unsubscribe(ok) => DoUnsubscribe(s, s', ok)
    case _ => false
  }

  predicate Next(s: State, a: Action, s': State) {
    NextCall(s, a, s') || NextSealer(s, a, s')
  }

  // ---------- The invariant ----------

  /* The word is the number of calls in flight plus the seal. */
  ghost predicate WordOk(s: State) {
    s.word == |InFlight(s)| + (if s.sealer.Unsealed? then 0 else SEAL) && |InFlight(s)| < SEAL
  }

  predicate Distinct(calls: seq<Call>) {
    forall i, j :: 0 <= i < j < |calls| ==> calls[i] != calls[j]
  }

  /* Admitted before the seal. */
  predicate WasAdmitted(pc: CallPc) {
    !pc.Refused? && !pc.Ignored?
  }

  predicate HasIndex(pc: CallPc) {
    pc.Holding? || pc.Running? || pc.Finished? || pc.Published? || pc.Done?
  }

  ghost predicate ListsOk(s: State) {
    && Distinct(s.entered) && Distinct(s.taken) && |s.taken| == s.count
    && (forall c :: c in s.entered <==> c in s.calls && WasAdmitted(s.calls[c]))
    && (forall c :: c in s.taken <==> c in s.calls && WasAdmitted(s.calls[c]) && !s.calls[c].Admitted?)
  }

  /* The EXIT agreed with its ENTER and did not come before it. */
  predicate Sane(e: Event) {
    e.Ended? ==> e.begin <= e.end && e.consistent
  }

  /* A call with a slot number holds that slot, and what it holds is its own. */
  ghost predicate CallOk(s: State, c: Call)
    requires c in s.calls
  {
    var pc := s.calls[c];
    && (HasIndex(pc) ==> pc.index < |s.taken| && pc.index < LIMIT && s.taken[pc.index] == c)
    && (pc.Running? ==> Slot(s, pc.index).Begun? && Slot(s, pc.index).call == c)
    && (pc.Finished? || pc.Published? || pc.Done? ==> Slot(s, pc.index).Ended? && Slot(s, pc.index).call == c)
    && (pc.Finished? || pc.Published? || pc.Done? ==> s.invalid || Sane(Slot(s, pc.index)))
    && (HasIndex(pc) ==> (pc.index in s.published <==> pc.Published? || pc.Done?))
    && (pc.Leaving? || pc.Spoiled? ==> s.invalid)
  }

  ghost predicate PublishedOk(s: State) {
    forall i :: i in s.published ==>
      i < |s.taken| && s.taken[i] in s.calls && HasIndex(s.calls[s.taken[i]]) && s.calls[s.taken[i]].index == i
  }

  /* Every call admitted has left, and none can be admitted. */
  ghost predicate Settled(s: State) {
    && !s.sealer.Unsealed?
    && forall c :: c in s.calls ==> !WasAdmitted(s.calls[c]) || s.calls[c].Done? || s.calls[c].Spoiled?
  }

  /* Every call admitted has its own published slot, and what it holds is sane. */
  ghost predicate AllDone(s: State) {
    && Settled(s)
    && (forall c :: c in s.calls ==> !s.calls[c].Spoiled?)
    && (forall c :: c in s.calls && s.calls[c].Done? ==> Sane(Slot(s, s.calls[c].index)))
  }

  ghost predicate OutputOk(s: State, output: seq<Event>, n: nat) {
    |output| == n && forall i :: 0 <= i < n ==> i in s.published && output[i] == Slot(s, i)
  }

  ghost predicate SealerOk(s: State) {
    match s.sealer
    case Unsealed => true
    case Sealed(inFlight) => inFlight == 0 ==> Settled(s)
    case Counted(inFlight, total) => inFlight == 0 ==> Settled(s) && total == s.count
    case Scanning(complete, total, output, next) =>
      complete ==> AllDone(s) && total == s.count <= LIMIT && next <= total && OutputOk(s, output, next)
    case Closing(complete, total, output) =>
      complete ==> AllDone(s) && total == s.count <= LIMIT && OutputOk(s, output, total)
    case Footer(complete, total, output) =>
      complete ==> AllDone(s) && total == s.count <= LIMIT && OutputOk(s, output, total)
  }

  ghost predicate Inv(s: State) {
    && WordOk(s) && ListsOk(s) && PublishedOk(s) && SealerOk(s)
    && forall c :: c in s.calls ==> CallOk(s, c)
  }

  lemma Starts()
    ensures Inv(START)
  {
    assert InFlight(START) == {};
  }

  // ---------- The word ----------

  lemma SealBit(word: nat)
    requires word < WORD
    ensures HasSeal(word) <==> word >= SEAL
  {
  }

  lemma WordEnter(s: State, s': State, c: Call)
    requires WordOk(s) && DoEnter(s, s', c)
    ensures WordOk(s') && (s.sealer.Unsealed? <==> !HasSeal(s.word))
  {
    SealBit(s.word);
    assert InFlight(s') == InFlight(s) + {c} && c !in InFlight(s);
    hide HasSeal, InFlight;
    assert Added(s.word) == s.word + 1;
  }

  lemma WordLeaves(s: State, s': State, c: Call)
    requires WordOk(s) && c in s.calls && Busy(s.calls[c]) && s'.sealer == s.sealer && s'.word == Subtracted(s.word)
    requires c in s'.calls && !Busy(s'.calls[c]) && s'.calls == s.calls[c := s'.calls[c]]
    ensures WordOk(s')
  {
    assert InFlight(s') == InFlight(s) - {c};
  }

  lemma WordStays(s: State, s': State)
    requires WordOk(s) && s'.word == s.word && (s'.sealer.Unsealed? <==> s.sealer.Unsealed?)
    requires s'.calls.Keys == s.calls.Keys && forall c :: c in s.calls ==> Busy(s'.calls[c]) == Busy(s.calls[c])
    ensures WordOk(s')
  {
    assert InFlight(s') == InFlight(s);
  }

  lemma WordSeals(s: State, s': State)
    requires WordOk(s) && DoSeal(s, s')
    ensures WordOk(s') && s'.sealer.inFlight == |InFlight(s)|
  {
    assert InFlight(s') == InFlight(s);
  }

  lemma WordKept(s: State, a: Action, s': State)
    requires WordOk(s) && Next(s, a, s')
    ensures WordOk(s')
  {
    hide WordOk;
    match a
    case Enter(c) => WordEnter(s, s', c);
    case Refuse(c) => WordLeaves(s, s', c);
    case Leave(c) => WordLeaves(s, s', c);
    case Depart(c) => WordLeaves(s, s', c);
    case Seal => WordSeals(s, s');
    case _ => WordStays(s, s');
  }

  // ---------- Slots ----------

  lemma ListsSame(s: State, s': State, c: Call)
    requires ListsOk(s) && c in s.calls && c in s'.calls && s'.calls == s.calls[c := s'.calls[c]]
    requires WasAdmitted(s'.calls[c]) == WasAdmitted(s.calls[c]) && s'.calls[c].Admitted? == s.calls[c].Admitted?
    requires s'.entered == s.entered && s'.taken == s.taken && s'.count == s.count
    ensures ListsOk(s')
  {
  }

  lemma ListsEnter(s: State, s': State, c: Call)
    requires ListsOk(s) && DoEnter(s, s', c)
    ensures ListsOk(s')
  {
  }

  lemma ListsTake(s: State, s': State, c: Call, named: bool)
    requires ListsOk(s) && DoTake(s, s', c, named)
    ensures ListsOk(s')
  {
  }

  lemma ListsStray(s: State, s': State)
    requires ListsOk(s) && DoStray(s, s')
    ensures ListsOk(s')
  {
  }

  lemma ListsKept(s: State, a: Action, s': State)
    requires ListsOk(s) && NextCall(s, a, s')
    ensures ListsOk(s')
  {
    hide ListsOk;
    match a
    case Enter(c) => ListsEnter(s, s', c);
    case Take(c, named) => ListsTake(s, s', c, named);
    case Refuse(c) => ListsSame(s, s', c);
    case Overflow(c) => ListsSame(s, s', c);
    case Leave(c) => ListsSame(s, s', c);
    case Write(c, _, _) => ListsSame(s, s', c);
    case Finish(c, _, _, _) => ListsSame(s, s', c);
    case Publish(c) => ListsSame(s, s', c);
    case Depart(c) => ListsSame(s, s', c);
    case Stray => ListsStray(s, s');
  }

  /* A call that takes no slot number and touches no slot. */
  lemma PlainCall(s: State, s': State, c: Call)
    requires CallsOk(s) && c in s'.calls && s'.calls == s.calls[c := s'.calls[c]] && !HasIndex(s'.calls[c])
    requires c in s.calls ==> !HasIndex(s.calls[c])
    requires s'.events == s.events && s'.published == s.published && s'.taken == s.taken
    requires s.invalid ==> s'.invalid
    requires s'.calls[c].Leaving? || s'.calls[c].Spoiled? ==> s'.invalid
    ensures CallsOk(s')
  {
  }

  ghost predicate CallsOk(s: State) {
    PublishedOk(s) && forall c :: c in s.calls ==> CallOk(s, c)
  }

  lemma TakeCalls(s: State, s': State, c: Call, named: bool)
    requires CallsOk(s) && ListsOk(s) && DoTake(s, s', c, named)
    ensures CallsOk(s')
  {
  }

  /* No two calls hold one slot. */
  lemma OneHolder(s: State, c: Call, d: Call)
    requires CallsOk(s) && c in s.calls && d in s.calls && HasIndex(s.calls[c]) && HasIndex(s.calls[d])
    requires s.calls[c].index == s.calls[d].index
    ensures c == d
  {
    assert CallOk(s, c) && CallOk(s, d);
  }

  lemma WriteCalls(s: State, s': State, c: Call, begin: int, clock: bool)
    requires CallsOk(s) && DoWrite(s, s', c, begin, clock)
    ensures CallsOk(s')
  {
    forall d | d in s'.calls ensures CallOk(s', d) {
      assert CallOk(s, d) && CallOk(s, c);
    }
  }

  lemma FinishCalls(s: State, s': State, c: Call, end: int, result: int, consistent: bool)
    requires CallsOk(s) && DoFinish(s, s', c, end, result, consistent)
    ensures CallsOk(s') && s.calls[c].index !in s.published
  {
    forall d | d in s'.calls ensures CallOk(s', d) {
      assert CallOk(s, d) && CallOk(s, c);
    }
  }

  lemma PublishCalls(s: State, s': State, c: Call)
    requires CallsOk(s) && DoPublish(s, s', c)
    ensures CallsOk(s')
  {
    forall d | d in s'.calls ensures CallOk(s', d) {
      assert CallOk(s, d) && CallOk(s, c);
    }
  }

  lemma DepartCalls(s: State, s': State, c: Call)
    requires CallsOk(s) && DoDepart(s, s', c)
    ensures CallsOk(s')
  {
    forall d | d in s'.calls ensures CallOk(s', d) {
      assert CallOk(s, d) && CallOk(s, c);
    }
  }

  lemma StrayCalls(s: State, s': State)
    requires CallsOk(s) && DoStray(s, s')
    ensures CallsOk(s')
  {
  }

  lemma CallsKept(s: State, a: Action, s': State)
    requires CallsOk(s) && ListsOk(s) && NextCall(s, a, s')
    ensures CallsOk(s')
  {
    hide CallsOk, ListsOk;
    match a
    case Enter(c) => PlainCall(s, s', c);
    case Refuse(c) => PlainCall(s, s', c);
    case Take(c, named) => TakeCalls(s, s', c, named);
    case Overflow(c) => PlainCall(s, s', c);
    case Leave(c) => LeaveCalls(s, s', c);
    case Write(c, begin, clock) => WriteCalls(s, s', c, begin, clock);
    case Finish(c, end, result, consistent) => FinishCalls(s, s', c, end, result, consistent);
    case Publish(c) => PublishCalls(s, s', c);
    case Depart(c) => DepartCalls(s, s', c);
    case Stray => StrayCalls(s, s');
  }

  lemma LeaveCalls(s: State, s': State, c: Call)
    requires CallsOk(s) && DoLeave(s, s', c)
    ensures CallsOk(s')
  {
    assert CallOk(s, c);
    PlainCall(s, s', c);
  }

  // ---------- The seal ----------

  /* After the seal no call is admitted, so a settled trace stays settled: slots, counts and contents no longer change. */
  lemma SettledStays(s: State, a: Action, s': State)
    requires WordOk(s) && Settled(s) && NextCall(s, a, s')
    ensures Settled(s') && s'.count == s.count && s'.published == s.published && s'.events == s.events
    ensures s'.taken == s.taken && s'.entered == s.entered
    ensures AllDone(s) ==> AllDone(s')
  {
    if a.Enter? { SealBit(s.word); }
  }

  lemma SealerKeptByCalls(s: State, a: Action, s': State)
    requires WordOk(s) && SealerOk(s) && NextCall(s, a, s')
    ensures SealerOk(s')
  {
    hide WordOk;
    assert s'.sealer == s.sealer;
    if Settled(s) { SettledStays(s, a, s'); }
  }

  /* Nobody in flight at the seal: whoever was admitted has left. */
  lemma SealSettles(s: State, s': State)
    requires WordOk(s) && DoSeal(s, s')
    ensures SealerOk(s')
  {
    WordSeals(s, s');
    if |InFlight(s)| == 0 {
      forall c | c in s.calls ensures !Busy(s.calls[c]) {
        assert c !in InFlight(s);
      }
    }
  }

  lemma SealerKeptBySealer(s: State, a: Action, s': State)
    requires WordOk(s) && SealerOk(s) && CallsOk(s) && NextSealer(s, a, s')
    ensures SealerOk(s')
  {
    hide WordOk, CallsOk;
    match a
    case Seal => SealSettles(s, s');
    case LoadCount =>
    case LoadInvalid => InvalidLoads(s, s');
    case Scan => ScanStep(s, s');
    case Unsubscribe(_) =>
  }

  lemma InvalidLoads(s: State, s': State)
    requires SealerOk(s) && CallsOk(s) && DoLoadInvalid(s, s')
    ensures SealerOk(s')
  {
    assert forall c :: c in s.calls ==> CallOk(s, c);
    assert forall c :: c in s.calls && !s.invalid ==>
        !s.calls[c].Spoiled? && (s.calls[c].Done? ==> Sane(Slot(s, s.calls[c].index)));
  }

  lemma ScanStep(s: State, s': State)
    requires SealerOk(s) && DoScan(s, s')
    ensures SealerOk(s')
  {
    hide Sane;
  }

  lemma NextKeeps(s: State, a: Action, s': State)
    requires Inv(s) && Next(s, a, s')
    ensures Inv(s')
  {
    assert CallsOk(s);
    hide WordOk, ListsOk, SealerOk, PublishedOk, CallOk;
    WordKept(s, a, s');
    if NextCall(s, a, s') {
      ListsKept(s, a, s');
      CallsKept(s, a, s');
      SealerKeptByCalls(s, a, s');
    } else {
      SealerKeptBySealer(s, a, s');
      SealerMovesOnly(s, a, s');
    }
  }

  lemma SealerMovesOnly(s: State, a: Action, s': State)
    requires NextSealer(s, a, s') && ListsOk(s) && CallsOk(s)
    ensures ListsOk(s') && CallsOk(s')
  {
    assert s' == s.(sealer := s'.sealer, word := s'.word);
  }

  // ---------- Whole runs ----------

  ghost predicate Run(states: seq<State>, actions: seq<Action>) {
    && |states| == |actions| + 1 && states[0] == START
    && forall i :: 0 <= i < |actions| ==> Next(states[i], actions[i], states[i + 1])
  }

  lemma {:induction false} RunKeeps(states: seq<State>, actions: seq<Action>, i: nat)
    requires Run(states, actions) && i < |states|
    ensures Inv(states[i])
  {
    hide Inv, Next;
    if i == 0 {
      Starts();
    } else {
      RunKeeps(states, actions, i - 1);
      NextKeeps(states[i - 1], actions[i - 1], states[i]);
    }
  }

  ghost function Elements(calls: seq<Call>): set<Call> {
    set c | c in calls
  }

  lemma {:induction false} DistinctSize(calls: seq<Call>)
    requires Distinct(calls)
    ensures |Elements(calls)| == |calls|
  {
    if calls != [] {
      var n := |calls| - 1;
      DistinctSize(calls[..n]);
      assert Elements(calls) == Elements(calls[..n]) + {calls[n]};
      assert calls[n] !in calls[..n];
    }
  }

  /* What a trace that claims to be complete contains. */
  ghost predicate Faithful(s: State, total: nat, output: seq<Event>) {
    && |output| == total == |s.entered| && Distinct(s.entered)
    && (forall c :: c in s.entered ==>
          && c in s.calls && s.calls[c].Done? && s.calls[c].index < total
          && output[s.calls[c].index].Ended? && output[s.calls[c].index].call == c)
    && (forall i :: 0 <= i < total ==>
          output[i].Ended? && output[i].call in s.entered && output[i].begin <= output[i].end && output[i].consistent)
  }

  lemma CompleteIsFaithful(s: State)
    requires Inv(s) && s.sealer.Footer? && s.sealer.complete
    ensures Faithful(s, s.sealer.total, s.sealer.output)
  {
    hide WordOk;
    DistinctSize(s.entered);
    DistinctSize(s.taken);
    assert Elements(s.entered) == Elements(s.taken);
    forall c | c in s.entered
      ensures c in s.calls && s.calls[c].Done? && s.calls[c].index < s.count
      ensures Slot(s, s.calls[c].index).Ended? && Slot(s, s.calls[c].index).call == c
    {
      assert CallOk(s, c);
    }
    forall i | 0 <= i < s.count ensures Slot(s, i).Ended? && Slot(s, i).call in s.entered && Sane(Slot(s, i)) {
      var c := s.taken[i];
      assert c in s.taken && c in s.entered && CallOk(s, c);
      assert i in s.published;
    }
  }

  /* Seal soundness: a footer that says complete was written over exactly the calls admitted before the seal, each once, in
  a slot of its own that holds its finished event, whose EXIT agreed with its ENTER and did not precede it. */
  lemma SealSound(states: seq<State>, actions: seq<Action>, i: nat)
    requires Run(states, actions) && i < |states| && states[i].sealer.Footer? && states[i].sealer.complete
    ensures Faithful(states[i], states[i].sealer.total, states[i].sealer.output)
  {
    hide Faithful;
    RunKeeps(states, actions, i);
    CompleteIsFaithful(states[i]);
  }

  /* The calls admitted are those that entered before the seal. */
  lemma {:induction false} NoneAfterSeal(states: seq<State>, actions: seq<Action>, i: nat, j: nat)
    requires Run(states, actions) && i <= j < |states| && !states[i].sealer.Unsealed?
    ensures states[j].entered == states[i].entered && !states[j].sealer.Unsealed?
    decreases j
  {
    hide Inv, Next;
    if i < j {
      NoneAfterSeal(states, actions, i, j - 1);
      RunKeeps(states, actions, j - 1);
      SealedStep(states[j - 1], actions[j - 1], states[j]);
    }
  }

  lemma SealedStep(s: State, a: Action, s': State)
    requires Inv(s) && Next(s, a, s') && !s.sealer.Unsealed?
    ensures s'.entered == s.entered && !s'.sealer.Unsealed?
  {
    SealBit(s.word);
  }

  /* And once the footer says complete, no later call takes a slot or changes one. */
  lemma {:induction false} SealFinal(states: seq<State>, actions: seq<Action>, i: nat, j: nat)
    requires Run(states, actions) && i <= j < |states| && states[i].sealer.Footer? && states[i].sealer.complete
    ensures states[j].sealer == states[i].sealer && states[j].count == states[i].count
    ensures states[j].events == states[i].events && states[j].published == states[i].published
    decreases j
  {
    hide Inv, Next;
    if i < j {
      SealFinal(states, actions, i, j - 1);
      RunKeeps(states, actions, j - 1);
      FinalStep(states[j - 1], actions[j - 1], states[j]);
    }
  }

  lemma FinalStep(s: State, a: Action, s': State)
    requires Inv(s) && Next(s, a, s') && s.sealer.Footer? && s.sealer.complete
    ensures s'.sealer == s.sealer && s'.count == s.count && s'.events == s.events && s'.published == s.published
  {
    hide PublishedOk, ListsOk, CallOk;
    if NextCall(s, a, s') {
      SettledStays(s, a, s');
    }
  }

  /* A trace that was clean when its sealer looked is not spoiled by the scan: with nobody in flight at the seal, no more
  calls than slots and no inconsistency, only a failed unsubscription can withhold the claim. */
  lemma ScanStaysComplete(s: State, s': State)
    requires Inv(s) && DoScan(s, s') && s.sealer.complete
    ensures s'.sealer.complete
  {
    hide WordOk;
    var next := s.sealer.next;
    if next < s.count {
      assert s.taken[next] in s.taken && CallOk(s, s.taken[next]);
    }
  }
}
