/** Sealing of the native transfer trace: spans against one sealer that exchanges the counter.

A span is counted when it is constructed and takes its slot when it is destroyed.  The sealer exchanges the counter with
the seal and gives up unless it was zero; a span constructed after that ends the process.  Nothing moves once the process
has ended.
*/
module SpanTraceSeal {
  const LIMIT: nat := 4096
  const SEAL: nat := 0x8000_0000_0000_0000
  const WORD: nat := 0x1_0000_0000_0000_0000

  type SpanId = nat

  datatype Event = Blank | Event(span: SpanId, begin: int, end: int, status: int)

  datatype SpanPc =
    | Open(begin: int)
    | Taking(index: nat, begin: int, end: int, status: int)
    | Written(index: nat)
    | Closed(index: nat)
    | Left(index: nat)

  datatype SealPc =
    | Unsealed
    | Sealed
    | Scanning(seen: nat, output: seq<Event>)
    | Wrote(seen: nat, overflow: bool, output: seq<Event>)

  /* `started` lists the spans constructed, `taken` the spans that took a slot number, each in order. */
  datatype State = State(
    word: nat, count: nat, events: map<nat, Event>, published: set<nat>, spans: map<SpanId, SpanPc>, sealer: SealPc,
    dead: bool, started: seq<SpanId>, taken: seq<SpanId>)

  const START := State(0, 0, map[], {}, map[], Unsealed, false, [], [])

  datatype Action =
    | Construct(p: SpanId, begin: int)
    | Take(p: SpanId, end: int, status: int)
    | Write(p: SpanId)
    | Publish(p: SpanId)
    | Leave(p: SpanId)
    | Seal
    | LoadCount
    | Scan
    | Exit

  function Go(s: State, p: SpanId, pc: SpanPc): State {
    s.(spans := s.spans[p := pc])
  }

  predicate Busy(pc: SpanPc) {
    !pc.Left?
  }

  function InFlight(s: State): set<SpanId> {
    set p | p in s.spans && Busy(s.spans[p])
  }

  predicate HasSeal(word: nat) {
    word / SEAL % 2 == 1
  }

  /* Fewer than 2^63 spans are open at once. */
  predicate DoConstruct(s: State, s': State, p: SpanId, begin: int) {
    && p !in s.spans && |InFlight(s)| + 1 < SEAL
    && s' == if HasSeal(s.word) then s.(word := (s.word + 1) % WORD, dead := true)
             else Go(s, p, Open(begin)).(word := (s.word + 1) % WORD, started := s.started + [p])
  }

  predicate DoTake(s: State, s': State, p: SpanId, end: int, status: int) {
    && p in s.spans && s.spans[p].Open?
    && s' == Go(s, p, Taking(s.count, s.spans[p].begin, end, status)).(count := s.count + 1, taken := s.taken + [p])
  }

  predicate DoWrite(s: State, s': State, p: SpanId) {
    && p in s.spans && s.spans[p].Taking?
    && var Taking(i, begin, end, status) := s.spans[p];
       s' == if i < LIMIT then Go(s, p, Written(i)).(events := s.events[i := Event(p, begin, end, status)])
             else Go(s, p, Closed(i))
  }

  predicate DoPublish(s: State, s': State, p: SpanId) {
    && p in s.spans && s.spans[p].Written?
    && var i := s.spans[p].index;
       s' == Go(s, p, Closed(i)).(published := s.published + {i})
  }

  predicate DoLeave(s: State, s': State, p: SpanId) {
    && p in s.spans && s.spans[p].Closed?
    && s' == Go(s, p, Left(s.spans[p].index)).(word := (s.word + WORD - 1) % WORD)
  }

  predicate DoSeal(s: State, s': State) {
    && s.sealer.Unsealed?
    && s' == if s.word != 0 then s.(word := SEAL, dead := true) else s.(word := SEAL, sealer := Sealed)
  }

  predicate DoLoadCount(s: State, s': State) {
    s.sealer.Sealed? && s' == s.(sealer := Scanning(s.count, []))
  }

  function Slot(s: State, i: nat): Event {
    if i in s.events then s.events[i] else Blank
  }

  function Retained(seen: nat): nat {
    if seen < LIMIT then seen else LIMIT
  }

  predicate DoScan(s: State, s': State) {
    && s.sealer.Scanning?
    && var Scanning(seen, output) := s.sealer;
       var i := |output|;
       s' == if i >= Retained(seen) then s.(sealer := Wrote(seen, seen > LIMIT, output))
             else if i !in s.published then s.(dead := true)
             else s.(sealer := Scanning(seen, output + [Slot(s, i)]))
  }

  /* Any other failure of the writer. */
  predicate DoExit(s: State, s': State) {
    s' == s.(dead := true)
  }

  predicate NextSpan(s: State, a: Action, s': State) {
    match a
    case Construct(p, begin) => DoConstruct(s, s', p, begin)
    case Take(p, end, status) => DoTake(s, s', p, end, status)
    case Write(p) => DoWrite(s, s', p)
    case Publish(p) => DoPublish(s, s', p)
    case Leave(p) => DoLeave(s, s', p)
    case _ => false
  }

  predicate NextSealer(s: State, a: Action, s': State) {
    match a
    case Seal => DoSeal(s, s')
    case LoadCount => DoLoadCount(s, s')
    case Scan => DoScan(s, s')
    case Exit => DoExit(s, s')
    case _ => false
  }

  predicate Next(s: State, a: Action, s': State) {
    !s.dead && (NextSpan(s, a, s') || NextSealer(s, a, s'))
  }

  // ---------- The invariant, while the process lives ----------

  /* Before the seal the word counts the open spans; after it there are none. */
  ghost predicate WordOk(s: State) {
    if s.sealer.Unsealed? then s.word == |InFlight(s)| < SEAL else s.word == SEAL && InFlight(s) == {}
  }

  predicate Distinct(spans: seq<SpanId>) {
    forall i, j :: 0 <= i < j < |spans| ==> spans[i] != spans[j]
  }

  ghost predicate ListsOk(s: State) {
    && Distinct(s.started) && Distinct(s.taken) && |s.taken| == s.count
    && (forall p :: p in s.started <==> p in s.spans)
    && (forall p :: p in s.taken <==> p in s.spans && !s.spans[p].Open?)
  }

  ghost predicate SpanOk(s: State, p: SpanId)
    requires p in s.spans
  {
    var pc := s.spans[p];
    && (!pc.Open? ==> pc.index < |s.taken| && s.taken[pc.index] == p)
    && (pc.Written? ==> pc.index < LIMIT)
    && (!pc.Open? ==> (pc.index in s.published <==> pc.index < LIMIT && (pc.Closed? || pc.Left?)))
    && (pc.Written? || ((pc.Closed? || pc.Left?) && pc.index < LIMIT) ==>
          Slot(s, pc.index).Event? && Slot(s, pc.index).span == p)
  }

  ghost predicate SpansOk(s: State) {
    && (forall p :: p in s.spans ==> SpanOk(s, p))
    && (forall i :: i in s.published ==> i < |s.taken|)
  }

  ghost predicate SealerOk(s: State) {
    match s.sealer
    case Scanning(seen, output) => seen == s.count && |output| <= Retained(seen) && OutputOk(s, output)
    case Wrote(seen, overflow, output) =>
      seen == s.count && overflow == (seen > LIMIT) && |output| == Retained(seen) && OutputOk(s, output)
    case _ => true
  }

  ghost predicate OutputOk(s: State, output: seq<Event>) {
    forall i :: 0 <= i < |output| ==> i in s.published && output[i] == Slot(s, i)
  }

  ghost predicate Inv(s: State) {
    s.dead || (WordOk(s) && ListsOk(s) && SpansOk(s) && SealerOk(s))
  }

  lemma Starts()
    ensures Inv(START)
  {
    assert InFlight(START) == {};
  }

  lemma SealBit(word: nat)
    requires word < WORD
    ensures HasSeal(word) <==> word >= SEAL
  {
  }

  lemma WordConstruct(s: State, s': State, p: SpanId, begin: int)
    requires WordOk(s) && DoConstruct(s, s', p, begin)
    ensures s'.dead || WordOk(s')
    ensures !s.sealer.Unsealed? ==> s'.dead
  {
    SealBit(s.word);
    if !HasSeal(s.word) {
      assert InFlight(s') == InFlight(s) + {p} && p !in InFlight(s);
    }
  }

  lemma WordLeave(s: State, s': State, p: SpanId)
    requires WordOk(s) && DoLeave(s, s', p)
    ensures WordOk(s') && s.sealer.Unsealed?
  {
    assert p in InFlight(s);
    assert InFlight(s') == InFlight(s) - {p};
  }

  lemma WordStays(s: State, s': State)
    requires WordOk(s) && s'.word == s.word && (s'.sealer.Unsealed? <==> s.sealer.Unsealed?)
    requires s'.spans.Keys == s.spans.Keys && forall p :: p in s.spans ==> Busy(s'.spans[p]) == Busy(s.spans[p])
    ensures WordOk(s')
  {
    assert InFlight(s') == InFlight(s);
  }

  lemma WordSeal(s: State, s': State)
    requires WordOk(s) && DoSeal(s, s')
    ensures s'.dead || WordOk(s')
  {
    assert InFlight(s') == InFlight(s);
  }

  lemma WordKept(s: State, a: Action, s': State)
    requires WordOk(s) && Next(s, a, s') && !s'.dead
    ensures WordOk(s')
  {
    hide WordOk;
    match a
    case Construct(p, begin) => WordConstruct(s, s', p, begin);
    case Leave(p) => WordLeave(s, s', p);
    case Seal => WordSeal(s, s');
    case _ => WordStays(s, s');
  }

  lemma ListsConstruct(s: State, s': State, p: SpanId, begin: int)
    requires ListsOk(s) && DoConstruct(s, s', p, begin) && !s'.dead
    ensures ListsOk(s')
  {
  }

  lemma ListsTake(s: State, s': State, p: SpanId, end: int, status: int)
    requires ListsOk(s) && DoTake(s, s', p, end, status) && !s'.dead
    ensures ListsOk(s')
  {
  }

  lemma ListsKept(s: State, a: Action, s': State)
    requires ListsOk(s) && NextSpan(s, a, s') && !s'.dead
    ensures ListsOk(s')
  {
    match a
    case Construct(p, begin) => ListsConstruct(s, s', p, begin);
    case Take(p, end, status) => ListsTake(s, s', p, end, status);
    case Write(p) =>
    case Publish(p) =>
    case Leave(p) =>
  }

  lemma ConstructSpans(s: State, s': State, p: SpanId, begin: int)
    requires SpansOk(s) && DoConstruct(s, s', p, begin)
    ensures SpansOk(s')
  {
  }

  lemma TakeSpans(s: State, s': State, p: SpanId, end: int, status: int)
    requires SpansOk(s) && ListsOk(s) && DoTake(s, s', p, end, status)
    ensures SpansOk(s')
  {
  }

  lemma MoveSpans(s: State, a: Action, s': State)
    requires SpansOk(s) && NextSpan(s, a, s') && (a.Write? || a.Publish? || a.Leave?)
    ensures SpansOk(s')
  {
    forall p | p in s'.spans ensures SpanOk(s', p) {
      assert SpanOk(s, p) && SpanOk(s, a.p);
    }
    assert SpanOk(s, a.p);
  }

  lemma SpansKept(s: State, a: Action, s': State)
    requires SpansOk(s) && ListsOk(s) && NextSpan(s, a, s')
    ensures SpansOk(s')
  {
    hide SpansOk, ListsOk;
    match a
    case Construct(p, begin) => ConstructSpans(s, s', p, begin);
    case Take(p, end, status) => TakeSpans(s, s', p, end, status);
    case Write(_) => MoveSpans(s, a, s');
    case Publish(_) => MoveSpans(s, a, s');
    case Leave(_) => MoveSpans(s, a, s');
  }

  /* After the seal no span is open, so no span moves. */
  lemma SealedSpans(s: State, a: Action, s': State)
    requires WordOk(s) && !s.sealer.Unsealed? && NextSpan(s, a, s')
    ensures s'.dead
  {
    SealBit(s.word);
    assert forall p :: p in s.spans && Busy(s.spans[p]) ==> p in InFlight(s);
  }

  lemma SealerKept(s: State, a: Action, s': State)
    requires SealerOk(s) && NextSealer(s, a, s') && !s'.dead
    ensures SealerOk(s')
  {
  }

  lemma NextKeeps(s: State, a: Action, s': State)
    requires Inv(s) && Next(s, a, s')
    ensures Inv(s')
  {
    hide WordOk, ListsOk, SpansOk, SealerOk;
    if !s'.dead {
      WordKept(s, a, s');
      if NextSpan(s, a, s') {
        ListsKept(s, a, s');
        SpansKept(s, a, s');
        SpanStep(s, a, s');
      } else {
        SealerKept(s, a, s');
        SealerStep(s, a, s');
      }
    }
  }

  lemma SpanStep(s: State, a: Action, s': State)
    requires WordOk(s) && NextSpan(s, a, s') && !s'.dead
    ensures SealerOk(s')
  {
    if !s.sealer.Unsealed? { SealedSpans(s, a, s'); }
  }

  lemma SealerStep(s: State, a: Action, s': State)
    requires NextSealer(s, a, s') && !s'.dead && ListsOk(s) && SpansOk(s)
    ensures ListsOk(s') && SpansOk(s')
  {
    assert s' == s.(sealer := s'.sealer, word := s'.word);
  }

  // ---------- Whole runs ----------

  ghost predicate Run(states: seq<State>, actions: seq<Action>) {
    && |states| == |actions| + 1 && states[0] == START
    && forall i :: 0 <= i < |actions| ==> Next(states[i], actions[i], states[i + 1])
  }

  lemma {:induction false} RunKeeps(states: seq<State>, actions: seq<Action>, i: nat)
    requires Run(states, actions) && i < |states|
    ensures Inv(states[i])
  {
    hide Inv, Next;
    if i == 0 {
      Starts();
    } else {
      RunKeeps(states, actions, i - 1);
      NextKeeps(states[i - 1], actions[i - 1], states[i]);
    }
  }

  ghost function Elements(spans: seq<SpanId>): set<SpanId> {
    set p | p in spans
  }

  lemma {:induction false} DistinctSize(spans: seq<SpanId>)
    requires Distinct(spans)
    ensures |Elements(spans)| == |spans|
  {
    if spans != [] {
      var n := |spans| - 1;
      DistinctSize(spans[..n]);
      assert Elements(spans) == Elements(spans[..n]) + {spans[n]};
      assert spans[n] !in spans[..n];
    }
  }

  /* The file counts every span ever constructed; each of the first 4096 to end is in it once, in its own slot. */
  ghost predicate Faithful(s: State, seen: nat, overflow: bool, output: seq<Event>) {
    && seen == |s.started| && Distinct(s.started) && overflow == (seen > LIMIT) && |output| == Retained(seen)
    && (forall p :: p in s.started ==>
          && p in s.spans && s.spans[p].Left? && s.spans[p].index < seen
          && (s.spans[p].index < LIMIT ==>
                output[s.spans[p].index].Event? && output[s.spans[p].index].span == p))
    && (forall i :: 0 <= i < |output| ==> output[i].Event? && output[i].span in s.started)
    && (forall i, j :: 0 <= i < j < |output| ==> output[i].span != output[j].span)
  }

  lemma WrittenIsFaithful(s: State)
    requires Inv(s) && !s.dead && s.sealer.Wrote?
    ensures Faithful(s, s.sealer.seen, s.sealer.overflow, s.sealer.output)
  {
    DistinctSize(s.started);
    DistinctSize(s.taken);
    forall p | p in s.spans ensures s.spans[p].Left? && SpanOk(s, p) {
      assert p !in InFlight(s);
    }
    assert Elements(s.started) == Elements(s.taken);
    var output := s.sealer.output;
    forall i | 0 <= i < |output| ensures output[i].Event? && output[i].span == s.taken[i] && s.taken[i] in s.started {
      assert s.taken[i] in s.taken && SpanOk(s, s.taken[i]);
    }
  }

  /* Seal soundness: whenever the file is written, the exchange found no open span, and the file is faithful. */
  lemma SealSound(states: seq<State>, actions: seq<Action>, i: nat)
    requires Run(states, actions) && i < |states| && !states[i].dead && states[i].sealer.Wrote?
    ensures Faithful(states[i], states[i].sealer.seen, states[i].sealer.overflow, states[i].sealer.output)
  {
    hide Faithful;
    RunKeeps(states, actions, i);
    WrittenIsFaithful(states[i]);
  }

  /* After the seal, either the process has ended or no span was started and no slot changed. */
  lemma {:induction false} SealFinal(states: seq<State>, actions: seq<Action>, i: nat, j: nat)
    requires Run(states, actions) && i <= j < |states| && !states[i].sealer.Unsealed?
    ensures states[j].dead || (states[j].started == states[i].started && states[j].count == states[i].count
              && states[j].events == states[i].events && states[j].published == states[i].published
              && !states[j].sealer.Unsealed?)
    decreases j
  {
    hide Inv, Next;
    if i < j {
      SealFinal(states, actions, i, j - 1);
      RunKeeps(states, actions, j - 1);
      SealedStep(states[j - 1], actions[j - 1], states[j]);
    }
  }

  lemma SealedStep(s: State, a: Action, s': State)
    requires Inv(s) && Next(s, a, s')
    ensures !s.dead
    ensures !s.sealer.Unsealed? ==>
              s'.dead || (s'.started == s.started && s'.count == s.count && s'.events == s.events
                && s'.published == s.published && !s'.sealer.Unsealed?)
  {
    hide ListsOk, SpansOk, SealerOk;
    if !s.sealer.Unsealed? && NextSpan(s, a, s') { SealedSpans(s, a, s'); }
  }
}
