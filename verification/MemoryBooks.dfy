/** Registered transfer memory of one process: the value behind the registration maps, the admission budget and the
retained list, its invariant, and the single-region changes everything else is made of.

A region carries a serial number so that its history can be followed: where it is held, whether its native registration
was attempted, whether its native unregistration succeeded.
*/
module MemoryBooks {
  const U64_LIMIT: int := 0x1_0000_0000_0000_0000

  newtype U64 = x: int | 0 <= x < 0x1_0000_0000_0000_0000

  const MAX_REGIONS := 1024
  const MAX_REGISTERED_BYTES := 0x100_0000_0000

  datatype Status = Attempted | Registered | Unregistered

  /* `owned` tells a buffer export from a borrowed pointer; `charge` is what its admission holds. */
  datatype Region = Region(serial: nat, owned: bool, charge: U64, length: U64, status: Status)

  type Regions = map<U64, Region>

  datatype Engine = Engine(regions: Regions, retiring: bool)

  /* A region a call has parsed and charged but not handed to an engine; `nul` is a NUL byte in its location. */
  datatype Parsed = Parsed(address: U64, nul: bool, region: Region)

  datatype Budget = Budget(regions: int, bytes: int)

  datatype Place = InCall(call: nat) | InEngine(engine: nat, address: U64) | InRetained(index: nat, address: U64)

  datatype Holder = AnEngine(engine: nat) | ARetained(index: nat)

  function PlaceOf(holder: Holder, a: U64): Place {
    match holder
    case AnEngine(e) => InEngine(e, a)
    case ARetained(k) => InRetained(k, a)
  }

  datatype Admission = Admission(charge: U64, place: Place)

  /* The live admissions, and what the native library was asked. */
  datatype History = History(live: map<nat, Admission>, attempted: set<nat>, unregistered: set<nat>)

  datatype Memory = Memory(
    budget: Budget, engines: map<nat, Engine>, calls: map<nat, seq<Parsed>>, retained: seq<Regions>, next: nat,
    history: History)

  const START := Memory(Budget(0, 0), map[], map[], [], 0, History(map[], {}, {}))

  // ---------- Disjointness ----------

  function End(a: U64, length: U64): int {
    a as int + length as int
  }

  /* Half-open ranges that share a byte. */
  predicate Overlap(a: U64, m: U64, b: U64, n: U64) {
    (a as int) < End(b, n) && (b as int) < End(a, m)
  }

  predicate RegionOk(a: U64, r: Region) {
    a != 0 && r.length != 0 && End(a, r.length) < U64_LIMIT
  }

  ghost predicate Sound(regions: Regions) {
    && (forall a :: a in regions ==> RegionOk(a, regions[a]))
    && (forall a, b :: a in regions && b in regions && a != b ==> !Overlap(a, regions[a].length, b, regions[b].length))
    && (forall a, b :: a in regions && b in regions ==> regions[a].owned == regions[b].owned)
  }

  // ---------- The budget ----------

  ghost function Total(live: map<nat, Admission>): int {
    if live == map[] then 0
    else
      var s :| s in live;
      live[s].charge as int + Total(live - {s})
  }

  lemma {:induction false} TotalRemove(live: map<nat, Admission>, s: nat)
    requires s in live
    ensures Total(live) == live[s].charge as int + Total(live - {s})
    decreases |live|
  {
    var first :| first in live && Total(live) == live[first].charge as int + Total(live - {first});
    if first != s {
      TotalRemove(live - {first}, s);
      TotalRemove(live - {s}, first);
      assert live - {first} - {s} == live - {s} - {first};
    }
  }

  lemma TotalAdd(live: map<nat, Admission>, s: nat, a: Admission)
    requires s !in live
    ensures Total(live[s := a]) == Total(live) + a.charge as int && |live[s := a]| == |live| + 1
  {
    TotalRemove(live[s := a], s);
    assert live[s := a] - {s} == live;
    assert live[s := a].Keys == live.Keys + {s};
  }

  lemma TotalDrop(live: map<nat, Admission>, s: nat)
    requires s in live
    ensures Total(live - {s}) == Total(live) - live[s].charge as int && |live - {s}| == |live| - 1
  {
    TotalRemove(live, s);
    assert (live - {s}).Keys == live.Keys - {s};
  }

  lemma {:induction false} TotalSame(live: map<nat, Admission>, live': map<nat, Admission>)
    requires live.Keys == live'.Keys && forall s :: s in live ==> live[s].charge == live'[s].charge
    ensures Total(live') == Total(live) && |live'| == |live|
    decreases |live|
  {
    assert |live| == |live.Keys| && |live'| == |live'.Keys|;
    if live != map[] {
      var s :| s in live;
      TotalRemove(live, s);
      TotalRemove(live', s);
      TotalSame(live - {s}, live' - {s});
    }
  }

  lemma {:induction false} TotalNonNegative(live: map<nat, Admission>)
    ensures Total(live) >= 0
    decreases |live|
  {
    if live != map[] {
      var s :| s in live;
      TotalRemove(live, s);
      TotalNonNegative(live - {s});
    }
  }

  // ---------- The invariant ----------

  ghost predicate BudgetOk(m: Memory) {
    && m.budget.regions == |m.history.live| <= MAX_REGIONS
    && m.budget.bytes == Total(m.history.live) <= MAX_REGISTERED_BYTES
  }

  predicate Held(h: History, r: Region, place: Place) {
    r.serial in h.live && h.live[r.serial] == Admission(r.charge, place)
  }

  /* Asked of the native library, and gone from it exactly if the status says so. */
  predicate StatusOk(h: History, r: Region) {
    r.serial in h.attempted && (r.serial in h.unregistered <==> r.status.Unregistered?)
  }

  ghost predicate RegionsOk(h: History, regions: Regions, holder: Holder) {
    forall a :: a in regions ==> Held(h, regions[a], PlaceOf(holder, a)) && StatusOk(h, regions[a])
  }

  ghost predicate EngineOk(m: Memory, e: nat)
    requires e in m.engines
  {
    Sound(m.engines[e].regions) && RegionsOk(m.history, m.engines[e].regions, AnEngine(e))
  }

  ghost predicate RetainedOk(m: Memory, k: nat)
    requires k < |m.retained|
  {
    RegionsOk(m.history, m.retained[k], ARetained(k))
  }

  ghost predicate CallOk(m: Memory, c: nat)
    requires c in m.calls
  {
    var parsed := m.calls[c];
    && (forall i :: 0 <= i < |parsed| ==>
          && Held(m.history, parsed[i].region, InCall(c)) && parsed[i].region.serial !in m.history.attempted
          && parsed[i].region.status.Attempted?)
    && (forall i, j :: 0 <= i < j < |parsed| ==> parsed[i].region.serial != parsed[j].region.serial)
    && (forall i, j :: 0 <= i < j < |parsed| ==> parsed[i].region.owned == parsed[j].region.owned)
  }

  ghost predicate InSeq(parsed: seq<Parsed>, s: nat) {
    exists i :: 0 <= i < |parsed| && parsed[i].region.serial == s
  }

  /* A live admission is where its place says. */
  ghost predicate Backed(m: Memory, s: nat)
    requires s in m.history.live
  {
    match m.history.live[s].place
    case InCall(c) => c in m.calls && InSeq(m.calls[c], s)
    case InEngine(e, a) => e in m.engines && a in m.engines[e].regions && m.engines[e].regions[a].serial == s
    case InRetained(k, a) => k < |m.retained| && a in m.retained[k] && m.retained[k][a].serial == s
  }

  ghost predicate HistoryOk(m: Memory) {
    && (forall s :: s in m.history.live ==> s < m.next && Backed(m, s))
    && (forall s :: s in m.history.attempted ==> s < m.next)
    && m.history.unregistered <= m.history.attempted
    && (forall s :: s in m.history.attempted && s !in m.history.unregistered ==> s in m.history.live)
  }

  ghost predicate Inv(m: Memory) {
    && BudgetOk(m) && HistoryOk(m)
    && (forall e :: e in m.engines ==> EngineOk(m, e))
    && (forall k :: 0 <= k < |m.retained| ==> RetainedOk(m, k))
    && (forall c :: c in m.calls ==> CallOk(m, c))
  }

  lemma Starts()
    ensures Inv(START)
  {
  }

  // ---------- One region at a time ----------

  /* `RegisteredBytes::acquire`, once the limits allow it. */
  function Admit(m: Memory, c: nat, p: Parsed): Memory
    requires c in m.calls
  {
    m.(
      budget := Budget(m.budget.regions + 1, m.budget.bytes + p.region.charge as int),
      calls := m.calls[c := m.calls[c] + [p]], next := m.next + 1,
      history := m.history.(live := m.history.live[p.region.serial := Admission(p.region.charge, InCall(c))]))
  }

  /* `Drop for RegisteredBytes` */
  function Returned(m: Memory, r: Region): Memory {
    m.(
      budget := Budget(m.budget.regions - 1, m.budget.bytes - r.charge as int),
      history := m.history.(live := m.history.live - {r.serial}))
  }

  /* The call's first parsed region is dropped without having been handed over. */
  function DropParsed(m: Memory, c: nat): Memory
    requires c in m.calls && m.calls[c] != []
  {
    Returned(m, m.calls[c][0].region).(calls := m.calls[c := m.calls[c][1..]])
  }

  /* The call's first parsed region goes into the engine's map, and its native registration is about to be attempted. */
  function Insert(m: Memory, e: nat, c: nat): Memory
    requires e in m.engines && c in m.calls && m.calls[c] != []
  {
    var Parsed(address, _, region) := m.calls[c][0];
    m.(
      engines := m.engines[e := m.engines[e].(regions := m.engines[e].regions[address := region])],
      calls := m.calls[c := m.calls[c][1..]],
      history := m.history.(
        live := m.history.live[region.serial := Admission(region.charge, InEngine(e, address))],
        attempted := m.history.attempted + {region.serial}))
  }

  function SetStatus(m: Memory, e: nat, a: U64, status: Status): Memory
    requires e in m.engines && a in m.engines[e].regions
  {
    var regions := m.engines[e].regions;
    m.(engines := m.engines[e := m.engines[e].(regions := regions[a := regions[a].(status := status)])])
  }

  /* A successful native unregistration. */
  function Forget(m: Memory, e: nat, a: U64): Memory
    requires e in m.engines && a in m.engines[e].regions
  {
    SetStatus(m, e, a, Unregistered).(
      history := m.history.(unregistered := m.history.unregistered + {m.engines[e].regions[a].serial}))
  }

  /* An unregistered region leaves the map and returns its admission. */
  function Remove(m: Memory, e: nat, a: U64): Memory
    requires e in m.engines && a in m.engines[e].regions
  {
    Returned(m, m.engines[e].regions[a]).(
      engines := m.engines[e := m.engines[e].(regions := m.engines[e].regions - {a})])
  }

  function Retire(m: Memory, e: nat): Memory
    requires e in m.engines
  {
    m.(engines := m.engines[e := m.engines[e].(retiring := true)])
  }

  /* The engine's whole map moves to the retained list. */
  function Retain(m: Memory, e: nat): Memory
    requires e in m.engines
  {
    var k := |m.retained|;
    m.(
      engines := m.engines - {e}, retained := m.retained + [m.engines[e].regions],
      history := m.history.(live := Moved(m.history.live, e, k)))
  }

  function Moved(live: map<nat, Admission>, e: nat, k: nat): map<nat, Admission> {
    map s | s in live ::
      if live[s].place.InEngine? && live[s].place.engine == e then
        Admission(live[s].charge, InRetained(k, live[s].place.address))
      else live[s]
  }

  // ---------- What a change to one serial leaves alone ----------

  /* The two histories differ at most at serial `s`. */
  ghost predicate AgreeBut(h: History, h': History, s: nat) {
    && (forall t :: t != s ==> (t in h'.live <==> t in h.live) && (t in h.live ==> h'.live[t] == h.live[t]))
    && (forall t :: t != s ==> (t in h'.attempted <==> t in h.attempted))
    && (forall t :: t != s ==> (t in h'.unregistered <==> t in h.unregistered))
  }

  lemma RegionsAside(h: History, h': History, regions: Regions, holder: Holder, s: nat)
    requires RegionsOk(h, regions, holder) && AgreeBut(h, h', s)
    requires s in h.live ==> forall a :: PlaceOf(holder, a) != h.live[s].place
    ensures RegionsOk(h', regions, holder)
  {
  }

  lemma CallAside(m: Memory, m': Memory, c: nat, s: nat)
    requires c in m.calls && CallOk(m, c) && c in m'.calls && m'.calls[c] == m.calls[c]
    requires AgreeBut(m.history, m'.history, s) && (s in m.history.live ==> m.history.live[s].place != InCall(c))
    ensures CallOk(m', c)
  {
  }

  /* Engine `e` has the regions it had, and `s` is not among them. */
  predicate SameEngine(m: Memory, m': Memory, e: nat, s: nat)
    requires e in m.engines && e in m'.engines
  {
    && m'.engines[e].regions == m.engines[e].regions
    && (s in m.history.live && m.history.live[s].place.InEngine? ==> m.history.live[s].place.engine != e)
  }

  predicate SameCall(m: Memory, m': Memory, c: nat, s: nat)
    requires c in m.calls && c in m'.calls
  {
    m'.calls[c] == m.calls[c] && (s in m.history.live ==> m.history.live[s].place != InCall(c))
  }

  /* Engines and retained maps that do not hold `s` are as they were. */
  lemma HoldersAside(m: Memory, m': Memory, s: nat)
    requires Inv(m) && AgreeBut(m.history, m'.history, s) && m'.retained == m.retained
    requires s in m.history.live ==> !m.history.live[s].place.InRetained?
    ensures forall k :: 0 <= k < |m'.retained| ==> RetainedOk(m', k)
    ensures forall e :: e in m.engines && e in m'.engines && SameEngine(m, m', e, s) ==> EngineOk(m', e)
  {
    hide BudgetOk, HistoryOk, CallOk, RegionsOk;
    forall k | 0 <= k < |m'.retained| ensures RetainedOk(m', k) {
      assert RetainedOk(m, k);
      RegionsAside(m.history, m'.history, m.retained[k], ARetained(k), s);
    }
    forall e | e in m.engines && e in m'.engines && SameEngine(m, m', e, s) ensures EngineOk(m', e) {
      assert EngineOk(m, e);
      RegionsAside(m.history, m'.history, m.engines[e].regions, AnEngine(e), s);
    }
  }

  lemma CallsAside(m: Memory, m': Memory, s: nat)
    requires Inv(m) && AgreeBut(m.history, m'.history, s)
    ensures forall c :: c in m.calls && c in m'.calls && SameCall(m, m', c, s) ==> CallOk(m', c)
  {
    hide BudgetOk, HistoryOk, EngineOk, RetainedOk, AgreeBut;
    forall c | c in m.calls && c in m'.calls && SameCall(m, m', c, s) ensures CallOk(m', c) {
      CallAside(m, m', c, s);
    }
  }

  // ---------- Each change keeps the invariant ----------

  lemma AdmitHistory(m: Memory, c: nat, p: Parsed)
    requires HistoryOk(m) && c in m.calls && p.region.serial == m.next
    ensures HistoryOk(Admit(m, c, p))
  {
    var m' := Admit(m, c, p);
    forall s | s in m'.history.live ensures Backed(m', s) {
      if s == m.next {
        assert m'.calls[c][|m.calls[c]|].region.serial == s;
      } else if m.history.live[s].place == InCall(c) {
        assert Backed(m, s);
        var i :| 0 <= i < |m.calls[c]| && m.calls[c][i].region.serial == s;
        assert m'.calls[c][i] == m.calls[c][i];
      } else {
        assert Backed(m, s);
      }
    }
  }

  lemma AdmitCall(m: Memory, c: nat, p: Parsed)
    requires HistoryOk(m) && c in m.calls && CallOk(m, c) && p.region.serial == m.next && p.region.status.Attempted?
    requires m.calls[c] != [] ==> m.calls[c][0].region.owned == p.region.owned
    ensures CallOk(Admit(m, c, p), c)
  {
  }

  lemma NextIsFresh(m: Memory)
    requires HistoryOk(m)
    ensures m.next !in m.history.live && m.next !in m.history.attempted && m.next !in m.history.unregistered
  {
  }

  lemma AdmitKeeps(m: Memory, c: nat, p: Parsed)
    requires Inv(m) && c in m.calls && p.region.serial == m.next && p.region.status.Attempted?
    requires m.budget.regions < MAX_REGIONS && m.budget.bytes + p.region.charge as int <= MAX_REGISTERED_BYTES
    requires m.calls[c] != [] ==> m.calls[c][0].region.owned == p.region.owned
    ensures Inv(Admit(m, c, p))
  {
    hide EngineOk, RetainedOk, CallOk, HistoryOk, Total;
    var m', s := Admit(m, c, p), m.next;
    NextIsFresh(m);
    TotalAdd(m.history.live, s, Admission(p.region.charge, InCall(c)));
    AdmitHistory(m, c, p);
    AdmitCall(m, c, p);
    HoldersAside(m, m', s);
    CallsAside(m, m', s);
  }

  lemma DropParsedHistory(m: Memory, c: nat)
    requires HistoryOk(m) && c in m.calls && CallOk(m, c) && m.calls[c] != []
    ensures HistoryOk(DropParsed(m, c)) && CallOk(DropParsed(m, c), c)
  {
    var m', gone := DropParsed(m, c), m.calls[c][0].region.serial;
    forall s | s in m'.history.live ensures Backed(m', s) {
      assert Backed(m, s);
      if m.history.live[s].place == InCall(c) {
        var i :| 0 <= i < |m.calls[c]| && m.calls[c][i].region.serial == s;
        assert m'.calls[c][i - 1] == m.calls[c][i];
      }
    }
  }

  lemma HeadFacts(m: Memory, c: nat)
    requires c in m.calls && CallOk(m, c) && m.calls[c] != []
    ensures Held(m.history, m.calls[c][0].region, InCall(c)) && m.calls[c][0].region.serial !in m.history.attempted
  {
  }

  lemma DropParsedKeeps(m: Memory, c: nat)
    requires Inv(m) && c in m.calls && m.calls[c] != []
    ensures Inv(DropParsed(m, c))
  {
    hide EngineOk, RetainedOk, CallOk, HistoryOk, Total;
    var m', s := DropParsed(m, c), m.calls[c][0].region.serial;
    HeadFacts(m, c);
    TotalDrop(m.history.live, s);
    DropParsedHistory(m, c);
    HoldersAside(m, m', s);
    CallsAside(m, m', s);
  }

  lemma InsertHistory(m: Memory, e: nat, c: nat)
    requires HistoryOk(m) && e in m.engines && c in m.calls && CallOk(m, c) && m.calls[c] != []
    requires m.calls[c][0].address !in m.engines[e].regions
    ensures HistoryOk(Insert(m, e, c)) && CallOk(Insert(m, e, c), c)
  {
    var m', moved := Insert(m, e, c), m.calls[c][0].region.serial;
    forall s | s in m'.history.live ensures Backed(m', s) {
      assert Backed(m, s);
      if s != moved && m.history.live[s].place == InCall(c) {
        var i :| 0 <= i < |m.calls[c]| && m.calls[c][i].region.serial == s;
        assert m'.calls[c][i - 1] == m.calls[c][i];
      }
    }
  }

  lemma InsertEngine(m: Memory, e: nat, c: nat)
    requires HistoryOk(m) && e in m.engines && EngineOk(m, e) && c in m.calls && CallOk(m, c) && m.calls[c] != []
    requires RegionOk(m.calls[c][0].address, m.calls[c][0].region)
    requires forall a :: a in m.engines[e].regions ==>
               && !Overlap(a, m.engines[e].regions[a].length, m.calls[c][0].address, m.calls[c][0].region.length)
               && m.engines[e].regions[a].owned == m.calls[c][0].region.owned
    ensures m.calls[c][0].address !in m.engines[e].regions
    ensures EngineOk(Insert(m, e, c), e)
  {
    var m', s := Insert(m, e, c), m.calls[c][0].region.serial;
    assert m.calls[c][0].address !in m.engines[e].regions;
    RegionsAside(m.history, m'.history, m.engines[e].regions, AnEngine(e), s);
    assert m.calls[c][0].region.serial !in m.history.unregistered;
  }

  lemma InsertKeeps(m: Memory, e: nat, c: nat)
    requires Inv(m) && e in m.engines && c in m.calls && m.calls[c] != []
    requires RegionOk(m.calls[c][0].address, m.calls[c][0].region)
    requires forall a :: a in m.engines[e].regions ==>
               && !Overlap(a, m.engines[e].regions[a].length, m.calls[c][0].address, m.calls[c][0].region.length)
               && m.engines[e].regions[a].owned == m.calls[c][0].region.owned
    ensures m.calls[c][0].address !in m.engines[e].regions
    ensures Inv(Insert(m, e, c))
  {
    hide EngineOk, RetainedOk, CallOk, HistoryOk, Total;
    var m', s := Insert(m, e, c), m.calls[c][0].region.serial;
    HeadFacts(m, c);
    TotalSame(m.history.live, m'.history.live);
    InsertEngine(m, e, c);
    InsertHistory(m, e, c);
    HoldersAside(m, m', s);
    CallsAside(m, m', s);
  }

  /* What the books say of a region in an engine's map. */
  lemma InEngineFacts(m: Memory, e: nat, a: U64)
    requires e in m.engines && a in m.engines[e].regions && EngineOk(m, e)
    ensures var r := m.engines[e].regions[a];
            Held(m.history, r, InEngine(e, a)) && StatusOk(m.history, r)
  {
  }

  lemma StatusEngine(m: Memory, m': Memory, e: nat, a: U64, status: Status)
    requires e in m.engines && a in m.engines[e].regions && EngineOk(m, e)
    requires m' == SetStatus(m, e, a, status).(history := m'.history)
    requires AgreeBut(m.history, m'.history, m.engines[e].regions[a].serial) && m'.history.live == m.history.live
    requires StatusOk(m'.history, m'.engines[e].regions[a])
    ensures EngineOk(m', e)
  {
  }

  /* Changing the status of one region. */
  lemma StatusKeeps(m: Memory, m': Memory, e: nat, a: U64, status: Status)
    requires Inv(m) && e in m.engines && a in m.engines[e].regions
    requires m' == SetStatus(m, e, a, status).(history := m'.history)
    requires AgreeBut(m.history, m'.history, m.engines[e].regions[a].serial) && m'.history.live == m.history.live
    requires m'.history.attempted == m.history.attempted
    requires m.history.unregistered <= m'.history.unregistered <= m.history.attempted
    requires StatusOk(m'.history, m'.engines[e].regions[a])
    ensures Inv(m')
  {
    hide EngineOk, RetainedOk, CallOk, HistoryOk, Total;
    var s := m.engines[e].regions[a].serial;
    InEngineFacts(m, e, a);
    StatusEngine(m, m', e, a, status);
    SameBacked(m, m', e);
    HoldersAside(m, m', s);
    CallsAside(m, m', s);
  }

  lemma ConfirmKeeps(m: Memory, e: nat, a: U64)
    requires Inv(m) && e in m.engines && a in m.engines[e].regions && m.engines[e].regions[a].status.Attempted?
    ensures Inv(SetStatus(m, e, a, Registered))
  {
    hide EngineOk, RetainedOk, CallOk, BudgetOk;
    InEngineFacts(m, e, a);
    StatusKeeps(m, SetStatus(m, e, a, Registered), e, a, Registered);
  }

  lemma SameBacked(m: Memory, m': Memory, e: nat)
    requires HistoryOk(m) && e in m.engines && m'.next == m.next && m'.history.live == m.history.live
    requires m'.history.attempted == m.history.attempted
    requires m.history.unregistered <= m'.history.unregistered <= m.history.attempted
    requires m'.calls == m.calls && m'.retained == m.retained
    requires m'.engines.Keys == m.engines.Keys && m'.engines[e].regions.Keys == m.engines[e].regions.Keys
    requires forall d :: d in m.engines && d != e ==> m'.engines[d] == m.engines[d]
    requires forall a :: a in m.engines[e].regions ==> m'.engines[e].regions[a].serial == m.engines[e].regions[a].serial
    ensures HistoryOk(m')
  {
    forall s | s in m'.history.live ensures Backed(m', s) {
      assert Backed(m, s);
    }
  }

  lemma ForgetKeeps(m: Memory, e: nat, a: U64)
    requires Inv(m) && e in m.engines && a in m.engines[e].regions && !m.engines[e].regions[a].status.Unregistered?
    ensures Inv(Forget(m, e, a)) && m.engines[e].regions[a].serial !in m.history.unregistered
  {
    hide EngineOk, RetainedOk, CallOk, BudgetOk;
    InEngineFacts(m, e, a);
    StatusKeeps(m, Forget(m, e, a), e, a, Unregistered);
  }

  lemma RemoveHistory(m: Memory, e: nat, a: U64)
    requires HistoryOk(m) && e in m.engines && EngineOk(m, e) && a in m.engines[e].regions
    requires m.engines[e].regions[a].status.Unregistered?
    ensures HistoryOk(Remove(m, e, a)) && EngineOk(Remove(m, e, a), e)
  {
    var m' := Remove(m, e, a);
    forall s | s in m'.history.live ensures Backed(m', s) {
      assert Backed(m, s);
    }
  }

  lemma RemoveKeeps(m: Memory, e: nat, a: U64)
    requires Inv(m) && e in m.engines && a in m.engines[e].regions && m.engines[e].regions[a].status.Unregistered?
    ensures Inv(Remove(m, e, a))
  {
    hide EngineOk, RetainedOk, CallOk, HistoryOk, Total;
    var m', s := Remove(m, e, a), m.engines[e].regions[a].serial;
    InEngineFacts(m, e, a);
    TotalDrop(m.history.live, s);
    RemoveHistory(m, e, a);
    HoldersAside(m, m', s);
    CallsAside(m, m', s);
  }

  lemma RetireKeeps(m: Memory, e: nat)
    requires Inv(m) && e in m.engines
    ensures Inv(Retire(m, e))
  {
    hide Sound, RegionsOk, Total;
    var m' := Retire(m, e);
    SameBacked(m, m', e);
    forall k | 0 <= k < |m'.retained| ensures RetainedOk(m', k) { assert RetainedOk(m, k); }
    forall c | c in m'.calls ensures CallOk(m', c) { assert CallOk(m, c); }
    forall d | d in m'.engines ensures EngineOk(m', d) { assert EngineOk(m, d); }
  }

  lemma RetainHistory(m: Memory, e: nat)
    requires HistoryOk(m) && e in m.engines
    ensures HistoryOk(Retain(m, e))
  {
    var m' := Retain(m, e);
    forall s | s in m'.history.live ensures Backed(m', s) {
      assert Backed(m, s);
    }
  }

  lemma RetainEngines(m: Memory, e: nat, d: nat)
    requires e in m.engines && d in m.engines && EngineOk(m, d)
    ensures d != e ==> EngineOk(Retain(m, e), d)
    ensures d == e ==> RetainedOk(Retain(m, e), |m.retained|)
  {
  }

  lemma RetainOthers(m: Memory, e: nat)
    requires Inv(m) && e in m.engines
    ensures forall k :: 0 <= k < |m.retained| ==> RetainedOk(Retain(m, e), k)
    ensures forall c :: c in m.calls ==> CallOk(Retain(m, e), c)
  {
    hide EngineOk, HistoryOk, BudgetOk;
    var m' := Retain(m, e);
    forall k | 0 <= k < |m.retained| ensures RetainedOk(m', k) { assert RetainedOk(m, k); }
    forall c | c in m.calls ensures CallOk(m', c) { assert CallOk(m, c); }
  }

  lemma RetainKeeps(m: Memory, e: nat)
    requires Inv(m) && e in m.engines
    ensures Inv(Retain(m, e))
  {
    hide EngineOk, RetainedOk, CallOk, HistoryOk, Total;
    var m', h := Retain(m, e), m.history;
    TotalSame(h.live, m'.history.live);
    RetainHistory(m, e);
    RetainOthers(m, e);
    RetainEngines(m, e, e);
    forall d | d in m'.engines ensures EngineOk(m', d) { RetainEngines(m, e, d); }
  }

  lemma EngineAdded(m: Memory, e: nat)
    requires Inv(m) && e !in m.engines
    ensures Inv(m.(engines := m.engines[e := Engine(map[], false)]))
  {
    hide RegionsOk, Total, CallOk, Sound, BudgetOk;
    var m' := m.(engines := m.engines[e := Engine(map[], false)]);
    assert BudgetOk(m') by { SameBudget(m, m'); }
    forall s | s in m'.history.live ensures Backed(m', s) { assert Backed(m, s); }
    forall k | 0 <= k < |m'.retained| ensures RetainedOk(m', k) { assert RetainedOk(m, k); }
    forall c | c in m'.calls ensures CallOk(m', c) { SameCallOk(m, m', c); }
    forall d | d in m'.engines ensures EngineOk(m', d) {
      if d == e { NoRegions(m'.history, m'.engines[d].regions, AnEngine(d)); } else { assert EngineOk(m, d); }
    }
  }

  lemma SameBudget(m: Memory, m': Memory)
    requires BudgetOk(m) && m'.budget == m.budget && m'.history == m.history
    ensures BudgetOk(m')
  {
  }

  lemma SameCallOk(m: Memory, m': Memory, c: nat)
    requires c in m.calls && CallOk(m, c) && m'.calls == m.calls && m'.history == m.history
    ensures CallOk(m', c)
  {
  }

  lemma NoRegions(h: History, regions: Regions, holder: Holder)
    requires regions == map[]
    ensures RegionsOk(h, regions, holder) && Sound(regions)
  {
  }

  lemma EngineRemoved(m: Memory, e: nat)
    requires Inv(m) && e in m.engines && m.engines[e].regions == map[]
    ensures Inv(m.(engines := m.engines - {e}))
  {
    hide RegionsOk, Sound, Total;
    var m' := m.(engines := m.engines - {e});
    forall s | s in m'.history.live ensures Backed(m', s) { assert Backed(m, s); }
    forall k | 0 <= k < |m'.retained| ensures RetainedOk(m', k) { assert RetainedOk(m, k); }
    forall c | c in m'.calls ensures CallOk(m', c) { assert CallOk(m, c); }
    forall d | d in m'.engines ensures EngineOk(m', d) { assert EngineOk(m, d); }
  }

  lemma CallsChanged(m: Memory, calls': map<nat, seq<Parsed>>)
    requires Inv(m) && forall c :: c in m.calls && m.calls[c] != [] ==> c in calls' && calls'[c] == m.calls[c]
    requires forall c :: c in calls' && calls'[c] != [] ==> c in m.calls && calls'[c] == m.calls[c]
    ensures Inv(m.(calls := calls'))
  {
    hide RegionsOk, Sound, Total;
    var m' := m.(calls := calls');
    forall s | s in m'.history.live ensures Backed(m', s) { assert Backed(m, s); }
    forall k | 0 <= k < |m'.retained| ensures RetainedOk(m', k) { assert RetainedOk(m, k); }
    forall c | c in m'.calls ensures CallOk(m', c) { if m'.calls[c] != [] { assert CallOk(m, c); } }
    forall d | d in m'.engines ensures EngineOk(m', d) { assert EngineOk(m, d); }
  }

  // ---------- What the invariant says ----------

  /* Some engine or retained map still holds the region, and knows it is not unregistered. */
  ghost predicate StillOwned(m: Memory, s: nat) {
    || (exists e, a :: e in m.engines && a in m.engines[e].regions && m.engines[e].regions[a].serial == s
          && !m.engines[e].regions[a].status.Unregistered?)
    || (exists k: nat, a :: k < |m.retained| && a in m.retained[k] && m.retained[k][a].serial == s
          && !m.retained[k][a].status.Unregistered?)
  }

  /* A region whose native registration was attempted stays owned until its native unregistration succeeded. */
  lemma NeverLost(m: Memory, s: nat)
    requires Inv(m) && s in m.history.attempted && s !in m.history.unregistered
    ensures StillOwned(m, s)
  {
    assert Backed(m, s);
    assert forall c :: c in m.calls ==> CallOk(m, c);
    match m.history.live[s].place
    case InEngine(e, a) => assert EngineOk(m, e); assert m.engines[e].regions[a].serial == s;
    case InRetained(k, a) => assert RetainedOk(m, k); assert m.retained[k][a].serial == s;
    case InCall(_) =>
  }

  /* An admission is live exactly while a call, an engine or the retained list holds its region. */
  ghost predicate Holds(m: Memory, s: nat, place: Place) {
    match place
    case InCall(c) => c in m.calls && InSeq(m.calls[c], s)
    case InEngine(e, a) => e in m.engines && a in m.engines[e].regions && m.engines[e].regions[a].serial == s
    case InRetained(k, a) => k < |m.retained| && a in m.retained[k] && m.retained[k][a].serial == s
  }

  /* Each live admission has one holder and each held region is a live admission, so the budget, which is the number and
  total of live admissions, is the number and total of regions held anywhere. */
  lemma OneHolder(m: Memory, s: nat, p: Place, q: Place)
    requires Inv(m) && Holds(m, s, p)
    ensures s in m.history.live && m.history.live[s].place == p
    ensures Holds(m, s, q) ==> p == q
  {
    HolderIs(m, s, p);
    if Holds(m, s, q) { HolderIs(m, s, q); }
  }

  lemma HolderIs(m: Memory, s: nat, p: Place)
    requires Inv(m) && Holds(m, s, p)
    ensures s in m.history.live && m.history.live[s].place == p
  {
    match p
    case InEngine(e, a) => assert EngineOk(m, e);
    case InRetained(k, a) => assert RetainedOk(m, k);
    case InCall(c) => assert CallOk(m, c);
  }
}
