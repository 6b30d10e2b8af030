/** Whole runs of the calls on the transfer engine owner. */
module MemoryRuns {
  import opened Wrappers
  import opened MemoryBooks
  import opened RegisteredMemory
  import opened MemoryMachine
  import opened MemorySteps

  ghost predicate Run(states: seq<State>, actions: seq<Action>) {
    && |states| == |actions| + 1 && states[0] == INITIAL
    && forall i :: 0 <= i < |actions| ==> Next(states[i], actions[i], states[i + 1])
  }

  lemma {:induction false} RunKeeps(states: seq<State>, actions: seq<Action>, i: nat)
    requires Run(states, actions) && i < |states|
    ensures MemoryMachine.Inv(states[i])
  {
    hide MemoryMachine.Inv, Next;
    if i == 0 {
      MemoryMachine.Starts();
    } else {
      RunKeeps(states, actions, i - 1);
      NextKeeps(states[i - 1], actions[i - 1], states[i]);
    }
  }

  lemma NextGrows(s: State, a: Action, s': State)
    requires Next(s, a, s')
    ensures s.mem.history.attempted <= s'.mem.history.attempted
    ensures s.mem.history.unregistered <= s'.mem.history.unregistered
  {
    hide Relock, Walks, Moved, WellFormed, AllFit, AllInside, Unregisterable, Uses;
  }

  lemma {:induction false} RunGrows(states: seq<State>, actions: seq<Action>, i: nat, j: nat)
    requires Run(states, actions) && i <= j < |states|
    ensures states[i].mem.history.attempted <= states[j].mem.history.attempted
    ensures states[i].mem.history.unregistered <= states[j].mem.history.unregistered
    decreases j
  {
    hide Next;
    if i < j {
      RunGrows(states, actions, i, j - 1);
      NextGrows(states[j - 1], actions[j - 1], states[j]);
    }
  }

  /* The serial whose native unregistration succeeds when action `a` is taken in `s`. */
  function Forgotten(s: State, a: Action): Option<nat> {
    if a.ForgetNext? && a.native && At(s, a.c).Forgetting? then
      var Forgetting(e, addresses, i, _) := At(s, a.c);
      if e in s.mem.engines && i < |addresses| && addresses[i] in s.mem.engines[e].regions then
        var region := s.mem.engines[e].regions[addresses[i]];
        if region.status.Unregistered? then None else Some(region.serial)
      else None
    else None
  }

  lemma ForgottenIsNew(s: State, a: Action, s': State)
    requires MemoryMachine.Inv(s) && Next(s, a, s') && Forgotten(s, a).Some?
    ensures Forgotten(s, a).value !in s.mem.history.unregistered && Forgotten(s, a).value in s'.mem.history.unregistered
  {
    hide MemoryBooks.Inv, LocksOk, HandlesOk, PcOk, Relock;
    var Forgetting(e, addresses, i, _) := At(s, a.c);
    ForgetKeeps(s.mem, e, addresses[i]);
  }

  /* No region is successfully unregistered twice. */
  lemma ForgottenOnce(states: seq<State>, actions: seq<Action>, i: nat, j: nat)
    requires Run(states, actions) && i < j < |actions| && Forgotten(states[i], actions[i]).Some?
    ensures Forgotten(states[i], actions[i]) != Forgotten(states[j], actions[j])
  {
    hide MemoryMachine.Inv, Next, Forgotten;
    RunKeeps(states, actions, i);
    RunKeeps(states, actions, j);
    RunGrows(states, actions, i + 1, j);
    ForgottenIsNew(states[i], actions[i], states[i + 1]);
    if Forgotten(states[j], actions[j]).Some? { ForgottenIsNew(states[j], actions[j], states[j + 1]); }
  }

  /* Whatever was attempted at some point of the run and not confirmed unregistered since is owned. */
  lemma OwnedThroughout(states: seq<State>, actions: seq<Action>, i: nat, j: nat, s: nat)
    requires Run(states, actions) && i <= j < |states|
    requires s in states[i].mem.history.attempted && s !in states[j].mem.history.unregistered
    ensures StillOwned(states[j].mem, s)
  {
    hide MemoryBooks.Inv, StillOwned, Next;
    RunGrows(states, actions, i, j);
    RunKeeps(states, actions, j);
    NeverLost(states[j].mem, s);
  }

  /* At every point each engine's regions are disjoint, nonempty, within the address space and of one kind, and the budget
  is the number and total charge of the live admissions, within both limits. */
  lemma SafeThroughout(states: seq<State>, actions: seq<Action>, i: nat)
    requires Run(states, actions) && i < |states|
    ensures var m := states[i].mem;
            && (forall e :: e in m.engines ==> Sound(m.engines[e].regions))
            && 0 <= m.budget.regions == |m.history.live| <= 1024
            && 0 <= m.budget.bytes == Total(m.history.live) <= 1_099_511_627_776
  {
    hide Next, PcOk, LocksOk, HandlesOk;
    RunKeeps(states, actions, i);
    var m := states[i].mem;
    TotalNonNegative(m.history.live);
    forall e | e in m.engines ensures Sound(m.engines[e].regions) {
      EngineSound(m, e);
    }
  }

  /* Whatever other calls do between the checks and the steps they allow: the next region to insert still fits under a
  vacant key, and the next to be taken out of the map is there and unregistered. */
  lemma ChecksStillHold(states: seq<State>, actions: seq<Action>, i: nat, c: nat)
    requires Run(states, actions) && i < |states|
    ensures var m := states[i].mem;
            match At(states[i], c)
            case Inserting(e) =>
              && e in m.engines && c in m.calls
              && (m.calls[c] != [] ==>
                    && m.calls[c][0].address !in m.engines[e].regions
                    && ParsedOk(m.calls[c][0]) && Fits(m.engines[e].regions, m.calls[c][0]))
            case Removing(e, addresses, next, _) =>
              && e in m.engines
              && (next < |addresses| ==>
                    && addresses[next] in m.engines[e].regions
                    && m.engines[e].regions[addresses[next]].status.Unregistered?)
            case _ => true
  {
    hide MemoryBooks.Inv, Next, LocksOk, HandlesOk, WellFormed, AllFit, Fits, Sound;
    RunKeeps(states, actions, i);
    Here(states[i], c);
    var m := states[i].mem;
    if At(states[i], c).Inserting? && m.calls[c] != [] {
      EngineSound(m, At(states[i], c).e);
      OneKind(m, c);
      RestFits(m.engines[At(states[i], c).e].regions, m.calls[c]);
    }
  }

  /* While a transfer is under way its engine is not retiring and every slice lies in one registered region. */
  lemma TransfersStayInside(states: seq<State>, actions: seq<Action>, i: nat, c: nat)
    requires Run(states, actions) && i < |states| && At(states[i], c).Transferring?
    ensures var Transferring(e, slices) := At(states[i], c);
            && e in states[i].mem.engines && !states[i].mem.engines[e].retiring
            && AllInside(states[i].mem.engines[e].regions, slices)
  {
    hide MemoryBooks.Inv, Next, LocksOk, HandlesOk, AllInside;
    RunKeeps(states, actions, i);
    Here(states[i], c);
  }
}
