/** One pass of the restore worker over its active list, as a loop and as steps of the worker thread. */
module RestorePass {
  import opened Wrappers
  import opened RestoreWorker

  function Jobs(stored: seq<(Job, Outcome)>): (r: seq<Job>)
    ensures |r| == |stored| && forall i :: 0 <= i < |stored| ==> r[i] == stored[i].0
  {
    if stored == [] then [] else Jobs(stored[..|stored| - 1]) + [stored[|stored| - 1].0]
  }

  /* The results with those of the pass added. */
  function Recorded(results: map<Job, Outcome>, stored: seq<(Job, Outcome)>): map<Job, Outcome> {
    if stored == [] then results
    else Recorded(results, stored[..|stored| - 1])[stored[|stored| - 1].0 := stored[|stored| - 1].1]
  }

  lemma StoredAppend(results: map<Job, Outcome>, stored: seq<(Job, Outcome)>, entry: (Job, Outcome))
    ensures Jobs(stored + [entry]) == Jobs(stored) + [entry.0]
    ensures Recorded(results, stored + [entry]) == Recorded(results, stored)[entry.0 := entry.1]
  {
    assert (stored + [entry])[..|stored|] == stored;
  }

  /* `left` and `stored` together are the jobs of `active`. */
  ghost predicate Split(active: seq<Job>, left: seq<Job>, stored: seq<(Job, Outcome)>) {
    multiset(left) + multiset(Jobs(stored)) == multiset(active)
  }

  /* The jobs advanced so far are the first `index` left over and those stored. */
  ghost predicate Visited(advanced: seq<Job>, left: seq<Job>, index: nat, stored: seq<(Job, Outcome)>)
    requires index <= |left|
  {
    multiset(advanced) == multiset(left[..index]) + multiset(Jobs(stored))
  }

  lemma VisitKept(advanced: seq<Job>, left: seq<Job>, index: nat, stored: seq<(Job, Outcome)>)
    requires index < |left| && Visited(advanced, left, index, stored)
    ensures Visited(advanced + [left[index]], left, index + 1, stored)
  {
    assert left[..index + 1] == left[..index] + [left[index]];
  }

  lemma VisitStored(
      active: seq<Job>, advanced: seq<Job>, left: seq<Job>, index: nat, stored: seq<(Job, Outcome)>, r: Outcome)
    requires index < |left| && Visited(advanced, left, index, stored) && Split(active, left, stored)
    ensures var rest := SwapRemove(left, index);
            var stored' := stored + [(left[index], r)];
            && Visited(advanced + [left[index]], rest, index, stored') && Split(active, rest, stored')
            && rest[..index] == left[..index]
  {
    hide SwapRemove;
    SwapRemoves(left, index);
    StoredAppend(map[], stored, (left[index], r));
    var rest := SwapRemove(left, index);
    var job, stored' := left[index], stored + [(left[index], r)];
    assert Jobs(stored') == Jobs(stored) + [job];
    assert multiset(Jobs(stored')) == multiset(Jobs(stored)) + multiset{job};
    assert multiset(advanced + [job]) == multiset(advanced) + multiset{job};
  }

  /* The states the worker thread goes through on its own. */
  ghost predicate Path(path: seq<State>, steps: seq<Action>) {
    |path| == |steps| + 1 && forall i :: 0 <= i < |steps| ==> NextWorker(path[i], steps[i], path[i + 1])
  }

  lemma PathOne(path: seq<State>, steps: seq<Action>, a: Action, s: State)
    requires Path(path, steps) && NextWorker(path[|steps|], a, s)
    ensures Path(path + [s], steps + [a]) && (path + [s])[0] == path[0] && (path + [s])[|steps| + 1] == s
  {
    hide NextWorker;
  }

  /* What the worker's state is when the loop stands at `index`. */
  function Midway(s: State, left: seq<Job>, index: nat, stored: seq<(Job, Outcome)>): State {
    s.(
      worker := Passing(index), pending := s.pending - |stored|,
      work := s.work.(active := left, results := Recorded(s.work.results, stored)))
  }

  lemma KeepStep(s: State, left: seq<Job>, index: nat, stored: seq<(Job, Outcome)>)
    requires index < |left|
    ensures NextWorker(Midway(s, left, index, stored), Advance(None), Midway(s, left, index + 1, stored))
  {
    hide Recorded, SwapRemove;
  }

  /* The step that takes a finished job out, its result stored, the token returned. */
  lemma FinishSteps(
      s: State, left: seq<Job>, index: nat, stored: seq<(Job, Outcome)>, o: Outcome, path: seq<State>, steps: seq<Action>)
    returns (path': seq<State>, steps': seq<Action>)
    requires index < |left| && Path(path, steps) && path[|steps|] == Midway(s, left, index, stored)
    ensures Path(path', steps') && path'[0] == path[0]
    ensures path'[|steps'|] == Midway(s, SwapRemove(left, index), index, stored + [(left[index], o)])
  {
    hide SwapRemove, Path, Recorded;
    StoredAppend(s.work.results, stored, (left[index], o));
    var m := Midway(s, left, index, stored);
    var a := m.(worker := Storing(index, left[index], o), work := m.work.(active := SwapRemove(left, index)));
    var b := a.(worker := Counting(index, left[index]), work := a.work.(results := a.work.results[left[index] := o]));
    var c := b.(worker := Passing(index), pending := b.pending - 1);
    assert c == Midway(s, SwapRemove(left, index), index, stored + [(left[index], o)]);
    assert |path| == |steps| + 1 by { PathLength(path, steps); }
    PathOne(path, steps, Advance(Some(o)), a);
    PathOne(path + [a], steps + [Advance(Some(o))], Store, b);
    PathOne(path + [a] + [b], steps + [Advance(Some(o))] + [Store], Count, c);
    path', steps' := path + [a] + [b] + [c], steps + [Advance(Some(o))] + [Store] + [Count];
  }

  lemma PathLength(path: seq<State>, steps: seq<Action>)
    requires Path(path, steps)
    ensures |path| == |steps| + 1
  {
  }

  /* Where the loop stands: the first `index` jobs left said no, the stored ones finished, and the worker came here. */
  ghost predicate Going(
      active: seq<Job>, advance: Job -> Option<Outcome>, s: State, left: seq<Job>, index: nat,
      stored: seq<(Job, Outcome)>, advanced: seq<Job>, path: seq<State>, steps: seq<Action>)
  {
    && index <= |left| && Split(active, left, stored) && Visited(advanced, left, index, stored)
    && (forall i :: 0 <= i < index ==> advance(left[i]).None?)
    && (forall i :: 0 <= i < |stored| ==> advance(stored[i].0) == Some(stored[i].1))
    && Path(path, steps) && path[0] == s && path[|steps|] == Midway(s, left, index, stored)
  }

  lemma GoingStarts(active: seq<Job>, advance: Job -> Option<Outcome>, s: State)
    requires s.worker == Passing(0) && s.work.active == active
    ensures Going(active, advance, s, active, 0, [], [], [s], [])
  {
    assert Midway(s, active, 0, []) == s;
  }

  lemma GoesOn(
      active: seq<Job>, advance: Job -> Option<Outcome>, s: State, left: seq<Job>, index: nat,
      stored: seq<(Job, Outcome)>, advanced: seq<Job>, path: seq<State>, steps: seq<Action>)
    requires index < |left| && advance(left[index]).None?
    requires Going(active, advance, s, left, index, stored, advanced, path, steps)
    ensures Going(active, advance, s, left, index + 1, stored, advanced + [left[index]],
              path + [Midway(s, left, index + 1, stored)], steps + [Advance(None)])
  {
    hide Split, Visited, Jobs, SwapRemove, Path, Midway, NextWorker, Recorded;
    PathLength(path, steps);
    VisitKept(advanced, left, index, stored);
    KeepStep(s, left, index, stored);
    PathOne(path, steps, Advance(None), Midway(s, left, index + 1, stored));
  }

  lemma Finishes(
      active: seq<Job>, advance: Job -> Option<Outcome>, s: State, left: seq<Job>, index: nat,
      stored: seq<(Job, Outcome)>, advanced: seq<Job>, path: seq<State>, steps: seq<Action>)
    returns (path': seq<State>, steps': seq<Action>)
    requires index < |left| && advance(left[index]).Some?
    requires Going(active, advance, s, left, index, stored, advanced, path, steps)
    ensures Going(active, advance, s, SwapRemove(left, index), index, stored + [(left[index], advance(left[index]).value)],
              advanced + [left[index]], path', steps')
  {
    hide Split, Visited, Jobs, SwapRemove, Path, Midway, NextWorker, Recorded;
    var outcome := advance(left[index]).value;
    PathLength(path, steps);
    VisitStored(active, advanced, left, index, stored, outcome);
    path', steps' := FinishSteps(s, left, index, stored, outcome, path, steps);
    PathLength(path', steps');
    var rest := SwapRemove(left, index);
    forall i | 0 <= i < index ensures advance(rest[i]).None? { assert rest[i] == rest[..index][i] == left[..index][i]; }
  }

  /* Every active job is advanced exactly once; those that finish are stored with their outcome, the others stay.  The
  worker thread gets there from `s` by its own steps. */
  method Pass(active: seq<Job>, advance: Job -> Option<Outcome>, ghost s: State)
    returns (left: seq<Job>, stored: seq<(Job, Outcome)>, ghost advanced: seq<Job>, ghost path: seq<State>,
      ghost steps: seq<Action>)
    requires s.worker == Passing(0) && s.work.active == active
    ensures multiset(advanced) == multiset(active)
    ensures multiset(left) + multiset(Jobs(stored)) == multiset(active)
    ensures forall i :: 0 <= i < |left| ==> advance(left[i]).None?
    ensures forall i :: 0 <= i < |stored| ==> advance(stored[i].0) == Some(stored[i].1)
    ensures Path(path, steps) && path[0] == s && path[|steps|] == Midway(s, left, |left|, stored)
  {
    hide Going, SwapRemove;
    left, stored, advanced := active, [], [];
    path, steps := [s], [];
    var index := 0;
    GoingStarts(active, advance, s);
    while index < |left|
      invariant 0 <= index <= |left| && Going(active, advance, s, left, index, stored, advanced, path, steps)
      decreases |left| - index
    {
      var job := left[index];
      var outcome := advance(job);
      if outcome.None? {
        GoesOn(active, advance, s, left, index, stored, advanced, path, steps);
        path, steps := path + [Midway(s, left, index + 1, stored)], steps + [Advance(None)];
        index := index + 1;
      } else {
        path, steps := Finishes(active, advance, s, left, index, stored, advanced, path, steps);
        left := SwapRemove(left, index);
        stored := stored + [(job, outcome.value)];
      }
      advanced := advanced + [job];
    }
    GoingDone(active, advance, s, left, stored, advanced, path, steps);
  }

  lemma GoingDone(
      active: seq<Job>, advance: Job -> Option<Outcome>, s: State, left: seq<Job>,
      stored: seq<(Job, Outcome)>, advanced: seq<Job>, path: seq<State>, steps: seq<Action>)
    requires Going(active, advance, s, left, |left|, stored, advanced, path, steps)
    ensures multiset(advanced) == multiset(active)
    ensures multiset(left) + multiset(Jobs(stored)) == multiset(active)
    ensures forall i :: 0 <= i < |left| ==> advance(left[i]).None?
    ensures forall i :: 0 <= i < |stored| ==> advance(stored[i].0) == Some(stored[i].1)
    ensures Path(path, steps) && path[0] == s && path[|steps|] == Midway(s, left, |left|, stored)
  {
    hide NextWorker, Midway;
    assert left[..|left|] == left;
  }
}
