/** The closed-loop traffic window: a producer with a bounded number of requests in flight, and the validation of what
it wrote.

The clock only moves forward; what it shows, which requests a wait returns, and when within the window each request began
and ended are chosen arbitrarily.  Times are real numbers of seconds.
*/
module SustainedWindow {
  import opened Wrappers

  datatype Args = Args(concurrency: nat, maxRequests: nat, duration: real, workingSet: nat)

  /* A submitted request: its prefix if it reuses one, and the clock reading at submission. */
  datatype Future = Future(prefix: Option<nat>, at: real)

  datatype Sample = Sample(
    index: nat, prefix: Option<nat>, matches: Option<bool>, submitted: real, started: real, finished: real)

  datatype Reason = RequestLimit | Duration

  datatype Window = Window(submitted: nat, peak: nat, reason: Reason, wall: real)

  // ---------- What validation asks ----------

  ghost function Indices(samples: seq<Sample>): set<nat> {
    set s | s in samples :: s.index
  }

  ghost function UpTo(n: nat): (r: set<nat>)
    ensures forall i: int :: i in r <==> 0 <= i < n
  {
    if n == 0 then {} else UpTo(n - 1) + {n - 1}
  }

  predicate TimingOk(args: Args, window: Window, s: Sample) {
    && 0.0 <= s.submitted && 0.0 <= s.started && 0.0 <= s.finished
    && s.submitted < args.duration && s.submitted <= s.started <= s.finished && s.finished <= window.wall
  }

  predicate EvidenceOk(args: Args, s: Sample) {
    match s.prefix
    case Some(prefix) => prefix < args.workingSet && s.matches.Some?
    case None => s.matches.None?
  }

  /* `validate`'s checks on one window and its samples. */
  ghost predicate Validates(args: Args, samples: seq<Sample>, window: Window) {
    && 0 < window.submitted <= args.maxRequests
    && |samples| == window.submitted && Indices(samples) == UpTo(window.submitted)
    && 0 < window.peak <= args.concurrency
    && 0.0 <= window.wall
    && (match window.reason
        case Duration => window.wall >= args.duration
        case RequestLimit => window.submitted == args.maxRequests)
    && window.wall > 0.0
    && (forall i :: 0 <= i < |samples| ==> TimingOk(args, window, samples[i]) && EvidenceOk(args, samples[i]))
  }

  function Highest(heights: seq<nat>): nat {
    if heights == [] then 0
    else
      var before, last := Highest(heights[..|heights| - 1]), heights[|heights| - 1];
      if before < last then last else before
  }

  // ---------- The producer's bookkeeping ----------

  /* A sample the window has collected: within the span from `started` to the clock's `now`. */
  predicate Collected(args: Args, started: real, now: real, s: Sample) {
    && 0.0 <= s.submitted < args.duration && s.submitted <= s.started <= s.finished <= now - started
    && EvidenceOk(args, s)
  }

  predicate Waiting(args: Args, started: real, now: real, f: Future) {
    started <= f.at <= now && f.at - started < args.duration && (f.prefix.Some? ==> f.prefix.value < args.workingSet)
  }

  /* Every index submitted is pending or sampled, once. */
  ghost predicate Accounted(submitted: nat, pending: map<nat, Future>, samples: seq<Sample>) {
    && pending.Keys + Indices(samples) == UpTo(submitted) && pending.Keys !! Indices(samples)
    && |pending| + |samples| == submitted
  }

  ghost predicate BooksOk(
      args: Args, started: real, now: real, submitted: nat, pending: map<nat, Future>, samples: seq<Sample>) {
    && submitted <= args.maxRequests && |pending| <= args.concurrency && started <= now
    && Accounted(submitted, pending, samples)
    && (forall i :: i in pending ==> Waiting(args, started, now, pending[i]))
    && (forall i :: 0 <= i < |samples| ==> Collected(args, started, now, samples[i]))
  }

  lemma Submits(submitted: nat, pending: map<nat, Future>, samples: seq<Sample>, f: Future)
    requires Accounted(submitted, pending, samples)
    ensures submitted !in pending && Accounted(submitted + 1, pending[submitted := f], samples)
    ensures |pending[submitted := f]| == |pending| + 1
  {
    hide UpTo, Indices;
    UpToNext(submitted);
    SubmitsKey(UpTo(submitted), pending, Indices(samples), submitted, f);
  }

  lemma UpToNext(n: nat)
    ensures n !in UpTo(n) && UpTo(n + 1) == UpTo(n) + {n}
  {
  }

  /* One more key, outside the old ones. */
  lemma SubmitsKey(all: set<nat>, pending: map<nat, Future>, done: set<nat>, n: nat, f: Future)
    requires pending.Keys + done == all && pending.Keys !! done && n !in all
    ensures n !in pending && pending[n := f].Keys + done == all + {n} && pending[n := f].Keys !! done
    ensures |pending[n := f]| == |pending| + 1
  {
    assert pending[n := f].Keys == pending.Keys + {n};
  }

  /* One key moves to the other side. */
  lemma CollectsKey(all: set<nat>, pending: map<nat, Future>, done: set<nat>, n: nat)
    requires pending.Keys + done == all && pending.Keys !! done && n in pending
    ensures (pending - {n}).Keys + (done + {n}) == all && (pending - {n}).Keys !! (done + {n})
    ensures |pending - {n}| == |pending| - 1
  {
    assert (pending - {n}).Keys == pending.Keys - {n};
  }

  lemma Collects(submitted: nat, pending: map<nat, Future>, samples: seq<Sample>, s: Sample)
    requires Accounted(submitted, pending, samples) && s.index in pending
    ensures Accounted(submitted, pending - {s.index}, samples + [s]) && |pending - {s.index}| == |pending| - 1
  {
    hide UpTo, Indices;
    IndicesAppend(samples, s);
    CollectsKey(UpTo(submitted), pending, Indices(samples), s.index);
  }

  lemma IndicesAppend(samples: seq<Sample>, s: Sample)
    ensures Indices(samples + [s]) == Indices(samples) + {s.index}
  {
    assert forall t :: t in samples + [s] <==> t in samples || t == s;
    assert s in samples + [s];
  }

  lemma Submitted(
      args: Args, started: real, now: real, submitted: nat, pending: map<nat, Future>, samples: seq<Sample>, f: Future)
    requires BooksOk(args, started, now, submitted, pending, samples) && Waiting(args, started, now, f)
    requires submitted < args.maxRequests && |pending| < args.concurrency
    ensures BooksOk(args, started, now, submitted + 1, pending[submitted := f], samples)
    ensures |pending[submitted := f]| == |pending| + 1
  {
    hide Accounted, Waiting, Collected;
    Submits(submitted, pending, samples, f);
  }

  lemma CollectedOne(
      args: Args, started: real, now: real, submitted: nat, pending: map<nat, Future>, samples: seq<Sample>, s: Sample)
    requires BooksOk(args, started, now, submitted, pending, samples)
    requires s.index in pending && Collected(args, started, now, s)
    ensures BooksOk(args, started, now, submitted, pending - {s.index}, samples + [s])
    ensures |pending - {s.index}| == |pending| - 1
  {
    hide Accounted, Waiting, Collected;
    Collects(submitted, pending, samples, s);
  }

  lemma Later(
      args: Args, started: real, now: real, later: real, submitted: nat, pending: map<nat, Future>,
      samples: seq<Sample>)
    requires BooksOk(args, started, now, submitted, pending, samples) && now <= later
    ensures BooksOk(args, started, later, submitted, pending, samples)
  {
    hide Accounted;
  }

  /* What the clock shows next. */
  method Read(clock: real) returns (now: real)
    ensures now >= clock
  {
    now := *;
    if now < clock {
      now := clock;
    }
  }

  // ---------- The loops of `run_window` ----------

  /* The inner loop: submit while there is room, requests are left and the deadline has not passed. */
  method Admit(
      args: Args, started: real, clock0: real, submitted0: nat, pending0: map<nat, Future>, peak0: nat,
      ghost samples: seq<Sample>, ghost heights0: seq<nat>)
    returns (clock: real, submitted: nat, pending: map<nat, Future>, peak: nat, ghost heights: seq<nat>)
    requires BooksOk(args, started, clock0, submitted0, pending0, samples) && |pending0| <= peak0 <= args.concurrency
    requires peak0 == Highest(heights0) && |heights0| == submitted0
    ensures peak == Highest(heights) && |heights| == submitted
    ensures BooksOk(args, started, clock, submitted, pending, samples) && |pending| <= peak <= args.concurrency
    ensures clock0 <= clock && peak0 <= peak && submitted0 <= submitted && (submitted > submitted0 ==> peak > 0)
    ensures 2 * (args.maxRequests - submitted) + |pending| <= 2 * (args.maxRequests - submitted0) + |pending0|
    ensures pending == map[] && args.concurrency > 0 ==> submitted == args.maxRequests || clock >= started + args.duration
  {
    hide Accounted, Collected;
    clock, submitted, pending, peak, heights := clock0, submitted0, pending0, peak0, heights0;
    while |pending| < args.concurrency && submitted < args.maxRequests
      invariant BooksOk(args, started, clock, submitted, pending, samples) && |pending| <= peak <= args.concurrency
      invariant peak == Highest(heights) && |heights| == submitted
      invariant clock0 <= clock && peak0 <= peak && submitted0 <= submitted && (submitted > submitted0 ==> peak > 0)
      invariant 2 * (args.maxRequests - submitted) + |pending| <= 2 * (args.maxRequests - submitted0) + |pending0|
      decreases args.maxRequests - submitted
    {
      var prefix: Option<nat> :| prefix.Some? ==> prefix.value < args.workingSet;
      var now := Read(clock);
      Later(args, started, clock, now, submitted, pending, samples);
      clock := now;
      if now >= started + args.duration {
        return;
      }
      Submitted(args, started, now, submitted, pending, samples, Future(prefix, now));
      pending := pending[submitted := Future(prefix, now)];
      submitted := submitted + 1;
      peak := if peak < |pending| then |pending| else peak;
      ghost var earlier := heights;
      heights := earlier + [|pending|];
      assert heights[..|heights| - 1] == earlier;
    }
  }

  /* One finished request. */
  method Finish(args: Args, started: real, clock: real, index: nat, f: Future) returns (s: Sample)
    requires Waiting(args, started, clock, f)
    ensures s.index == index && Collected(args, started, clock, s)
  {
    var began, ended, same := *, *, *;
    if !(f.at <= began <= ended <= clock) {
      began, ended := f.at, clock;
    }
    s := Sample(
      index, f.prefix, if f.prefix.Some? then Some(same) else None, f.at - started, began - started, ended - started);
  }

  /* The loop over what `wait` returned. */
  method Collect(
      args: Args, started: real, clock: real, ghost submitted: nat, pending0: map<nat, Future>, done: set<nat>,
      samples0: seq<Sample>)
    returns (pending: map<nat, Future>, samples: seq<Sample>)
    requires BooksOk(args, started, clock, submitted, pending0, samples0) && done <= pending0.Keys
    ensures BooksOk(args, started, clock, submitted, pending, samples)
    ensures |pending| + |done| == |pending0|
  {
    hide Accounted, Collected;
    pending, samples := pending0, samples0;
    var left := done;
    while left != {}
      invariant left <= pending.Keys && |pending| + |done| == |pending0| + |left|
      invariant BooksOk(args, started, clock, submitted, pending, samples)
      decreases |left|
    {
      var index :| index in left;
      var s := Finish(args, started, clock, index, pending[index]);
      CollectedOne(args, started, clock, submitted, pending, samples, s);
      left := left - {index};
      pending := pending - {index};
      samples := samples + [s];
    }
  }

  lemma NothingYet(args: Args, started: real, none: map<nat, Future>, samples: seq<Sample>)
    requires none == map[] && samples == []
    ensures BooksOk(args, started, started, 0, none, samples)
  {
    assert Indices(samples) == {} == UpTo(0);
  }

  lemma AllSampled(submitted: nat, none: map<nat, Future>, samples: seq<Sample>)
    requires Accounted(submitted, none, samples) && none == map[]
    ensures |samples| == submitted && Indices(samples) == UpTo(submitted)
  {
    assert none.Keys == {};
  }

  /* `run_window`: whatever the clock shows and in whatever order requests complete, what it returns passes every check
  exactly when it admitted a request and the clock moved; the loop ends because each turn lowers
  2 * (requests left) + (requests pending).  `heights` records how many requests were in flight after each submission. */
  method RunWindow(args: Args) returns (samples: seq<Sample>, window: Window, ghost heights: seq<nat>)
    requires args.concurrency > 0
    ensures |heights| == window.submitted && window.peak == Highest(heights)
    ensures Validates(args, samples, window) <==> window.submitted > 0 && window.wall > 0.0
    ensures window.submitted == 0 && args.maxRequests > 0 ==> samples == [] && window.wall >= args.duration
    ensures window.reason.Duration? ==> window.wall >= args.duration && window.submitted < args.maxRequests
  {
    hide Accounted;
    var entered: real := *;
    var started := Read(entered);
    var clock := started;
    var pending: map<nat, Future> := map[];
    var submitted: nat, peak: nat := 0, 0;
    samples, heights := [], [];
    NothingYet(args, started, pending, samples);
    while true
      invariant BooksOk(args, started, clock, submitted, pending, samples) && |pending| <= peak <= args.concurrency
      invariant (submitted > 0 ==> peak > 0) && peak == Highest(heights) && |heights| == submitted
      decreases 2 * (args.maxRequests - submitted) + |pending|
    {
      clock, submitted, pending, peak, heights := Admit(args, started, clock, submitted, pending, peak, samples, heights);
      if pending == map[] {
        break;
      }
      var later := Read(clock);
      Later(args, started, clock, later, submitted, pending, samples);
      clock := later;
      var done: set<nat> :| done != {} && done <= pending.Keys;
      pending, samples := Collect(args, started, clock, submitted, pending, done, samples);
    }
    AllSampled(submitted, pending, samples);
    var end := Read(clock);
    window := Window(submitted, peak, if submitted == args.maxRequests then RequestLimit else Duration, end - entered);
  }
}
