/** The main loop of `_collect` over the interleaved records of all traces. */
module LogCollector {
  import opened Wrappers
  import opened ShapeCheck
  import opened CopyGeometry
  import opened LogAcceptor
  import CopyCodec

  type Traces = map<Key, Trace>

  /* The records of one trace, in log order. */
  function Project(es: seq<Event>, k: Key): seq<Event> {
    if es == [] then []
    else Project(es[..|es| - 1], k) + (if es[|es| - 1].head.key == k then [es[|es| - 1]] else [])
  }

  /* The log as a whole: every trace's records conform, and some batch was recorded. */
  ghost predicate LogConforms(es: seq<Event>) {
    && (forall i :: 0 <= i < |es| ==> Conforms(Project(es, es[i].head.key)))
    && (exists i :: 0 <= i < |es| && es[i].Batch?)
  }

  lemma ProjectAppend(es: seq<Event>, e: Event, k: Key)
    ensures Project(es + [e], k) == Project(es, k) + (if e.head.key == k then [e] else [])
  {
    assert (es + [e])[..|es|] == es;
  }

  lemma {:induction false} ProjectMembers(es: seq<Event>, k: Key)
    ensures Project(es, k) != [] <==> exists i :: 0 <= i < |es| && es[i].head.key == k
    ensures forall e :: e in Project(es, k) <==> e in es && e.head.key == k
  {
    if es != [] {
      var n := |es| - 1;
      ProjectMembers(es[..n], k);
      assert es == es[..n] + [es[n]];
      if i :| 0 <= i < |es| && es[i].head.key == k {
        if i < n { assert es[..n][i] == es[i]; }
      }
      if Project(es, k) != [] && es[n].head.key != k {
        var i :| 0 <= i < |es[..n]| && es[..n][i].head.key == k;
        assert es[i].head.key == k;
      }
    }
  }

  /* The map holds exactly the traces seen, each in the state its own records lead to. */
  ghost predicate Tracks(es: seq<Event>, m: Traces) {
    forall k :: TracksKey(es, m, k)
  }

  ghost predicate TracksKey(es: seq<Event>, m: Traces, k: Key) {
    && (k in m <==> Project(es, k) != [])
    && (k in m ==> Gets(Project(es, k), m[k]))
  }

  function Lookup(m: Traces, k: Key): Option<Trace> {
    if k in m then Some(m[k]) else None
  }

  lemma RunNext(es: seq<Event>, t: Option<Trace>, e: Event)
    requires if t.Some? then Gets(es, t.value) else es == []
    ensures StepTrace(t, e).Some? ==> Gets(es + [e], StepTrace(t, e).value)
    ensures StepTrace(t, e).None? ==> RunTrace(es + [e]).Rejected?
  {
    assert (es + [e])[..|es|] == es;
  }

  lemma TracksStep(es: seq<Event>, m: Traces, e: Event)
    requires Tracks(es, m)
    ensures var t := StepTrace(Lookup(m, e.head.key), e);
            && (t.Some? ==> Tracks(es + [e], m[e.head.key := t.value]))
            && (t.None? ==> RunTrace(Project(es + [e], e.head.key)).Rejected?)
  {
    var key := e.head.key;
    assert TracksKey(es, m, key);
    ProjectAppend(es, e, key);
    RunNext(Project(es, key), Lookup(m, key), e);
    var t := StepTrace(Lookup(m, key), e);
    if t.Some? {
      Updated(es, m, e, t.value);
    }
  }

  lemma Updated(es: seq<Event>, m: Traces, e: Event, t: Trace)
    requires Tracks(es, m) && Gets(Project(es + [e], e.head.key), t) && Project(es + [e], e.head.key) != []
    ensures Tracks(es + [e], m[e.head.key := t])
  {
    var all, m' := es + [e], m[e.head.key := t];
    forall k
      ensures TracksKey(all, m', k)
    {
      assert TracksKey(es, m, k);
      ProjectAppend(es, e, k);
      if k != e.head.key {
        assert Project(all, k) == Project(es, k);
      }
    }
  }

  lemma {:induction false} RejectedStays(es: seq<Event>, more: seq<Event>)
    requires RunTrace(es).Rejected?
    ensures RunTrace(es + more).Rejected?
    decreases |more|
  {
    if more == [] {
      assert es + more == es;
    } else {
      var n := |more| - 1;
      RejectedStays(es, more[..n]);
      assert (es + more)[..|es| + n] == es + more[..n];
    }
  }

  lemma {:induction false} ProjectConcat(a: seq<Event>, b: seq<Event>, k: Key)
    ensures Project(a + b, k) == Project(a, k) + Project(b, k)
    decreases |b|
  {
    if b == [] {
      assert a + b == a;
    } else {
      var n := |b| - 1;
      ProjectConcat(a, b[..n], k);
      assert a + b == (a + b[..n]) + [b[n]];
      ProjectAppend(a + b[..n], b[n], k);
      assert b == b[..n] + [b[n]];
      ProjectAppend(b[..n], b[n], k);
    }
  }

  /* A rejected record spoils its trace for good. */
  lemma RejectionIsFinal(es: seq<Event>, n: nat)
    requires n < |es| && RunTrace(Project(es[..n + 1], es[n].head.key)).Rejected?
    ensures !LogConforms(es)
  {
    var k := es[n].head.key;
    assert es == es[..n + 1] + es[n + 1..];
    ProjectConcat(es[..n + 1], es[n + 1..], k);
    RejectedStays(Project(es[..n + 1], k), Project(es[n + 1..], k));
    TraceExact(Project(es, k));
    assert !Conforms(Project(es, k));
  }

  // ---------- The source's loops ----------

  /* Decode a batch payload, as `_decode_copies` does by schema. */
  method DecodePayload(schema: int, descriptors: int, payload: Payload) returns (r: Option<seq<Copy>>)
    ensures r == CopiesOf(schema, descriptors, payload)
  {
    match payload
    case Named(copies) => r := CopiesOf(schema, descriptors, payload);
    case Compact(rows) => r := CopiesOf(schema, descriptors, payload);
    case Encoded(rowCount, encoding, text) =>
      if schema != 4 {
        return None;
      }
      var table := CopyCodec.DecodeCopies(rowCount, descriptors, encoding, text);
      if table.None? {
        return None;
      }
      r := Some(CopiesOfRows(table.value));
  }

  method BatchStep(t: Trace, e: Event) returns (r: Option<Trace>)
    requires t.header.Open? && e.Batch?
    ensures r == AddBatch(t, e)
  {
    if !BatchFields(e) {
      return None;
    }
    var shaped := ValidateShape(e.shape);
    if !shaped {
      return None;
    }
    if e.partId != |t.parts| || e.batchId != |InPart(t.batches, e.partId)| {
      return None;
    }
    if Descriptors(t.batches) + e.shape.descriptors > t.header.limit {
      return None;
    }
    var copies := DecodePayload(e.head.schema, e.shape.descriptors, e.payload);
    if copies.None? {
      return None;
    }
    var placed := Geometry(copies.value, e.shape);
    if !placed {
      return None;
    }
    r := Some(t.(batches := t.batches + [BatchRecord(e.partId, e.batchId, e.shape.descriptors, copies.value)]));
  }

  method PartStep(t: Trace, e: Event) returns (r: Option<Trace>)
    requires e.Part?
    ensures r == EndPart(t, e)
  {
    if !PartFields(e) || e.partId != |t.parts| {
      return None;
    }
    var current := InPart(t.batches, e.partId);
    var count := Descriptors(current);
    if e.planned != count || e.submitted != count || e.batches != |current| {
      return None;
    }
    var books := PartGeometry(CopiesIn(current), t.books);
    if books.None? {
      return None;
    }
    r := Some(t.(parts := t.parts + [e.planned], books := books.value));
  }

  method Step(t: Option<Trace>, e: Event) returns (r: Option<Trace>)
    ensures r == StepTrace(t, e)
  {
    if !HeadOk(e.head) {
      return None;
    }
    if e.Open? {
      return OpenTrace(t, e);
    }
    if t.None? || !t.value.header.Open? || t.value.pending != Some(e.head.sequence)
       || e.head.device != t.value.header.head.device || e.head.schema != t.value.header.head.schema {
      return None;
    }
    if e.Batch? {
      r := BatchStep(t.value, e);
    } else if e.Part? {
      r := PartStep(t.value, e);
    } else if e.Complete? {
      r := EndSegment(t.value, e);
    } else {
      r := None;
    }
  }

  /* Records reach the map one at a time; a log is accepted exactly when it is in the grammar. */
  method Collect(es: seq<Event>) returns (ok: bool)
    ensures ok <==> LogConforms(es)
  {
    var traces: Traces := map[];
    for i := 0 to |es|
      invariant Tracks(es[..i], traces)
    {
      var key := es[i].head.key;
      var t := Step(Lookup(traces, key), es[i]);
      assert es[..i + 1] == es[..i] + [es[i]];
      TracksStep(es[..i], traces, es[i]);
      if t.None? {
        RejectionIsFinal(es, i);
        return false;
      }
      traces := traces[key := t.value];
    }
    assert es[..|es|] == es;
    AllComplete(es, traces);
    ok := (forall k :: k in traces ==> traces[k].reserved.Some?) && (exists k :: k in traces && traces[k].batches != []);
    BatchesSeen(es, traces);
  }

  lemma AllComplete(es: seq<Event>, m: Traces)
    requires Tracks(es, m)
    ensures (forall k :: k in m ==> m[k].reserved.Some?)
       <==> forall i :: 0 <= i < |es| ==> Conforms(Project(es, es[i].head.key))
  {
    forall k | k in m
      ensures m[k].reserved.Some? <==> Conforms(Project(es, k))
    {
      assert TracksKey(es, m, k);
      CompleteIff(Project(es, k), m[k]);
    }
    forall i | 0 <= i < |es|
      ensures es[i].head.key in m
    {
      ProjectMembers(es, es[i].head.key);
      assert TracksKey(es, m, es[i].head.key);
    }
    forall k | k in m
      ensures exists i :: 0 <= i < |es| && es[i].head.key == k
    {
      ProjectMembers(es, k);
      assert TracksKey(es, m, k);
    }
  }

  lemma CompleteIff(es: seq<Event>, t: Trace)
    requires Gets(es, t)
    ensures t.reserved.Some? <==> Conforms(es)
  {
    TraceExact(es);
  }

  lemma {:induction false} TraceBatches(es: seq<Event>, t: Trace)
    requires Gets(es, t)
    ensures t.batches != [] <==> exists e :: e in es && e.Batch?
    decreases |es|
  {
    var n := |es| - 1;
    var before, last := es[..n], es[n];
    assert es == before + [last];
    if RunTrace(before).value.Some? {
      TraceBatches(before, RunTrace(before).value.value);
    } else {
      NoTraceYet(before);
    }
    if last.Batch? { assert last in es; }
  }

  lemma NoTraceYet(es: seq<Event>)
    requires RunTrace(es).Ok? && RunTrace(es).value.None?
    ensures es == []
  {
  }

  lemma BatchesSeen(es: seq<Event>, m: Traces)
    requires Tracks(es, m)
    ensures (exists k :: k in m && m[k].batches != []) <==> exists i :: 0 <= i < |es| && es[i].Batch?
  {
    if k :| k in m && m[k].batches != [] {
      assert TracksKey(es, m, k);
      TraceBatches(Project(es, k), m[k]);
      var e :| e in Project(es, k) && e.Batch?;
      ProjectMembers(es, k);
      assert e in es;
    }
    if i :| 0 <= i < |es| && es[i].Batch? {
      var k := es[i].head.key;
      ProjectMembers(es, k);
      assert es[i] in Project(es, k) && TracksKey(es, m, k);
      TraceBatches(Project(es, k), m[k]);
    }
  }

  // ---------- The budget at every checkpoint ----------

  /* The descriptors all batches of these records declare. */
  function Declared(es: seq<Event>): int {
    if es == [] then 0
    else Declared(es[..|es| - 1]) + (if es[|es| - 1].Batch? then es[|es| - 1].shape.descriptors else 0)
  }

  function PartsIn(es: seq<Event>): nat {
    if es == [] then 0 else PartsIn(es[..|es| - 1]) + (if es[|es| - 1].Part? then 1 else 0)
  }

  lemma CountsAppend(es: seq<Event>, e: Event)
    ensures Declared(es + [e]) == Declared(es) + (if e.Batch? then e.shape.descriptors else 0)
    ensures PartsIn(es + [e]) == PartsIn(es) + (if e.Part? then 1 else 0)
  {
    assert (es + [e])[..|es|] == es;
  }

  lemma {:induction false} BatchCounts(es: seq<Event>, bs: seq<Event>)
    requires AllBatches(bs)
    ensures Declared(es + bs) == Declared(es) + Descriptors(RecordsOf(bs)) && PartsIn(es + bs) == PartsIn(es)
    decreases |bs|
  {
    hide Declared, PartsIn, RecordOf;
    if bs == [] {
      assert es + bs == es;
    } else {
      var n := |bs| - 1;
      BatchCounts(es, bs[..n]);
      assert es + bs == (es + bs[..n]) + [bs[n]];
      CountsAppend(es + bs[..n], bs[n]);
      assert RecordsOf(bs) == RecordsOf(bs[..n]) + [RecordOf(bs[n])];
      DescriptorsAppend(RecordsOf(bs[..n]), RecordOf(bs[n]));
      RecordDescriptors(bs[n]);
    }
  }

  lemma RecordDescriptors(e: Event)
    requires e.Batch?
    ensures RecordOf(e).descriptors == e.shape.descriptors
  {
  }

  lemma SegmentCounts(before: seq<Event>, s: Segment)
    requires Stages(s)
    ensures var all := before + ([s.open] + s.batches + [s.part, s.complete]);
            Declared(all) == Declared(before) + Descriptors(RecordsOf(s.batches)) && PartsIn(all) == PartsIn(before) + 1
  {
    hide Declared, PartsIn, Descriptors, RecordsOf, AllBatches;
    var first := before + [s.open];
    var second := first + s.batches;
    CountsAppend(before, s.open);
    BatchCounts(first, s.batches);
    CountsAppend(second, s.part);
    CountsAppend(second + [s.part], s.complete);
    assert before + ([s.open] + s.batches + [s.part, s.complete]) == second + [s.part] + [s.complete];
  }

  lemma {:induction false} FlatCounts(segs: seq<Segment>)
    requires AllStages(segs)
    ensures Declared(Flat(segs)) == Descriptors(SegRecords(segs)) && PartsIn(Flat(segs)) == |segs|
  {
    hide Declared, PartsIn, Descriptors, RecordsOf, AllBatches;
    if segs == [] {
      NoCounts([], []);
    } else {
      var n := |segs| - 1;
      FlatCounts(segs[..n]);
      SegmentCounts(Flat(segs[..n]), segs[n]);
      Concat(SegRecords(segs[..n]), RecordsOf(segs[n].batches));
    }
  }

  lemma NoCounts(es: seq<Event>, rs: seq<BatchRecord>)
    requires es == [] && rs == []
    ensures Declared(es) == 0 == Descriptors(rs) && PartsIn(es) == 0
  {
  }

  lemma {:induction false} FlatStarts(segs: seq<Segment>)
    requires segs != []
    ensures Flat(segs) != [] && Flat(segs)[0] == segs[0].open
  {
    var n := |segs| - 1;
    if n > 0 { FlatStarts(segs[..n]); }
  }

  /* A trace that conforms up to a checkpoint: the record's sums are those of what came before it. */
  lemma ConformsBudget(es: seq<Event>, e: Event)
    requires Conforms(es + [e])
    ensures e.Complete? && es != [] && es[0].Open?
    ensures e.reserved == 2 * Declared(es) + PartsIn(es) <= es[0].limit
  {
    hide Flat, SegRecords, Declared, PartsIn;
    var segs: seq<Segment> :| segs != [] && WellFormed(segs) && es + [e] == Flat(segs);
    var n := |segs| - 1;
    FlatEnds(segs);
    FlatStarts(segs);
    FlatCounts(segs);
    CountsAppend(es, e);
    assert SegmentAt(segs, n) && segs == segs[..n] + [segs[n]];
    assert SegmentAt(segs, 0);
    assert e == segs[n].complete && (es + [e])[0] == segs[0].open;
  }

  lemma FlatEnds(segs: seq<Segment>)
    requires segs != []
    ensures |Flat(segs)| > 1 && Flat(segs)[|Flat(segs)| - 1] == segs[|segs| - 1].complete
  {
  }

  /* An accepted log is accepted up to each of its checkpoints. */
  lemma CheckpointConforms(es: seq<Event>, i: nat)
    requires LogConforms(es) && i < |es| && es[i].Complete?
    ensures Conforms(Project(es[..i], es[i].head.key) + [es[i]])
  {
    hide Project, Conforms, RunTrace, StepTrace;
    var k := es[i].head.key;
    var before, upTo := Project(es[..i], k), Project(es[..i + 1], k);
    assert es[..i + 1] == es[..i] + [es[i]];
    ProjectAppend(es[..i], es[i], k);
    assert es == es[..i + 1] + es[i + 1..];
    ProjectConcat(es[..i + 1], es[i + 1..], k);
    TraceExact(Project(es, k));
    if RunTrace(upTo).Rejected? { RejectedStays(upTo, Project(es[i + 1..], k)); }
    var t := CompleteLast(before, es[i]);
    TraceExact(upTo);
  }

  lemma CompleteLast(before: seq<Event>, e: Event) returns (t: Trace)
    requires RunTrace(before + [e]).Ok? && e.Complete?
    ensures Gets(before + [e], t) && t.reserved.Some?
  {
    assert (before + [e])[..|before|] == before;
    t := RunTrace(before + [e]).value.value;
  }

  /* At every checkpoint of an accepted log the reserved records are two for each descriptor its trace declared so far
  and one for each part, within the limit its first record declared. */
  lemma CheckpointBudget(es: seq<Event>, i: nat)
    requires LogConforms(es) && i < |es| && es[i].Complete?
    ensures var trace := Project(es[..i], es[i].head.key);
            && trace != [] && trace[0].Open?
            && es[i].reserved == 2 * Declared(trace) + PartsIn(trace) <= trace[0].limit
  {
    hide Conforms, LogConforms, Project, Declared, PartsIn;
    CheckpointConforms(es, i);
    ConformsBudget(Project(es[..i], es[i].head.key), es[i]);
  }
}
