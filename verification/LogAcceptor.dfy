/** `_collect`: the streaming acceptor of engine-local copy logs, against the grammar of the logs it accepts.

Records of many traces are interleaved.  Per trace the acceptor keeps a header, the batches, the parts, the pending open
record and what the copies have said about memory.  The grammar below says what one trace's records look like as a whole.
*/
module LogAcceptor {
  import opened Wrappers
  import opened ShapeCheck
  import opened CopyGeometry
  import CopyCodec

  const MAX_LIMIT := 65536

  datatype Key = Key(pid: int, trace: int)

  datatype Head = Head(key: Key, schema: int, device: int, sequence: int)

  datatype Payload =
    | Named(copies: seq<Copy>)
    | Compact(rows: seq<seq<int>>)
    | Encoded(rowCount: int, encoding: string, text: string)

  datatype Event =
    | Open(head: Head, fieldsDeclared: bool, limit: int, maxPitch: int, recordsBefore: int)
    | Batch(head: Head, backend: string, direction: string, success: bool, submitNs: int, shape: Shape, partId: int,
            batchId: int, payload: Payload)
    | Part(head: Head, partId: int, finalDeclared: bool, success: bool, drainNs: int, planned: int, submitted: int,
           batches: int)
    | Complete(head: Head, complete: bool, reason: bool, parts: int, batches: int, descriptors: int, reserved: int)
    | Unknown(head: Head)

  // ---------- Fields ----------

  predicate HeadOk(h: Head) {
    && h.schema in {2, 3, 4}
    && Integer(h.key.pid, 1) && Integer(h.key.trace, 1) && Integer(h.device, 0) && Integer(h.sequence, 0)
  }

  predicate OpenFields(e: Event)
    requires e.Open?
  {
    && (e.head.schema in {3, 4} ==> e.fieldsDeclared)
    && 1 <= e.limit <= MAX_LIMIT
    && Integer(e.maxPitch, 1)
    && Integer(e.recordsBefore, 0)
  }

  predicate BatchFields(e: Event)
    requires e.Batch?
  {
    && e.backend in {"direct", "kernel"} && e.direction == "h2d" && e.success
    && Integer(e.submitNs, 0) && Integer(e.partId, 0) && Integer(e.batchId, 0)
  }

  predicate PartFields(e: Event)
    requires e.Part?
  {
    && e.finalDeclared && e.success
    && Integer(e.partId, 0) && Integer(e.drainNs, 0)
    && Integer(e.planned, 0) && Integer(e.submitted, 0) && Integer(e.batches, 0)
  }

  predicate CompleteFields(e: Event)
    requires e.Complete?
  {
    && e.complete && !e.reason
    && Integer(e.parts, 0) && Integer(e.batches, 0) && Integer(e.descriptors, 0) && Integer(e.reserved, 0)
  }

  function CopiesOfRows(rows: seq<seq<int>>): (r: seq<Copy>)
    requires forall i :: 0 <= i < |rows| ==> |rows[i]| == CopyCodec.FIELDS
  {
    seq(|rows|, i requires 0 <= i < |rows| => CopyOf(rows[i]))
  }

  /* The copies a batch carries under its schema, if the payload has that schema's form and length. */
  function CopiesOf(schema: int, descriptors: int, payload: Payload): Option<seq<Copy>> {
    match payload
    case Named(copies) => if schema == 2 && |copies| == descriptors then Some(copies) else None
    case Compact(rows) =>
      if schema == 3 && |rows| == descriptors && forall i :: 0 <= i < |rows| ==> |rows[i]| == CopyCodec.FIELDS then
        Some(CopiesOfRows(rows))
      else None
    case Encoded(rowCount, encoding, text) =>
      if schema != 4 then None
      else
        var table := CopyCodec.ReadFrame(rowCount, descriptors, encoding, text);
        if table.None? then None else Some(CopiesOfRows(table.value))
  }

  // ---------- The acceptor ----------

  datatype BatchRecord = BatchRecord(partId: int, batchId: int, descriptors: int, copies: seq<Copy>)

  datatype Trace = Trace(
    header: Event, pending: Option<int>, batches: seq<BatchRecord>, parts: seq<int>, reserved: Option<int>, books: Books)

  function RecordOf(e: Event): BatchRecord
    requires e.Batch?
  {
    var copies := CopiesOf(e.head.schema, e.shape.descriptors, e.payload);
    BatchRecord(e.partId, e.batchId, e.shape.descriptors, if copies.Some? then copies.value else [])
  }

  function Descriptors(rs: seq<BatchRecord>): int {
    if rs == [] then 0 else Descriptors(rs[..|rs| - 1]) + rs[|rs| - 1].descriptors
  }

  function InPart(rs: seq<BatchRecord>, part: int): seq<BatchRecord> {
    if rs == [] then []
    else InPart(rs[..|rs| - 1], part) + (if rs[|rs| - 1].partId == part then [rs[|rs| - 1]] else [])
  }

  function CopiesIn(rs: seq<BatchRecord>): seq<Copy> {
    if rs == [] then [] else CopiesIn(rs[..|rs| - 1]) + rs[|rs| - 1].copies
  }

  function Total(xs: seq<int>): int {
    if xs == [] then 0 else Total(xs[..|xs| - 1]) + xs[|xs| - 1]
  }

  function OpenTrace(t: Option<Trace>, e: Event): Option<Trace>
    requires e.Open?
  {
    if !OpenFields(e) then None
    else if t.None? then
      if e.head.sequence == 0 && e.recordsBefore == 0 then Some(Trace(e, Some(0), [], [], None, NO_BOOKS)) else None
    else if t.value.header.Open? && t.value.pending.None? && e.head.sequence == |t.value.parts|
            && t.value.reserved == Some(e.recordsBefore) && SameHeader(t.value.header, e) then
      Some(t.value.(pending := Some(e.head.sequence), reserved := None))
    else None
  }

  predicate SameHeader(first: Event, e: Event)
    requires first.Open? && e.Open?
  {
    && e.head.schema == first.head.schema && e.head.device == first.head.device
    && e.limit == first.limit && e.maxPitch == first.maxPitch
  }

  ghost function AddBatch(t: Trace, e: Event): Option<Trace>
    requires t.header.Open? && e.Batch?
  {
    var copies := CopiesOf(e.head.schema, e.shape.descriptors, e.payload);
    if && BatchFields(e) && Realisable(e.shape)
       && e.partId == |t.parts| && e.batchId == |InPart(t.batches, e.partId)|
       && Descriptors(t.batches) + e.shape.descriptors <= t.header.limit
       && copies.Some? && BatchGeometry(copies.value, e.shape)
    then Some(t.(batches := t.batches + [RecordOf(e)]))
    else None
  }

  function EndPart(t: Trace, e: Event): Option<Trace>
    requires e.Part?
  {
    var current := InPart(t.batches, e.partId);
    var books := PartBooks(t.books, CopiesIn(current));
    if && PartFields(e) && e.partId == |t.parts|
       && e.planned == Descriptors(current) && e.submitted == Descriptors(current) && e.batches == |current|
       && books.Some?
    then Some(t.(parts := t.parts + [e.planned], books := books.value))
    else None
  }

  function EndSegment(t: Trace, e: Event): Option<Trace>
    requires t.header.Open? && e.Complete?
  {
    var reserved := 2 * Total(t.parts) + |t.parts|;
    if && CompleteFields(e)
       && e.parts == |t.parts| && e.batches == |t.batches| && e.descriptors == Descriptors(t.batches)
       && e.reserved == reserved && reserved <= t.header.limit
       && e.head.sequence + 1 == |t.parts|
       && forall r :: r in t.batches ==> r.partId < |t.parts|
    then Some(t.(pending := None, reserved := Some(e.reserved)))
    else None
  }

  /* One record's effect on its trace. */
  ghost function StepTrace(t: Option<Trace>, e: Event): Option<Trace> {
    if !HeadOk(e.head) then None
    else if e.Open? then OpenTrace(t, e)
    else if t.None? || !t.value.header.Open? || t.value.pending != Some(e.head.sequence)
            || e.head.device != t.value.header.head.device || e.head.schema != t.value.header.head.schema then None
    else
      match e
      case Batch(_, _, _, _, _, _, _, _, _) => AddBatch(t.value, e)
      case Part(_, _, _, _, _, _, _, _) => EndPart(t.value, e)
      case Complete(_, _, _, _, _, _, _) => EndSegment(t.value, e)
      case Unknown(_) => None
  }

  /* The run over one trace's records; `Ok(None)` is a trace not yet seen. */
  ghost function RunTrace(es: seq<Event>): Result<Option<Trace>> {
    if es == [] then Ok(None)
    else
      var before := RunTrace(es[..|es| - 1]);
      if before.Rejected? then Rejected
      else
        var t := StepTrace(before.value, es[|es| - 1]);
        if t.None? then Rejected else Ok(t)
  }

  // ---------- The grammar of one trace ----------

  datatype Segment = Segment(open: Event, batches: seq<Event>, part: Event, complete: Event)

  function Flat(segs: seq<Segment>): seq<Event> {
    if segs == [] then []
    else
      var s := segs[|segs| - 1];
      Flat(segs[..|segs| - 1]) + ([s.open] + s.batches + [s.part, s.complete])
  }

  predicate AllBatches(es: seq<Event>) {
    forall i :: 0 <= i < |es| ==> es[i].Batch?
  }

  function RecordsOf(es: seq<Event>): (r: seq<BatchRecord>)
    requires AllBatches(es)
    ensures |r| == |es|
  {
    seq(|es|, i requires 0 <= i < |es| => RecordOf(es[i]))
  }

  predicate Stages(s: Segment) {
    s.open.Open? && AllBatches(s.batches) && s.part.Part? && s.complete.Complete?
  }

  predicate AllStages(segs: seq<Segment>) {
    forall i :: 0 <= i < |segs| ==> Stages(segs[i])
  }

  function SegRecords(segs: seq<Segment>): (r: seq<BatchRecord>)
    requires AllStages(segs)
  {
    if segs == [] then [] else SegRecords(segs[..|segs| - 1]) + RecordsOf(segs[|segs| - 1].batches)
  }

  /* Two records per descriptor and one per part. */
  function Reserved(segs: seq<Segment>): int
    requires AllStages(segs)
  {
    2 * Descriptors(SegRecords(segs)) + |segs|
  }

  /* A record of segment `n` of a trace opened by `first`. */
  predicate Belongs(first: Event, n: nat, e: Event) {
    && HeadOk(e.head)
    && e.head.sequence == n && e.head.device == first.head.device && e.head.schema == first.head.schema
  }

  ghost predicate BatchOk(first: Event, n: nat, j: nat, e: Event) {
    && e.Batch? && Belongs(first, n, e) && BatchFields(e)
    && e.partId == n && e.batchId == j
    && 1 <= e.shape.ranges <= e.shape.descriptors <= U64_MAX && 1 <= e.shape.bytes <= U64_MAX
    && var copies := CopiesOf(e.head.schema, e.shape.descriptors, e.payload);
       copies.Some? && BatchGeometry(copies.value, e.shape)
  }

  ghost predicate BatchesOk(first: Event, n: nat, es: seq<Event>) {
    AllBatches(es) && forall j :: 0 <= j < |es| ==> BatchOk(first, n, j, es[j])
  }

  ghost predicate OpenOk(first: Event, before: seq<Segment>, e: Event)
    requires AllStages(before)
  {
    && first.Open? && e.Open? && HeadOk(e.head) && OpenFields(e) && SameHeader(first, e)
    && e.head.sequence == |before| && e.recordsBefore == Reserved(before)
  }

  ghost predicate PartOk(first: Event, before: seq<Segment>, es: seq<Event>, e: Event)
    requires AllStages(before) && AllBatches(es)
  {
    && e.Part? && Belongs(first, |before|, e) && PartFields(e)
    && e.partId == |before|
    && e.planned == e.submitted == Descriptors(RecordsOf(es)) && e.batches == |es|
    && Consistent(CopiesIn(SegRecords(before)) + CopiesIn(RecordsOf(es)))
    && TargetsApart(CopiesIn(RecordsOf(es)))
  }

  ghost predicate CompleteOk(first: Event, segs: seq<Segment>, e: Event)
    requires first.Open? && AllStages(segs) && segs != []
  {
    && e.Complete? && Belongs(first, |segs| - 1, e) && CompleteFields(e)
    && e.parts == |segs| && e.batches == |SegRecords(segs)| && e.descriptors == Descriptors(SegRecords(segs))
    && e.reserved == Reserved(segs) <= first.limit
  }

  /* Segment `|before|`: open, batches numbered from zero, one part that covers them, complete. */
  ghost predicate SegmentOk(first: Event, before: seq<Segment>, s: Segment)
    requires AllStages(before)
  {
    && Stages(s)
    && OpenOk(first, before, s.open)
    && BatchesOk(first, |before|, s.batches)
    && PartOk(first, before, s.batches, s.part)
    && CompleteOk(first, before + [s], s.complete)
  }

  ghost predicate SegmentAt(segs: seq<Segment>, i: nat)
    requires AllStages(segs) && i < |segs|
  {
    SegmentOk(segs[0].open, segs[..i], segs[i])
  }

  ghost predicate WellFormed(segs: seq<Segment>) {
    AllStages(segs) && forall i :: 0 <= i < |segs| ==> SegmentAt(segs, i)
  }

  /* The records of one trace form one or more whole segments. */
  ghost predicate Conforms(es: seq<Event>) {
    exists segs :: segs != [] && WellFormed(segs) && es == Flat(segs)
  }

  // ---------- List facts ----------

  lemma DescriptorsAppend(rs: seq<BatchRecord>, r: BatchRecord)
    ensures Descriptors(rs + [r]) == Descriptors(rs) + r.descriptors
    ensures CopiesIn(rs + [r]) == CopiesIn(rs) + r.copies
    ensures forall p :: InPart(rs + [r], p) == InPart(rs, p) + (if r.partId == p then [r] else [])
  {
    assert (rs + [r])[..|rs|] == rs;
  }

  lemma {:induction false} Concat(a: seq<BatchRecord>, b: seq<BatchRecord>)
    ensures Descriptors(a + b) == Descriptors(a) + Descriptors(b)
    ensures CopiesIn(a + b) == CopiesIn(a) + CopiesIn(b)
    decreases |b|
  {
    if b == [] {
      assert a + b == a;
    } else {
      var n := |b| - 1;
      assert a + b == (a + b[..n]) + [b[n]];
      Concat(a, b[..n]);
      DescriptorsAppend(a + b[..n], b[n]);
      assert b == b[..n] + [b[n]];
      DescriptorsAppend(b[..n], b[n]);
    }
  }

  predicate PartsBelow(rs: seq<BatchRecord>, n: int) {
    forall r :: r in rs ==> r.partId < n
  }

  predicate PartsAt(rs: seq<BatchRecord>, n: int) {
    forall r :: r in rs ==> r.partId == n
  }

  /* Only the records of the current part carry its number. */
  lemma {:induction false} CurrentPart(a: seq<BatchRecord>, b: seq<BatchRecord>, n: int)
    requires PartsBelow(a, n) && PartsAt(b, n)
    ensures InPart(a + b, n) == b
    decreases |a| + |b|
  {
    if b != [] {
      var m := |b| - 1;
      assert b == b[..m] + [b[m]];
      assert a + b == (a + b[..m]) + [b[m]];
      CurrentPart(a, b[..m], n);
      DescriptorsAppend(a + b[..m], b[m]);
    } else if a != [] {
      var m := |a| - 1;
      assert a + b == a;
      assert a == a[..m] + [a[m]];
      assert a[..m] + b == a[..m];
      CurrentPart(a[..m], b, n);
      DescriptorsAppend(a[..m], a[m]);
    }
  }

  lemma RecordsAppend(es: seq<Event>, e: Event)
    requires AllBatches(es) && e.Batch?
    ensures AllBatches(es + [e]) && RecordsOf(es + [e]) == RecordsOf(es) + [RecordOf(e)]
  {
  }

  lemma BatchesAt(first: Event, n: nat, es: seq<Event>)
    requires BatchesOk(first, n, es)
    ensures PartsAt(RecordsOf(es), n)
  {
    forall r | r in RecordsOf(es)
      ensures r.partId == n
    {
      var j :| 0 <= j < |es| && RecordsOf(es)[j] == r;
      assert BatchOk(first, n, j, es[j]);
    }
  }

  lemma SegmentsAppend(segs: seq<Segment>, s: Segment)
    requires AllStages(segs) && Stages(s)
    ensures AllStages(segs + [s])
    ensures SegRecords(segs + [s]) == SegRecords(segs) + RecordsOf(s.batches)
    ensures Flat(segs + [s]) == Flat(segs) + ([s.open] + s.batches + [s.part, s.complete])
    ensures Reserved(segs + [s]) == Reserved(segs) + 2 * Descriptors(RecordsOf(s.batches)) + 1
  {
    assert (segs + [s])[..|segs|] == segs;
    Concat(SegRecords(segs), RecordsOf(s.batches));
  }

  /* A well-formed list stays so without its last segment. */
  lemma WellFormedPrefix(segs: seq<Segment>)
    requires WellFormed(segs) && segs != []
    ensures WellFormed(segs[..|segs| - 1])
  {
    var before := segs[..|segs| - 1];
    forall i | 0 <= i < |before|
      ensures SegmentAt(before, i)
    {
      assert SegmentAt(segs, i);
      assert before[..i] == segs[..i];
    }
  }

  lemma WellFormedAppend(segs: seq<Segment>, s: Segment)
    requires WellFormed(segs) && Stages(s) && SegmentOk(First(segs, s.open), segs, s)
    ensures WellFormed(segs + [s])
  {
    var all := segs + [s];
    forall i | 0 <= i < |all|
      ensures SegmentAt(all, i)
    {
      if i < |segs| {
        assert SegmentAt(segs, i);
        assert all[..i] == segs[..i];
      } else {
        assert all[..i] == segs;
      }
    }
  }

  lemma {:induction false} SegmentsBelow(segs: seq<Segment>)
    requires WellFormed(segs)
    ensures PartsBelow(SegRecords(segs), |segs|)
    decreases |segs|
  {
    if segs != [] {
      var n := |segs| - 1;
      WellFormedPrefix(segs);
      SegmentsBelow(segs[..n]);
      assert SegmentAt(segs, n);
      BatchesAt(segs[0].open, n, segs[n].batches);
    }
  }

  function Plans(segs: seq<Segment>): (r: seq<int>)
    requires AllStages(segs)
    ensures |r| == |segs|
  {
    seq(|segs|, i requires 0 <= i < |segs| => segs[i].part.planned)
  }

  lemma SegmentPlan(segs: seq<Segment>, i: nat)
    requires WellFormed(segs) && i < |segs|
    ensures segs[i].part.planned == Descriptors(RecordsOf(segs[i].batches))
  {
    assert SegmentAt(segs, i);
  }

  /* The planned counts of the parts add up to the descriptors of their batches. */
  lemma {:induction false} PlansTotal(segs: seq<Segment>)
    requires WellFormed(segs)
    ensures Total(Plans(segs)) == Descriptors(SegRecords(segs))
    decreases |segs|
  {
    hide SegmentAt;
    if segs != [] {
      var n := |segs| - 1;
      WellFormedPrefix(segs);
      PlansTotal(segs[..n]);
      assert Plans(segs)[..n] == Plans(segs[..n]);
      SegmentPlan(segs, n);
      Concat(SegRecords(segs[..n]), RecordsOf(segs[n].batches));
    }
  }

  // ---------- Where a trace stands in the grammar ----------

  datatype Parse =
    | Start
    | Closed(segs: seq<Segment>)
    | Opened(segs: seq<Segment>, open: Event, batches: seq<Event>)
    | Parted(segs: seq<Segment>, open: Event, batches: seq<Event>, part: Event)
    | Doomed

  function First(segs: seq<Segment>, open: Event): Event {
    if segs == [] then open else segs[0].open
  }

  /* The trace after the closed segments, apart from its pending state. */
  ghost predicate Carries(t: Trace, first: Event, segs: seq<Segment>, current: seq<BatchRecord>)
    requires AllStages(segs)
  {
    && first.Open? && t.header == first
    && t.batches == SegRecords(segs) + current
  }

  ghost predicate KnowsClosed(t: Trace, segs: seq<Segment>)
    requires AllStages(segs)
  {
    && t.parts == Plans(segs)
    && Records(t.books, CopiesIn(SegRecords(segs))) && Consistent(CopiesIn(SegRecords(segs)))
  }

  /* No continuation of the segment can complete: a second part has begun before its footer. */
  predicate NeverCompletes(t: Trace) {
    && t.pending.Some?
    && (|t.parts| >= t.pending.value + 2
        || (|t.parts| == t.pending.value + 1 && exists r :: r in t.batches && r.partId >= |t.parts|))
  }

  ghost predicate AtClosed(segs: seq<Segment>, es: seq<Event>, t: Trace) {
    && segs != [] && WellFormed(segs) && es == Flat(segs)
    && Carries(t, segs[0].open, segs, []) && KnowsClosed(t, segs)
    && t.pending.None? && t.reserved == Some(Reserved(segs))
  }

  ghost predicate AtOpened(segs: seq<Segment>, open: Event, batches: seq<Event>, es: seq<Event>, t: Trace) {
    && WellFormed(segs) && es == Flat(segs) + [open] + batches
    && OpenOk(First(segs, open), segs, open) && BatchesOk(First(segs, open), |segs|, batches)
    && Carries(t, First(segs, open), segs, RecordsOf(batches)) && KnowsClosed(t, segs)
    && t.pending == Some(|segs|) && t.reserved.None?
  }

  ghost predicate AtParted(
      segs: seq<Segment>, open: Event, batches: seq<Event>, part: Event, es: seq<Event>, t: Trace) {
    && WellFormed(segs) && es == Flat(segs) + [open] + batches + [part]
    && OpenOk(First(segs, open), segs, open) && BatchesOk(First(segs, open), |segs|, batches)
    && PartOk(First(segs, open), segs, batches, part)
    && Carries(t, First(segs, open), segs, RecordsOf(batches))
    && t.parts == Plans(segs) + [part.planned]
    && Records(t.books, CopiesIn(SegRecords(segs)) + CopiesIn(RecordsOf(batches)))
    && t.pending == Some(|segs|) && t.reserved.None?
  }

  ghost predicate At(p: Parse, es: seq<Event>, t: Option<Trace>) {
    match p
    case Start => es == [] && t.None?
    case Closed(segs) => t.Some? && AtClosed(segs, es, t.value)
    case Opened(segs, open, batches) => t.Some? && AtOpened(segs, open, batches, es, t.value)
    case Parted(segs, open, batches, part) => t.Some? && AtParted(segs, open, batches, part, es, t.value)
    case Doomed => t.Some? && t.value.header.Open? && NeverCompletes(t.value) && t.value.reserved.None?
  }

  // ---------- Every accepted record moves within the grammar ----------

  lemma OpenMoves(p: Parse, es: seq<Event>, t: Option<Trace>, e: Event) returns (q: Parse)
    requires At(p, es, t) && e.Open? && StepTrace(t, e).Some?
    ensures At(q, es + [e], StepTrace(t, e))
    ensures p.Start? ==> q == Opened([], e, [])
    ensures p.Closed? ==> q == Opened(p.segs, e, [])
  {
    var t' := StepTrace(t, e);
    if p.Start? {
      q := Opened([], e, []);
      EmptyBooks();
      assert Flat([]) + [e] + [] == es + [e];
      assert AtOpened([], e, [], es + [e], t'.value);
    } else {
      q := Opened(p.segs, e, []);
      assert Flat(p.segs) + [e] + [] == es + [e];
      assert AtOpened(p.segs, e, [], es + [e], t'.value);
    }
  }

  lemma EmptyBooks()
    ensures Records(NO_BOOKS, []) && Consistent([])
  {
  }

  lemma CurrentIs(first: Event, segs: seq<Segment>, batches: seq<Event>)
    requires WellFormed(segs) && BatchesOk(first, |segs|, batches)
    ensures InPart(SegRecords(segs) + RecordsOf(batches), |segs|) == RecordsOf(batches)
  {
    SegmentsBelow(segs);
    BatchesAt(first, |segs|, batches);
    CurrentPart(SegRecords(segs), RecordsOf(batches), |segs|);
  }

  lemma BatchesGrow(first: Event, n: nat, batches: seq<Event>, e: Event)
    requires BatchesOk(first, n, batches) && BatchOk(first, n, |batches|, e)
    ensures BatchesOk(first, n, batches + [e])
  {
    var all := batches + [e];
    forall j | 0 <= j < |all|
      ensures all[j].Batch? && BatchOk(first, n, j, all[j])
    {
      if j < |batches| { assert all[j] == batches[j] && BatchOk(first, n, j, batches[j]); }
    }
  }

  lemma BatchAdmitted(t: Trace, first: Event, n: nat, j: nat, e: Event)
    requires t.header.Open? && e.Batch? && AddBatch(t, e).Some? && Belongs(first, n, e)
    requires |t.parts| == n && |InPart(t.batches, n)| == j
    ensures BatchOk(first, n, j, e)
  {
  }

  lemma BatchOpened(segs: seq<Segment>, open: Event, batches: seq<Event>, es: seq<Event>, t: Trace, e: Event)
    requires AtOpened(segs, open, batches, es, t) && e.Batch? && StepTrace(Some(t), e).Some?
    ensures AtOpened(segs, open, batches + [e], es + [e], StepTrace(Some(t), e).value)
  {
    hide SegmentAt, Consistent, Records, BatchOk;
    var first, n := First(segs, open), |segs|;
    CurrentIs(first, segs, batches);
    BatchAdmitted(t, first, n, |batches|, e);
    BatchesGrow(first, n, batches, e);
    RecordsAppend(batches, e);
    assert t.batches + [RecordOf(e)] == SegRecords(segs) + RecordsOf(batches + [e]);
    assert Flat(segs) + [open] + (batches + [e]) == es + [e];
  }

  lemma BatchMoves(p: Parse, es: seq<Event>, t: Option<Trace>, e: Event) returns (q: Parse)
    requires At(p, es, t) && e.Batch? && StepTrace(t, e).Some?
    ensures At(q, es + [e], StepTrace(t, e))
    ensures p.Opened? ==> q == Opened(p.segs, p.open, p.batches + [e])
  {
    if p.Opened? {
      q := Opened(p.segs, p.open, p.batches + [e]);
      BatchOpened(p.segs, p.open, p.batches, es, t.value, e);
    } else {
      q := Doomed;
      DoomedByBatch(t.value, e, StepTrace(t, e).value);
    }
  }

  lemma DoomedByBatch(t: Trace, e: Event, t': Trace)
    requires t.header.Open? && e.Batch? && AddBatch(t, e) == Some(t')
    requires t.pending.Some? && (NeverCompletes(t) || |t.parts| == t.pending.value + 1)
    ensures NeverCompletes(t')
  {
    assert t'.batches[|t.batches|].partId == |t.parts|;
    assert t'.batches[|t.batches|] in t'.batches;
  }

  /* The part's check is the grammar's condition on it. */
  lemma PartAdmitted(first: Event, segs: seq<Segment>, batches: seq<Event>, t: Trace, e: Event)
    requires WellFormed(segs) && BatchesOk(first, |segs|, batches) && e.Part? && Belongs(first, |segs|, e)
    requires t.batches == SegRecords(segs) + RecordsOf(batches) && KnowsClosed(t, segs)
    ensures EndPart(t, e).Some? <==> PartOk(first, segs, batches, e)
    ensures EndPart(t, e).Some? ==>
              Records(EndPart(t, e).value.books, CopiesIn(SegRecords(segs)) + CopiesIn(RecordsOf(batches)))
  {
    hide SegmentAt, BatchOk, PartBooks;
    CurrentIs(first, segs, batches);
    CopiesPlaced(first, |segs|, batches);
    PartCheck(t, e, CopiesIn(SegRecords(segs)), RecordsOf(batches));
  }

  lemma PartCheck(t: Trace, e: Event, seen: seq<Copy>, current: seq<BatchRecord>)
    requires e.Part? && InPart(t.batches, |t.parts|) == current
    requires forall i :: 0 <= i < |CopiesIn(current)| ==> CopiesIn(current)[i].size >= 1
    requires Records(t.books, seen) && Consistent(seen)
    ensures EndPart(t, e).Some?
       <==> && PartFields(e) && e.partId == |t.parts|
            && e.planned == Descriptors(current) && e.submitted == Descriptors(current) && e.batches == |current|
            && Consistent(seen + CopiesIn(current)) && TargetsApart(CopiesIn(current))
    ensures EndPart(t, e).Some? ==> Records(EndPart(t, e).value.books, seen + CopiesIn(current))
  {
    PartBooksExact(t.books, seen, CopiesIn(current));
  }

  lemma PartOpened(segs: seq<Segment>, open: Event, batches: seq<Event>, es: seq<Event>, t: Trace, e: Event)
    requires AtOpened(segs, open, batches, es, t) && e.Part? && StepTrace(Some(t), e).Some?
    ensures AtParted(segs, open, batches, e, es + [e], StepTrace(Some(t), e).value)
  {
    PartAdmitted(First(segs, open), segs, batches, t, e);
    assert Flat(segs) + [open] + batches + [e] == es + [e];
  }

  lemma PartMoves(p: Parse, es: seq<Event>, t: Option<Trace>, e: Event) returns (q: Parse)
    requires At(p, es, t) && e.Part? && StepTrace(t, e).Some?
    ensures At(q, es + [e], StepTrace(t, e))
    ensures p.Opened? ==> q == Parted(p.segs, p.open, p.batches, e)
  {
    if p.Opened? {
      q := Parted(p.segs, p.open, p.batches, e);
      PartOpened(p.segs, p.open, p.batches, es, t.value, e);
    } else {
      q := Doomed;
    }
  }

  /* Every copy of an accepted batch is nonempty. */
  lemma {:induction false} CopiesPlaced(first: Event, n: nat, es: seq<Event>)
    requires BatchesOk(first, n, es)
    ensures var copies := CopiesIn(RecordsOf(es)); forall i :: 0 <= i < |copies| ==> copies[i].size >= 1
    decreases |es|
  {
    if es != [] {
      var m := |es| - 1;
      assert es == es[..m] + [es[m]];
      CopiesPlaced(first, n, es[..m]);
      RecordsAppend(es[..m], es[m]);
      DescriptorsAppend(RecordsOf(es[..m]), RecordOf(es[m]));
      assert BatchOk(first, n, m, es[m]);
    }
  }

  /* The footer's check is the grammar's condition on it. */
  lemma CompleteAdmitted(first: Event, segs: seq<Segment>, s: Segment, t: Trace)
    requires first.Open? && WellFormed(segs) && Stages(s) && BatchesOk(first, |segs|, s.batches)
    requires s.part.planned == Descriptors(RecordsOf(s.batches)) && Belongs(first, |segs|, s.complete)
    requires t.header == first && t.batches == SegRecords(segs) + RecordsOf(s.batches)
    requires t.parts == Plans(segs) + [s.part.planned]
    ensures EndSegment(t, s.complete).Some? <==> CompleteOk(first, segs + [s], s.complete)
  {
    hide SegmentAt, BatchOk;
    SegmentsAppend(segs, s);
    PartedTotals(segs, s, t);
    SegmentsBelow(segs);
    BatchesAt(first, |segs|, s.batches);
  }

  lemma CompleteParted(
      segs: seq<Segment>, open: Event, batches: seq<Event>, part: Event, es: seq<Event>, t: Trace, e: Event)
    requires AtParted(segs, open, batches, part, es, t) && e.Complete? && StepTrace(Some(t), e).Some?
    ensures AtClosed(segs + [Segment(open, batches, part, e)], es + [e], StepTrace(Some(t), e).value)
  {
    var s := Segment(open, batches, part, e);
    CompleteAdmitted(First(segs, open), segs, s, t);
    WellFormedAppend(segs, s);
    FlatClosed(segs, s, es, t);
  }

  lemma FlatClosed(segs: seq<Segment>, s: Segment, es: seq<Event>, t: Trace)
    requires WellFormed(segs) && Stages(s) && es == Flat(segs) + [s.open] + s.batches + [s.part]
    requires s.part.planned == Descriptors(RecordsOf(s.batches))
    requires t.batches == SegRecords(segs) + RecordsOf(s.batches) && t.parts == Plans(segs) + [s.part.planned]
    ensures es + [s.complete] == Flat(segs + [s])
    ensures t.batches == SegRecords(segs + [s]) + [] && t.parts == Plans(segs + [s])
    ensures CopiesIn(SegRecords(segs + [s])) == CopiesIn(SegRecords(segs)) + CopiesIn(RecordsOf(s.batches))
    ensures (segs + [s])[0].open == First(segs, s.open)
  {
    hide SegmentAt, RecordOf;
    SegmentsAppend(segs, s);
    PartedTotals(segs, s, t);
    Concat(SegRecords(segs), RecordsOf(s.batches));
  }

  lemma PartedTotals(segs: seq<Segment>, s: Segment, t: Trace)
    requires WellFormed(segs) && Stages(s) && s.part.planned == Descriptors(RecordsOf(s.batches))
    requires t.parts == Plans(segs) + [s.part.planned]
    ensures t.parts == Plans(segs + [s])
    ensures 2 * Total(t.parts) + |t.parts| == Reserved(segs + [s])
  {
    PlansTotal(segs);
    SegmentsAppend(segs, s);
    assert t.parts[..|segs|] == Plans(segs);
  }

  lemma CompleteMoves(p: Parse, es: seq<Event>, t: Option<Trace>, e: Event) returns (q: Parse)
    requires At(p, es, t) && e.Complete? && StepTrace(t, e).Some?
    ensures At(q, es + [e], StepTrace(t, e))
    ensures p.Parted? && q == Closed(p.segs + [Segment(p.open, p.batches, p.part, e)])
  {
    NotBeforeItsPart(p, es, t, e);
    q := Closed(p.segs + [Segment(p.open, p.batches, p.part, e)]);
    CompleteParted(p.segs, p.open, p.batches, p.part, es, t.value, e);
  }

  lemma NotBeforeItsPart(p: Parse, es: seq<Event>, t: Option<Trace>, e: Event)
    requires At(p, es, t) && e.Complete? && StepTrace(t, e).Some?
    ensures p.Parted?
  {
  }

  lemma Moves(p: Parse, es: seq<Event>, t: Option<Trace>, e: Event) returns (q: Parse)
    requires At(p, es, t) && StepTrace(t, e).Some?
    ensures At(q, es + [e], StepTrace(t, e))
  {
    hide AtOpened, AtParted, AtClosed;
    match e
    case Open(_, _, _, _, _) => q := OpenMoves(p, es, t, e);
    case Batch(_, _, _, _, _, _, _, _, _) => q := BatchMoves(p, es, t, e);
    case Part(_, _, _, _, _, _, _, _) => q := PartMoves(p, es, t, e);
    case Complete(_, _, _, _, _, _, _) => q := CompleteMoves(p, es, t, e);
    case Unknown(_) => assert false;
  }

  lemma StartsAt(es: seq<Event>)
    requires es == []
    ensures At(Start, es, None)
  {
  }

  lemma {:induction false} Parses(es: seq<Event>) returns (p: Parse)
    requires RunTrace(es).Ok?
    ensures At(p, es, RunTrace(es).value)
    decreases |es|
  {
    hide At, StepTrace;
    if es == [] {
      p := Start;
      StartsAt(es);
    } else {
      var n := |es| - 1;
      var before := Parses(es[..n]);
      assert es == es[..n] + [es[n]];
      p := Moves(before, es[..n], RunTrace(es[..n]).value, es[n]);
    }
  }

  // ---------- Every conforming trace is accepted ----------

  ghost predicate Gets(es: seq<Event>, t: Trace) {
    RunTrace(es).Ok? && RunTrace(es).value == Some(t)
  }

  lemma RunStep(es: seq<Event>, t: Trace, e: Event)
    requires Gets(es, t) && StepTrace(Some(t), e).Some?
    ensures Gets(es + [e], StepTrace(Some(t), e).value)
  {
    assert (es + [e])[..|es|] == es;
  }

  lemma RunOpen(segs: seq<Segment>, t: Trace, open: Event) returns (t': Trace)
    requires WellFormed(segs) && segs != [] && Gets(Flat(segs), t) && AtClosed(segs, Flat(segs), t)
    requires OpenOk(First(segs, open), segs, open)
    ensures Gets(Flat(segs) + [open], t') && AtOpened(segs, open, [], Flat(segs) + [open], t')
  {
    assert StepTrace(Some(t), open).Some?;
    RunStep(Flat(segs), t, open);
    t' := StepTrace(Some(t), open).value;
    var q := OpenMoves(Closed(segs), Flat(segs), Some(t), open);
  }

  lemma RunFirstOpen(segs: seq<Segment>, open: Event) returns (t': Trace)
    requires segs == [] && OpenOk(open, segs, open)
    ensures Gets(Flat(segs) + [open], t') && AtOpened(segs, open, [], Flat(segs) + [open], t')
  {
    var es := Flat(segs);
    t' := StepTrace(None, open).value;
    assert (es + [open])[..0] == es;
    var q := OpenMoves(Start, es, None, open);
  }

  lemma {:induction false} DescriptorsMonotone(rs: seq<BatchRecord>, j: nat)
    requires j <= |rs| && forall i :: 0 <= i < |rs| ==> rs[i].descriptors >= 0
    ensures Descriptors(rs[..j]) <= Descriptors(rs)
    decreases |rs|
  {
    if j == |rs| {
      assert rs[..j] == rs;
    } else {
      assert rs[..|rs| - 1][..j] == rs[..j];
      DescriptorsMonotone(rs[..|rs| - 1], j);
    }
  }

  lemma DescriptorsPositive(first: Event, n: nat, es: seq<Event>)
    requires BatchesOk(first, n, es)
    ensures forall i :: 0 <= i < |es| ==> RecordsOf(es)[i].descriptors >= 0
  {
    forall i | 0 <= i < |es|
      ensures RecordsOf(es)[i].descriptors >= 0
    {
      assert BatchOk(first, n, i, es[i]);
    }
  }

  /* A batch the grammar allows passes the batch checks. */
  lemma AddBatchSucceeds(t: Trace, first: Event, n: nat, j: nat, e: Event)
    requires t.header == first && first.Open? && BatchOk(first, n, j, e)
    requires |t.parts| == n && |InPart(t.batches, n)| == j
    requires Descriptors(t.batches) + e.shape.descriptors <= first.limit
    ensures AddBatch(t, e).Some?
  {
    var copies := CopiesOf(e.head.schema, e.shape.descriptors, e.payload).value;
    assert Realises(Sizes(copies), e.shape);
  }

  lemma BatchSucceeds(segs: seq<Segment>, open: Event, batches: seq<Event>, es: seq<Event>, t: Trace, e: Event)
    requires AtOpened(segs, open, batches, es, t) && BatchOk(First(segs, open), |segs|, |batches|, e)
    requires Descriptors(SegRecords(segs)) + Descriptors(RecordsOf(batches)) + e.shape.descriptors
          <= First(segs, open).limit
    ensures StepTrace(Some(t), e).Some?
  {
    hide SegmentAt, Consistent, Records, AddBatch, BatchFields, CopiesOf, BatchGeometry;
    CurrentIs(First(segs, open), segs, batches);
    Concat(SegRecords(segs), RecordsOf(batches));
    AddBatchSucceeds(t, First(segs, open), |segs|, |batches|, e);
  }

  lemma PrefixFits(batches: seq<Event>, j: nat)
    requires AllBatches(batches) && j < |batches|
    requires forall i :: 0 <= i < |batches| ==> RecordsOf(batches)[i].descriptors >= 0
    ensures AllBatches(batches[..j])
    ensures Descriptors(RecordsOf(batches[..j])) + batches[j].shape.descriptors <= Descriptors(RecordsOf(batches))
  {
    var rs := RecordsOf(batches);
    DescriptorsMonotone(rs, j + 1);
    assert rs[..j + 1] == rs[..j] + [rs[j]];
    assert RecordsOf(batches[..j]) == rs[..j];
    DescriptorsAppend(rs[..j], rs[j]);
  }

  lemma {:induction false} RunBatches(segs: seq<Segment>, open: Event, batches: seq<Event>, j: nat, t: Trace)
      returns (t': Trace)
    requires j <= |batches| && Gets(Flat(segs) + [open], t) && AtOpened(segs, open, [], Flat(segs) + [open], t)
    requires BatchesOk(First(segs, open), |segs|, batches)
    requires Descriptors(SegRecords(segs)) + Descriptors(RecordsOf(batches)) <= First(segs, open).limit
    ensures Gets(Flat(segs) + [open] + batches[..j], t')
    ensures AtOpened(segs, open, batches[..j], Flat(segs) + [open] + batches[..j], t')
    decreases j
  {
    if j == 0 {
      assert Flat(segs) + [open] + batches[..0] == Flat(segs) + [open];
      assert batches[..0] == [];
      t' := t;
    } else {
      var u := RunBatches(segs, open, batches, j - 1, t);
      t' := RunBatch(segs, open, batches, j - 1, u);
    }
  }

  lemma RunBatch(segs: seq<Segment>, open: Event, batches: seq<Event>, j: nat, t: Trace) returns (t': Trace)
    requires j < |batches| && BatchesOk(First(segs, open), |segs|, batches)
    requires Gets(Flat(segs) + [open] + batches[..j], t)
    requires AtOpened(segs, open, batches[..j], Flat(segs) + [open] + batches[..j], t)
    requires Descriptors(SegRecords(segs)) + Descriptors(RecordsOf(batches)) <= First(segs, open).limit
    ensures Gets(Flat(segs) + [open] + batches[..j + 1], t')
    ensures AtOpened(segs, open, batches[..j + 1], Flat(segs) + [open] + batches[..j + 1], t')
  {
    var es, e := Flat(segs) + [open] + batches[..j], batches[j];
    RoomForBatch(First(segs, open), |segs|, batches, j);
    OneLonger(Flat(segs) + [open], batches, j);
    t' := RunOneBatch(segs, open, batches[..j], es, t, e);
  }

  lemma RoomForBatch(first: Event, n: nat, batches: seq<Event>, j: nat)
    requires BatchesOk(first, n, batches) && j < |batches|
    ensures AllBatches(batches[..j]) && BatchOk(first, n, j, batches[j])
    ensures Descriptors(RecordsOf(batches[..j])) + batches[j].shape.descriptors <= Descriptors(RecordsOf(batches))
  {
    DescriptorsPositive(first, n, batches);
    PrefixFits(batches, j);
  }

  lemma OneLonger(prefix: seq<Event>, es: seq<Event>, j: nat)
    requires j < |es|
    ensures es[..j + 1] == es[..j] + [es[j]]
    ensures prefix + es[..j + 1] == prefix + es[..j] + [es[j]]
  {
  }

  lemma RunOneBatch(segs: seq<Segment>, open: Event, batches: seq<Event>, es: seq<Event>, t: Trace, e: Event)
      returns (t': Trace)
    requires Gets(es, t) && AtOpened(segs, open, batches, es, t)
    requires BatchOk(First(segs, open), |segs|, |batches|, e)
    requires Descriptors(SegRecords(segs)) + Descriptors(RecordsOf(batches)) + e.shape.descriptors
          <= First(segs, open).limit
    ensures Gets(es + [e], t') && AtOpened(segs, open, batches + [e], es + [e], t')
  {
    BatchSucceeds(segs, open, batches, es, t, e);
    RunStep(es, t, e);
    BatchOpened(segs, open, batches, es, t, e);
    t' := StepTrace(Some(t), e).value;
  }

  lemma PartSucceeds(segs: seq<Segment>, s: Segment, es: seq<Event>, t: Trace)
    requires AtOpened(segs, s.open, s.batches, es, t)
    requires s.part.Part? && PartOk(First(segs, s.open), segs, s.batches, s.part)
    ensures StepTrace(Some(t), s.part).Some?
  {
    hide SegmentAt, BatchOk, PartBooks;
    PartAdmitted(First(segs, s.open), segs, s.batches, t, s.part);
  }

  lemma RunPart(segs: seq<Segment>, s: Segment, es: seq<Event>, t: Trace) returns (t': Trace)
    requires Gets(es, t) && AtOpened(segs, s.open, s.batches, es, t)
    requires s.part.Part? && PartOk(First(segs, s.open), segs, s.batches, s.part)
    ensures Gets(es + [s.part], t') && AtParted(segs, s.open, s.batches, s.part, es + [s.part], t')
  {
    hide AtOpened, AtParted, StepTrace;
    PartSucceeds(segs, s, es, t);
    RunStep(es, t, s.part);
    PartOpened(segs, s.open, s.batches, es, t, s.part);
    t' := StepTrace(Some(t), s.part).value;
  }

  lemma FooterSucceeds(segs: seq<Segment>, s: Segment, es: seq<Event>, t: Trace)
    requires AtParted(segs, s.open, s.batches, s.part, es, t)
    requires Stages(s) && CompleteOk(First(segs, s.open), segs + [s], s.complete)
    ensures StepTrace(Some(t), s.complete).Some?
  {
    hide SegmentAt, BatchOk, KnowsClosed, Total, InPart, CopiesIn;
    CompleteAdmitted(First(segs, s.open), segs, s, t);
  }

  lemma RunFooter(segs: seq<Segment>, s: Segment, es: seq<Event>, t: Trace) returns (t': Trace)
    requires Gets(es, t) && AtParted(segs, s.open, s.batches, s.part, es, t)
    requires Stages(s) && CompleteOk(First(segs, s.open), segs + [s], s.complete)
    ensures Gets(es + [s.complete], t') && AtClosed(segs + [s], es + [s.complete], t')
  {
    FooterSucceeds(segs, s, es, t);
    RunStep(es, t, s.complete);
    t' := StepTrace(Some(t), s.complete).value;
    CompleteParted(segs, s.open, s.batches, s.part, es, t, s.complete);
    assert s == Segment(s.open, s.batches, s.part, s.complete);
  }

  /* The footer's bound already covers the batch-time budget test. */
  lemma BudgetOf(first: Event, segs: seq<Segment>, s: Segment)
    requires AllStages(segs) && Stages(s) && first.Open? && CompleteOk(first, segs + [s], s.complete)
    ensures Descriptors(SegRecords(segs)) + Descriptors(RecordsOf(s.batches)) <= first.limit
  {
    SegmentsAppend(segs, s);
    Concat(SegRecords(segs), RecordsOf(s.batches));
  }

  lemma RunRest(segs: seq<Segment>, s: Segment, t: Trace) returns (t': Trace)
    requires WellFormed(segs) && SegmentOk(First(segs, s.open), segs, s)
    requires Gets(Flat(segs) + [s.open], t) && AtOpened(segs, s.open, [], Flat(segs) + [s.open], t)
    ensures Gets(Flat(segs + [s]), t') && AtClosed(segs + [s], Flat(segs + [s]), t')
  {
    BudgetOf(First(segs, s.open), segs, s);
    var u := RunBatches(segs, s.open, s.batches, |s.batches|, t);
    assert s.batches[..|s.batches|] == s.batches;
    var es := Flat(segs) + [s.open] + s.batches;
    var v := RunPart(segs, s, es, u);
    t' := RunFooter(segs, s, es + [s.part], v);
    SegmentsAppend(segs, s);
    assert es + [s.part] + [s.complete] == Flat(segs + [s]);
  }

  lemma {:induction false} RunSegments(segs: seq<Segment>) returns (t: Trace)
    requires WellFormed(segs) && segs != []
    ensures Gets(Flat(segs), t) && AtClosed(segs, Flat(segs), t)
    decreases |segs|
  {
    hide AtClosed, AtOpened, Gets, OpenOk, PartOk, CompleteOk, BatchesOk;
    var n := |segs| - 1;
    WellFormedPrefix(segs);
    assert SegmentAt(segs, n);
    assert segs == segs[..n] + [segs[n]];
    var u: Trace;
    if n == 0 {
      assert segs[..n] == [];
      u := RunFirstOpen(segs[..n], segs[0].open);
    } else {
      var v := RunSegments(segs[..n]);
      u := RunOpen(segs[..n], v, segs[n].open);
    }
    t := RunRest(segs[..n], segs[n], u);
  }

  /* One trace is accepted exactly when its records conform. */
  lemma TraceExact(es: seq<Event>)
    ensures Conforms(es) <==> exists t :: Gets(es, t) && t.reserved.Some?
  {
    if Conforms(es) {
      var segs :| segs != [] && WellFormed(segs) && es == Flat(segs);
      var t := RunSegments(segs);
      assert Gets(es, t) && t.reserved.Some?;
    }
    if t :| Gets(es, t) && t.reserved.Some? {
      var p := Parses(es);
      assert p.Closed?;
      assert p.segs != [] && WellFormed(p.segs) && es == Flat(p.segs);
    }
  }
}
