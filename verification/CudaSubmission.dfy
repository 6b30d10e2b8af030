/** `_submission`: attributing driver calls of one thread to one submission window. */
module CudaSubmission {
  import opened Wrappers
  import opened IntervalSweep

  datatype Api = Api(name: string, begin: int, end: int, result: int)

  datatype Direction = HostToDevice | DeviceToHost

  datatype Attribution = Attribution(wall: int, driver: nat, unattributed: int, calls: multiset<string>)

  function Spans(apis: seq<Api>): seq<Interval> {
    seq(|apis|, i requires 0 <= i < |apis| => Interval(apis[i].begin, apis[i].end))
  }

  /* The call shares an instant with the open window, or is an empty call strictly inside it. */
  predicate Touches(a: Api, left: int, right: int) {
    a.begin < right && left < a.end
  }

  predicate Crosses(a: Api, left: int, right: int) {
    Touches(a, left, right) && (a.begin < left || right < a.end)
  }

  function Matching(apis: seq<Api>, left: int, right: int): (r: seq<Api>)
    ensures forall a :: a in r <==> a in apis && Touches(a, left, right)
  {
    if apis == [] then []
    else
      var rest := Matching(apis[1..], left, right);
      assert apis == [apis[0]] + apis[1..];
      if Touches(apis[0], left, right) then [apis[0]] + rest else rest
  }

  predicate StartsWith(name: string, prefix: string) {
    prefix <= name
  }

  function Named(apis: seq<Api>, prefix: string): seq<Api> {
    if apis == [] then []
    else (if StartsWith(apis[0].name, prefix) then [apis[0]] else []) + Named(apis[1..], prefix)
  }

  function Names(apis: seq<Api>): multiset<string> {
    if apis == [] then multiset{} else multiset{apis[0].name} + Names(apis[1..])
  }

  /* The copy and launch calls fit the backend, the direction and the compiled range count, and all succeeded. */
  predicate Compatible(matching: seq<Api>, kernel: bool, ranges: int, direction: Direction) {
    var copies := Named(matching, "cuMemcpy");
    var launches := Named(matching, "cuLaunchKernel");
    var copyApi := if kernel || direction.HostToDevice? then "cuMemcpyHtoDAsync_v2" else "cuMemcpyDtoHAsync_v2";
    && (forall a :: a in copies ==> a.name == copyApi || (!kernel && a.name == "cuMemcpy2DAsync_v2"))
    && (forall a :: a in launches ==> a.name == "cuLaunchKernel")
    && (!kernel ==> |copies| == ranges && launches == [])
    && (kernel ==> |copies| == 1 && |launches| == 1)
    && (forall a :: a in copies + launches ==> a.result == 0)
  }

  predicate Accepts(apis: seq<Api>, left: int, right: int, kernel: bool, ranges: int, direction: Direction) {
    && (forall i :: 0 <= i < |apis| ==> !Crosses(apis[i], left, right))
    && Matching(apis, left, right) != []
    && Compatible(Matching(apis, left, right), kernel, ranges, direction)
  }

  /* The calls of the window, unless one crosses its boundary. */
  method CallsInside(apis: seq<Api>, left: int, right: int) returns (r: Result<seq<Api>>)
    ensures r.Ok? <==> forall i :: 0 <= i < |apis| ==> !Crosses(apis[i], left, right)
    ensures r.Ok? ==> r.value == Matching(apis, left, right)
  {
    var matching: seq<Api> := [];
    for i := 0 to |apis|
      invariant forall k :: 0 <= k < i ==> !Crosses(apis[k], left, right)
      invariant matching == Matching(apis[..i], left, right)
    {
      assert apis[..i + 1] == apis[..i] + [apis[i]];
      MatchingAppend(apis[..i], apis[i], left, right);
      if Touches(apis[i], left, right) {
        if apis[i].begin < left || right < apis[i].end {
          return Rejected;
        }
        matching := matching + [apis[i]];
      }
    }
    assert apis[..|apis|] == apis;
    r := Ok(matching);
  }

  /* An accepted window's attributed wall time is the measure of the thread's driver calls inside the window, so the
  remainder is the measure of the window's uncovered instants and can never be negative. */
  method Submission(apis: seq<Api>, left: int, right: int, kernel: bool, ranges: int, direction: Direction)
      returns (r: Result<Attribution>)
    requires 1 <= left < right
    requires forall i :: 0 <= i < |apis| ==> 1 <= apis[i].begin <= apis[i].end
    ensures r.Ok? <==> Accepts(apis, left, right, kernel, ranges, direction)
    ensures r.Ok? ==>
      var busy := Covered(Spans(apis), UNION_FLOOR) * Range(left, right);
      && r.value.wall == right - left
      && r.value.driver == |busy|
      && r.value.unattributed == |Range(left, right) - busy|
      && r.value.driver + r.value.unattributed == r.value.wall
      && r.value.calls == Names(Matching(apis, left, right))
  {
    var found := CallsInside(apis, left, right);
    if found.Rejected? {
      return Rejected;
    }
    var matching := found.value;
    if matching == [] || !Compatible(matching, kernel, ranges, direction) {
      return Rejected;
    }
    var union := Union(Spans(matching));
    WindowMeasure(apis, left, right);
    r := Ok(Attribution(right - left, union, right - left - union, Names(matching)));
  }

  lemma {:induction false} MatchingAppend(s: seq<Api>, a: Api, left: int, right: int)
    ensures Matching(s + [a], left, right)
         == Matching(s, left, right) + (if Touches(a, left, right) then [a] else [])
  {
    if s == [] {
      assert s + [a] == [a];
    } else {
      assert (s + [a])[1..] == s[1..] + [a];
      MatchingAppend(s[1..], a, left, right);
    }
  }

  lemma InsideSpans(apis: seq<Api>, x: int)
    ensures Inside(Spans(apis), x) <==> exists a :: a in apis && a.begin <= x < a.end
  {
    if Inside(Spans(apis), x) {
      var i :| 0 <= i < |Spans(apis)| && Holds(Spans(apis)[i], x);
      assert apis[i] in apis;
    }
    if a :| a in apis && a.begin <= x < a.end {
      var i :| 0 <= i < |apis| && apis[i] == a;
      assert Holds(Spans(apis)[i], x);
    }
  }

  lemma WindowMeasure(apis: seq<Api>, left: int, right: int)
    requires 1 <= left < right
    requires forall i :: 0 <= i < |apis| ==> 1 <= apis[i].begin <= apis[i].end
    requires forall i :: 0 <= i < |apis| ==> !Crosses(apis[i], left, right)
    ensures var busy := Covered(Spans(apis), UNION_FLOOR) * Range(left, right);
            && Covered(Spans(Matching(apis, left, right)), UNION_FLOOR) == busy
            && |busy| + |Range(left, right) - busy| == right - left
  {
    var matching := Matching(apis, left, right);
    var busy := Covered(Spans(apis), UNION_FLOOR) * Range(left, right);
    forall x
      ensures x in Covered(Spans(matching), UNION_FLOOR) <==> x in busy
    {
      InsideSpans(matching, x);
      InsideSpans(apis, x);
      if a :| a in matching && a.begin <= x < a.end {
        assert a in apis && !Crosses(a, left, right);
      }
      if x in busy {
        var a :| a in apis && a.begin <= x < a.end;
        assert Touches(a, left, right);
        assert a in matching;
      }
    }
    assert Range(left, right) == busy + (Range(left, right) - busy);
    RangeSize(left, right);
  }
}
