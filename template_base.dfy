/** The template inventory shared by every template tool: splitting a list of required
    template names into those whose image file exists and those that are missing, and the
    validation of a region the user marks with the mouse before it is captured.
    The template directory is modelled as the set of file names it holds. */
module TemplateBase {
  import opened Basics

  /** The required names whose file exists, in list order. */
  function Present(required: seq<string>, present: set<string>): seq<string>
    decreases |required|
  {
    if required == [] then []
    else
      var last := required[|required| - 1];
      Present(required[..|required| - 1], present) + (if last in present then [last] else [])
  }

  /** The required names whose file is missing, in list order. */
  function Absent(required: seq<string>, present: set<string>): seq<string>
    decreases |required|
  {
    if required == [] then []
    else
      var last := required[|required| - 1];
      Absent(required[..|required| - 1], present) + (if last in present then [] else [last])
  }

  /** `a` is `b` with some elements dropped and the rest kept in their order. */
  predicate IsSubsequence<T(==)>(a: seq<T>, b: seq<T>)
    decreases |b|
  {
    a == [] ||
    (b != [] &&
     ((a[|a| - 1] == b[|b| - 1] && IsSubsequence(a[..|a| - 1], b[..|b| - 1])) ||
      IsSubsequence(a, b[..|b| - 1])))
  }

  /** check_existing_templates: one pass over the required names, appending each to the
      existing or the missing list. */
  method CheckExistingTemplates(required: seq<string>, present: set<string>)
    returns (existing: seq<string>, missing: seq<string>)
    ensures existing == Present(required, present)
    ensures missing == Absent(required, present)
  {
    existing, missing := [], [];
    var i := 0;
    while i < |required|
      invariant 0 <= i <= |required|
      invariant existing == Present(required[..i], present)
      invariant missing == Absent(required[..i], present)
    {
      var template := required[i];
      if template in present {
        existing := existing + [template];
      } else {
        missing := missing + [template];
      }
      assert required[..i + 1][..i] == required[..i];
      i := i + 1;
    }
    assert required[..|required|] == required;
  }

  /** The missing-only filter of the launcher scripts' check_templates: one pass over the
      required names, appending each name whose file is absent. */
  method ListMissing(required: seq<string>, present: set<string>) returns (missing: seq<string>)
    ensures missing == Absent(required, present)
  {
    missing := [];
    var i := 0;
    while i < |required|
      invariant 0 <= i <= |required|
      invariant missing == Absent(required[..i], present)
    {
      if required[i] !in present {
        missing := missing + [required[i]];
      }
      assert required[..i + 1][..i] == required[..i];
      i := i + 1;
    }
    assert required[..|required|] == required;
  }

  /** Every required name lands in exactly one of the two lists: the sizes add up and,
      counted with multiplicity, the two lists together are the required list. */
  lemma {:induction false} PartitionComplete(required: seq<string>, present: set<string>)
    ensures |Present(required, present)| + |Absent(required, present)| == |required|
    ensures multiset(Present(required, present)) + multiset(Absent(required, present)) == multiset(required)
    decreases |required|
  {
    if required != [] {
      var init := required[..|required| - 1];
      var last := required[|required| - 1];
      PartitionComplete(init, present);
      assert required == init + [last];
      assert multiset(required) == multiset(init) + multiset{last};
      if last in present {
        assert Present(required, present) == Present(init, present) + [last];
        assert Absent(required, present) == Absent(init, present);
      } else {
        assert Present(required, present) == Present(init, present);
        assert Absent(required, present) == Absent(init, present) + [last];
      }
    }
  }

  /** A name is listed as existing iff it is required and its file exists, and as missing
      iff it is required and its file does not exist; so no name is in both lists. */
  lemma {:induction false} Membership(required: seq<string>, present: set<string>, t: string)
    ensures t in Present(required, present) <==> t in required && t in present
    ensures t in Absent(required, present) <==> t in required && t !in present
    decreases |required|
  {
    if required != [] {
      var init := required[..|required| - 1];
      Membership(init, present, t);
      assert required == init + [required[|required| - 1]];
    }
  }

  /** Both lists keep the relative order of the required list. */
  lemma {:induction false} OrderPreserved(required: seq<string>, present: set<string>)
    ensures IsSubsequence(Present(required, present), required)
    ensures IsSubsequence(Absent(required, present), required)
    decreases |required|
  {
    if required != [] {
      var init := required[..|required| - 1];
      var last := required[|required| - 1];
      OrderPreserved(init, present);
      var p, q := Present(init, present), Absent(init, present);
      if last in present {
        assert Present(required, present) == p + [last];
        assert (p + [last])[..|p|] == p;
        assert Absent(required, present) == q;
      } else {
        assert Absent(required, present) == q + [last];
        assert (q + [last])[..|q|] == q;
        assert Present(required, present) == p;
      }
    }
  }

  /** Nothing is missing iff every required file exists. */
  lemma NoneMissingIff(required: seq<string>, present: set<string>)
    ensures Absent(required, present) == [] <==> forall t :: t in required ==> t in present
  {
    forall t | t in required
      ensures t in Absent(required, present) <==> t !in present
    {
      Membership(required, present, t);
    }
    if Absent(required, present) != [] {
      Membership(required, present, Absent(required, present)[0]);
    }
  }

  /** The region marked by the two corners the user confirms, as (left, top, width, height),
      or None when the width or the height is not positive (capture_template then returns
      False before taking any screenshot). */
  function CaptureRegion(start: Point, end: Point): (r: Option<Rect>)
    ensures r.Some? <==> start.x < end.x && start.y < end.y
    ensures r.Some? ==> r.value.x == start.x && r.value.y == start.y
    ensures r.Some? ==> r.value.x + r.value.w == end.x && r.value.y + r.value.h == end.y
  {
    var width := end.x - start.x;
    var height := end.y - start.y;
    if width <= 0 || height <= 0 then None else Some(Rect(start.x, start.y, width, height))
  }

  /** The two mouse positions the user confirms for one capture. */
  datatype Selection = Selection(start: Point, end: Point)

  /** The template directory after one capture of `name`: the file is written only when
      the marked region is valid. */
  function AfterCapture(present: set<string>, name: string, sel: Selection): (r: set<string>)
    ensures name in r <==> name in present || CaptureRegion(sel.start, sel.end).Some?
    ensures forall t :: t != name ==> (t in r <==> t in present)
  {
    if CaptureRegion(sel.start, sel.end).Some? then present + {name} else present
  }

  /** The directory after capturing `names` one after the other, capture k using the
      selection `sels(k)`. */
  function CapturedAll(present: set<string>, names: seq<string>, sels: nat -> Selection): set<string>
    decreases |names|
  {
    if names == [] then present
    else AfterCapture(CapturedAll(present, names[..|names| - 1], sels), names[|names| - 1], sels(|names| - 1))
  }

  /** Capturing only adds files, only files of the names captured, and every capture with a
      valid region leaves its file in place. */
  lemma {:induction false} CapturedAllBounds(present: set<string>, names: seq<string>, sels: nat -> Selection)
    ensures present <= CapturedAll(present, names, sels)
    ensures forall t :: t in CapturedAll(present, names, sels) ==> t in present || t in names
    ensures forall k :: 0 <= k < |names| && CaptureRegion(sels(k).start, sels(k).end).Some? ==>
              names[k] in CapturedAll(present, names, sels)
    decreases |names|
  {
    if names != [] {
      var init := names[..|names| - 1];
      CapturedAllBounds(present, init, sels);
      forall k | 0 <= k < |names| && CaptureRegion(sels(k).start, sels(k).end).Some?
        ensures names[k] in CapturedAll(present, names, sels)
      {
        if k < |init| {
          assert names[k] == init[k];
        }
      }
      forall t | t in CapturedAll(present, names, sels)
        ensures t in present || t in names
      {
        if t != names[|names| - 1] {
          assert t in CapturedAll(present, init, sels);
          if t !in present {
            var k :| 0 <= k < |init| && init[k] == t;
            assert names[k] == t;
          }
        }
      }
    }
  }

  /** A capture for-loop: capture each name in order, one capture per name. */
  method CaptureEach(names: seq<string>, present: set<string>, sels: nat -> Selection)
    returns (after: set<string>, attempted: seq<string>)
    ensures attempted == names
    ensures after == CapturedAll(present, names, sels)
  {
    after, attempted := present, [];
    for k := 0 to |names|
      invariant attempted == names[..k]
      invariant after == CapturedAll(present, names[..k], sels)
    {
      assert names[..k + 1][..k] == names[..k];
      after := AfterCapture(after, names[k], sels(k));
      attempted := attempted + [names[k]];
    }
    assert names[..|names|] == names;
  }

  /** The outcome of choosing an entry of a numbered list. */
  datatype Pick = Back | Chosen(index: nat) | OutOfRange | NotANumber

  /** A choice typed at a numbered list: "0" goes back; a number n picks entry n - 1 when
      1 <= n <= count; `parsed` is what int() makes of the answer, None when it raises
      ValueError. */
  function PickIndex(answer: string, parsed: Option<int>, count: nat): (r: Pick)
    ensures r == Back <==> answer == "0"
    ensures r.Chosen? <==> answer != "0" && parsed.Some? && 1 <= parsed.value <= count
    ensures r.Chosen? ==> r.index == parsed.value - 1 && r.index < count
    ensures r == NotANumber <==> answer != "0" && parsed.None?
  {
    if answer == "0" then Back
    else if parsed.None? then NotANumber
    else if 0 <= parsed.value - 1 < count then Chosen(parsed.value - 1)
    else OutOfRange
  }
}
