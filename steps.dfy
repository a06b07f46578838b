/**
 * `parse_steps`: one output step per input step.  The text is copied, a
 * HACCP mapping keeps its two control-point fields and merges whatever else
 * it holds, and a step's notes are copied one by one.
 */
module Steps {
  import opened Dicts
  import opened RawTree
  import opened Diagnostics

  /** A step's HACCP mapping: the two standard fields, when present, and the
      rest merged in after them. */
  datatype Haccp = Haccp(controlPoint: Option<Raw>, criticalControlPoint: Option<Raw>, extra: Dict<Raw>)

  /** One output step; a missing key of the reader's output is `None`. */
  datatype Step = Step(text: Option<Raw>, haccp: Option<Haccp>, notes: Option<seq<Raw>>)

  // What the parser handles without raising or iterating characters: each
  // step a mapping, its `haccp` a mapping and its `notes` a list.

  predicate StepShape(step: Raw) {
    step.Map? &&
    (Lookup(step.entries, "haccp").None? || Lookup(step.entries, "haccp").value.Map?) &&
    (Lookup(step.entries, "notes").None? || Lookup(step.entries, "notes").value.List?)
  }

  predicate AllSteps(xs: seq<Raw>) {
    forall i :: 0 <= i < |xs| ==> StepShape(xs[i])
  }

  predicate StepsShape(src: Raw) {
    IsAbsent(src) || (src.List? && AllSteps(src.items))
  }

  /** What is left of a HACCP mapping once its control points are popped. */
  function HaccpRest(h: Dict<Raw>): Dict<Raw> {
    Remove(Remove(h, "control_point"), "critical_control_point")
  }

  /** The HACCP mapping of one step.  The both-points warning comes first,
      then the one for non-standard fields, given when anything is left. */
  function HaccpOf(h: Dict<Raw>): Parsed<Haccp> {
    var cp := Lookup(h, "control_point");
    var ccp := Lookup(h, "critical_control_point");
    var rest := HaccpRest(h);
    Parsed(Haccp(cp, ccp, FromPairs(rest)),
           (if cp.Some? && ccp.Some? then [BothControlPoints] else []) +
           (if rest != [] then [NonStandardHaccp] else []))
  }

  function HaccpPart(step: Dict<Raw>): Parsed<Option<Haccp>>
    requires Lookup(step, "haccp").None? || Lookup(step, "haccp").value.Map?
  {
    match Lookup(step, "haccp")
    case None => Parsed(None, [])
    case Some(h) => var p := HaccpOf(h.entries); Parsed(Some(p.value), p.log)
  }

  function StepOf(step: Raw): Parsed<Step>
    requires StepShape(step)
  {
    var text := Lookup(step.entries, "step");
    var h := HaccpPart(step.entries);
    var notes := Lookup(step.entries, "notes");
    Parsed(Step(text, h.value, if notes.None? then None else Some(notes.value.items)),
           (if text.None? then [StepMissing] else []) + h.log)
  }

  function StepList(xs: seq<Raw>): (r: Parsed<seq<Step>>)
    requires AllSteps(xs)
    ensures |r.value| == |xs|
  {
    if xs == [] then Parsed([], [])
    else
      var p := StepList(xs[..|xs| - 1]);
      var q := StepOf(xs[|xs| - 1]);
      Parsed(p.value + [q.value], p.log + q.log)
  }

  function StepsOf(src: Raw): Parsed<seq<Step>>
    requires StepsShape(src)
  {
    if IsAbsent(src) then Parsed([], [NoSteps]) else StepList(src.items)
  }

  lemma StepListStep(xs: seq<Raw>, i: nat)
    requires AllSteps(xs) && i < |xs|
    ensures AllSteps(xs[..i]) && AllSteps(xs[..i + 1])
    ensures StepList(xs[..i + 1]) ==
            Parsed(StepList(xs[..i]).value + [StepOf(xs[i]).value], StepList(xs[..i]).log + StepOf(xs[i]).log)
  {
    assert xs[..i + 1][..i] == xs[..i];
  }

  /** `parse_steps`. */
  method ParseSteps(src: Raw) returns (out: seq<Step>, log: seq<Warning>)
    requires StepsShape(src)
    ensures Parsed(out, log) == StepsOf(src)
  {
    out, log := [], [];
    if !IsAbsent(src) {
      var xs := src.items;
      var i := 0;
      while i < |xs|
        invariant 0 <= i <= |xs|
        invariant Parsed(out, log) == StepList(xs[..i])
      {
        var step, stepLog := ParseStep(xs[i]);
        StepListStep(xs, i);
        out := out + [step];
        log := log + stepLog;
        i := i + 1;
      }
      assert xs[..i] == xs;
    } else {
      log := [NoSteps];
    }
  }

  /** The loop body of `parse_steps`. */
  method ParseStep(step: Raw) returns (out: Step, log: seq<Warning>)
    requires StepShape(step)
    ensures Parsed(out, log) == StepOf(step)
  {
    var es := step.entries;
    var text := Lookup(es, "step");
    var textLog: seq<Warning> := [];
    if text.None? {
      textLog := [StepMissing];
    }
    var haccp: Option<Haccp> := None;
    var haccpLog: seq<Warning> := [];
    if Lookup(es, "haccp").Some? {
      var h;
      h, haccpLog := ParseHaccp(Lookup(es, "haccp").value.entries);
      haccp := Some(h);
    }
    var notes: Option<seq<Raw>> := None;
    if Lookup(es, "notes").Some? {
      var copied := CopyNotes(Lookup(es, "notes").value.items);
      notes := Some(copied);
    }
    out := Step(text, haccp, notes);
    log := textLog + haccpLog;
  }

  /** The `haccp` branch: pop the two control points, then merge the rest
      with `update`. */
  method ParseHaccp(h: Dict<Raw>) returns (out: Haccp, log: seq<Warning>)
    ensures Parsed(out, log) == HaccpOf(h)
  {
    var bothLog: seq<Warning> := [];
    if Lookup(h, "control_point").Some? && Lookup(h, "critical_control_point").Some? {
      bothLog := [BothControlPoints];
    }
    RemoveOther(h, "control_point", "critical_control_point");
    var cp, rest := PopIfPresent(h, "control_point");
    var ccp;
    ccp, rest := PopIfPresent(rest, "critical_control_point");
    var extraLog: seq<Warning> := [];
    var extra: Dict<Raw> := [];
    if rest != [] {
      extraLog := [NonStandardHaccp];
      extra := Merge(rest);
    }
    out := Haccp(cp, ccp, extra);
    log := bothLog + extraLog;
  }

  /** The merge done by `update`: each pair of `src` assigned in turn. */
  method Merge(src: Dict<Raw>) returns (r: Dict<Raw>)
    ensures r == FromPairs(src)
  {
    r := [];
    var i := 0;
    while i < |src|
      invariant 0 <= i <= |src|
      invariant r == FromPairs(src[..i])
    {
      assert src[..i + 1][..i] == src[..i];
      r := Put(r, src[i].0, src[i].1);
      i := i + 1;
    }
    assert src[..i] == src;
  }

  /** The notes loop: each note appended in order. */
  method CopyNotes(notes: seq<Raw>) returns (out: seq<Raw>)
    ensures out == notes
  {
    out := [];
    var i := 0;
    while i < |notes|
      invariant 0 <= i <= |notes|
      invariant out == notes[..i]
    {
      assert notes[..i + 1] == notes[..i] + [notes[i]];
      out := out + [notes[i]];
      i := i + 1;
    }
    assert notes[..i] == notes;
  }

  /** Every step is parsed on its own: the i-th output step is the i-th input
      step normalised. */
  lemma {:induction false} StepListEntries(xs: seq<Raw>)
    requires AllSteps(xs)
    ensures forall i :: 0 <= i < |xs| ==> StepList(xs).value[i] == StepOf(xs[i]).value
  {
    if xs != [] {
      StepListEntries(xs[..|xs| - 1]);
    }
  }

  /** A single step never warns that the steps are missing. */
  lemma {:induction false} StepListNoNoSteps(xs: seq<Raw>)
    requires AllSteps(xs)
    ensures NoSteps !in StepList(xs).log
  {
    if xs != [] {
      StepListNoNoSteps(xs[..|xs| - 1]);
      var h := HaccpPart(xs[|xs| - 1].entries);
      assert NoSteps !in h.log;
    }
  }

  /** A missing step list gives no steps and the one missing-steps warning;
      a present list gives one step per input step, and the missing-steps
      warning is given exactly when the list is missing. */
  lemma StepsCases(src: Raw)
    requires StepsShape(src)
    ensures IsAbsent(src) ==> StepsOf(src) == Parsed([], [NoSteps])
    ensures !IsAbsent(src) ==> |StepsOf(src).value| == |src.items|
    ensures NoSteps in StepsOf(src).log <==> IsAbsent(src)
  {
    if !IsAbsent(src) {
      StepListNoNoSteps(src.items);
    }
  }

  /** The step text is copied exactly when present, with one warning when it
      is missing; notes are copied in order. */
  lemma StepCases(step: Raw)
    requires StepShape(step)
    ensures var r := StepOf(step);
      && r.value.text == Lookup(step.entries, "step")
      && (StepMissing in r.log <==> "step" !in Keys(step.entries))
      && (r.value.haccp.Some? <==> "haccp" in Keys(step.entries))
      && (r.value.notes.Some? <==> "notes" in Keys(step.entries))
      && (r.value.notes.Some? ==> r.value.notes.value == Lookup(step.entries, "notes").value.items)
  {
    LookupKeys(step.entries, "step");
    LookupKeys(step.entries, "haccp");
    LookupKeys(step.entries, "notes");
    var h := HaccpPart(step.entries);
    assert StepMissing !in h.log;
  }

  /** Both control points are kept when both are given, with a single
      warning; the non-standard warning is given exactly when some other
      field is merged in. */
  lemma HaccpCases(h: Dict<Raw>)
    ensures var r := HaccpOf(h);
      && r.value.controlPoint == Lookup(h, "control_point")
      && r.value.criticalControlPoint == Lookup(h, "critical_control_point")
      && (BothControlPoints in r.log <==>
            "control_point" in Keys(h) && "critical_control_point" in Keys(h))
      && multiset(r.log)[BothControlPoints] <= 1
      && (NonStandardHaccp in r.log <==> r.value.extra != [])
  {
    LookupKeys(h, "control_point");
    LookupKeys(h, "critical_control_point");
    FromPairsEmpty(HaccpRest(h));
  }

  /** On a dictionary, the merged fields are exactly the entries other than
      the two control points, values and order unchanged. */
  lemma HaccpExtrasMerged(h: Dict<Raw>)
    requires DistinctKeys(h)
    ensures HaccpOf(h).value.extra == Without(h, {"control_point", "critical_control_point"})
  {
    RemoveIsWithout(h, "control_point");
    WithoutDistinct(h, {"control_point"});
    RemoveIsWithout(Without(h, {"control_point"}), "critical_control_point");
    WithoutWithout(h, {"control_point"}, {"critical_control_point"});
    assert {"control_point"} + {"critical_control_point"} == {"control_point", "critical_control_point"};
    WithoutDistinct(h, {"control_point", "critical_control_point"});
    FromPairsDistinct(Without(h, {"control_point", "critical_control_point"}));
  }
}
