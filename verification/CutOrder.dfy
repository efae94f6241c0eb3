/** What is given up first: the parts of a projected input in the order in which they are cut. */
module CutOrder {
  import opened Basics
  import opened Projection

  function Excess(n: nat, cap: nat): nat {
    if n > cap then n - cap else 0
  }

  function WithDetails(e: Evidence): nat { One(e.details != "") }

  function WithSummary(e: Evidence): nat { One(e.summary != "") }

  function WithVersion(r: Resource): nat { One(r.apiVersion != "") }

  function WithDescription(a: SentAction): nat { One(a.description != "") }

  function WithTarget(a: SentAction): nat { One(a.target.Some?) }

  function WithTargetVersion(a: SentAction): nat { One(a.target.Some? && a.target.value.apiVersion != "") }

  /** How much of the k-th part is left to cut. */
  function Left(input: Input, k: nat): nat {
    var f, p := input.finding, input.plan;
    match k
    // steps, then details
    case 0 => |p.rollbackSteps|
    case 1 => |p.verificationSteps|
    case 2 => |p.categories|
    case 3 => Sum(f.evidence, WithDetails)
    case 4 => Sum(p.actions, WithDescription)
    // long lists and long texts
    case 5 => Excess(|f.resources|, 8)
    case 6 => Excess(|f.evidence|, 4)
    case 7 => Excess(|p.actions|, 8)
    case 8 => Excess(|f.title|, 160)
    case 9 => Excess(|f.blastRadius|, 160)
    case 10 => Excess(|f.recommendedAction|, 160)
    case 11 => Excess(|p.rootCause|, 160)
    // texts, then summaries and API versions
    case 12 => |f.recommendedAction|
    case 13 => |f.blastRadius|
    case 14 => |p.rootCause|
    case 15 => Sum(f.evidence, WithSummary)
    case 16 => Sum(f.resources, WithVersion)
    case 17 => Sum(p.actions, WithTargetVersion)
    // lists
    case 18 => |f.resources|
    case 19 => |f.evidence|
    case 20 => Sum(p.actions, WithTarget)
    case 21 => Excess(|p.actions|, 1)
    // long names, then everything else
    case 22 => Excess(|f.id|, 32)
    case 23 => Excess(|f.source|, 32)
    case 24 => Excess(|f.title|, 32)
    case 25 => Excess(|p.id|, 32)
    case 26 => Excess(|p.findingId|, 32)
    case 27 => |f.title|
    case 28 => |f.source|
    case 29 => |f.id|
    case 30 => |p.findingId|
    case 31 => |p.id|
    case 32 => |f.severity|
    case 33 => |f.fixability|
    case 34 => |p.riskTier|
    case 35 => |p.actions|
    case _ => 0
  }

  /** Only the field that the k-th part belongs to differs. */
  predicate Only(input: Input, cut: Input, k: nat) {
    var f, p, g, q := input.finding, input.plan, cut.finding, cut.plan;
    match k
    case 0 => cut == input.(plan := p.(rollbackSteps := q.rollbackSteps))
    case 1 => cut == input.(plan := p.(verificationSteps := q.verificationSteps))
    case 2 => cut == input.(plan := p.(categories := q.categories))
    case 3 | 6 | 15 | 19 => cut == input.(finding := f.(evidence := g.evidence))
    case 4 | 7 | 17 | 20 | 21 | 35 => cut == input.(plan := p.(actions := q.actions))
    case 5 | 16 | 18 => cut == input.(finding := f.(resources := g.resources))
    case 8 | 24 | 27 => cut == input.(finding := f.(title := g.title))
    case 9 | 13 => cut == input.(finding := f.(blastRadius := g.blastRadius))
    case 10 | 12 => cut == input.(finding := f.(recommendedAction := g.recommendedAction))
    case 11 | 14 => cut == input.(plan := p.(rootCause := q.rootCause))
    case 22 | 29 => cut == input.(finding := f.(id := g.id))
    case 23 | 28 => cut == input.(finding := f.(source := g.source))
    case 25 | 31 => cut == input.(plan := p.(id := q.id))
    case 26 | 30 => cut == input.(plan := p.(findingId := q.findingId))
    case 32 => cut == input.(finding := f.(severity := g.severity))
    case 33 => cut == input.(finding := f.(fixability := g.fixability))
    case 34 => cut == input.(plan := p.(riskTier := q.riskTier))
    case _ => false
  }

  /** Between parts `from` and `to`, the first that is left becomes less, and nothing but its field changes. */
  ghost predicate CutsFirst(input: Input, cut: Option<Input>, from: nat, till: nat) {
    match cut
    case None => forall k :: from <= k < till ==> Left(input, k) == 0
    case Some(next) => exists k: nat :: from <= k < till && CutAt(input, next, from, k)
  }

  predicate CutAt(input: Input, next: Input, from: nat, k: nat) {
    && 0 < Left(input, k) && Left(next, k) < Left(input, k) && Only(input, next, k)
    && forall j :: from <= j < k ==> Left(input, j) == 0
  }

  lemma StepsComeFirst(input: Input)
    ensures CutsFirst(input, CutSteps(input), 0, 3)
  {
    var p := input.plan;
    if |p.rollbackSteps| > 0 {
      assert CutAt(input, CutSteps(input).value, 0, 0);
    } else if |p.verificationSteps| > 0 {
      assert CutAt(input, CutSteps(input).value, 0, 1);
    } else if |p.categories| > 0 {
      assert CutAt(input, CutSteps(input).value, 0, 2);
    }
  }

  lemma {:induction false} NothingCounts<T>(s: seq<T>, w: T -> nat)
    ensures Sum(s, w) == 0 <==> forall k :: 0 <= k < |s| ==> w(s[k]) == 0
  {
    if |s| > 0 {
      NothingCounts(s[..|s| - 1], w);
      assert forall k :: 0 <= k < |s| - 1 ==> s[..|s| - 1][k] == s[k];
    }
  }

  lemma DetailsComeNext(input: Input)
    ensures CutsFirst(input, CutDetails(input), 3, 5)
  {
    var f, p := input.finding, input.plan;
    var e, a := FirstWhere(f.evidence, HasDetails), FirstWhere(p.actions, HasDescription);
    NothingCounts(f.evidence, WithDetails);
    NothingCounts(p.actions, WithDescription);
    if e.Some? {
      SumUpdate(f.evidence, WithDetails, e.value, f.evidence[e.value].(details := ""));
      assert CutAt(input, CutDetails(input).value, 3, 3);
    } else if a.Some? {
      SumUpdate(p.actions, WithDescription, a.value, p.actions[a.value].(description := ""));
      assert CutAt(input, CutDetails(input).value, 3, 4);
    }
  }

  lemma LongListsComeNext(input: Input)
    ensures CutsFirst(input, CutLongLists(input), 5, 8)
  {
    var f, p := input.finding, input.plan;
    if |f.resources| > 8 {
      assert CutAt(input, CutLongLists(input).value, 5, 5);
    } else if |f.evidence| > 4 {
      assert CutAt(input, CutLongLists(input).value, 5, 6);
    } else if |p.actions| > 8 {
      assert CutAt(input, CutLongLists(input).value, 5, 7);
    }
  }

  lemma LongTitleOrRadiusGoes(input: Input)
    requires |input.finding.title| > 160 || |input.finding.blastRadius| > 160
    ensures CutsFirst(input, HalveTexts(input), 8, 12)
  {
    var f, p := input.finding, input.plan;
    if |f.title| > 160 {
      BoundedStringIsBounded(f.title, |f.title| / 2);
      assert CutAt(input, HalveTexts(input).value, 8, 8);
    } else {
      BoundedStringIsBounded(f.blastRadius, |f.blastRadius| / 2);
      assert CutAt(input, HalveTexts(input).value, 8, 9);
    }
  }

  lemma LongActionOrCauseGoes(input: Input)
    requires |input.finding.recommendedAction| > 160 || |input.plan.rootCause| > 160
    requires |input.finding.title| <= 160 && |input.finding.blastRadius| <= 160
    ensures CutsFirst(input, HalveTexts(input), 8, 12)
  {
    var f, p := input.finding, input.plan;
    if |f.recommendedAction| > 160 {
      BoundedStringIsBounded(f.recommendedAction, |f.recommendedAction| / 2);
      assert CutAt(input, HalveTexts(input).value, 8, 10);
    } else {
      BoundedStringIsBounded(p.rootCause, |p.rootCause| / 2);
      assert CutAt(input, HalveTexts(input).value, 8, 11);
    }
  }

  lemma LongTextsComeNext(input: Input)
    ensures CutsFirst(input, HalveTexts(input), 8, 12)
  {
    var f, p := input.finding, input.plan;
    if |f.title| > 160 || |f.blastRadius| > 160 {
      LongTitleOrRadiusGoes(input);
    } else if |f.recommendedAction| > 160 || |p.rootCause| > 160 {
      LongActionOrCauseGoes(input);
    }
  }

  lemma TextsComeNext(input: Input)
    ensures CutsFirst(input, DropTexts(input), 12, 15)
  {
    var f, p := input.finding, input.plan;
    if f.recommendedAction != "" {
      assert CutAt(input, DropTexts(input).value, 12, 12);
    } else if f.blastRadius != "" {
      assert CutAt(input, DropTexts(input).value, 12, 13);
    } else if p.rootCause != "" {
      assert CutAt(input, DropTexts(input).value, 12, 14);
    }
  }

  lemma SummaryComesFirst(input: Input, at: nat)
    requires FirstWhere(input.finding.evidence, HasSummary) == Some(at)
    ensures CutsFirst(input, CutSummaries(input), 15, 18)
  {
    var f := input.finding;
    NothingCounts(f.evidence, WithSummary);
    SumUpdate(f.evidence, WithSummary, at, f.evidence[at].(summary := ""));
    assert CutAt(input, CutSummaries(input).value, 15, 15);
  }

  lemma VersionComesNext(input: Input, at: nat)
    requires FirstWhere(input.finding.evidence, HasSummary).None?
    requires FirstWhere(input.finding.resources, HasApiVersion) == Some(at)
    ensures CutsFirst(input, CutSummaries(input), 15, 18)
  {
    var f := input.finding;
    NothingCounts(f.evidence, WithSummary);
    NothingCounts(f.resources, WithVersion);
    SumUpdate(f.resources, WithVersion, at, f.resources[at].(apiVersion := ""));
    assert CutAt(input, CutSummaries(input).value, 15, 16);
  }

  lemma TargetVersionComesLast(input: Input)
    requires FirstWhere(input.finding.evidence, HasSummary).None?
    requires FirstWhere(input.finding.resources, HasApiVersion).None?
    ensures CutsFirst(input, CutSummaries(input), 15, 18)
  {
    var f, p := input.finding, input.plan;
    var a := FirstWhere(p.actions, HasTargetVersion);
    NothingCounts(f.evidence, WithSummary);
    NothingCounts(f.resources, WithVersion);
    NothingCounts(p.actions, WithTargetVersion);
    if a.Some? {
      var action := p.actions[a.value];
      SumUpdate(p.actions, WithTargetVersion, a.value, action.(target := Some(action.target.value.(apiVersion := ""))));
      assert CutAt(input, CutSummaries(input).value, 15, 17);
    }
  }

  lemma SummariesComeNext(input: Input)
    ensures CutsFirst(input, CutSummaries(input), 15, 18)
  {
    var e := FirstWhere(input.finding.evidence, HasSummary);
    var r := FirstWhere(input.finding.resources, HasApiVersion);
    if e.Some? {
      SummaryComesFirst(input, e.value);
    } else if r.Some? {
      VersionComesNext(input, r.value);
    } else {
      TargetVersionComesLast(input);
    }
  }

  lemma TargetComesNext(input: Input)
    requires input.finding.resources == [] && input.finding.evidence == []
    ensures CutsFirst(input, CutLists(input), 18, 22)
  {
    var p := input.plan;
    var a := FirstWhere(p.actions, HasTarget);
    NothingCounts(p.actions, WithTarget);
    if a.Some? {
      SumUpdate(p.actions, WithTarget, a.value, p.actions[a.value].(target := None));
      assert CutAt(input, CutLists(input).value, 18, 20);
    } else if |p.actions| > 1 {
      assert CutAt(input, CutLists(input).value, 18, 21);
    }
  }

  lemma ListsComeNext(input: Input)
    ensures CutsFirst(input, CutLists(input), 18, 22)
  {
    if |input.finding.resources| > 0 {
      assert CutAt(input, CutLists(input).value, 18, 18);
    } else if |input.finding.evidence| > 0 {
      assert CutAt(input, CutLists(input).value, 18, 19);
    } else {
      TargetComesNext(input);
    }
  }

  lemma LongIdOrSourceGoes(input: Input)
    requires |input.finding.id| > 32 || |input.finding.source| > 32
    ensures CutsFirst(input, HalveNames(input), 22, 27)
  {
    var f, p := input.finding, input.plan;
    if |f.id| > 32 {
      BoundedStringIsBounded(f.id, |f.id| / 2);
      assert CutAt(input, HalveNames(input).value, 22, 22);
    } else {
      BoundedStringIsBounded(f.source, |f.source| / 2);
      assert CutAt(input, HalveNames(input).value, 22, 23);
    }
  }

  lemma LongTitleOrPlanIdGoes(input: Input)
    requires |input.finding.title| > 32 || |input.plan.id| > 32
    requires |input.finding.id| <= 32 && |input.finding.source| <= 32
    ensures CutsFirst(input, HalveNames(input), 22, 27)
  {
    var f, p := input.finding, input.plan;
    if |f.title| > 32 {
      BoundedStringIsBounded(f.title, |f.title| / 2);
      assert CutAt(input, HalveNames(input).value, 22, 24);
    } else {
      BoundedStringIsBounded(p.id, |p.id| / 2);
      assert CutAt(input, HalveNames(input).value, 22, 25);
    }
  }

  lemma LongFindingIdGoes(input: Input)
    requires |input.plan.findingId| > 32
    requires |input.finding.id| <= 32 && |input.finding.source| <= 32 && |input.finding.title| <= 32
    requires |input.plan.id| <= 32
    ensures CutsFirst(input, HalveNames(input), 22, 27)
  {
    var f, p := input.finding, input.plan;
    BoundedStringIsBounded(p.findingId, |p.findingId| / 2);
    assert CutAt(input, HalveNames(input).value, 22, 26);
  }

  lemma LongNamesComeNext(input: Input)
    ensures CutsFirst(input, HalveNames(input), 22, 27)
  {
    var f, p := input.finding, input.plan;
    if |f.id| > 32 || |f.source| > 32 {
      LongIdOrSourceGoes(input);
    } else if |f.title| > 32 || |p.id| > 32 {
      LongTitleOrPlanIdGoes(input);
    } else if |p.findingId| > 32 {
      LongFindingIdGoes(input);
    }
  }

  lemma FindingNamesGo(input: Input)
    requires input.finding.title != "" || input.finding.source != "" || input.finding.id != ""
    ensures CutsFirst(input, DropNames(input), 27, 36)
  {
    var f, p := input.finding, input.plan;
    if f.title != "" {
      assert CutAt(input, DropNames(input).value, 27, 27);
    } else if f.source != "" {
      assert CutAt(input, DropNames(input).value, 27, 28);
    } else {
      assert CutAt(input, DropNames(input).value, 27, 29);
    }
  }

  lemma PlanNamesGo(input: Input)
    requires input.plan.findingId != "" || input.plan.id != "" || input.finding.severity != ""
    requires input.finding.title == "" && input.finding.source == "" && input.finding.id == ""
    ensures CutsFirst(input, DropNames(input), 27, 36)
  {
    var f, p := input.finding, input.plan;
    if p.findingId != "" {
      assert CutAt(input, DropNames(input).value, 27, 30);
    } else if p.id != "" {
      assert CutAt(input, DropNames(input).value, 27, 31);
    } else {
      assert CutAt(input, DropNames(input).value, 27, 32);
    }
  }

  lemma LabelsGo(input: Input)
    requires input.finding.fixability != "" || input.plan.riskTier != ""
    requires input.finding.title == "" && input.finding.source == "" && input.finding.id == ""
    requires input.plan.findingId == "" && input.plan.id == "" && input.finding.severity == ""
    ensures CutsFirst(input, DropNames(input), 27, 36)
  {
    var f, p := input.finding, input.plan;
    if f.fixability != "" {
      assert CutAt(input, DropNames(input).value, 27, 33);
    } else {
      assert CutAt(input, DropNames(input).value, 27, 34);
    }
  }

  lemma ActionsGo(input: Input)
    requires |input.plan.actions| > 0
    requires input.finding.title == "" && input.finding.source == "" && input.finding.id == ""
    requires input.plan.findingId == "" && input.plan.id == "" && input.finding.severity == ""
    requires input.finding.fixability == "" && input.plan.riskTier == ""
    ensures CutsFirst(input, DropNames(input), 27, 36)
  {
    var f, p := input.finding, input.plan;
    assert CutAt(input, DropNames(input).value, 27, 35);
  }

  lemma NamesComeLast(input: Input)
    ensures CutsFirst(input, DropNames(input), 27, 36)
  {
    var f, p := input.finding, input.plan;
    if f.title != "" || f.source != "" || f.id != "" {
      FindingNamesGo(input);
    } else if p.findingId != "" || p.id != "" || f.severity != "" {
      PlanNamesGo(input);
    } else if f.fixability != "" || p.riskTier != "" {
      LabelsGo(input);
    } else if |p.actions| > 0 {
      ActionsGo(input);
    }
  }

  lemma OneThenOther(input: Input, first: Option<Input>, second: Option<Input>, from: nat, middle: nat, till: nat)
    requires from <= middle <= till
    requires CutsFirst(input, first, from, middle) && CutsFirst(input, second, middle, till)
    ensures CutsFirst(input, Or(first, second), from, till)
  {
    if first.Some? {
      var k: nat :| from <= k < middle && CutAt(input, first.value, from, k);
    } else if second.Some? {
      var k: nat :| middle <= k < till && CutAt(input, second.value, middle, k);
      assert CutAt(input, second.value, from, k);
    }
  }

  function EarlyThen(input: Input, late: Option<Input>): Option<Input> {
    Or(CutSteps(input), Or(CutDetails(input), Or(CutLongLists(input), Or(HalveTexts(input), late))))
  }

  lemma EarlyCutsGoInOrder(input: Input, late: Option<Input>)
    requires CutsFirst(input, late, 12, 36)
    ensures CutsFirst(input, EarlyThen(input, late), 0, 36)
  {
    LongTextsComeNext(input);
    LongListsComeNext(input);
    DetailsComeNext(input);
    StepsComeFirst(input);
    var long := Or(HalveTexts(input), late);
    OneThenOther(input, HalveTexts(input), late, 8, 12, 36);
    OneThenOther(input, CutLongLists(input), long, 5, 8, 36);
    OneThenOther(input, CutDetails(input), Or(CutLongLists(input), long), 3, 5, 36);
    OneThenOther(input, CutSteps(input), Or(CutDetails(input), Or(CutLongLists(input), long)), 0, 3, 36);
  }

  /** Every cut takes from the first part of which anything is left, and there is none exactly when nothing is. */
  lemma CutsGoInOrder(input: Input)
    ensures CutsFirst(input, Shrunk(input), 0, 36)
  {
    NamesComeLast(input);
    LongNamesComeNext(input);
    ListsComeNext(input);
    SummariesComeNext(input);
    TextsComeNext(input);
    var late := Or(HalveNames(input), DropNames(input));
    OneThenOther(input, HalveNames(input), DropNames(input), 22, 27, 36);
    OneThenOther(input, CutLists(input), late, 18, 22, 36);
    late := Or(CutLists(input), late);
    OneThenOther(input, CutSummaries(input), late, 15, 18, 36);
    late := Or(CutSummaries(input), late);
    OneThenOther(input, DropTexts(input), late, 12, 15, 36);
    EarlyCutsGoInOrder(input, Or(DropTexts(input), late));
  }
}
