/** What the advisor sends to a model provider, and the order in which it is cut down until it fits. */
module Projection {
  import opened Basics
  import opened Catalog

  datatype Evidence = Evidence(summary: string, details: string, sourceId: string, observedAt: string)

  datatype Resource = Resource(apiVersion: string, kind: string, namespace: string, name: string)

  datatype SentAction = SentAction(actionType: string, target: Option<Resource>, description: string)

  datatype SentFinding = SentFinding(
    id: string, source: string, title: string, severity: string, evidence: seq<Evidence>, resources: seq<Resource>,
    blastRadius: string, fixability: string, riskScore: int, recommendedAction: string)

  datatype SentPlan = SentPlan(
    id: string, findingId: string, rootCause: string, actions: seq<SentAction>, riskTier: string,
    required: bool, categories: seq<string>, verificationSteps: seq<string>, rollbackSteps: seq<string>)

  datatype Input = Input(finding: SentFinding, plan: SentPlan)

  const MAX_EVIDENCE := 10
  const MAX_RESOURCES := 20
  const MAX_ACTIONS := 12
  const MAX_STEPS := 10

  // ---- Bounded strings ----

  function TrimLeft(s: string): (r: string)
    ensures |r| <= |s| && (r == "" || !IsSpace(r[0]))
  {
    if s != "" && IsSpace(s[0]) then TrimLeft(s[1..]) else s
  }

  function TrimRight(s: string): (r: string)
    ensures r <= s && (r == "" || !IsSpace(r[|r| - 1]))
  {
    if s != "" && IsSpace(s[|s| - 1]) then TrimRight(s[..|s| - 1]) else s
  }

  function Trim(s: string): (r: string)
    ensures |r| <= |s|
  {
    TrimRight(TrimLeft(s))
  }

  function BoundedString(value: string, maxRunes: int): string {
    var trimmed := Trim(value);
    if maxRunes <= 0 || |trimmed| <= maxRunes then trimmed else Trim(trimmed[..maxRunes])
  }

  lemma BoundedStringIsBounded(value: string, maxRunes: int)
    ensures |BoundedString(value, maxRunes)| <= |value|
    ensures maxRunes > 0 ==> |BoundedString(value, maxRunes)| <= maxRunes
  {}

  // ---- One cut ----

  function Front<T>(s: seq<T>): seq<T>
    requires |s| > 0
  {
    s[..|s| - 1]
  }

  function Halved(value: string): string {
    BoundedString(value, |value| / 2)
  }

  /** The first element that satisfies `p`. */
  function FirstWhere<T>(s: seq<T>, p: T -> bool): (at: Option<nat>)
    ensures at.Some? ==> at.value < |s| && p(s[at.value]) && forall k :: 0 <= k < at.value ==> !p(s[k])
    ensures at.None? ==> forall k :: 0 <= k < |s| ==> !p(s[k])
    decreases |s|
  {
    if |s| == 0 then None
    else if p(s[0]) then Some(0)
    else
      var rest := FirstWhere(s[1..], p);
      if rest.None? then None else Some(rest.value + 1)
  }

  predicate HasDetails(e: Evidence) { e.details != "" }

  predicate HasSummary(e: Evidence) { e.summary != "" }

  predicate HasApiVersion(r: Resource) { r.apiVersion != "" }

  predicate HasDescription(a: SentAction) { a.description != "" }

  predicate HasTarget(a: SentAction) { a.target.Some? }

  predicate HasTargetVersion(a: SentAction) { a.target.Some? && a.target.value.apiVersion != "" }

  function CutSteps(input: Input): Option<Input> {
    var p := input.plan;
    if |p.rollbackSteps| > 0 then Some(input.(plan := p.(rollbackSteps := Front(p.rollbackSteps))))
    else if |p.verificationSteps| > 0 then Some(input.(plan := p.(verificationSteps := Front(p.verificationSteps))))
    else if |p.categories| > 0 then Some(input.(plan := p.(categories := Front(p.categories))))
    else None
  }

  function CutDetails(input: Input): Option<Input> {
    var f, p := input.finding, input.plan;
    var e := FirstWhere(f.evidence, HasDetails);
    var a := FirstWhere(p.actions, HasDescription);
    if e.Some? then Some(input.(finding := f.(evidence := f.evidence[e.value := f.evidence[e.value].(details := "")])))
    else if a.Some? then
      Some(input.(plan := p.(actions := p.actions[a.value := p.actions[a.value].(description := "")])))
    else None
  }

  function CutLongLists(input: Input): Option<Input> {
    var f, p := input.finding, input.plan;
    if |f.resources| > 8 then Some(input.(finding := f.(resources := Front(f.resources))))
    else if |f.evidence| > 4 then Some(input.(finding := f.(evidence := Front(f.evidence))))
    else if |p.actions| > 8 then Some(input.(plan := p.(actions := Front(p.actions))))
    else None
  }

  function HalveTexts(input: Input): Option<Input> {
    var f, p := input.finding, input.plan;
    if |f.title| > 160 then Some(input.(finding := f.(title := Halved(f.title))))
    else if |f.blastRadius| > 160 then Some(input.(finding := f.(blastRadius := Halved(f.blastRadius))))
    else if |f.recommendedAction| > 160
      then Some(input.(finding := f.(recommendedAction := Halved(f.recommendedAction))))
    else if |p.rootCause| > 160 then Some(input.(plan := p.(rootCause := Halved(p.rootCause))))
    else None
  }

  function DropTexts(input: Input): Option<Input> {
    var f, p := input.finding, input.plan;
    if f.recommendedAction != "" then Some(input.(finding := f.(recommendedAction := "")))
    else if f.blastRadius != "" then Some(input.(finding := f.(blastRadius := "")))
    else if p.rootCause != "" then Some(input.(plan := p.(rootCause := "")))
    else None
  }

  function CutSummaries(input: Input): Option<Input> {
    var f, p := input.finding, input.plan;
    var e := FirstWhere(f.evidence, HasSummary);
    var r := FirstWhere(f.resources, HasApiVersion);
    var a := FirstWhere(p.actions, HasTargetVersion);
    if e.Some? then Some(input.(finding := f.(evidence := f.evidence[e.value := f.evidence[e.value].(summary := "")])))
    else if r.Some? then
      Some(input.(finding := f.(resources := f.resources[r.value := f.resources[r.value].(apiVersion := "")])))
    else if a.Some? then
      var action := p.actions[a.value];
      var stripped := action.(target := Some(action.target.value.(apiVersion := "")));
      Some(input.(plan := p.(actions := p.actions[a.value := stripped])))
    else None
  }

  function CutLists(input: Input): Option<Input> {
    var f, p := input.finding, input.plan;
    var a := FirstWhere(p.actions, HasTarget);
    if |f.resources| > 0 then Some(input.(finding := f.(resources := Front(f.resources))))
    else if |f.evidence| > 0 then Some(input.(finding := f.(evidence := Front(f.evidence))))
    else if a.Some? then Some(input.(plan := p.(actions := p.actions[a.value := p.actions[a.value].(target := None)])))
    else if |p.actions| > 1 then Some(input.(plan := p.(actions := Front(p.actions))))
    else None
  }

  function HalveNames(input: Input): Option<Input> {
    var f, p := input.finding, input.plan;
    if |f.id| > 32 then Some(input.(finding := f.(id := Halved(f.id))))
    else if |f.source| > 32 then Some(input.(finding := f.(source := Halved(f.source))))
    else if |f.title| > 32 then Some(input.(finding := f.(title := Halved(f.title))))
    else if |p.id| > 32 then Some(input.(plan := p.(id := Halved(p.id))))
    else if |p.findingId| > 32 then Some(input.(plan := p.(findingId := Halved(p.findingId))))
    else None
  }

  function DropNames(input: Input): Option<Input> {
    var f, p := input.finding, input.plan;
    if f.title != "" then Some(input.(finding := f.(title := "")))
    else if f.source != "" then Some(input.(finding := f.(source := "")))
    else if f.id != "" then Some(input.(finding := f.(id := "")))
    else if p.findingId != "" then Some(input.(plan := p.(findingId := "")))
    else if p.id != "" then Some(input.(plan := p.(id := "")))
    else if f.severity != "" then Some(input.(finding := f.(severity := "")))
    else if f.fixability != "" then Some(input.(finding := f.(fixability := "")))
    else if p.riskTier != "" then Some(input.(plan := p.(riskTier := "")))
    else if |p.actions| > 0 then Some(input.(plan := p.(actions := [])))
    else None
  }

  function Or(first: Option<Input>, second: Option<Input>): Option<Input> {
    if first.Some? then first else second
  }

  /** The cut that comes next: the least informative part that is still there. */
  function Shrunk(input: Input): Option<Input> {
    Or(CutSteps(input), Or(CutDetails(input), Or(CutLongLists(input), Or(HalveTexts(input), Or(DropTexts(input),
    Or(CutSummaries(input), Or(CutLists(input), Or(HalveNames(input), DropNames(input)))))))))
  }

  // ---- How many cuts there can be ----

  function Sum<T>(s: seq<T>, w: T -> nat): nat {
    if |s| == 0 then 0 else Sum(s[..|s| - 1], w) + w(s[|s| - 1])
  }

  lemma {:induction false} SumUpdate<T>(s: seq<T>, w: T -> nat, at: nat, x: T)
    requires at < |s|
    ensures Sum(s[at := x], w) + w(s[at]) == Sum(s, w) + w(x)
  {
    var init := s[..|s| - 1];
    if at < |s| - 1 {
      SumUpdate(init, w, at, x);
      assert s[at := x][..|s| - 1] == init[at := x];
    } else {
      assert s[at := x][..|s| - 1] == init;
    }
  }

  lemma {:induction false} SumBound<T>(s: seq<T>, w: T -> nat, each: nat)
    requires forall k :: 0 <= k < |s| ==> w(s[k]) <= each
    ensures Sum(s, w) <= each * |s|
  {
    if |s| > 0 {
      SumBound(s[..|s| - 1], w, each);
      assert each * |s| == each * (|s| - 1) + each;
    }
  }

  lemma {:induction false} SumGrows<T>(s: seq<T>, w: T -> nat)
    requires |s| > 0 && forall k :: 0 <= k < |s| ==> w(s[k]) > 0
    ensures Sum(s, w) > 0
  {}

  function One(present: bool): nat { if present then 1 else 0 }

  function EvidenceCuts(e: Evidence): nat { 1 + One(e.details != "") + One(e.summary != "") }

  function ResourceCuts(r: Resource): nat { 1 + One(r.apiVersion != "") }

  function ActionCuts(a: SentAction): nat {
    1 + One(a.description != "") + One(a.target.Some?) + One(HasTargetVersion(a))
  }

  /** How often a string of this length can be halved before it is at most `cap` long. */
  function Halvings(length: nat, cap: nat): nat {
    if length <= cap then 0 else 1 + Halvings(length / 2, cap)
  }

  lemma {:induction false} FewerHalvings(a: nat, b: nat, cap: nat)
    requires a <= b
    ensures Halvings(a, cap) <= Halvings(b, cap)
  {
    if a > cap { FewerHalvings(a / 2, b / 2, cap); }
  }

  function TextCuts(text: string, cap: nat): nat {
    Halvings(|text|, cap) + One(text != "")
  }

  function ListCuts(evidence: seq<Evidence>, resources: seq<Resource>): nat {
    Sum(evidence, EvidenceCuts) + Sum(resources, ResourceCuts)
  }

  function ProseCuts(blastRadius: string, recommendedAction: string, rootCause: string): nat {
    TextCuts(blastRadius, 160) + TextCuts(recommendedAction, 160) + TextCuts(rootCause, 160)
  }

  function NameCuts(id: string, source: string, title: string, planId: string, findingId: string): nat {
    TextCuts(id, 32) + TextCuts(source, 32) + TextCuts(title, 32) + TextCuts(planId, 32) + TextCuts(findingId, 32)
  }

  function LabelCuts(severity: string, fixability: string, riskTier: string): nat {
    One(severity != "") + One(fixability != "") + One(riskTier != "")
  }

  function StepCuts(categories: seq<string>, verificationSteps: seq<string>, rollbackSteps: seq<string>): nat {
    |categories| + |verificationSteps| + |rollbackSteps|
  }

  /** Every cut uses up at least one of these. */
  function Cuts(input: Input): nat {
    var f, p := input.finding, input.plan;
    ListCuts(f.evidence, f.resources) + Sum(p.actions, ActionCuts)
      + StepCuts(p.categories, p.verificationSteps, p.rollbackSteps)
    + ProseCuts(f.blastRadius, f.recommendedAction, p.rootCause) + NameCuts(f.id, f.source, f.title, p.id, p.findingId)
    + LabelCuts(f.severity, f.fixability, p.riskTier)
  }

  predicate CutsDown(before: Input, after: Option<Input>) {
    after.Some? ==> Cuts(after.value) < Cuts(before)
  }

  lemma TextShrinks(text: string, cap: nat)
    requires |text| > cap > 0
    ensures TextCuts(Halved(text), cap) < TextCuts(text, cap)
  {
    FewerHalvings(|Halved(text)|, |text| / 2, cap);
  }

  lemma TextDrops(text: string, cap: nat)
    requires text != ""
    ensures TextCuts("", cap) < TextCuts(text, cap)
  {}

  lemma SumFront<T>(s: seq<T>, w: T -> nat)
    requires |s| > 0
    ensures Sum(Front(s), w) + w(s[|s| - 1]) == Sum(s, w)
  {}

  lemma StepsCutDown(input: Input)
    ensures CutsDown(input, CutSteps(input))
  {
    var p := input.plan;
    if |p.rollbackSteps| > 0 {
      assert StepCuts(p.categories, p.verificationSteps, Front(p.rollbackSteps))
             < StepCuts(p.categories, p.verificationSteps, p.rollbackSteps);
    } else if |p.verificationSteps| > 0 {
      assert StepCuts(p.categories, Front(p.verificationSteps), p.rollbackSteps)
             < StepCuts(p.categories, p.verificationSteps, p.rollbackSteps);
    } else if |p.categories| > 0 {
      assert StepCuts(Front(p.categories), p.verificationSteps, p.rollbackSteps)
             < StepCuts(p.categories, p.verificationSteps, p.rollbackSteps);
    }
  }

  lemma DetailsCutDown(input: Input)
    ensures CutsDown(input, CutDetails(input))
  {
    var f, p := input.finding, input.plan;
    var e, a := FirstWhere(f.evidence, HasDetails), FirstWhere(p.actions, HasDescription);
    if e.Some? {
      SumUpdate(f.evidence, EvidenceCuts, e.value, f.evidence[e.value].(details := ""));
    } else if a.Some? {
      SumUpdate(p.actions, ActionCuts, a.value, p.actions[a.value].(description := ""));
    }
  }

  lemma LongListsCutDown(input: Input)
    ensures CutsDown(input, CutLongLists(input))
  {
    var f, p := input.finding, input.plan;
    if |f.resources| > 8 {
      SumFront(f.resources, ResourceCuts);
    } else if |f.evidence| > 4 {
      SumFront(f.evidence, EvidenceCuts);
    } else if |p.actions| > 8 {
      SumFront(p.actions, ActionCuts);
    }
  }

  lemma HalvedTextsCutDown(input: Input)
    ensures CutsDown(input, HalveTexts(input))
  {
    var f, p := input.finding, input.plan;
    if |f.title| > 160 {
      TextShrinks(f.title, 32);
    } else if |f.blastRadius| > 160 {
      TextShrinks(f.blastRadius, 160);
    } else if |f.recommendedAction| > 160 {
      TextShrinks(f.recommendedAction, 160);
    } else if |p.rootCause| > 160 {
      TextShrinks(p.rootCause, 160);
    }
  }

  lemma DroppedTextsCutDown(input: Input)
    ensures CutsDown(input, DropTexts(input))
  {
    var f, p := input.finding, input.plan;
    if f.recommendedAction != "" {
      TextDrops(f.recommendedAction, 160);
    } else if f.blastRadius != "" {
      TextDrops(f.blastRadius, 160);
    } else if p.rootCause != "" {
      TextDrops(p.rootCause, 160);
    }
  }

  lemma SummariesCutDown(input: Input)
    ensures CutsDown(input, CutSummaries(input))
  {
    var f, p := input.finding, input.plan;
    var e := FirstWhere(f.evidence, HasSummary);
    var r := FirstWhere(f.resources, HasApiVersion);
    var a := FirstWhere(p.actions, HasTargetVersion);
    if e.Some? {
      SumUpdate(f.evidence, EvidenceCuts, e.value, f.evidence[e.value].(summary := ""));
    } else if r.Some? {
      SumUpdate(f.resources, ResourceCuts, r.value, f.resources[r.value].(apiVersion := ""));
    } else if a.Some? {
      var action := p.actions[a.value];
      SumUpdate(p.actions, ActionCuts, a.value, action.(target := Some(action.target.value.(apiVersion := ""))));
    }
  }

  lemma ListsCutDown(input: Input)
    ensures CutsDown(input, CutLists(input))
  {
    var f, p := input.finding, input.plan;
    var a := FirstWhere(p.actions, HasTarget);
    if |f.resources| > 0 {
      SumFront(f.resources, ResourceCuts);
    } else if |f.evidence| > 0 {
      SumFront(f.evidence, EvidenceCuts);
    } else if a.Some? {
      SumUpdate(p.actions, ActionCuts, a.value, p.actions[a.value].(target := None));
    } else if |p.actions| > 1 {
      SumFront(p.actions, ActionCuts);
    }
  }

  lemma NamesCutDown(input: Input)
    ensures CutsDown(input, HalveNames(input))
  {
    var f, p := input.finding, input.plan;
    if |f.id| > 32 {
      TextShrinks(f.id, 32);
    } else if |f.source| > 32 {
      TextShrinks(f.source, 32);
    } else if |f.title| > 32 {
      TextShrinks(f.title, 32);
    } else if |p.id| > 32 {
      TextShrinks(p.id, 32);
    } else if |p.findingId| > 32 {
      TextShrinks(p.findingId, 32);
    }
  }

  lemma DropsCutDown(input: Input)
    ensures CutsDown(input, DropNames(input))
  {
    var f, p := input.finding, input.plan;
    if f.title != "" {
      TextDrops(f.title, 32);
    } else if f.source != "" {
      TextDrops(f.source, 32);
    } else if f.id != "" {
      TextDrops(f.id, 32);
    } else if p.findingId != "" {
      TextDrops(p.findingId, 32);
    } else if p.id != "" {
      TextDrops(p.id, 32);
    } else if |p.actions| > 0 {
      SumGrows(p.actions, ActionCuts);
    }
  }

  /** Each cut leaves fewer cuts to make. */
  lemma ShrinkingCutsDown(input: Input)
    ensures CutsDown(input, Shrunk(input))
  {
    StepsCutDown(input);
    DetailsCutDown(input);
    LongListsCutDown(input);
    HalvedTextsCutDown(input);
    DroppedTextsCutDown(input);
    SummariesCutDown(input);
    ListsCutDown(input);
    NamesCutDown(input);
    DropsCutDown(input);
  }

  /** What no cut touches; evidence only ever leaves from the end, with its source ids intact. */
  predicate SameCore(before: Input, after: Input) {
    && after.finding.riskScore == before.finding.riskScore && after.plan.required == before.plan.required
    && |after.finding.evidence| <= |before.finding.evidence|
    && forall k :: 0 <= k < |after.finding.evidence| ==>
      after.finding.evidence[k].sourceId == before.finding.evidence[k].sourceId
  }

  predicate KeepsCore(before: Input, after: Option<Input>) {
    after.Some? ==> SameCore(before, after.value)
  }

  lemma EvidenceCutsKeepCore(input: Input)
    ensures KeepsCore(input, CutDetails(input)) && KeepsCore(input, CutLongLists(input))
  {}

  lemma LateEvidenceCutsKeepCore(input: Input)
    ensures KeepsCore(input, CutSummaries(input)) && KeepsCore(input, CutLists(input))
  {}

  lemma TextCutsKeepCore(input: Input)
    ensures KeepsCore(input, CutSteps(input)) && KeepsCore(input, HalveTexts(input))
    ensures KeepsCore(input, DropTexts(input))
  {}

  lemma NameCutsKeepCore(input: Input)
    ensures KeepsCore(input, HalveNames(input)) && KeepsCore(input, DropNames(input))
  {}

  lemma ShrinkingKeepsCore(input: Input)
    ensures KeepsCore(input, Shrunk(input))
  {
    EvidenceCutsKeepCore(input);
    LateEvidenceCutsKeepCore(input);
    TextCutsKeepCore(input);
    NameCutsKeepCore(input);
  }

  /** Everything that can go is gone. */
  function Stripped(input: Input): Input {
    Input(SentFinding("", "", "", "", [], [], "", "", input.finding.riskScore, ""),
          SentPlan("", "", "", [], "", input.plan.required, [], [], []))
  }

  /** Shrinking stops only at the fully stripped input. */
  lemma NothingLeftToCut(input: Input)
    ensures Shrunk(input).None? <==> input == Stripped(input)
  {}
}
