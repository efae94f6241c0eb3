/** Building a request body within the size limit, and accepting only provider output that cites what was sent. */
module Advisor {
  import opened Basics
  import opened Catalog
  import opened PlanBuilder
  import opened Projection

  type Redaction = string -> string

  function Sanitize(redact: Redaction, value: string, maxRunes: int): string {
    BoundedString(redact(value), maxRunes)
  }

  // ---- projectAdvisorInput ----

  function SentProof(e: Evidence, redact: Redaction): Evidence {
    Evidence(Sanitize(redact, e.summary, 500), Sanitize(redact, e.details, 1200), Sanitize(redact, e.sourceId, 200),
             e.observedAt)
  }

  function SentProofs(evidence: seq<Evidence>, redact: Redaction): (r: seq<Evidence>)
    ensures |r| == |evidence| && forall k :: 0 <= k < |r| ==> r[k] == SentProof(evidence[k], redact)
  {
    seq(|evidence|, k requires 0 <= k < |evidence| => SentProof(evidence[k], redact))
  }

  /** Evidence without a usable source id is skipped, and does not count against the cap. */
  function FirstNamed(proofs: seq<Evidence>, room: nat): (r: seq<Evidence>)
    ensures |r| <= room && forall k :: 0 <= k < |r| ==> r[k].sourceId != ""
  {
    if |proofs| == 0 || room == 0 then []
    else if proofs[0].sourceId == "" then FirstNamed(proofs[1..], room)
    else [proofs[0]] + FirstNamed(proofs[1..], room - 1)
  }

  function SentEvidence(evidence: seq<Evidence>, redact: Redaction, room: nat): (r: seq<Evidence>)
    ensures |r| <= room && forall k :: 0 <= k < |r| ==> r[k].sourceId != ""
  {
    FirstNamed(SentProofs(evidence, redact), room)
  }

  function SentResource(r: Resource, redact: Redaction): Resource {
    Resource(Sanitize(redact, r.apiVersion, 120), Sanitize(redact, r.kind, 120),
             Sanitize(redact, r.namespace, 253), Sanitize(redact, r.name, 253))
  }

  function SentResources(resources: seq<Resource>, redact: Redaction): (r: seq<Resource>)
    ensures |r| == Min(|resources|, MAX_RESOURCES)
  {
    seq(Min(|resources|, MAX_RESOURCES), k requires 0 <= k < |resources| => SentResource(resources[k], redact))
  }

  function SentActionOf(a: SentAction, redact: Redaction): SentAction {
    SentAction(Sanitize(redact, a.actionType, 160),
               if a.target.Some? then Some(SentResource(a.target.value, redact)) else None,
               Sanitize(redact, a.description, 700))
  }

  function SentActions(actions: seq<SentAction>, redact: Redaction): (r: seq<SentAction>)
    ensures |r| == Min(|actions|, MAX_ACTIONS)
  {
    seq(Min(|actions|, MAX_ACTIONS), k requires 0 <= k < |actions| => SentActionOf(actions[k], redact))
  }

  function SanitizeAll(values: seq<string>, redact: Redaction, maxRunes: int): (r: seq<string>)
    ensures |r| == |values| && forall k :: 0 <= k < |r| ==> r[k] == Sanitize(redact, values[k], maxRunes)
  {
    seq(|values|, k requires 0 <= k < |values| => Sanitize(redact, values[k], maxRunes))
  }

  function NonEmpty(values: seq<string>): (r: seq<string>)
    ensures |r| <= |values| && forall k :: 0 <= k < |r| ==> r[k] != ""
  {
    if |values| == 0 then []
    else if values[0] == "" then NonEmpty(values[1..])
    else [values[0]] + NonEmpty(values[1..])
  }

  /** The list is cut at its limit before empty texts are dropped. */
  function BoundedSanitizedStrings(values: seq<string>, redact: Redaction, limit: nat, maxRunes: int): (r: seq<string>)
    ensures |r| <= limit && forall k :: 0 <= k < |r| ==> r[k] != ""
  {
    NonEmpty(SanitizeAll(values[..Min(|values|, limit)], redact, maxRunes))
  }

  function SentFindingOf(f: SentFinding, redact: Redaction): SentFinding {
    SentFinding(
      Sanitize(redact, f.id, 200), Sanitize(redact, f.source, 120), Sanitize(redact, f.title, 500),
        Sanitize(redact, f.severity, 30),
      SentEvidence(f.evidence, redact, MAX_EVIDENCE), SentResources(f.resources, redact),
      Sanitize(redact, f.blastRadius, 700), Sanitize(redact, f.fixability, 60), f.riskScore,
        Sanitize(redact, f.recommendedAction, 700))
  }

  function SentPlanOf(p: SentPlan, redact: Redaction): SentPlan {
    SentPlan(
      Sanitize(redact, p.id, 200), Sanitize(redact, p.findingId, 200), Sanitize(redact, p.rootCause, 900),
      SentActions(p.actions, redact), Sanitize(redact, p.riskTier, 20), p.required,
      BoundedSanitizedStrings(p.categories, redact, MAX_STEPS, 200),
      BoundedSanitizedStrings(p.verificationSteps, redact, MAX_STEPS, 500),
      BoundedSanitizedStrings(p.rollbackSteps, redact, MAX_STEPS, 500))
  }

  /** projectAdvisorInput on a finding and plan of any size. */
  function Projected(raw: Input, redact: Redaction): Input {
    Input(SentFindingOf(raw.finding, redact), SentPlanOf(raw.plan, redact))
  }

  // ---- The attempt cap never decides ----

  const MAX_ATTEMPTS := 256

  const MOST_CUTS := 183

  lemma TextIsBounded(redact: Redaction, value: string, maxRunes: nat, cap: nat)
    requires maxRunes > 0 && cap > 0
    ensures TextCuts(Sanitize(redact, value, maxRunes), cap) <= Halvings(maxRunes, cap) + 1
  {
    BoundedStringIsBounded(redact(value), maxRunes);
    FewerHalvings(|Sanitize(redact, value, maxRunes)|, maxRunes, cap);
  }

  lemma CapHalvings()
    ensures Halvings(200, 32) == 3 && Halvings(120, 32) == 2 && Halvings(500, 32) == 4
    ensures Halvings(700, 160) == 3 && Halvings(900, 160) == 3
  {
    assert Halvings(25, 32) == 0 && Halvings(50, 32) == 1 && Halvings(100, 32) == 2;
    assert Halvings(30, 32) == 0 && Halvings(60, 32) == 1;
    assert Halvings(31, 32) == 0 && Halvings(62, 32) == 1 && Halvings(125, 32) == 2 && Halvings(250, 32) == 3;
    assert Halvings(87, 160) == 0 && Halvings(175, 160) == 1 && Halvings(350, 160) == 2;
    assert Halvings(112, 160) == 0 && Halvings(225, 160) == 1 && Halvings(450, 160) == 2;
  }

  lemma NamesAreBounded(raw: Input, redact: Redaction)
    ensures var f, p := Projected(raw, redact).finding, Projected(raw, redact).plan;
            NameCuts(f.id, f.source, f.title, p.id, p.findingId) <= 20
  {
    CapHalvings();
    TextIsBounded(redact, raw.finding.id, 200, 32);
    TextIsBounded(redact, raw.finding.source, 120, 32);
    TextIsBounded(redact, raw.finding.title, 500, 32);
    TextIsBounded(redact, raw.plan.id, 200, 32);
    TextIsBounded(redact, raw.plan.findingId, 200, 32);
  }

  lemma ProseIsBounded(raw: Input, redact: Redaction)
    ensures var f, p := Projected(raw, redact).finding, Projected(raw, redact).plan;
            ProseCuts(f.blastRadius, f.recommendedAction, p.rootCause) <= 12
  {
    CapHalvings();
    TextIsBounded(redact, raw.finding.blastRadius, 700, 160);
    TextIsBounded(redact, raw.finding.recommendedAction, 700, 160);
    TextIsBounded(redact, raw.plan.rootCause, 900, 160);
  }

  lemma ListsAreBounded(raw: Input, redact: Redaction)
    ensures var f, p := Projected(raw, redact).finding, Projected(raw, redact).plan;
            && ListCuts(f.evidence, f.resources) <= 70 && Sum(p.actions, ActionCuts) <= 48
            && StepCuts(p.categories, p.verificationSteps, p.rollbackSteps) <= 30
  {
    EvidenceIsBounded(raw, redact);
    SumBound(Projected(raw, redact).plan.actions, ActionCuts, 4);
  }

  lemma EvidenceIsBounded(raw: Input, redact: Redaction)
    ensures var f := Projected(raw, redact).finding; ListCuts(f.evidence, f.resources) <= 70
  {
    SumBound(Projected(raw, redact).finding.evidence, EvidenceCuts, 3);
    SumBound(Projected(raw, redact).finding.resources, ResourceCuts, 2);
  }

  /** The projection's caps leave at most 183 cuts, well below the cap on attempts. */
  lemma ProjectionIsBounded(raw: Input, redact: Redaction)
    ensures Cuts(Projected(raw, redact)) <= MOST_CUTS
  {
    NamesAreBounded(raw, redact);
    ProseIsBounded(raw, redact);
    ListsAreBounded(raw, redact);
  }

  /** The input and everything repeated cutting makes of it. */
  function Chain(input: Input): (chain: seq<Input>)
    ensures 0 < |chain| <= Cuts(input) + 1 && chain[0] == input
    decreases Cuts(input)
  {
    ShrinkingCutsDown(input);
    var next := Shrunk(input);
    if next.None? then [input] else [input] + Chain(next.value)
  }

  lemma SameCoreThrough(a: Input, b: Input, c: Input)
    requires SameCore(a, b) && SameCore(b, c)
    ensures SameCore(a, c)
  {
    forall k | 0 <= k < |c.finding.evidence|
      ensures c.finding.evidence[k].sourceId == a.finding.evidence[k].sourceId
    {
      assert b.finding.evidence[k].sourceId == a.finding.evidence[k].sourceId;
    }
  }

  lemma {:induction false} ChainKeepsCore(input: Input, k: nat)
    requires k < |Chain(input)|
    ensures SameCore(input, Chain(input)[k])
    decreases Cuts(input)
  {
    if k > 0 {
      var next := Shrunk(input).value;
      ShrinkingCutsDown(input);
      ShrinkingKeepsCore(input);
      ChainKeepsCore(next, k - 1);
      SameCoreThrough(input, next, Chain(next)[k - 1]);
    }
  }

  lemma {:induction false} ChainSteps(input: Input, k: nat)
    requires k < |Chain(input)|
    ensures Shrunk(Chain(input)[k]) == if k + 1 < |Chain(input)| then Some(Chain(input)[k + 1]) else None
    decreases Cuts(input)
  {
    ShrinkingCutsDown(input);
    var next := Shrunk(input);
    if k > 0 { ChainSteps(next.value, k - 1); }
  }

  lemma ChainAt(input: Input, k: nat)
    requires k < |Chain(input)|
    ensures Shrunk(Chain(input)[k]) == if k + 1 < |Chain(input)| then Some(Chain(input)[k + 1]) else None
    ensures SameCore(input, Chain(input)[k])
    ensures k + 1 == |Chain(input)| ==> Chain(input)[k] == Stripped(input)
  {
    ChainSteps(input, k);
    ChainKeepsCore(input, k);
    NothingLeftToCut(Chain(input)[k]);
  }

  // ---- Cutting in place ----

  /** The input as buildRequestBody holds it, cut in place. */
  class Draft {
    var finding: SentFinding
    var plan: SentPlan

    function Value(): Input
      reads this
    {
      Input(finding, plan)
    }

    constructor (input: Input)
      ensures Value() == input
    {
      finding, plan := input.finding, input.plan;
    }

    /** The draft became what this cut makes of it, or there was nothing to cut. */
    twostate predicate Took(ok: bool, cut: Option<Input>)
      reads this
    {
      (ok <==> cut.Some?) && Value() == if ok then cut.value else old(Value())
    }

    method TakeSteps() returns (ok: bool)
      modifies this
      ensures Took(ok, CutSteps(old(Value())))
    {
      ok := true;
      if |plan.rollbackSteps| > 0 {
        plan := plan.(rollbackSteps := plan.rollbackSteps[..|plan.rollbackSteps| - 1]);
      } else if |plan.verificationSteps| > 0 {
        plan := plan.(verificationSteps := plan.verificationSteps[..|plan.verificationSteps| - 1]);
      } else if |plan.categories| > 0 {
        plan := plan.(categories := plan.categories[..|plan.categories| - 1]);
      } else {
        ok := false;
      }
    }

    method TakeDetails() returns (ok: bool)
      modifies this
      ensures Took(ok, CutDetails(old(Value())))
    {
      for i := 0 to |finding.evidence|
        invariant Value() == old(Value()) && forall k :: 0 <= k < i ==> !HasDetails(finding.evidence[k])
      {
        if finding.evidence[i].details != "" {
          finding := finding.(evidence := finding.evidence[i := finding.evidence[i].(details := "")]);
          return true;
        }
      }
      for i := 0 to |plan.actions|
        invariant Value() == old(Value()) && forall k :: 0 <= k < i ==> !HasDescription(plan.actions[k])
      {
        if plan.actions[i].description != "" {
          plan := plan.(actions := plan.actions[i := plan.actions[i].(description := "")]);
          return true;
        }
      }
      ok := false;
    }

    method TakeLongLists() returns (ok: bool)
      modifies this
      ensures Took(ok, CutLongLists(old(Value())))
    {
      ok := true;
      if |finding.resources| > 8 {
        finding := finding.(resources := finding.resources[..|finding.resources| - 1]);
      } else if |finding.evidence| > 4 {
        finding := finding.(evidence := finding.evidence[..|finding.evidence| - 1]);
      } else if |plan.actions| > 8 {
        plan := plan.(actions := plan.actions[..|plan.actions| - 1]);
      } else {
        ok := false;
      }
    }

    method TakeHalvesOfTexts() returns (ok: bool)
      modifies this
      ensures Took(ok, HalveTexts(old(Value())))
    {
      ok := true;
      if |finding.title| > 160 {
        finding := finding.(title := BoundedString(finding.title, |finding.title| / 2));
      } else if |finding.blastRadius| > 160 {
        finding := finding.(blastRadius := BoundedString(finding.blastRadius, |finding.blastRadius| / 2));
      } else if |finding.recommendedAction| > 160 {
        finding := finding.(recommendedAction :=
                            BoundedString(finding.recommendedAction, |finding.recommendedAction| / 2));
      } else if |plan.rootCause| > 160 {
        plan := plan.(rootCause := BoundedString(plan.rootCause, |plan.rootCause| / 2));
      } else {
        ok := false;
      }
    }

    method TakeTexts() returns (ok: bool)
      modifies this
      ensures Took(ok, DropTexts(old(Value())))
    {
      ok := true;
      if finding.recommendedAction != "" {
        finding := finding.(recommendedAction := "");
      } else if finding.blastRadius != "" {
        finding := finding.(blastRadius := "");
      } else if plan.rootCause != "" {
        plan := plan.(rootCause := "");
      } else {
        ok := false;
      }
    }

    method TakeSummaries() returns (ok: bool)
      modifies this
      ensures Took(ok, CutSummaries(old(Value())))
    {
      for i := 0 to |finding.evidence|
        invariant Value() == old(Value()) && forall k :: 0 <= k < i ==> !HasSummary(finding.evidence[k])
      {
        if finding.evidence[i].summary != "" {
          finding := finding.(evidence := finding.evidence[i := finding.evidence[i].(summary := "")]);
          return true;
        }
      }
      ok := TakeApiVersions();
    }

    method TakeApiVersions() returns (ok: bool)
      requires forall k :: 0 <= k < |finding.evidence| ==> !HasSummary(finding.evidence[k])
      modifies this
      ensures Took(ok, CutSummaries(old(Value())))
    {
      for i := 0 to |finding.resources|
        invariant Value() == old(Value()) && forall k :: 0 <= k < i ==> !HasApiVersion(finding.resources[k])
      {
        if finding.resources[i].apiVersion != "" {
          finding := finding.(resources := finding.resources[i := finding.resources[i].(apiVersion := "")]);
          return true;
        }
      }
      for i := 0 to |plan.actions|
        invariant Value() == old(Value()) && forall k :: 0 <= k < i ==> !HasTargetVersion(plan.actions[k])
      {
        var action := plan.actions[i];
        if action.target.Some? && action.target.value.apiVersion != "" {
          plan := plan.(actions := plan.actions[i := action.(target := Some(action.target.value.(apiVersion := "")))]);
          return true;
        }
      }
      ok := false;
    }

    method TakeLists() returns (ok: bool)
      modifies this
      ensures Took(ok, CutLists(old(Value())))
    {
      if |finding.resources| > 0 {
        finding := finding.(resources := finding.resources[..|finding.resources| - 1]);
        return true;
      }
      if |finding.evidence| > 0 {
        finding := finding.(evidence := finding.evidence[..|finding.evidence| - 1]);
        return true;
      }
      for i := 0 to |plan.actions|
        invariant Value() == old(Value()) && forall k :: 0 <= k < i ==> !HasTarget(plan.actions[k])
      {
        if plan.actions[i].target.Some? {
          plan := plan.(actions := plan.actions[i := plan.actions[i].(target := None)]);
          return true;
        }
      }
      if |plan.actions| > 1 {
        plan := plan.(actions := plan.actions[..|plan.actions| - 1]);
        return true;
      }
      ok := false;
    }

    method TakeHalvesOfNames() returns (ok: bool)
      modifies this
      ensures Took(ok, HalveNames(old(Value())))
    {
      ok := true;
      if |finding.id| > 32 {
        finding := finding.(id := BoundedString(finding.id, |finding.id| / 2));
      } else if |finding.source| > 32 {
        finding := finding.(source := BoundedString(finding.source, |finding.source| / 2));
      } else if |finding.title| > 32 {
        finding := finding.(title := BoundedString(finding.title, |finding.title| / 2));
      } else if |plan.id| > 32 {
        plan := plan.(id := BoundedString(plan.id, |plan.id| / 2));
      } else if |plan.findingId| > 32 {
        plan := plan.(findingId := BoundedString(plan.findingId, |plan.findingId| / 2));
      } else {
        ok := false;
      }
    }

    method TakeNames() returns (ok: bool)
      modifies this
      ensures Took(ok, DropNames(old(Value())))
    {
      ok := true;
      if finding.title != "" {
        finding := finding.(title := "");
      } else if finding.source != "" {
        finding := finding.(source := "");
      } else if finding.id != "" {
        finding := finding.(id := "");
      } else if plan.findingId != "" {
        plan := plan.(findingId := "");
      } else if plan.id != "" {
        plan := plan.(id := "");
      } else if finding.severity != "" {
        finding := finding.(severity := "");
      } else if finding.fixability != "" {
        finding := finding.(fixability := "");
      } else if plan.riskTier != "" {
        plan := plan.(riskTier := "");
      } else if |plan.actions| > 0 {
        plan := plan.(actions := []);
      } else {
        ok := false;
      }
    }

    /** shrinkProjectedInput: make the next cut in place, or report that nothing is left. */
    method ShrinkProjectedInput() returns (ok: bool)
      modifies this
      ensures Took(ok, Shrunk(old(Value())))
    {
      ok := TakeSteps();
      if ok { return; }
      ok := TakeDetails();
      if ok { return; }
      ok := TakeLongLists();
      if ok { return; }
      ok := TakeHalvesOfTexts();
      if ok { return; }
      ok := TakeTexts();
      if ok { return; }
      ok := TakeSummaries();
      if ok { return; }
      ok := TakeLists();
      if ok { return; }
      ok := TakeHalvesOfNames();
      if ok { return; }
      ok := TakeNames();
    }
  }

  // ---- buildRequestBody ----

  datatype Request = Request(sent: Input, evidenceIds: set<string>, allowedActions: set<string>)

  function EvidenceIds(input: Input): set<string> {
    set k | 0 <= k < |input.finding.evidence| && Trim(input.finding.evidence[k].sourceId) != "" ::
      Trim(input.finding.evidence[k].sourceId)
  }

  function AllowedActions(raw: Input): set<string> {
    set k | 0 <= k < |raw.plan.actions| && Trim(raw.plan.actions[k].actionType) != "" ::
      Trim(raw.plan.actions[k].actionType)
  }

  /** `r` is the first in the chain whose body fits, if any does. */
  ghost predicate FirstFit(chain: seq<Input>, size: Input -> int, maxBytes: int, r: Option<Input>) {
    match r
    case Some(sent) =>
      exists k: nat ::
        FitsAt(chain, size, maxBytes, k) && chain[k] == sent && NoneBefore(chain, size, maxBytes, k)
    case None => NoneBefore(chain, size, maxBytes, |chain|)
  }

  predicate FitsAt(chain: seq<Input>, size: Input -> int, maxBytes: int, k: nat) {
    k < |chain| && size(chain[k]) <= maxBytes
  }

  predicate NoneBefore(chain: seq<Input>, size: Input -> int, maxBytes: int, k: nat) {
    forall j: nat :: j < k ==> !FitsAt(chain, size, maxBytes, j)
  }

  predicate Link(chain: seq<Input>, k: nat) {
    k < |chain| ==> Shrunk(chain[k]) == if k + 1 < |chain| then Some(chain[k + 1]) else None
  }

  /** Each element is what one cut makes of the one before, and the last allows no cut. */
  ghost predicate Linked(chain: seq<Input>) {
    |chain| > 0 && forall k: nat :: Link(chain, k)
  }

  lemma ChainIsLinked(input: Input)
    ensures Linked(Chain(input))
  {
    forall k: nat ensures Link(Chain(input), k) {
      if k < |Chain(input)| { ChainAt(input, k); }
    }
  }

  /** The loop. With fewer possible cuts than attempts, the cap on attempts never decides the outcome. */
  method CutUntilFits(draft: Draft, ghost chain: seq<Input>, size: Input -> int, maxBytes: int)
    returns (sent: Option<Input>)
    requires Linked(chain) && |chain| < MAX_ATTEMPTS && draft.Value() == chain[0]
    modifies draft
    ensures FirstFit(chain, size, maxBytes, sent)
  {
    for attempts: nat := 0 to MAX_ATTEMPTS
      invariant attempts < |chain| && draft.Value() == chain[attempts]
      invariant NoneBefore(chain, size, maxBytes, attempts)
    {
      var current := draft.Value();
      if size(current) <= maxBytes {
        assert FitsAt(chain, size, maxBytes, attempts);
        return Some(current);
      }
      assert Link(chain, attempts);
      var more := draft.ShrinkProjectedInput();
      if !more { return None; }
    }
    assert false;
  }

  /**
   * Sends the first of the input's successive cuts whose body fits; `size` is the length of the body made from an
   * input. Failure means that nothing fits, not even the fully stripped input.
   */
  method BuildRequestBody(raw: Input, redact: Redaction, size: Input -> int, maxBytes: int) returns (r: Option<Request>)
    ensures FirstFit(Chain(Projected(raw, redact)), size, maxBytes, if r.Some? then Some(r.value.sent) else None)
    ensures r.Some? ==> size(r.value.sent) <= maxBytes
    ensures r.Some? ==> r.value.evidenceIds == EvidenceIds(r.value.sent)
    ensures r.Some? ==> r.value.allowedActions == AllowedActions(raw)
    ensures r.Some? ==> forall id :: id in r.value.evidenceIds <==>
              id != "" && exists k :: 0 <= k < |r.value.sent.finding.evidence|
                                      && Trim(r.value.sent.finding.evidence[k].sourceId) == id
    ensures r.Some? ==> forall action :: action in r.value.allowedActions <==>
              action != "" && exists k :: 0 <= k < |raw.plan.actions| && Trim(raw.plan.actions[k].actionType) == action
    ensures r.None? ==> size(Stripped(Projected(raw, redact))) > maxBytes
  {
    var projected := Projected(raw, redact);
    ProjectionIsBounded(raw, redact);
    ChainIsLinked(projected);
    var draft := new Draft(projected);
    var sent := CutUntilFits(draft, Chain(projected), size, maxBytes);
    if sent.None? {
      StrippedIsTried(projected, size, maxBytes);
      return None;
    }
    r := Some(Request(sent.value, EvidenceIds(sent.value), AllowedActions(raw)));
  }

  lemma StrippedIsTried(projected: Input, size: Input -> int, maxBytes: int)
    requires FirstFit(Chain(projected), size, maxBytes, None)
    ensures size(Stripped(projected)) > maxBytes
  {
    var last := |Chain(projected)| - 1;
    ChainAt(projected, last);
    assert !FitsAt(Chain(projected), size, maxBytes, last);
  }

  /** Cutting never makes evidence ids up: what remains names only evidence of the input that was cut. */
  lemma CutsKeepIds(input: Input, k: nat)
    requires k < |Chain(input)|
    ensures EvidenceIds(Chain(input)[k]) <= EvidenceIds(input)
  {
    ChainAt(input, k);
    SameCoreKeepsIds(input, Chain(input)[k]);
  }

  lemma SameCoreKeepsIds(input: Input, sent: Input)
    requires SameCore(input, sent)
    ensures EvidenceIds(sent) <= EvidenceIds(input)
  {
    forall id | id in EvidenceIds(sent) ensures id in EvidenceIds(input) {
      var i :| 0 <= i < |sent.finding.evidence| && Trim(sent.finding.evidence[i].sourceId) == id && id != "";
      assert Trim(input.finding.evidence[i].sourceId) == id;
    }
  }

  // ---- Provider output ----

  datatype Output = Output(
    summary: string, rootCause: string, impact: string, recommendedAction: string, confidence: string,
    safetyNotes: seq<string>, evidenceSourceIds: seq<string>)

  predicate CitesSent(ids: seq<string>, evidenceIds: set<string>) {
    forall k :: 0 <= k < |ids| ==> Trim(ids[k]) != "" && Trim(ids[k]) in evidenceIds
  }

  /** What a provider must return. */
  predicate Acceptable(output: Output, allowedActions: set<string>, evidenceIds: set<string>) {
    && Trim(output.summary) != "" && Trim(output.rootCause) != "" && Trim(output.impact) != ""
    && Trim(output.recommendedAction) != "" && Trim(output.confidence) != ""
    && (Trim(output.recommendedAction) == "human_review" || Trim(output.recommendedAction) in allowedActions)
    && Lower(Trim(output.confidence)) in {"low", "medium", "high"}
    && CitesSent(output.evidenceSourceIds, evidenceIds)
    && (evidenceIds != {} ==> |output.evidenceSourceIds| > 0)
  }

  function Cited(ids: seq<string>): set<string> {
    set k | 0 <= k < |ids| :: Trim(ids[k])
  }

  predicate Distinct(s: seq<string>) {
    forall i, j :: 0 <= i < j < |s| ==> s[i] != s[j]
  }

  ghost predicate Lists(citations: seq<string>, ids: seq<string>) {
    Distinct(citations) && forall id :: id in citations <==> id in Cited(ids)
  }

  lemma CitedGrows(ids: seq<string>, k: nat)
    requires k < |ids|
    ensures Cited(ids[..k + 1]) == Cited(ids[..k]) + {Trim(ids[k])}
  {
    var shorter, longer := ids[..k], ids[..k + 1];
    assert longer[k] == ids[k];
    forall id | id in Cited(longer) ensures id in Cited(shorter) + {Trim(ids[k])} {
      var j :| 0 <= j < |longer| && Trim(longer[j]) == id;
      if j < k { assert shorter[j] == longer[j]; }
    }
    forall id | id in Cited(shorter) ensures id in Cited(longer) {
      var j :| 0 <= j < |shorter| && Trim(shorter[j]) == id;
      assert longer[j] == shorter[j];
    }
  }

  /** The citations of one output: each trimmed id once, or a refusal as soon as one was not sent. */
  method CollectCitations(ids: seq<string>, evidenceIds: set<string>) returns (r: Option<seq<string>>)
    ensures r.Some? <==> CitesSent(ids, evidenceIds)
    ensures r.Some? ==> Lists(r.value, ids)
  {
    var citations: seq<string> := [];
    for k := 0 to |ids|
      invariant forall j :: 0 <= j < k ==> Trim(ids[j]) != "" && Trim(ids[j]) in evidenceIds
      invariant Lists(citations, ids[..k])
    {
      var id := Trim(ids[k]);
      if id == "" || id !in evidenceIds { return None; }
      CitedGrows(ids, k);
      if id !in citations { citations := citations + [id]; }
    }
    assert ids[..|ids|] == ids;
    r := Some(citations);
  }

  lemma SortingKeepsList(citations: seq<string>, ids: seq<string>)
    requires Lists(citations, ids)
    ensures Lists(SortStrings(citations), ids) && SortedStrings(SortStrings(citations))
  {
    SortStringsSorts(citations);
    var sorted := SortStrings(citations);
    forall id ensures id in sorted <==> id in citations {
      assert id in multiset(sorted) <==> id in multiset(citations);
    }
    DistinctCounts(citations);
    forall i, j | 0 <= i < j < |sorted| ensures sorted[i] != sorted[j] {
      if sorted[i] == sorted[j] { TwiceCounted(sorted, i, j); }
    }
  }

  lemma {:induction false} DistinctCounts(s: seq<string>)
    requires Distinct(s)
    ensures forall x :: multiset(s)[x] <= 1
  {
    if |s| > 0 {
      var init, last := s[..|s| - 1], s[|s| - 1];
      DistinctCounts(init);
      assert s == init + [last];
      assert last !in init;
      assert multiset(init)[last] == 0;
    }
  }

  lemma TwiceCounted(s: seq<string>, i: nat, j: nat)
    requires i < j < |s| && s[i] == s[j]
    ensures multiset(s)[s[i]] >= 2
  {
    assert s == s[..j] + s[j..];
    assert s[i] in multiset(s[..j]) by { assert s[..j][i] == s[i]; }
    assert s[i] in multiset(s[j..]) by { assert s[j..][0] == s[i]; }
  }

  /**
   * validateProviderOutput accepts exactly the acceptable outputs, and returns the cited ids once each, sorted: all of
   * them source ids of evidence in the body that was sent.
   */
  method ValidateProviderOutput(output: Output, allowedActions: set<string>, evidenceIds: set<string>)
    returns (r: Option<(string, seq<string>)>)
    ensures r.Some? <==> Acceptable(output, allowedActions, evidenceIds)
    ensures r.Some? ==> r.value.0 == Lower(Trim(output.confidence))
    ensures r.Some? ==> Lists(r.value.1, output.evidenceSourceIds) && SortedStrings(r.value.1)
    ensures r.Some? ==> forall id :: id in r.value.1 ==> id in evidenceIds
  {
    if Trim(output.summary) == "" || Trim(output.rootCause) == "" || Trim(output.impact) == ""
       || Trim(output.recommendedAction) == "" || Trim(output.confidence) == "" {
      return None;
    }
    var recommended := Trim(output.recommendedAction);
    if recommended != "human_review" && recommended !in allowedActions { return None; }
    var confidence := Lower(Trim(output.confidence));
    if confidence != "low" && confidence != "medium" && confidence != "high" { return None; }
    var citations := CollectCitations(output.evidenceSourceIds, evidenceIds);
    if citations.None? { return None; }
    NothingCited(citations.value, output.evidenceSourceIds);
    if evidenceIds != {} && |citations.value| == 0 { return None; }
    SortingKeepsList(citations.value, output.evidenceSourceIds);
    r := Some((confidence, SortStrings(citations.value)));
  }

  /** The last check, citations without any evidence sent, can never fire: an earlier one refuses every id. */
  lemma NoEvidenceNoCitations(ids: seq<string>)
    ensures CitesSent(ids, {}) <==> |ids| == 0
  {
    if |ids| > 0 { assert Trim(ids[0]) !in {}; }
  }

  lemma NothingCited(citations: seq<string>, ids: seq<string>)
    requires Lists(citations, ids)
    ensures |citations| == 0 <==> |ids| == 0
  {
    if |ids| > 0 { assert Trim(ids[0]) in Cited(ids); }
    if |citations| > 0 { assert citations[0] in Cited(ids); }
  }
}
