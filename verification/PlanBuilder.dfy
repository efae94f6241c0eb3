/** How a finding becomes a plan: the typed actions, their risk tier and the approval they need. */
module PlanBuilder {
  import opened Basics
  import opened Catalog

  /** The parts of a finding that the plan builder reads. */
  datatype Finding = Finding(
    id: string, source: string, title: string, blastRadius: string, recommendedAction: string,
    humanOnly: bool, identityKey: string, resources: seq<Ref>)

  datatype Decision = Pending | Approved | Rejected

  datatype ApprovalPolicy = ApprovalPolicy(required: bool, decision: Decision, categories: seq<ActionType>)

  function LowerChar(c: char): char {
    if 'A' <= c <= 'Z' then c - 'A' + 'a' else c
  }

  function Lower(s: string): string {
    seq(|s|, k requires 0 <= k < |s| => LowerChar(s[k]))
  }

  predicate OccursAt(text: string, part: string, k: nat) {
    k + |part| <= |text| && text[k..k + |part|] == part
  }

  predicate Contains(text: string, part: string) {
    exists k: nat :: k <= |text| && OccursAt(text, part, k)
  }

  predicate Mentions(text: string, parts: seq<string>) {
    exists k :: 0 <= k < |parts| && Contains(text, parts[k])
  }

  predicate HasPrefix(text: string, prefix: string) {
    prefix <= text
  }

  function NamespaceTarget(target: Ref): Ref {
    if target.kind == Namespace then Ref(V1, Namespace, "", target.name)
    else if target.namespace != "" then Ref(V1, Namespace, "", target.namespace)
    else target
  }

  predicate IsWorkloadTarget(target: Ref) {
    target.apiVersion == AppsV1 && IsWorkloadKind(target.kind)
  }

  datatype Candidate = Candidate(wanted: bool, action: Action)

  const DRY_RUN := OtherParam("dryRun")

  const MANAGED := "managed-resource:"

  function ManagementSystemOf(identityKey: string): string {
    var system := if HasPrefix(identityKey, MANAGED) then identityKey[|MANAGED|..] else identityKey;
    if system == "" then "unknown" else system
  }

  function PlanTarget(finding: Finding): Ref {
    if |finding.resources| > 0 then finding.resources[0] else Ref(V1, Namespace, "", "default")
  }

  function FindingText(finding: Finding): string {
    Lower(finding.id + " " + finding.title + " " + finding.blastRadius + " " + finding.recommendedAction)
  }

  function GovernanceAction(target: Ref): Action {
    Action(ApplyResourceGovernance, NamespaceTarget(target),
           map[OtherParam("quotaProfile") := "team-defaults", DRY_RUN := "required"])
  }

  function PodSecurityAction(target: Ref): Action {
    Action(PatchPodSecurityLabels, NamespaceTarget(target),
           map[Enforce := "baseline", Audit := "restricted", DRY_RUN := "required"])
  }

  function ProbesAction(target: Ref): Action {
    Action(PatchWorkloadProbes, target, map[Configured := "false", DRY_RUN := "required"])
  }

  function ResourcesAction(target: Ref): Action {
    Action(PatchWorkloadResources, target,
           map[CpuRequest := "100m", MemoryRequest := "128Mi", CpuLimit := "500m", MemoryLimit := "512Mi",
               DRY_RUN := "required"])
  }

  function PdbAction(target: Ref): Action {
    Action(CreatePdb, target, map[MinAvailable := "1", DRY_RUN := "required"])
  }

  function NetworkAction(target: Ref): Action {
    Action(ProposeNetworkPolicy, NamespaceTarget(target),
           map[OtherParam("mode") := "proposal", OtherParam("requiresApproval") := "true"])
  }

  function ReviewAction(finding: Finding): Action {
    Action(ReviewManagedResource, PlanTarget(finding),
           map[FindingId := finding.id, ManagementSystem := ManagementSystemOf(finding.identityKey),
               SourceOfTruth := "owning Kubernetes controller resource or upstream GitOps repository"])
  }

  function FallbackAction(finding: Finding): Action {
    Action(if finding.humanOnly then ProposeSecurityHardening else ExplainOnly, PlanTarget(finding),
           map[FindingId := finding.id, DRY_RUN := "required"])
  }

  function Candidates(text: string, target: Ref): seq<Candidate> {
    [Candidate(Mentions(text, ["resourcequota", "limitrange", "resource governance", "resources"]),
               GovernanceAction(target)),
     Candidate(Mentions(text, ["pod security", "privileged pod security"]), PodSecurityAction(target)),
     Candidate(IsWorkloadTarget(target) && Mentions(text, ["readiness", "liveness", "probe"]), ProbesAction(target)),
     Candidate(IsWorkloadTarget(target) && Mentions(text, ["requests", "limits", "mutable image"]),
               ResourcesAction(target)),
     Candidate(IsWorkloadTarget(target) && Mentions(text, ["pdb", "poddisruptionbudget", "disruption"]),
               PdbAction(target)),
     Candidate(Mentions(text, ["networkpolicy", "loadbalancer", "nodeport", "externalip", "ingress"]),
               NetworkAction(target))]
  }

  function Chosen(candidates: seq<Candidate>): seq<Action> {
    if |candidates| == 0 then []
    else if candidates[0].wanted then [candidates[0].action] + Chosen(candidates[1..])
    else Chosen(candidates[1..])
  }

  predicate FromManagedResource(finding: Finding) {
    HasPrefix(Lower(finding.source), "managed-resource")
    || Contains(FindingText(finding), "kubernetes-managed external resource")
  }

  function TypedActionsForFinding(finding: Finding): seq<Action> {
    if FromManagedResource(finding) then [ReviewAction(finding)]
    else
      var matched := Chosen(Candidates(FindingText(finding), PlanTarget(finding)));
      Dedupe(if |matched| == 0 then [FallbackAction(finding)] else matched, {})
  }

  /** Two actions are duplicates when their type and their target's kind, namespace and name agree. */
  function DedupeKey(action: Action): (ActionType, Kind, string, string) {
    (action.kind, action.target.kind, action.target.namespace, action.target.name)
  }

  function Dedupe(actions: seq<Action>, seen: set<(ActionType, Kind, string, string)>): seq<Action> {
    if |actions| == 0 then []
    else if DedupeKey(actions[0]) in seen then Dedupe(actions[1..], seen)
    else [actions[0]] + Dedupe(actions[1..], seen + {DedupeKey(actions[0])})
  }

  function TierRank(tier: RiskTier): nat {
    match tier case TierA => 1 case TierB => 2 case TierC => 3 case TierD => 4
  }

  function RiskTierForActions(actions: seq<Action>): RiskTier {
    if |actions| == 0 then TierA
    else
      var before := RiskTierForActions(actions[..|actions| - 1]);
      match ValidateProposal(actions[|actions| - 1])
      case Err(_) => TierD
      case Ok(definition) => if TierRank(definition.tier) > TierRank(before) then definition.tier else before
  }

  predicate NeedsApproval(action: Action) {
    match ValidateProposal(action) case Err(_) => true case Ok(definition) => definition.approvalRequired
  }

  function ApprovalPolicyForActions(actions: seq<Action>): ApprovalPolicy {
    if |actions| == 0 then ApprovalPolicy(false, Approved, [])
    else
      var last := actions[|actions| - 1];
      var before := ApprovalPolicyForActions(actions[..|actions| - 1]);
      ApprovalPolicy(before.required || NeedsApproval(last), if NeedsApproval(last) then Pending else before.decision,
                     before.categories + [last.kind])
  }

  // ---- What a built plan guarantees ----

  predicate DistinctTypes(actions: seq<Action>) {
    forall i, j :: 0 <= i < j < |actions| ==> actions[i].kind != actions[j].kind
  }

  /** No earlier action, and nothing seen before, has this action's key. */
  predicate IsFirst(actions: seq<Action>, seen: set<(ActionType, Kind, string, string)>, j: nat)
    requires j < |actions|
  {
    DedupeKey(actions[j]) !in seen && forall i :: 0 <= i < j ==> DedupeKey(actions[i]) != DedupeKey(actions[j])
  }

  function Shift(at: seq<nat>): (r: seq<nat>)
    ensures |r| == |at| && forall i :: 0 <= i < |at| ==> r[i] == at[i] + 1
  {
    seq(|at|, i requires 0 <= i < |at| => at[i] + 1)
  }

  lemma ShiftedMember(head: seq<nat>, later: seq<nat>, j: nat)
    requires head == [] || head == [0]
    ensures j in head + Shift(later) <==> if j == 0 then head == [0] else j - 1 in later
  {
    if j > 0 && j - 1 in later {
      var k :| 0 <= k < |later| && later[k] == j - 1;
      assert Shift(later)[k] == j;
    }
    if j in Shift(later) {
      var k :| 0 <= k < |later| && Shift(later)[k] == j;
      assert later[k] == j - 1;
    }
  }

  lemma FirstsOfRest(actions: seq<Action>, seen: set<(ActionType, Kind, string, string)>, j: nat)
    requires 0 < j < |actions|
    ensures IsFirst(actions, seen, j) <==> IsFirst(actions[1..], seen + {DedupeKey(actions[0])}, j - 1)
  {
    var rest := actions[1..];
    if IsFirst(rest, seen + {DedupeKey(actions[0])}, j - 1) {
      forall i | 0 <= i < j ensures DedupeKey(actions[i]) != DedupeKey(actions[j]) {
        if i > 0 { assert actions[i] == rest[i - 1]; }
      }
    }
  }

  /** The positions of the first action of each key. */
  function Firsts(actions: seq<Action>, seen: set<(ActionType, Kind, string, string)>): (at: seq<nat>) {
    if |actions| == 0 then []
    else
      (if DedupeKey(actions[0]) in seen then [] else [0]) + Shift(Firsts(actions[1..], seen + {DedupeKey(actions[0])}))
  }

  lemma {:induction false} FirstsMeaning(actions: seq<Action>, seen: set<(ActionType, Kind, string, string)>, j: nat)
    requires j < |actions|
    ensures j in Firsts(actions, seen) <==> IsFirst(actions, seen, j)
  {
    var seen' := seen + {DedupeKey(actions[0])};
    ShiftedMember(if DedupeKey(actions[0]) in seen then [] else [0], Firsts(actions[1..], seen'), j);
    if j > 0 {
      FirstsOfRest(actions, seen, j);
      FirstsMeaning(actions[1..], seen', j - 1);
    }
  }

  lemma {:induction false} FirstsAreKept(actions: seq<Action>, seen: set<(ActionType, Kind, string, string)>)
    ensures var at, kept := Firsts(actions, seen), Dedupe(actions, seen);
            && |at| == |kept| && (forall i :: 0 <= i < |at| ==> at[i] < |actions| && kept[i] == actions[at[i]])
            && (forall i, j :: 0 <= i < j < |at| ==> at[i] < at[j])
  {
    if |actions| > 0 {
      if DedupeKey(actions[0]) in seen { assert seen + {DedupeKey(actions[0])} == seen; }
      FirstsAreKept(actions[1..], seen + {DedupeKey(actions[0])});
    }
  }

  /** For every list: deduplication keeps exactly the first action of each key, in the order of the list. */
  lemma DedupeKeepsFirsts(actions: seq<Action>, seen: set<(ActionType, Kind, string, string)>) returns (at: seq<nat>)
    ensures |at| == |Dedupe(actions, seen)|
    ensures forall i :: 0 <= i < |at| ==> at[i] < |actions| && Dedupe(actions, seen)[i] == actions[at[i]]
    ensures forall i, j :: 0 <= i < j < |at| ==> at[i] < at[j]
    ensures forall j: nat :: j < |actions| ==> (j in at <==> IsFirst(actions, seen, j))
  {
    at := Firsts(actions, seen);
    FirstsAreKept(actions, seen);
    forall j: nat | j < |actions| ensures j in at <==> IsFirst(actions, seen, j) { FirstsMeaning(actions, seen, j); }
  }

  /** So no two kept actions share a key, and every key that was not seen before is kept. */
  lemma DedupeKeepsKeys(actions: seq<Action>, seen: set<(ActionType, Kind, string, string)>)
    ensures var kept := Dedupe(actions, seen);
            && (forall i, j :: 0 <= i < j < |kept| ==> DedupeKey(kept[i]) != DedupeKey(kept[j]))
            && (forall a :: a in actions && DedupeKey(a) !in seen ==>
                exists b :: b in kept && DedupeKey(b) == DedupeKey(a))
            && (forall b :: b in kept ==> b in actions && DedupeKey(b) !in seen)
  {
    var kept := Dedupe(actions, seen);
    var at := DedupeKeepsFirsts(actions, seen);
    forall i, j | 0 <= i < j < |kept| ensures DedupeKey(kept[i]) != DedupeKey(kept[j]) {
      assert at[j] in at && IsFirst(actions, seen, at[j]);
    }
    forall b | b in kept ensures b in actions && DedupeKey(b) !in seen {
      var i :| 0 <= i < |kept| && kept[i] == b;
      assert at[i] in at && IsFirst(actions, seen, at[i]);
    }
    forall a | a in actions && DedupeKey(a) !in seen ensures exists b :: b in kept && DedupeKey(b) == DedupeKey(a) {
      var j :| 0 <= j < |actions| && actions[j] == a;
      var f := FirstOfKey(actions, j);
      assert IsFirst(actions, seen, f);
      var i :| 0 <= i < |at| && at[i] == f;
      assert kept[i] in kept;
    }
  }

  lemma {:induction false} FirstOfKey(actions: seq<Action>, j: nat) returns (f: nat)
    requires j < |actions|
    ensures f <= j && DedupeKey(actions[f]) == DedupeKey(actions[j]) && IsFirst(actions, {}, f)
    decreases j
  {
    f := j;
    if i :| 0 <= i < j && DedupeKey(actions[i]) == DedupeKey(actions[j]) { f := FirstOfKey(actions, i); }
  }

  lemma DedupeKeepsTypes(actions: seq<Action>)
    requires DistinctTypes(actions)
    ensures DistinctTypes(Dedupe(actions, {})) && forall a :: a in Dedupe(actions, {}) ==> a in actions
  {
    var at := DedupeKeepsFirsts(actions, {});
    forall a | a in Dedupe(actions, {}) ensures a in actions {
      var i :| 0 <= i < |at| && Dedupe(actions, {})[i] == a;
    }
  }

  predicate DistinctCandidates(candidates: seq<Candidate>) {
    forall i, j :: 0 <= i < j < |candidates| ==> candidates[i].action.kind != candidates[j].action.kind
  }

  lemma {:induction false} ChosenCome(candidates: seq<Candidate>)
    requires DistinctCandidates(candidates)
    ensures DistinctTypes(Chosen(candidates))
    ensures forall a :: a in Chosen(candidates) ==> exists k :: 0 <= k < |candidates| && candidates[k].action == a
  {
    if |candidates| > 0 {
      var rest := candidates[1..];
      ChosenCome(rest);
      forall a | a in Chosen(candidates) ensures exists k :: 0 <= k < |candidates| && candidates[k].action == a {
        if a in Chosen(rest) {
          var k :| 0 <= k < |rest| && rest[k].action == a;
          assert candidates[k + 1].action == a;
        } else {
          assert candidates[0].action == a;
        }
      }
      forall j | 0 <= j < |Chosen(rest)| ensures Chosen(rest)[j].kind != candidates[0].action.kind {
        assert Chosen(rest)[j] in Chosen(rest);
        var k :| 0 <= k < |rest| && rest[k].action == Chosen(rest)[j];
        assert candidates[k + 1] == rest[k];
      }
    }
  }

  predicate ProbesOff(action: Action) {
    action.kind.PatchWorkloadProbes? ==> ParamOf(action, Configured) == "false"
  }

  predicate WellBuilt(actions: seq<Action>) {
    DistinctTypes(actions) && forall k :: 0 <= k < |actions| ==> ProbesOff(actions[k])
  }

  lemma CandidatesDiffer(text: string, target: Ref)
    ensures DistinctCandidates(Candidates(text, target))
    ensures forall k :: 0 <= k < |Candidates(text, target)| ==> ProbesOff(Candidates(text, target)[k].action)
  {}

  lemma ChosenAreWellBuilt(candidates: seq<Candidate>)
    requires DistinctCandidates(candidates) && forall k :: 0 <= k < |candidates| ==> ProbesOff(candidates[k].action)
    ensures WellBuilt(Chosen(candidates)) && WellBuilt(Dedupe(Chosen(candidates), {}))
  {
    ChosenCome(candidates);
    forall k | 0 <= k < |Chosen(candidates)| ensures ProbesOff(Chosen(candidates)[k]) {
      assert Chosen(candidates)[k] in Chosen(candidates);
    }
    DedupeKeepsTypes(Chosen(candidates));
    forall k | 0 <= k < |Dedupe(Chosen(candidates), {})| ensures ProbesOff(Dedupe(Chosen(candidates), {})[k]) {
      assert Dedupe(Chosen(candidates), {})[k] in Dedupe(Chosen(candidates), {});
    }
  }

  lemma FallbackIsWellBuilt(finding: Finding)
    ensures WellBuilt([FallbackAction(finding)]) && WellBuilt([ReviewAction(finding)])
    ensures Dedupe([FallbackAction(finding)], {}) == [FallbackAction(finding)]
  {}

  /** No plan carries two actions of one type, and no built plan configures probes. */
  lemma BuiltPlans(finding: Finding)
    ensures WellBuilt(TypedActionsForFinding(finding))
  {
    FallbackIsWellBuilt(finding);
    CandidatesDiffer(FindingText(finding), PlanTarget(finding));
    ChosenAreWellBuilt(Candidates(FindingText(finding), PlanTarget(finding)));
  }

  /** A plan skips the approval gate exactly when it holds nothing but valid tier-A governance actions. */
  lemma {:induction false} ApprovalIsSkippedOnlyForGovernance(actions: seq<Action>)
    ensures var policy := ApprovalPolicyForActions(actions);
            && (policy.decision == if policy.required then Pending else Approved)
            && (!policy.required <==> forall k :: 0 <= k < |actions| ==>
                  actions[k].kind.ApplyResourceGovernance? && ValidateProposal(actions[k]).Ok?)
            && (!policy.required ==> RiskTierForActions(actions) == TierA)
  {
    if |actions| > 0 {
      var last := actions[|actions| - 1];
      ApprovalIsSkippedOnlyForGovernance(actions[..|actions| - 1]);
      assert !NeedsApproval(last) <==> last.kind.ApplyResourceGovernance? && ValidateProposal(last).Ok?;
    }
  }
}
