/** Which actions a built plan holds, told from the finding's words and its first resource alone. */
module PlanMeaning {
  import opened Basics
  import opened Catalog
  import opened PlanBuilder

  // ---- The finding's words ----

  /** The letter itself, or its upper-case form. */
  predicate Reads(c: char, letter: char) {
    c == letter || ('A' <= c <= 'Z' && 'a' <= letter <= 'z' && c - 'A' == letter - 'a')
  }

  predicate ReadsAt(text: string, word: string, k: nat) {
    k + |word| <= |text| && forall i :: 0 <= i < |word| ==> Reads(text[k + i], word[i])
  }

  function Words(f: Finding): string {
    f.id + " " + f.title + " " + f.blastRadius + " " + f.recommendedAction
  }

  /** The word occurs in the finding's id, title, blast radius or recommended action, in either case. */
  ghost predicate Says(f: Finding, word: string) {
    exists k: nat :: ReadsAt(Words(f), word, k)
  }

  predicate IsLower(word: string) {
    forall i :: 0 <= i < |word| ==> !('A' <= word[i] <= 'Z')
  }

  lemma LoweredReads(c: char, letter: char)
    requires !('A' <= letter <= 'Z')
    ensures LowerChar(c) == letter <==> Reads(c, letter)
  {}

  lemma LoweredReadsAt(text: string, word: string, k: nat)
    requires IsLower(word)
    ensures OccursAt(Lower(text), word, k) <==> ReadsAt(text, word, k)
  {
    if k + |word| <= |text| {
      forall i | 0 <= i < |word| ensures Lower(text)[k + i] == word[i] <==> Reads(text[k + i], word[i]) {
        LoweredReads(text[k + i], word[i]);
      }
      if OccursAt(Lower(text), word, k) {
        forall i | 0 <= i < |word| ensures Reads(text[k + i], word[i]) {
          assert Lower(text)[k + i] == Lower(text)[k..k + |word|][i];
        }
      }
    }
  }

  lemma SaysIff(f: Finding, word: string)
    requires IsLower(word)
    ensures Contains(FindingText(f), word) <==> Says(f, word)
  {
    assert FindingText(f) == Lower(Words(f));
    if Contains(FindingText(f), word) {
      var k: nat :| k <= |FindingText(f)| && OccursAt(FindingText(f), word, k);
      LoweredReadsAt(Words(f), word, k);
    }
    if Says(f, word) {
      var k: nat :| ReadsAt(Words(f), word, k);
      LoweredReadsAt(Words(f), word, k);
    }
  }

  ghost predicate SaysOneOf(f: Finding, words: seq<string>) {
    exists k :: 0 <= k < |words| && Says(f, words[k])
  }

  lemma MentionsIff(f: Finding, words: seq<string>)
    requires forall k :: 0 <= k < |words| ==> IsLower(words[k])
    ensures Mentions(FindingText(f), words) <==> SaysOneOf(f, words)
  {
    forall k | 0 <= k < |words| ensures Contains(FindingText(f), words[k]) <==> Says(f, words[k]) {
      SaysIff(f, words[k]);
    }
  }

  // ---- When each type is wanted ----

  ghost predicate Managed(f: Finding) {
    ReadsAt(f.source, "managed-resource", 0) || Says(f, "kubernetes-managed external resource")
  }

  ghost predicate WantsGovernance(f: Finding) {
    Says(f, "resourcequota") || Says(f, "limitrange") || Says(f, "resource governance") || Says(f, "resources")
  }

  ghost predicate WantsPodSecurity(f: Finding) {
    Says(f, "pod security")
  }

  predicate AboutWorkload(f: Finding) {
    && |f.resources| > 0 && f.resources[0].apiVersion == AppsV1
    && f.resources[0].kind in {Deployment, StatefulSet, DaemonSet}
  }

  ghost predicate WantsProbes(f: Finding) {
    AboutWorkload(f) && (Says(f, "readiness") || Says(f, "liveness") || Says(f, "probe"))
  }

  ghost predicate WantsResources(f: Finding) {
    AboutWorkload(f) && (Says(f, "requests") || Says(f, "limits") || Says(f, "mutable image"))
  }

  ghost predicate WantsBudget(f: Finding) {
    AboutWorkload(f) && (Says(f, "pdb") || Says(f, "poddisruptionbudget") || Says(f, "disruption"))
  }

  ghost predicate WantsNetwork(f: Finding) {
    || Says(f, "networkpolicy") || Says(f, "loadbalancer") || Says(f, "nodeport") || Says(f, "externalip")
    || Says(f, "ingress")
  }

  ghost predicate WantsNothing(f: Finding) {
    !(WantsGovernance(f) || WantsPodSecurity(f) || WantsProbes(f) || WantsResources(f) || WantsBudget(f)
      || WantsNetwork(f))
  }

  // ---- What is then in the plan ----

  function FirstResource(f: Finding): Ref {
    if f.resources == [] then Ref(V1, Namespace, "", "default") else f.resources[0]
  }

  /** The first resource's namespace as an object; a resource outside every namespace stands for itself. */
  function NamespaceObject(f: Finding): Ref {
    var first := FirstResource(f);
    if first.kind != Namespace && first.namespace == "" then first
    else Ref(V1, Namespace, "", if first.kind == Namespace then first.name else first.namespace)
  }

  /**
   * An action of this type is in the plan exactly when it is wanted, and then with this target and these parameters.
   */
  predicate Holds(actions: seq<Action>, wanted: bool, action: Action) {
    && (wanted <==> exists k :: 0 <= k < |actions| && actions[k].kind == action.kind)
    && forall k :: 0 <= k < |actions| && actions[k].kind == action.kind ==> actions[k] == action
  }

  function Place(kind: ActionType): nat {
    match kind
    case ApplyResourceGovernance => 0
    case PatchPodSecurityLabels => 1
    case PatchWorkloadProbes => 2
    case PatchWorkloadResources => 3
    case CreatePdb => 4
    case ProposeNetworkPolicy => 5
    case _ => 6
  }

  /** One after the other in this order, so no type comes twice. */
  predicate InPlace(actions: seq<Action>) {
    forall i, j :: 0 <= i < j < |actions| ==> Place(actions[i].kind) < Place(actions[j].kind)
  }

  ghost predicate SixFit(f: Finding, actions: seq<Action>) {
    var ns, target := NamespaceObject(f), FirstResource(f);
    && Holds(actions, WantsGovernance(f),
             Action(ApplyResourceGovernance, ns, map[OtherParam("quotaProfile") := "team-defaults",
                                                     OtherParam("dryRun") := "required"]))
    && Holds(actions, WantsPodSecurity(f),
             Action(PatchPodSecurityLabels, ns, map[Enforce := "baseline", Audit := "restricted",
                                                    OtherParam("dryRun") := "required"]))
    && Holds(actions, WantsProbes(f),
             Action(PatchWorkloadProbes, target, map[Configured := "false", OtherParam("dryRun") := "required"]))
    && Holds(actions, WantsResources(f),
             Action(PatchWorkloadResources, target,
                    map[CpuRequest := "100m", MemoryRequest := "128Mi", CpuLimit := "500m", MemoryLimit := "512Mi",
                        OtherParam("dryRun") := "required"]))
    && Holds(actions, WantsBudget(f),
             Action(CreatePdb, target, map[MinAvailable := "1", OtherParam("dryRun") := "required"]))
    && Holds(actions, WantsNetwork(f),
             Action(ProposeNetworkPolicy, ns, map[OtherParam("mode") := "proposal",
                                                  OtherParam("requiresApproval") := "true"]))
  }

  function Fallback(f: Finding): Action {
    Action(if f.humanOnly then ProposeSecurityHardening else ExplainOnly, FirstResource(f),
           map[FindingId := f.id, OtherParam("dryRun") := "required"])
  }

  /** The identity key without its prefix names the system; without a name it is unknown. */
  predicate SystemFits(f: Finding, system: string) {
    if f.identityKey in {"", "managed-resource:"} then system == "unknown"
    else
      f.identityKey == (if "managed-resource:" <= f.identityKey then "managed-resource:" + system else system)
  }

  predicate IsReview(f: Finding, action: Action) {
    && action.kind == ReviewManagedResource && action.target == FirstResource(f)
    && action.params.Keys == {FindingId, ManagementSystem, SourceOfTruth} && action.params[FindingId] == f.id
    && SystemFits(f, action.params[ManagementSystem])
    && action.params[SourceOfTruth] == "owning Kubernetes controller resource or upstream GitOps repository"
  }

  /**
   * The plan of a finding from a managed resource is one review. Any other plan holds each of the six types exactly
   * when the finding's words and first resource ask for it, in a fixed order; and the fallback alone exactly when none
   * is asked for.
   */
  ghost predicate PlanFits(f: Finding, actions: seq<Action>) {
    if Managed(f) then |actions| == 1 && IsReview(f, actions[0])
    else
      && SixFit(f, actions) && InPlace(actions)
      && (WantsNothing(f) <==> actions == [Fallback(f)])
      && (!WantsNothing(f) ==> forall k :: 0 <= k < |actions| ==> Place(actions[k].kind) < 6)
  }

  // ---- Proofs ----

  predicate Placed(candidates: seq<Candidate>) {
    forall i, j :: 0 <= i < j < |candidates| ==> Place(candidates[i].action.kind) < Place(candidates[j].action.kind)
  }

  lemma {:induction false} ChosenHolds(candidates: seq<Candidate>)
    requires Placed(candidates)
    ensures InPlace(Chosen(candidates))
    ensures forall a :: a in Chosen(candidates)
                   <==> exists k :: 0 <= k < |candidates| && candidates[k].wanted && candidates[k].action == a
  {
    if |candidates| > 0 {
      var rest := candidates[1..];
      ChosenHolds(rest);
      forall a ensures a in Chosen(candidates)
                  <==> exists k :: 0 <= k < |candidates| && candidates[k].wanted && candidates[k].action == a
      {
        if a in Chosen(rest) {
          var k :| 0 <= k < |rest| && rest[k].wanted && rest[k].action == a;
          assert candidates[k + 1].wanted && candidates[k + 1].action == a;
        }
        if k :| 0 <= k < |candidates| && candidates[k].wanted && candidates[k].action == a {
          if k > 0 { assert rest[k - 1] == candidates[k]; }
        }
      }
      ChosenStayInPlace(candidates);
    }
  }

  lemma ChosenStayInPlace(candidates: seq<Candidate>)
    requires |candidates| > 0 && Placed(candidates) && InPlace(Chosen(candidates[1..]))
    requires forall a :: a in Chosen(candidates[1..]) ==>
               exists k :: 0 <= k < |candidates[1..]| && candidates[1..][k].action == a
    ensures InPlace(Chosen(candidates))
  {
    var rest := Chosen(candidates[1..]);
    forall j | 0 <= j < |rest| ensures Place(candidates[0].action.kind) < Place(rest[j].kind) {
      assert rest[j] in rest;
      var k :| 0 <= k < |candidates[1..]| && candidates[1..][k].action == rest[j];
      assert candidates[1..][k] == candidates[k + 1];
    }
  }

  lemma HoldsAt(candidates: seq<Candidate>, k: nat)
    requires Placed(candidates) && k < |candidates|
    ensures Holds(Chosen(candidates), candidates[k].wanted, candidates[k].action)
  {
    var actions := Chosen(candidates);
    ChosenHolds(candidates);
    forall i | 0 <= i < |actions| && actions[i].kind == candidates[k].action.kind
      ensures candidates[k].wanted && actions[i] == candidates[k].action
    {
      assert actions[i] in actions;
      var m :| 0 <= m < |candidates| && candidates[m].wanted && candidates[m].action == actions[i];
      assert m == k;
    }
    if candidates[k].wanted {
      assert candidates[k].action in actions;
    }
  }

  lemma {:induction false} NothingToDrop(actions: seq<Action>, seen: set<(ActionType, Kind, string, string)>)
    requires InPlace(actions) && forall k :: 0 <= k < |actions| ==> DedupeKey(actions[k]) !in seen
    ensures Dedupe(actions, seen) == actions
  {
    if |actions| > 0 {
      var rest, seen' := actions[1..], seen + {DedupeKey(actions[0])};
      forall k | 0 <= k < |rest| ensures DedupeKey(rest[k]) !in seen' {
        assert rest[k] == actions[k + 1];
      }
      NothingToDrop(rest, seen');
    }
  }

  lemma TargetsAgree(f: Finding)
    ensures PlanTarget(f) == FirstResource(f) && NamespaceTarget(PlanTarget(f)) == NamespaceObject(f)
    ensures IsWorkloadTarget(PlanTarget(f)) <==> AboutWorkload(f)
  {}

  lemma OneOfTwo(f: Finding, a: string, b: string)
    ensures SaysOneOf(f, [a, b]) <==> Says(f, a) || Says(f, b)
  {
    assert Says(f, a) ==> Says(f, [a, b][0]);
    assert Says(f, b) ==> Says(f, [a, b][1]);
  }

  lemma OneOfThree(f: Finding, a: string, b: string, c: string)
    ensures SaysOneOf(f, [a, b, c]) <==> Says(f, a) || Says(f, b) || Says(f, c)
  {
    assert Says(f, a) ==> Says(f, [a, b, c][0]);
    assert Says(f, b) ==> Says(f, [a, b, c][1]);
    assert Says(f, c) ==> Says(f, [a, b, c][2]);
  }

  lemma OneOfFour(f: Finding, a: string, b: string, c: string, d: string)
    ensures SaysOneOf(f, [a, b, c, d]) <==> Says(f, a) || Says(f, b) || Says(f, c) || Says(f, d)
  {
    var words := [a, b, c, d];
    assert Says(f, a) ==> Says(f, words[0]);
    assert Says(f, b) ==> Says(f, words[1]);
    assert Says(f, c) ==> Says(f, words[2]);
    assert Says(f, d) ==> Says(f, words[3]);
  }

  lemma OneOfFive(f: Finding, a: string, b: string, c: string, d: string, e: string)
    ensures SaysOneOf(f, [a, b, c, d, e]) <==> Says(f, a) || Says(f, b) || Says(f, c) || Says(f, d) || Says(f, e)
  {
    var words := [a, b, c, d, e];
    assert Says(f, a) ==> Says(f, words[0]);
    assert Says(f, b) ==> Says(f, words[1]);
    assert Says(f, c) ==> Says(f, words[2]);
    assert Says(f, d) ==> Says(f, words[3]);
    assert Says(f, e) ==> Says(f, words[4]);
  }

  /** The longer phrase contains the shorter one, so the second word of the source's list adds nothing. */
  lemma PrivilegedAddsNothing(f: Finding)
    requires Says(f, "privileged pod security")
    ensures Says(f, "pod security")
  {
    var long, short := "privileged pod security", "pod security";
    var k: nat :| ReadsAt(Words(f), long, k);
    assert long[11..] == short;
    forall i | 0 <= i < |short| ensures Reads(Words(f)[k + 11 + i], short[i]) {
      assert Reads(Words(f)[k + (11 + i)], long[11 + i]) && long[11..][i] == long[11 + i];
    }
    assert ReadsAt(Words(f), short, k + 11);
  }

  lemma GovernanceWords(f: Finding)
    ensures Mentions(FindingText(f), ["resourcequota", "limitrange", "resource governance", "resources"])
       <==> WantsGovernance(f)
  {
    MentionsIff(f, ["resourcequota", "limitrange", "resource governance", "resources"]);
    OneOfFour(f, "resourcequota", "limitrange", "resource governance", "resources");
  }

  lemma PodSecurityWords(f: Finding)
    ensures Mentions(FindingText(f), ["pod security", "privileged pod security"]) <==> WantsPodSecurity(f)
  {
    MentionsIff(f, ["pod security", "privileged pod security"]);
    OneOfTwo(f, "pod security", "privileged pod security");
    if Says(f, "privileged pod security") { PrivilegedAddsNothing(f); }
  }

  lemma ProbeWords(f: Finding)
    ensures Mentions(FindingText(f), ["readiness", "liveness", "probe"])
       <==> Says(f, "readiness") || Says(f, "liveness") || Says(f, "probe")
  {
    MentionsIff(f, ["readiness", "liveness", "probe"]);
    OneOfThree(f, "readiness", "liveness", "probe");
  }

  lemma ResourceWords(f: Finding)
    ensures Mentions(FindingText(f), ["requests", "limits", "mutable image"])
       <==> Says(f, "requests") || Says(f, "limits") || Says(f, "mutable image")
  {
    MentionsIff(f, ["requests", "limits", "mutable image"]);
    OneOfThree(f, "requests", "limits", "mutable image");
  }

  lemma BudgetWords(f: Finding)
    ensures Mentions(FindingText(f), ["pdb", "poddisruptionbudget", "disruption"])
       <==> Says(f, "pdb") || Says(f, "poddisruptionbudget") || Says(f, "disruption")
  {
    MentionsIff(f, ["pdb", "poddisruptionbudget", "disruption"]);
    OneOfThree(f, "pdb", "poddisruptionbudget", "disruption");
  }

  lemma NetworkWords(f: Finding)
    ensures Mentions(FindingText(f), ["networkpolicy", "loadbalancer", "nodeport", "externalip", "ingress"])
       <==> WantsNetwork(f)
  {
    MentionsIff(f, ["networkpolicy", "loadbalancer", "nodeport", "externalip", "ingress"]);
    OneOfFive(f, "networkpolicy", "loadbalancer", "nodeport", "externalip", "ingress");
  }

  lemma ManagedWords(f: Finding)
    ensures FromManagedResource(f) <==> Managed(f)
  {
    var word := "managed-resource";
    SaysIff(f, "kubernetes-managed external resource");
    LoweredReadsAt(f.source, word, 0);
    assert HasPrefix(Lower(f.source), word) <==> OccursAt(Lower(f.source), word, 0);
  }

  ghost predicate AllWanted(f: Finding, candidates: seq<Candidate>) {
    && |candidates| == 6
    && (candidates[0].wanted <==> WantsGovernance(f)) && (candidates[1].wanted <==> WantsPodSecurity(f))
    && (candidates[2].wanted <==> WantsProbes(f)) && (candidates[3].wanted <==> WantsResources(f))
    && (candidates[4].wanted <==> WantsBudget(f)) && (candidates[5].wanted <==> WantsNetwork(f))
  }

  lemma CandidatesAreWanted(f: Finding)
    ensures AllWanted(f, Candidates(FindingText(f), PlanTarget(f)))
  {
    TargetsAgree(f);
    GovernanceWords(f);
    PodSecurityWords(f);
    ProbeWords(f);
    ResourceWords(f);
    BudgetWords(f);
    NetworkWords(f);
  }

  lemma CandidatesArePlaced(text: string, target: Ref)
    ensures Placed(Candidates(text, target))
    ensures forall k :: 0 <= k < 6 ==> Place(Candidates(text, target)[k].action.kind) == k
  {}

  lemma SixAreFit(f: Finding)
    ensures SixFit(f, Chosen(Candidates(FindingText(f), PlanTarget(f))))
  {
    var candidates := Candidates(FindingText(f), PlanTarget(f));
    CandidatesAreWanted(f);
    CandidatesArePlaced(FindingText(f), PlanTarget(f));
    TargetsAgree(f);
    HoldsAt(candidates, 0);
    HoldsAt(candidates, 1);
    HoldsAt(candidates, 2);
    HoldsAt(candidates, 3);
    HoldsAt(candidates, 4);
    HoldsAt(candidates, 5);
  }

  lemma SomeChosenIff(f: Finding)
    ensures var actions := Chosen(Candidates(FindingText(f), PlanTarget(f)));
            && (actions == [] <==> WantsNothing(f)) && InPlace(actions)
            && forall k :: 0 <= k < |actions| ==> Place(actions[k].kind) < 6
  {
    var candidates := Candidates(FindingText(f), PlanTarget(f));
    var actions := Chosen(candidates);
    CandidatesAreWanted(f);
    CandidatesArePlaced(FindingText(f), PlanTarget(f));
    ChosenHolds(candidates);
    if !WantsNothing(f) {
      var k :| 0 <= k < 6 && candidates[k].wanted;
      assert candidates[k].action in actions;
    }
    forall k | 0 <= k < |actions|
      ensures !WantsNothing(f) && Place(actions[k].kind) < 6
    {
      assert actions[k] in actions;
      var m :| 0 <= m < |candidates| && candidates[m].wanted && candidates[m].action == actions[k];
      assert m < 6;
    }
    if actions != [] { assert Place(actions[0].kind) < 6; }
  }

  lemma SystemIsFit(f: Finding)
    ensures SystemFits(f, ManagementSystemOf(f.identityKey))
  {
    var key := f.identityKey;
    if HasPrefix(key, MANAGED) {
      assert key == MANAGED + key[|MANAGED|..];
      if key[|MANAGED|..] == "" { assert key == MANAGED; }
    }
  }

  lemma ReviewFits(f: Finding)
    ensures IsReview(f, ReviewAction(f))
  {
    TargetsAgree(f);
    SystemIsFit(f);
  }

  /** Every built plan fits its finding. */
  lemma BuiltPlansFit(f: Finding)
    ensures PlanFits(f, TypedActionsForFinding(f))
  {
    ManagedWords(f);
    if FromManagedResource(f) {
      ReviewFits(f);
    } else {
      var actions := Chosen(Candidates(FindingText(f), PlanTarget(f)));
      SixAreFit(f);
      SomeChosenIff(f);
      NothingToDrop(actions, {});
      TargetsAgree(f);
      if actions == [] { FallbackFits(f); }
    }
  }

  lemma FallbackFits(f: Finding)
    requires WantsNothing(f)
    ensures Dedupe([FallbackAction(f)], {}) == [Fallback(f)] && SixFit(f, [Fallback(f)]) && InPlace([Fallback(f)])
  {
    TargetsAgree(f);
    assert FallbackAction(f) == Fallback(f);
    NothingToDrop([FallbackAction(f)], {});
  }

  /** Namespace defaults on a namespace object: the one kind of action that runs without an approval. */
  predicate NamespaceDefaults(action: Action) {
    action.kind == ApplyResourceGovernance && action.target.apiVersion == V1 && action.target.kind == Namespace
  }

  lemma ApprovalIsNeededIff(actions: seq<Action>)
    ensures ApprovalPolicyForActions(actions).required
       <==> exists k :: 0 <= k < |actions| && !NamespaceDefaults(actions[k])
  {
    ApprovalIsSkippedOnlyForGovernance(actions);
    forall k | 0 <= k < |actions|
      ensures actions[k].kind.ApplyResourceGovernance? && ValidateProposal(actions[k]).Ok? <==>
              NamespaceDefaults(actions[k])
    {
      if actions[k].kind == ApplyResourceGovernance { DefaultsAreValid(actions[k]); }
    }
  }

  lemma DefaultsAreValid(action: Action)
    requires action.kind == ApplyResourceGovernance
    ensures ValidateProposal(action).Ok? <==> NamespaceDefaults(action)
  {
    var supported := Lookup(action.kind).value.supported;
    assert Matches(supported[0], action.target) <==> NamespaceDefaults(action);
  }

  // ---- Risk tiers ----

  predicate AtMost(tier: RiskTier, other: RiskTier) {
    match tier
    case TierA => true
    case TierB => !other.TierA?
    case TierC => other.TierC? || other.TierD?
    case TierD => other.TierD?
  }

  /** Whatever the catalog refuses counts as the gravest. */
  function TierOf(action: Action): RiskTier {
    if ValidateProposal(action).Err? then TierD
    else
      match action.kind
      case ApplyResourceGovernance => TierA
      case PatchPodSecurityLabels => TierB
      case PatchWorkloadResources => TierB
      case PatchWorkloadProbes => TierB
      case CreatePdb => TierB
      case ProposeNetworkPolicy => TierC
      case ProposeSecurityHardening => TierC
      case ReviewManagedResource => TierC
      case ProposeManagedResourceChange(_) => TierC
      case _ => TierD
  }

  /** A plan's tier is the gravest of its actions' tiers. */
  lemma {:induction false} TierIsGravest(actions: seq<Action>)
    ensures forall k :: 0 <= k < |actions| ==> AtMost(TierOf(actions[k]), RiskTierForActions(actions))
    ensures RiskTierForActions(actions) == TierA
            || exists k :: 0 <= k < |actions| && TierOf(actions[k]) == RiskTierForActions(actions)
  {
    if |actions| > 0 {
      var last := actions[|actions| - 1];
      TierIsGravest(actions[..|actions| - 1]);
      assert TierOf(last) == match ValidateProposal(last) { case Err(_) => TierD case Ok(d) => d.tier };
      assert RiskTierForActions(actions) != RiskTierForActions(actions[..|actions| - 1])
             ==> TierOf(last) == RiskTierForActions(actions);
    }
  }
}
