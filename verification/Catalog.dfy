/** The typed action catalog: which resource kinds each action may touch, its tier, and how it may run. */
module Catalog {
  import opened Basics

  datatype ApiVersion = V1 | AppsV1 | PolicyV1 | OtherVersion(text: string)

  datatype Kind =
    | Namespace | Deployment | StatefulSet | DaemonSet
    | ResourceQuota | LimitRange | PodDisruptionBudget
    | OtherKind(text: string)

  /** A cluster object's identity. */
  datatype Ref = Ref(apiVersion: ApiVersion, kind: Kind, namespace: string, name: string)

  /** `wellFormedArtifact` carries the verdict of the JSON-patch artifact check, which is not part of this model. */
  datatype ActionType =
    | ApplyResourceGovernance | PatchPodSecurityLabels | PatchWorkloadResources | CreatePdb | PatchWorkloadProbes
    | ProposeNetworkPolicy | ProposeSecurityHardening
    | ReviewManagedResource | ProposeManagedResourceChange(wellFormedArtifact: bool)
    | ExplainOnly
    | UnknownType(text: string)

  datatype Param =
    | Enforce | Audit | Warn
    | CpuRequest | MemoryRequest | CpuLimit | MemoryLimit
    | MinAvailable
    | Configured | ContainerName | Port | ReadinessPath | LivenessPath
    | FindingId | ManagementSystem | SourceOfTruth
    | OtherParam(text: string)

  datatype Action = Action(kind: ActionType, target: Ref, params: map<Param, string>)

  datatype RiskTier = TierA | TierB | TierC | TierD

  datatype Mode = Direct | GitOps | ProposalOnly | Informational

  datatype KindPattern = AnyKind | Exactly(apiVersion: ApiVersion, kind: Kind)

  datatype Definition = Definition(
    supported: seq<KindPattern>, tier: RiskTier, approvalRequired: bool, mode: Mode,
    required: seq<Param>, allowed: set<Param>, strict: bool)

  datatype CatalogError =
    | UnknownAction | UnsupportedResource | MissingParameter(param: Param) | UnexpectedParameter | BadArtifact

  const WORKLOADS := [Exactly(AppsV1, Deployment), Exactly(AppsV1, StatefulSet), Exactly(AppsV1, DaemonSet)]

  const REVIEW_PARAMS := [FindingId, ManagementSystem, SourceOfTruth]

  function Lookup(kind: ActionType): Option<Definition> {
    match kind
    case ApplyResourceGovernance =>
      Some(Definition([Exactly(V1, Namespace)], TierA, false, Direct, [], {}, false))
    case PatchPodSecurityLabels =>
      Some(Definition([Exactly(V1, Namespace)], TierB, true, Direct, [], {}, false))
    case PatchWorkloadResources =>
      Some(Definition(WORKLOADS, TierB, true, Direct, [CpuRequest, MemoryRequest, CpuLimit, MemoryLimit], {}, false))
    case CreatePdb =>
      Some(Definition([Exactly(AppsV1, Deployment), Exactly(AppsV1, StatefulSet)], TierB, true, Direct,
                      [MinAvailable], {}, false))
    case PatchWorkloadProbes =>
      Some(Definition(WORKLOADS, TierB, true, Direct,
                      [Configured, ContainerName, Port, ReadinessPath, LivenessPath], {}, false))
    case ProposeNetworkPolicy => Some(Definition([AnyKind], TierC, true, GitOps, [], {}, false))
    case ProposeSecurityHardening => Some(Definition([AnyKind], TierC, true, GitOps, [], {}, false))
    case ReviewManagedResource =>
      Some(Definition([AnyKind], TierC, true, ProposalOnly, REVIEW_PARAMS,
                      {FindingId, ManagementSystem, SourceOfTruth}, true))
    case ProposeManagedResourceChange(_) => Some(Definition([AnyKind], TierC, true, ProposalOnly, [], {}, true))
    case ExplainOnly => Some(Definition([AnyKind], TierD, true, Informational, [], {}, false))
    case UnknownType(_) => None
  }

  predicate Matches(pattern: KindPattern, target: Ref) {
    pattern.AnyKind? || (pattern.apiVersion == target.apiVersion && pattern.kind == target.kind)
  }

  predicate Supports(definition: Definition, target: Ref) {
    exists k :: 0 <= k < |definition.supported| && Matches(definition.supported[k], target)
  }

  /** Unicode white space, as trimming treats it. */
  predicate IsSpace(c: char) {
    var n := c as int;
    || 9 <= n <= 13 || n == 32 || n == 0x85 || n == 0xA0 || n == 0x1680 || 0x2000 <= n <= 0x200A
    || n == 0x2028 || n == 0x2029 || n == 0x202F || n == 0x205F || n == 0x3000
  }

  predicate Blank(s: string) { forall k :: 0 <= k < |s| ==> IsSpace(s[k]) }

  function ParamOf(action: Action, param: Param): string {
    if param in action.params then action.params[param] else ""
  }

  function FirstMissing(required: seq<Param>, action: Action): Option<Param> {
    if |required| == 0 then None
    else if Blank(ParamOf(action, required[0])) then Some(required[0])
    else FirstMissing(required[1..], action)
  }

  function ValidateParameters(definition: Definition, action: Action): Result<Definition, CatalogError> {
    var missing := FirstMissing(definition.required, action);
    if missing.Some? then Err(MissingParameter(missing.value))
    else if definition.allowed != {} && !(action.params.Keys <= definition.allowed) then Err(UnexpectedParameter)
    else if action.kind.ProposeManagedResourceChange? && !action.kind.wellFormedArtifact then Err(BadArtifact)
    else Ok(definition)
  }

  function ValidateProposal(action: Action): Result<Definition, CatalogError> {
    match Lookup(action.kind)
    case None => Err(UnknownAction)
    case Some(definition) =>
      if !Supports(definition, action.target) then Err(UnsupportedResource)
      else if definition.strict then ValidateParameters(definition, action)
      else Ok(definition)
  }

  function Validate(action: Action): Result<Definition, CatalogError> {
    match ValidateProposal(action)
    case Err(e) => Err(e)
    case Ok(definition) => ValidateParameters(definition, action)
  }

  function ExecutionModeFor(action: Action): Mode {
    match Lookup(action.kind)
    case None => ProposalOnly
    case Some(definition) =>
      if action.kind.PatchWorkloadProbes? && ParamOf(action, Configured) != "true" then ProposalOnly
      else definition.mode
  }

  /** The actions the operator carries out itself; everything else is only ever proposed. */
  predicate Executable(action: Action) {
    Validate(action).Ok? && ExecutionModeFor(action) == Direct
  }

  predicate IsWorkloadKind(kind: Kind) {
    kind in {Deployment, StatefulSet, DaemonSet}
  }

  /** The catalog confines every executable action to these kinds. */
  lemma ExecutableTargets(action: Action)
    requires Executable(action)
    ensures match action.kind
            case ApplyResourceGovernance => action.target.apiVersion == V1 && action.target.kind == Namespace
            case PatchPodSecurityLabels => action.target.apiVersion == V1 && action.target.kind == Namespace
            case PatchWorkloadResources => action.target.apiVersion == AppsV1 && IsWorkloadKind(action.target.kind)
            case PatchWorkloadProbes =>
              action.target.apiVersion == AppsV1 && IsWorkloadKind(action.target.kind)
                && ParamOf(action, Configured) == "true"
            case CreatePdb => action.target.apiVersion == AppsV1 && action.target.kind in {Deployment, StatefulSet}
            case _ => false
  {
    var definition := Lookup(action.kind).value;
    var k :| 0 <= k < |definition.supported| && Matches(definition.supported[k], action.target);
  }

  predicate Given(action: Action, params: set<Param>) {
    forall param :: param in params ==> param in action.params && !Blank(action.params[param])
  }

  lemma {:induction false} NothingMissing(required: seq<Param>, action: Action)
    ensures FirstMissing(required, action).None? <==> Given(action, set k | 0 <= k < |required| :: required[k])
  {
    if |required| > 0 {
      var head, rest := required[0], required[1..];
      NothingMissing(rest, action);
      assert (set k | 0 <= k < |required| :: required[k]) == {head} + (set k | 0 <= k < |rest| :: rest[k]) by {
        assert required == [head] + rest;
      }
      assert !Blank(ParamOf(action, head)) <==> head in action.params && !Blank(action.params[head]);
    }
  }

  predicate OnNamespace(target: Ref) {
    target.apiVersion == V1 && target.kind == Namespace
  }

  predicate OnWorkload(target: Ref) {
    target.apiVersion == AppsV1 && target.kind in {Deployment, StatefulSet, DaemonSet}
  }

  /** Exactly these actions are executable: five types, on these kinds, with these parameters filled in. */
  lemma ExecutableIff(action: Action)
    ensures Executable(action) <==>
            match action.kind
            case ApplyResourceGovernance => OnNamespace(action.target)
            case PatchPodSecurityLabels => OnNamespace(action.target)
            case PatchWorkloadResources =>
              OnWorkload(action.target) && Given(action, {CpuRequest, MemoryRequest, CpuLimit, MemoryLimit})
            case PatchWorkloadProbes =>
              OnWorkload(action.target) && Given(action, {ContainerName, Port, ReadinessPath, LivenessPath})
                && Configured in action.params && action.params[Configured] == "true"
            case CreatePdb =>
              OnWorkload(action.target) && action.target.kind != DaemonSet && Given(action, {MinAvailable})
            case _ => false
  {
    match action.kind
    case ApplyResourceGovernance => SupportedIff(action);
    case PatchPodSecurityLabels => SupportedIff(action);
    case PatchWorkloadResources => ResourcesExecutableIff(action);
    case PatchWorkloadProbes => ProbesExecutableIff(action);
    case CreatePdb => PdbExecutableIff(action);
    case _ =>
  }

  lemma SupportedIff(action: Action)
    requires Lookup(action.kind).Some? && Lookup(action.kind).value.mode == Direct
    ensures Supports(Lookup(action.kind).value, action.target) <==>
            match action.kind
            case ApplyResourceGovernance => OnNamespace(action.target)
            case PatchPodSecurityLabels => OnNamespace(action.target)
            case CreatePdb => OnWorkload(action.target) && action.target.kind != DaemonSet
            case _ => OnWorkload(action.target)
  {
    var supported := Lookup(action.kind).value.supported;
    if |supported| == 1 {
      assert Matches(supported[0], action.target) <==> OnNamespace(action.target);
    } else {
      assert Matches(supported[0], action.target) <==> OnWorkload(action.target) && action.target.kind == Deployment;
      assert Matches(supported[1], action.target) <==> OnWorkload(action.target) && action.target.kind == StatefulSet;
      if |supported| == 3 {
        assert Matches(supported[2], action.target) <==> OnWorkload(action.target) && action.target.kind == DaemonSet;
      }
    }
  }

  lemma ResourcesExecutableIff(action: Action)
    requires action.kind == PatchWorkloadResources
    ensures Executable(action) <==>
            OnWorkload(action.target) && Given(action, {CpuRequest, MemoryRequest, CpuLimit, MemoryLimit})
  {
    SupportedIff(action);
    NothingMissing([CpuRequest, MemoryRequest, CpuLimit, MemoryLimit], action);
    var required := [CpuRequest, MemoryRequest, CpuLimit, MemoryLimit];
    assert (set k | 0 <= k < |required| :: required[k]) == {required[0], required[1], required[2], required[3]};
  }

  lemma ProbesExecutableIff(action: Action)
    requires action.kind == PatchWorkloadProbes
    ensures Executable(action) <==>
            && OnWorkload(action.target) && Given(action, {ContainerName, Port, ReadinessPath, LivenessPath})
            && Configured in action.params && action.params[Configured] == "true"
  {
    var required := [Configured, ContainerName, Port, ReadinessPath, LivenessPath];
    SupportedIff(action);
    NothingMissing(required, action);
    assert (set k | 0 <= k < |required| :: required[k])
        == {required[0], required[1], required[2], required[3], required[4]};
    assert !IsSpace("true"[0]);
  }

  lemma PdbExecutableIff(action: Action)
    requires action.kind == CreatePdb
    ensures Executable(action) <==>
            OnWorkload(action.target) && action.target.kind != DaemonSet && Given(action, {MinAvailable})
  {
    var required := [MinAvailable];
    SupportedIff(action);
    NothingMissing(required, action);
    assert (set k | 0 <= k < |required| :: required[k]) == {required[0]};
  }
}
