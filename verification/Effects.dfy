/**
 * What each executor is accepted for and what it leaves behind, told from the action's parameters and the two clusters
 * alone.
 */
module Effects {
  import opened Basics
  import opened Catalog
  import opened Workload
  import opened ClusterModel

  function Text(action: Action, param: Param): string {
    if param in action.params then action.params[param] else ""
  }

  function NamespaceOf(action: Action): string {
    if action.target.kind == Namespace then action.target.name else action.target.namespace
  }

  /** Nothing of this name yet, or an object that carries this application's label. */
  predicate FreeOrOurs(c: Cluster, ref: Ref) {
    ref in c ==> ManagedBy in c[ref].labels && c[ref].labels[ManagedBy] == "kubeathrix"
  }

  // ---- Governance ----

  predicate GovernanceEffect(action: Action, c: Cluster, c': Cluster) {
    var quota := Ref(V1, ResourceQuota, NamespaceOf(action), "kubeathrix-defaults");
    var limits := Ref(V1, LimitRange, NamespaceOf(action), "kubeathrix-defaults");
    var ours := map[ManagedBy := "kubeathrix"];
    c' == c[quota := Obj(ours, Quota(map[Cpu := "4", Memory := "8Gi"]), "")]
           [limits := Obj(ours, LimitDefaults([ContainerDefaults(map[Cpu := "100m", Memory := "128Mi"],
                                                                 map[Cpu := "500m", Memory := "512Mi"])]), "")]
  }

  // ---- Pod Security labels ----

  function OrDefault(text: string, fallback: string): string {
    if Blank(text) then fallback else text
  }

  predicate PodSecurityEffect(action: Action, c: Cluster, c': Cluster) {
    var ref := Ref(V1, Namespace, "", NamespaceOf(action));
    && ref in c && ref in c' && c' == c[ref := c[ref].(labels := c'[ref].labels)]
    && var was, now := c[ref].labels, c'[ref].labels;
       && now.Keys == was.Keys + {PodSecurityEnforce, PodSecurityAudit, PodSecurityWarn}
       && now[PodSecurityEnforce] == OrDefault(Text(action, Enforce), "baseline")
       && now[PodSecurityAudit] == OrDefault(Text(action, Audit), "restricted")
       && now[PodSecurityWarn] == OrDefault(Text(action, Warn), "restricted")
       && forall key :: key in was && key !in {PodSecurityEnforce, PodSecurityAudit, PodSecurityWarn} ==>
            now[key] == was[key]
  }

  // ---- Workload resources ----

  function TemplateOf(action: Action): Ref {
    Ref(AppsV1, action.target.kind, action.target.namespace, action.target.name)
  }

  predicate HasTemplate(action: Action, c: Cluster) {
    TemplateOf(action) in c && c[TemplateOf(action)].spec.PodTemplate?
  }

  /** A value that was there stays, and a missing one becomes what this text parses to. */
  predicate Filled(was: map<ResourceName, string>, now: map<ResourceName, string>, name: ResourceName, text: string,
                   parse: QuantityParser)
  {
    name in now && if name in was then now[name] == was[name] else parse(text) == Some(now[name])
  }

  predicate ValuesFilled(was: map<ResourceName, string>, now: map<ResourceName, string>, cpu: string, memory: string,
                         parse: QuantityParser)
  {
    && now.Keys == was.Keys + {Cpu, Memory} && (forall name :: name in was ==> now[name] == was[name])
    && Filled(was, now, Cpu, cpu, parse) && Filled(was, now, Memory, memory, parse)
  }

  predicate ContainerFilled(action: Action, was: Container, now: Container, parse: QuantityParser) {
    && now == was.(requests := now.requests, limits := now.limits)
    && ValuesFilled(was.requests, now.requests, Text(action, CpuRequest), Text(action, MemoryRequest), parse)
    && ValuesFilled(was.limits, now.limits, Text(action, CpuLimit), Text(action, MemoryLimit), parse)
  }

  predicate ListFilled(action: Action, was: seq<Container>, now: seq<Container>, parse: QuantityParser) {
    |now| == |was| && forall k :: 0 <= k < |was| ==> ContainerFilled(action, was[k], now[k], parse)
  }

  predicate ResourcesEffect(action: Action, c: Cluster, c': Cluster, parse: QuantityParser) {
    var ref := TemplateOf(action);
    && HasTemplate(action, c) && HasTemplate(action, c')
    && var was, now := c[ref].spec, c'[ref].spec;
       && c' == c[ref := c[ref].(spec := was.(initContainers := now.initContainers, containers := now.containers))]
       && ListFilled(action, was.initContainers, now.initContainers, parse)
       && ListFilled(action, was.containers, now.containers, parse)
  }

  // ---- Workload probes ----

  /** A number in its bounds is taken, and anything else becomes the default. */
  predicate Bounded(raw: string, fallback: int, minimum: int, maximum: int, value: int) {
    match ParseInt(raw)
    case None => value == fallback
    case Some(v) => value == if v < minimum || maximum < v then fallback else v
  }

  predicate ProbeFilled(action: Action, was: Option<Probe>, now: Option<Probe>, path: string) {
    if was.Some? then now == was
    else
      && now.Some? && now.value.path == path && now.value.port == Text(action, Port)
      && Bounded(Text(action, OtherParam("initialDelaySeconds")), 5, 0, 300, now.value.initialDelay)
      && Bounded(Text(action, OtherParam("periodSeconds")), 10, 2, 300, now.value.period)
      && Bounded(Text(action, OtherParam("timeoutSeconds")), 2, 1, 30, now.value.timeout)
      && Bounded(Text(action, OtherParam("failureThreshold")), 3, 1, 10, now.value.failures)
  }

  /** The first container of the named ones is the k-th. */
  predicate NamedFirst(action: Action, cs: seq<Container>, k: nat) {
    && k < |cs| && cs[k].name == Text(action, ContainerName)
    && forall j :: 0 <= j < k ==> cs[j].name != Text(action, ContainerName)
  }

  predicate ProbesFilledAt(action: Action, was: seq<Container>, now: seq<Container>, k: nat) {
    && NamedFirst(action, was, k) && k < |now|
    && now == was[k := was[k].(readiness := now[k].readiness, liveness := now[k].liveness)]
    && ProbeFilled(action, was[k].readiness, now[k].readiness, Text(action, ReadinessPath))
    && ProbeFilled(action, was[k].liveness, now[k].liveness, Text(action, LivenessPath))
  }

  ghost predicate ProbesEffect(action: Action, c: Cluster, c': Cluster) {
    var ref := TemplateOf(action);
    && HasTemplate(action, c) && HasTemplate(action, c')
    && var was, now := c[ref].spec, c'[ref].spec;
       && c' == c[ref := c[ref].(spec := was.(containers := now.containers))]
       && exists k: nat :: ProbesFilledAt(action, was.containers, now.containers, k)
  }

  // ---- Disruption budgets ----

  function BudgetOf(action: Action): Ref {
    Ref(PolicyV1, PodDisruptionBudget, action.target.namespace, action.target.name + "-kubeathrix")
  }

  predicate BudgetEffect(action: Action, c: Cluster, c': Cluster) {
    && HasTemplate(action, c)
    && var budget := DisruptionBudget(Text(action, MinAvailable), c[TemplateOf(action)].spec.selector);
       c' == c[BudgetOf(action) := Obj(map[ManagedBy := "kubeathrix"], budget, "")]
  }

  // ---- All of them ----

  /** What a successful execution leaves behind; nothing else in the cluster changes. */
  ghost predicate Effect(action: Action, c: Cluster, c': Cluster, parse: QuantityParser) {
    match action.kind
    case ApplyResourceGovernance => GovernanceEffect(action, c, c')
    case PatchPodSecurityLabels => PodSecurityEffect(action, c, c')
    case PatchWorkloadResources => ResourcesEffect(action, c, c', parse)
    case PatchWorkloadProbes => ProbesEffect(action, c, c')
    case CreatePdb => BudgetEffect(action, c, c')
    case _ => false
  }

  predicate NamesWorkload(action: Action, c: Cluster) {
    && action.target.kind in {Deployment, StatefulSet, DaemonSet} && action.target.name != ""
    && action.target.namespace != "" && action.target.apiVersion != OtherVersion("") && HasTemplate(action, c)
  }

  /** When an execution is accepted. */
  ghost predicate Accepts(action: Action, c: Cluster, parse: QuantityParser) {
    match action.kind
    case ApplyResourceGovernance =>
      && NamespaceOf(action) != ""
      && FreeOrOurs(c, Ref(V1, ResourceQuota, NamespaceOf(action), "kubeathrix-defaults"))
      && FreeOrOurs(c, Ref(V1, LimitRange, NamespaceOf(action), "kubeathrix-defaults"))
    case PatchPodSecurityLabels =>
      && (action.target.kind == Namespace || action.target.namespace != "")
      && Ref(V1, Namespace, "", NamespaceOf(action)) in c
      && NamespaceOf(action) !in {"kube-system", "kube-public", "kube-node-lease"}
      && !("openshift-" <= NamespaceOf(action))
    case PatchWorkloadResources =>
      && NamesWorkload(action, c)
      && parse(Text(action, CpuRequest)).Some? && parse(Text(action, MemoryRequest)).Some?
      && parse(Text(action, CpuLimit)).Some? && parse(Text(action, MemoryLimit)).Some?
    case PatchWorkloadProbes =>
      && NamesWorkload(action, c) && Text(action, Configured) == "true"
      && exists k: nat :: NamedFirst(action, c[TemplateOf(action)].spec.containers, k)
    case CreatePdb =>
      && NamesWorkload(action, c) && action.target.kind != DaemonSet && c[TemplateOf(action)].spec.selector != map[]
      && FreeOrOurs(c, BudgetOf(action))
    case _ => false
  }

  lemma NamedLater(action: Action, cs: seq<Container>, k: nat)
    requires |cs| > 0 && cs[0].name != Text(action, ContainerName)
    ensures NamedFirst(action, cs, k) <==> k > 0 && NamedFirst(action, cs[1..], k - 1)
  {
    if k > 0 && NamedFirst(action, cs[1..], k - 1) {
      forall j | 0 <= j < k ensures cs[j].name != Text(action, ContainerName) {
        if j > 0 { assert cs[j] == cs[1..][j - 1]; }
      }
    }
  }

  lemma {:induction false} FirstNamedIff(action: Action, cs: seq<Container>)
    ensures match FirstNamed(cs, Text(action, ContainerName))
            case None => forall k: nat :: !NamedFirst(action, cs, k)
            case Some(k) => NamedFirst(action, cs, k)
  {
    if |cs| > 0 && cs[0].name != Text(action, ContainerName) {
      FirstNamedIff(action, cs[1..]);
      match FirstNamed(cs[1..], Text(action, ContainerName))
      case None =>
        forall k: nat ensures !NamedFirst(action, cs, k) { NamedLater(action, cs, k); }
      case Some(k) => NamedLater(action, cs, k + 1);
    }
  }

  lemma WritableIff(action: Action, c: Cluster, parse: QuantityParser)
    ensures Writable(action, c, parse) <==> Accepts(action, c, parse)
  {
    match action.kind
    case ApplyResourceGovernance => GovernanceWritableIff(action, c, parse);
    case PatchPodSecurityLabels =>
      if TargetNamespace(action).Some? {
        assert NamespaceRef(TargetNamespace(action).value) in WriteRefs(action);
      }
    case PatchWorkloadResources => assert WorkloadRef(action) in WriteRefs(action);
    case PatchWorkloadProbes =>
      assert WorkloadRef(action) in WriteRefs(action);
      if HasTemplate(action, c) { FirstNamedIff(action, c[TemplateOf(action)].spec.containers); }
    case CreatePdb => assert PdbRef(action) in WriteRefs(action);
    case _ =>
  }

  lemma GovernanceWritableIff(action: Action, c: Cluster, parse: QuantityParser)
    requires action.kind.ApplyResourceGovernance?
    ensures Writable(action, c, parse) <==> Accepts(action, c, parse)
  {
    if TargetNamespace(action).Some? {
      var ns := TargetNamespace(action).value;
      assert QuotaRef(ns) in WriteRefs(action) && LimitsRef(ns) in WriteRefs(action);
    }
  }

  lemma FillHasEffect(action: Action, cs: seq<Container>, parse: QuantityParser)
    requires GoodQuantities(QuantitiesOf(action), parse)
    ensures ListFilled(action, cs, FillAll(cs, Parsed(QuantitiesOf(action), parse)), parse)
  {
    var q := Parsed(QuantitiesOf(action), parse);
    forall k | 0 <= k < |cs| ensures ContainerFilled(action, cs[k], FillAll(cs, q)[k], parse) {
      FillOneHasEffect(action, cs[k], parse);
    }
  }

  lemma FillOneHasEffect(action: Action, c: Container, parse: QuantityParser)
    requires GoodQuantities(QuantitiesOf(action), parse)
    ensures ContainerFilled(action, c, FillContainer(c, Parsed(QuantitiesOf(action), parse)), parse)
  {}

  lemma ProbeHasEffect(action: Action, was: Option<Probe>, path: string)
    ensures ProbeFilled(action, was, OrProbe(was, SafeHttpProbe(path, action)), path)
  {}

  lemma ProbesHaveEffect(action: Action, cs: seq<Container>)
    requires WithProbes(cs, action).Some?
    ensures exists k: nat :: ProbesFilledAt(action, cs, WithProbes(cs, action).value, k)
  {
    FirstNamedIff(action, cs);
    var k := FirstNamed(cs, ParamOf(action, ContainerName)).value;
    ProbeHasEffect(action, cs[k].readiness, Text(action, ReadinessPath));
    ProbeHasEffect(action, cs[k].liveness, Text(action, LivenessPath));
    ProbesAt(action, cs, k);
  }

  lemma ProbesAt(action: Action, cs: seq<Container>, k: nat)
    requires NamedFirst(action, cs, k) && FirstNamed(cs, ParamOf(action, ContainerName)) == Some(k)
    requires ProbeFilled(action, cs[k].readiness,
                         OrProbe(cs[k].readiness, SafeHttpProbe(Text(action, ReadinessPath), action)),
                         Text(action, ReadinessPath))
    requires ProbeFilled(action, cs[k].liveness,
                         OrProbe(cs[k].liveness, SafeHttpProbe(Text(action, LivenessPath), action)),
                         Text(action, LivenessPath))
    ensures WithProbes(cs, action).Some? && ProbesFilledAt(action, cs, WithProbes(cs, action).value, k)
  {}

  lemma GovernanceHasEffect(action: Action, c: Cluster, parse: QuantityParser)
    requires action.kind.ApplyResourceGovernance? && Writable(action, c, parse)
    ensures GovernanceEffect(action, c, AppliedTo(action, c, parse))
  {
    var ns := TargetNamespace(action).value;
    assert QuotaRef(ns) in WriteRefs(action) && LimitsRef(ns) in WriteRefs(action);
    assert Intended(action, QuotaRef(ns), c, parse).Some? && Intended(action, LimitsRef(ns), c, parse).Some?;
  }

  lemma ResourcesHaveEffect(action: Action, c: Cluster, parse: QuantityParser)
    requires action.kind.PatchWorkloadResources? && Writable(action, c, parse)
    ensures ResourcesEffect(action, c, AppliedTo(action, c, parse), parse)
  {
    assert Intended(action, WorkloadRef(action), c, parse).Some?;
    FillHasEffect(action, c[WorkloadRef(action)].spec.initContainers, parse);
    FillHasEffect(action, c[WorkloadRef(action)].spec.containers, parse);
  }

  lemma WorkloadProbesHaveEffect(action: Action, c: Cluster, parse: QuantityParser)
    requires action.kind.PatchWorkloadProbes? && Writable(action, c, parse)
    ensures ProbesEffect(action, c, AppliedTo(action, c, parse))
  {
    assert Intended(action, WorkloadRef(action), c, parse).Some?;
    ProbesHaveEffect(action, c[WorkloadRef(action)].spec.containers);
  }

  lemma LabelsHaveEffect(action: Action, c: Cluster, parse: QuantityParser)
    requires action.kind.PatchPodSecurityLabels? && Writable(action, c, parse)
    ensures PodSecurityEffect(action, c, AppliedTo(action, c, parse))
  {
    assert Intended(action, NamespaceRef(TargetNamespace(action).value), c, parse).Some?;
  }

  /** The writes of an action that is accepted have its effect. */
  lemma AppliedHasEffect(action: Action, c: Cluster, parse: QuantityParser)
    requires Writable(action, c, parse)
    ensures Effect(action, c, AppliedTo(action, c, parse), parse)
  {
    match action.kind
    case ApplyResourceGovernance => GovernanceHasEffect(action, c, parse);
    case PatchPodSecurityLabels => LabelsHaveEffect(action, c, parse);
    case PatchWorkloadResources => ResourcesHaveEffect(action, c, parse);
    case PatchWorkloadProbes => WorkloadProbesHaveEffect(action, c, parse);
    case CreatePdb => assert Intended(action, PdbRef(action), c, parse).Some?;
    case _ =>
  }

  /** What an action needs to pass its rehearsal. */
  ghost predicate Rehearses(action: Action, c: Cluster, parse: QuantityParser) {
    ValidateProposal(action).Ok? && (Executable(action) ==> Accepts(action, c, parse))
  }

  /** The first `n` actions pass their rehearsals. */
  ghost predicate AllRehearse(actions: seq<Action>, n: nat, c: Cluster, parse: QuantityParser) {
    n <= |actions| && forall k :: 0 <= k < n ==> Rehearses(actions[k], c, parse)
  }

  lemma RehearseNext(actions: seq<Action>, at: nat, c: Cluster, parse: QuantityParser)
    requires at < |actions|
    ensures AllRehearse(actions, at + 1, c, parse)
       <==> AllRehearse(actions, at, c, parse) && Rehearses(actions[at], c, parse)
    ensures AllRehearse(actions, |actions|, c, parse) ==> AllRehearse(actions, at + 1, c, parse)
  {}

  // ---- The preview of a resource edit ----

  /** This line says that the k-th container lacks this value, and shows the parameter that it will be filled from. */
  predicate LineOf(action: Action, field: Field, cs: seq<Container>, line: Change, k: nat) {
    && k < |cs| && line.field == field && line.container == cs[k].name
    && match line.section {
         case Requests =>
           || (line.key == Cpu && Cpu !in cs[k].requests && line.desired == Text(action, CpuRequest))
           || (line.key == Memory && Memory !in cs[k].requests && line.desired == Text(action, MemoryRequest))
         case Limits =>
           || (line.key == Cpu && Cpu !in cs[k].limits && line.desired == Text(action, CpuLimit))
           || (line.key == Memory && Memory !in cs[k].limits && line.desired == Text(action, MemoryLimit))
       }
  }

  ghost predicate TellsOf(action: Action, c: Cluster, line: Change) {
    && HasTemplate(action, c)
    && (|| (exists k: nat :: LineOf(action, InitContainers, c[TemplateOf(action)].spec.initContainers, line, k))
        || (exists k: nat :: LineOf(action, Containers, c[TemplateOf(action)].spec.containers, line, k)))
  }

  lemma GapIsLine(action: Action, field: Field, cs: seq<Container>, line: Change, k: nat)
    ensures IsGap(field, cs, QuantitiesOf(action), line, k) <==> LineOf(action, field, cs, line, k)
  {}

  lemma LinesAreOf(action: Action, field: Field, cs: seq<Container>, line: Change)
    ensures line in ListChanges(field, cs, QuantitiesOf(action)) <==>
              exists k: nat :: LineOf(action, field, cs, line, k)
  {
    LinesAreExactlyTheGaps(field, cs, QuantitiesOf(action), line);
    if k: nat :| IsGap(field, cs, QuantitiesOf(action), line, k) {
      GapIsLine(action, field, cs, line, k);
      assert LineOf(action, field, cs, line, k);
    }
    if k: nat :| LineOf(action, field, cs, line, k) {
      GapIsLine(action, field, cs, line, k);
      assert IsGap(field, cs, QuantitiesOf(action), line, k);
    }
  }
}
