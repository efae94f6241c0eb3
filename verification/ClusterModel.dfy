/**
 * The cluster as the operator sees it, the one object each action would write, and the atomic steps of a plan:
 * take a snapshot, write an object, restore a snapshot item.
 */
module ClusterModel {
  import opened Basics
  import opened Catalog
  import opened Workload

  datatype LabelKey = ManagedBy | PodSecurityEnforce | PodSecurityAudit | PodSecurityWarn | OtherLabel(text: string)

  datatype LimitItem = ContainerDefaults(request: map<ResourceName, string>, limit: map<ResourceName, string>)

  datatype Spec =
    | PodTemplate(initContainers: seq<Container>, containers: seq<Container>, selector: map<string, string>,
                  rest: string)
    | Quota(hardRequests: map<ResourceName, string>)
    | LimitDefaults(limits: seq<LimitItem>)
    | DisruptionBudget(minAvailable: string, selector: map<string, string>)
    | OpaqueSpec(text: string)

  /** An object without its status and server-set metadata; `rest` is everything else an update replaces. */
  datatype Obj = Obj(labels: map<LabelKey, string>, spec: Spec, rest: string)

  type Cluster = map<Ref, Obj>

  /** One entry of a saved snapshot: what was stored under `ref`, if anything. */
  datatype Item = Item(ref: Ref, state: Option<Obj>)

  /** `snapshots` is the plan's snapshot ConfigMap; its keys are injective hashes of the actions. */
  datatype World = World(cluster: Cluster, snapshots: map<Action, seq<Item>>)

  function StateOf(cluster: Cluster, ref: Ref): Option<Obj> {
    if ref in cluster then Some(cluster[ref]) else None
  }

  lemma SameStatesSameCluster(a: Cluster, b: Cluster)
    requires forall ref :: StateOf(a, ref) == StateOf(b, ref)
    ensures a == b
  {
    forall ref ensures ref in a <==> ref in b { assert StateOf(a, ref) == StateOf(b, ref); }
    forall ref | ref in a ensures a[ref] == b[ref] { assert StateOf(a, ref) == StateOf(b, ref); }
  }

  const OWNER := "kubeathrix"

  const DEFAULTS := "kubeathrix-defaults"

  predicate Managed(obj: Obj) {
    ManagedBy in obj.labels && obj.labels[ManagedBy] == OWNER
  }

  predicate ProtectedNamespace(namespace: string) {
    namespace in {"kube-system", "kube-public", "kube-node-lease"} || "openshift-" <= namespace
  }

  function ValueOr(value: string, fallback: string): string {
    if Blank(value) then fallback else value
  }

  // ---- Targets ----

  function TargetNamespace(action: Action): Option<string> {
    if action.target.kind == Namespace then Some(action.target.name)
    else if action.target.namespace != "" then Some(action.target.namespace)
    else None
  }

  predicate CompleteTarget(target: Ref) {
    && target.name != "" && target.kind != OtherKind("") && target.apiVersion != OtherVersion("")
    && (target.kind == Namespace || target.namespace != "")
  }

  function QuotaRef(namespace: string): Ref { Ref(V1, ResourceQuota, namespace, DEFAULTS) }

  function LimitsRef(namespace: string): Ref { Ref(V1, LimitRange, namespace, DEFAULTS) }

  function NamespaceRef(name: string): Ref { Ref(V1, Namespace, "", name) }

  function WorkloadRef(action: Action): Ref {
    Ref(AppsV1, action.target.kind, action.target.namespace, action.target.name)
  }

  function PdbRef(action: Action): Ref {
    Ref(PolicyV1, PodDisruptionBudget, action.target.namespace, action.target.name + "-kubeathrix")
  }

  /** Every object the executor of this action may write. */
  function WriteRefs(action: Action): set<Ref> {
    match action.kind
    case ApplyResourceGovernance =>
      (match TargetNamespace(action) case Some(ns) => {QuotaRef(ns), LimitsRef(ns)} case None => {})
    case PatchPodSecurityLabels => (match TargetNamespace(action) case Some(ns) => {NamespaceRef(ns)} case None => {})
    case PatchWorkloadResources => {WorkloadRef(action)}
    case PatchWorkloadProbes => {WorkloadRef(action)}
    case CreatePdb => {PdbRef(action)}
    case _ => {}
  }

  /** The objects snapshotItemsForAction reads, in its order; none when it refuses the action. */
  function SnapshotRefs(action: Action): Option<seq<Ref>> {
    if !CompleteTarget(action.target) then None
    else
      match action.kind
      case ApplyResourceGovernance =>
        (match TargetNamespace(action) case Some(ns) => Some([QuotaRef(ns), LimitsRef(ns)]) case None => None)
      case CreatePdb => Some([PdbRef(action)])
      case PatchPodSecurityLabels => Some([NamespaceRef(action.target.name)])
      case PatchWorkloadResources => Some([action.target])
      case PatchWorkloadProbes => Some([action.target])
      case _ => None
  }

  // ---- What each action would write ----

  const QUOTA_SPEC := Quota(map[Cpu := "4", Memory := "8Gi"])

  const LIMITS_SPEC := LimitDefaults([ContainerDefaults(map[Cpu := "100m", Memory := "128Mi"],
                                                        map[Cpu := "500m", Memory := "512Mi"])])

  /** upsertObject: create, or replace an object KubeAthrix already manages, but never take over another's. */
  function Upserted(cluster: Cluster, ref: Ref, spec: Spec): Option<Obj> {
    if ref in cluster && !Managed(cluster[ref]) then None
    else Some(Obj(map[ManagedBy := OWNER], spec, ""))
  }

  function PodSecurityLabels(action: Action): map<LabelKey, string> {
    map[PodSecurityEnforce := ValueOr(ParamOf(action, Enforce), "baseline"),
        PodSecurityAudit := ValueOr(ParamOf(action, Audit), "restricted"),
        PodSecurityWarn := ValueOr(ParamOf(action, Warn), "restricted")]
  }

  function QuantitiesOf(action: Action): Quantities {
    Quantities(ParamOf(action, CpuRequest), ParamOf(action, MemoryRequest), ParamOf(action, CpuLimit),
               ParamOf(action, MemoryLimit))
  }

  function BoundedInt(raw: string, fallback: int, minimum: int, maximum: int): int {
    match ParseInt(raw) case None => fallback case Some(v) => if minimum <= v <= maximum then v else fallback
  }

  predicate AllDigits(raw: string) {
    raw != "" && forall k :: 0 <= k < |raw| ==> '0' <= raw[k] <= '9'
  }

  /** A decimal integer with an optional sign; values beyond 32 bits lie outside every bound used here. */
  function ParseInt(raw: string): Option<int> {
    if AllDigits(raw) then Some(Digits(raw))
    else if raw != "" && raw[0] in {'+', '-'} && AllDigits(raw[1..]) then
      Some(if raw[0] == '-' then -Digits(raw[1..]) else Digits(raw[1..]))
    else None
  }

  function Digits(raw: string): int
    requires forall k :: 0 <= k < |raw| ==> '0' <= raw[k] <= '9'
  {
    if raw == "" then 0 else 10 * Digits(raw[..|raw| - 1]) + (raw[|raw| - 1] - '0') as int
  }

  function SafeHttpProbe(path: string, action: Action): Probe {
    HttpGet(path, ParamOf(action, Port),
            BoundedInt(ParamOf(action, OtherParam("initialDelaySeconds")), 5, 0, 300),
            BoundedInt(ParamOf(action, OtherParam("periodSeconds")), 10, 2, 300),
            BoundedInt(ParamOf(action, OtherParam("timeoutSeconds")), 2, 1, 30),
            BoundedInt(ParamOf(action, OtherParam("failureThreshold")), 3, 1, 10))
  }

  function OrProbe(current: Option<Probe>, probe: Probe): Option<Probe> {
    if current.Some? then current else Some(probe)
  }

  /** Position of the first container with this name. */
  function FirstNamed(cs: seq<Container>, name: string): (k: Option<nat>)
    ensures k.Some? ==> k.value < |cs| && cs[k.value].name == name
  {
    if |cs| == 0 then None
    else if cs[0].name == name then Some(0)
    else match FirstNamed(cs[1..], name) case None => None case Some(k) => Some(k + 1)
  }

  function WithProbes(cs: seq<Container>, action: Action): Option<seq<Container>> {
    match FirstNamed(cs, ParamOf(action, ContainerName))
    case None => None
    case Some(k) =>
      Some(cs[k := cs[k].(readiness := OrProbe(cs[k].readiness, SafeHttpProbe(ParamOf(action, ReadinessPath), action)),
                          liveness := OrProbe(cs[k].liveness, SafeHttpProbe(ParamOf(action, LivenessPath), action)))])
  }

  function WorkloadSpecOf(action: Action, cluster: Cluster): Option<Spec> {
    if CompleteTarget(action.target) && IsWorkloadKind(action.target.kind) && WorkloadRef(action) in cluster
       && cluster[WorkloadRef(action)].spec.PodTemplate?
    then Some(cluster[WorkloadRef(action)].spec) else None
  }

  /**
   * The object the executor would store under `ref`, given the cluster; None when it refuses or does not write there.
   */
  function Intended(action: Action, ref: Ref, cluster: Cluster, parse: QuantityParser): Option<Obj> {
    if ref !in WriteRefs(action) then None
    else
      match action.kind
      case ApplyResourceGovernance =>
        if TargetNamespace(action) == Some("") then None
        else Upserted(cluster, ref, if ref.kind == ResourceQuota then QUOTA_SPEC else LIMITS_SPEC)
      case PatchPodSecurityLabels =>
        if ref !in cluster || ProtectedNamespace(ref.name) then None
        else Some(cluster[ref].(labels := cluster[ref].labels + PodSecurityLabels(action)))
      case PatchWorkloadResources =>
        if WorkloadSpecOf(action, cluster).None? || !GoodQuantities(QuantitiesOf(action), parse) then None
        else
          var spec := WorkloadSpecOf(action, cluster).value;
          var q := Parsed(QuantitiesOf(action), parse);
          Some(cluster[ref].(spec := spec.(initContainers := FillAll(spec.initContainers, q),
                                           containers := FillAll(spec.containers, q))))
      case PatchWorkloadProbes =>
        if WorkloadSpecOf(action, cluster).None? || ParamOf(action, Configured) != "true" then None
        else
          var spec := WorkloadSpecOf(action, cluster).value;
          (match WithProbes(spec.containers, action)
           case None => None
           case Some(cs) => Some(cluster[ref].(spec := spec.(containers := cs))))
      case CreatePdb =>
        if WorkloadSpecOf(action, cluster).None? || action.target.kind == DaemonSet
           || WorkloadSpecOf(action, cluster).value.selector == map[] then None
        else Upserted(cluster, ref,
                      DisruptionBudget(ParamOf(action, MinAvailable), WorkloadSpecOf(action, cluster).value.selector))
      case _ => None
  }

  function WrittenAt(action: Action, ref: Ref, cluster: Cluster, parse: QuantityParser): Cluster {
    match Intended(action, ref, cluster, parse) case Some(obj) => cluster[ref := obj] case None => cluster
  }

  /** Every object the action would write can be written. */
  predicate Writable(action: Action, cluster: Cluster, parse: QuantityParser) {
    WriteRefs(action) != {} && forall ref :: ref in WriteRefs(action) ==> Intended(action, ref, cluster, parse).Some?
  }

  /** The cluster after the action's writes, in the executor's order, stopping at the first that is refused. */
  function AppliedTo(action: Action, cluster: Cluster, parse: QuantityParser): Cluster {
    match action.kind
    case ApplyResourceGovernance =>
      (match TargetNamespace(action)
       case None => cluster
       case Some(ns) =>
         if Intended(action, QuotaRef(ns), cluster, parse).None? then cluster
         else WrittenAt(action, LimitsRef(ns), WrittenAt(action, QuotaRef(ns), cluster, parse), parse))
    case PatchPodSecurityLabels =>
      (match TargetNamespace(action)
       case None => cluster
       case Some(ns) => WrittenAt(action, NamespaceRef(ns), cluster, parse))
    case PatchWorkloadResources => WrittenAt(action, WorkloadRef(action), cluster, parse)
    case PatchWorkloadProbes => WrittenAt(action, WorkloadRef(action), cluster, parse)
    case CreatePdb => WrittenAt(action, PdbRef(action), cluster, parse)
    case _ => cluster
  }

  /** What the executor's read-back checks before it reports success. */
  predicate Achieved(action: Action, cluster: Cluster) {
    match action.kind
    case ApplyResourceGovernance =>
      && TargetNamespace(action).Some?
      && (var quota, limits := QuotaRef(TargetNamespace(action).value), LimitsRef(TargetNamespace(action).value);
          && quota in cluster && cluster[quota].spec.Quota?
          && Cpu in cluster[quota].spec.hardRequests && cluster[quota].spec.hardRequests[Cpu] == "4"
          && Memory in cluster[quota].spec.hardRequests && cluster[quota].spec.hardRequests[Memory] == "8Gi"
          && limits in cluster && cluster[limits].spec.LimitDefaults? && |cluster[limits].spec.limits| == 1)
    case PatchPodSecurityLabels =>
      && TargetNamespace(action).Some? && NamespaceRef(TargetNamespace(action).value) in cluster
      && (var labels := cluster[NamespaceRef(TargetNamespace(action).value)].labels;
          forall key :: key in PodSecurityLabels(action) ==>
            key in labels && labels[key] == PodSecurityLabels(action)[key])
    case PatchWorkloadResources =>
      && WorkloadSpecOf(action, cluster).Some?
      && AllComplete(WorkloadSpecOf(action, cluster).value.initContainers)
      && AllComplete(WorkloadSpecOf(action, cluster).value.containers)
    case PatchWorkloadProbes =>
      && WorkloadSpecOf(action, cluster).Some?
      && (var cs := WorkloadSpecOf(action, cluster).value.containers;
          var k := FirstNamed(cs, ParamOf(action, ContainerName));
          k.Some? && ProbeMatches(cs[k.value].readiness, ParamOf(action, ReadinessPath), ParamOf(action, Port))
          && ProbeMatches(cs[k.value].liveness, ParamOf(action, LivenessPath), ParamOf(action, Port)))
    case CreatePdb =>
      && PdbRef(action) in cluster && cluster[PdbRef(action)].spec.DisruptionBudget?
      && cluster[PdbRef(action)].spec.selector != map[]
      && cluster[PdbRef(action)].spec.minAvailable == ParamOf(action, MinAvailable)
    case _ => false
  }

  predicate ProbeMatches(probe: Option<Probe>, path: string, port: string) {
    probe.Some? && probe.value.path == path && probe.value.port == port
  }

  // ---- Atomic steps ----

  function ItemsFor(cluster: Cluster, refs: seq<Ref>): (items: seq<Item>)
    ensures |items| == |refs| && forall k :: 0 <= k < |refs| ==> items[k] == Item(refs[k], StateOf(cluster, refs[k]))
  {
    seq(|refs|, k requires 0 <= k < |refs| => Item(refs[k], StateOf(cluster, refs[k])))
  }

  /** restoreSnapshotItem's effect on the cluster. */
  function Restored(cluster: Cluster, item: Item): Cluster {
    match item.state case Some(obj) => cluster[item.ref := obj] case None => cluster - {item.ref}
  }

  function RestoreItems(cluster: Cluster, items: seq<Item>): Cluster {
    if |items| == 0 then cluster else Restored(RestoreItems(cluster, items[..|items| - 1]), items[|items| - 1])
  }

  /** A rollback pass that visits the snapshot keys in the given order. */
  function RestoreKeys(cluster: Cluster, snapshots: map<Action, seq<Item>>, order: seq<Action>): Cluster
    requires forall k :: 0 <= k < |order| ==> order[k] in snapshots
  {
    if |order| == 0 then cluster
    else RestoreItems(RestoreKeys(cluster, snapshots, order[..|order| - 1]), snapshots[order[|order| - 1]])
  }

  ghost predicate Saved(snapshots: map<Action, seq<Item>>, item: Item) {
    exists a :: a in snapshots && item in snapshots[a]
  }

  /** Every object is either untouched or back in a saved state. */
  ghost predicate PartlyRestored(before: Cluster, after: Cluster, snapshots: map<Action, seq<Item>>) {
    forall ref :: StateOf(after, ref) == StateOf(before, ref) || Saved(snapshots, Item(ref, StateOf(after, ref)))
  }

  ghost predicate SnapshotStep(acts: set<Action>, w: World, w': World, a: Action) {
    && a in acts && a !in w.snapshots && SnapshotRefs(a).Some?
    && w' == w.(snapshots := w.snapshots[a := ItemsFor(w.cluster, SnapshotRefs(a).value)])
  }

  ghost predicate WriteStep(acts: set<Action>, parse: QuantityParser, w: World, w': World, a: Action, ref: Ref) {
    && a in acts && a in w.snapshots && Intended(a, ref, w.cluster, parse).Some?
    && w' == w.(cluster := w.cluster[ref := Intended(a, ref, w.cluster, parse).value])
  }

  ghost predicate RestoreStep(w: World, w': World, a: Action, k: nat) {
    && a in w.snapshots && k < |w.snapshots[a]|
    && w' == w.(cluster := Restored(w.cluster, w.snapshots[a][k]))
  }

  ghost predicate Step(acts: set<Action>, parse: QuantityParser, w: World, w': World) {
    || (exists a :: SnapshotStep(acts, w, w', a))
    || (exists a, ref :: WriteStep(acts, parse, w, w', a, ref))
    || (exists a, k :: RestoreStep(w, w', a, k))
  }

  ghost predicate IsRun(acts: set<Action>, parse: QuantityParser, run: seq<World>) {
    |run| > 0 && forall k :: 0 <= k < |run| - 1 ==> Step(acts, parse, run[k], run[k + 1])
  }

  ghost predicate RunFromTo(acts: set<Action>, parse: QuantityParser, run: seq<World>, w: World, w': World) {
    IsRun(acts, parse, run) && run[0] == w && run[|run| - 1] == w'
  }

  /** `w'` follows from `w` by any number of steps, in any order. */
  ghost predicate Reach(acts: set<Action>, parse: QuantityParser, w: World, w': World) {
    exists run :: RunFromTo(acts, parse, run, w, w')
  }

  lemma ReachSelf(acts: set<Action>, parse: QuantityParser, w: World)
    ensures Reach(acts, parse, w, w)
  {
    assert RunFromTo(acts, parse, [w], w, w);
  }

  lemma ReachThrough(acts: set<Action>, parse: QuantityParser, a: World, b: World, c: World)
    requires Reach(acts, parse, a, b) && Reach(acts, parse, b, c)
    ensures Reach(acts, parse, a, c)
  {
    var first :| RunFromTo(acts, parse, first, a, b);
    var second :| RunFromTo(acts, parse, second, b, c);
    var run := first + second[1..];
    forall k | 0 <= k < |run| - 1 ensures Step(acts, parse, run[k], run[k + 1]) {
      if k < |first| - 1 {
        assert Step(acts, parse, first[k], first[k + 1]);
      } else {
        var j := k - (|first| - 1);
        assert Step(acts, parse, second[j], second[j + 1]);
      }
    }
    assert RunFromTo(acts, parse, run, a, c);
  }

  lemma ReachStep(acts: set<Action>, parse: QuantityParser, w: World, w': World)
    requires Step(acts, parse, w, w')
    ensures Reach(acts, parse, w, w')
  {
    assert RunFromTo(acts, parse, [w, w'], w, w');
  }
}
