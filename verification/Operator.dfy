/**
 * The remediation operator: executors, snapshots, the action loop and rollback, over an API that may fail at any call.
 */
module Operator {
  import opened Basics
  import opened Catalog
  import opened PlanBuilder
  import opened Workload
  import opened ClusterModel
  import opened ApplyLaws
  import opened Effects

  datatype ApiError = NotFound | Unavailable

  /** Pending: written, but the cluster's controllers have not caught up yet. */
  datatype Outcome = Done | StillPending | Failed

  datatype Phase =
    | Prepared | PhaseRejected | PendingApproval | PhaseApproved
    | PhaseFailed | DryRunFailed | SnapshotFailed | Verifying | VerificationFailed
    | Applied | DryRunPassed | PhaseProposalOnly
    | RollbackFailed | RolledBack

  /** The plan fields the operator reads. */
  datatype Plan = Plan(approvalRequired: bool, decision: Decision, executionRequested: bool, actions: seq<Action>)

  predicate GateOpen(plan: Plan) {
    (plan.approvalRequired ==> plan.decision == Approved) && plan.executionRequested
  }

  /** The phase of a plan whose gate is closed. */
  function GatePhase(plan: Plan): Phase {
    if plan.approvalRequired && plan.decision == Rejected then PhaseRejected
    else if plan.approvalRequired && plan.decision != Approved then PendingApproval
    else if plan.approvalRequired then PhaseApproved
    else Prepared
  }

  function ExecutableSet(actions: seq<Action>): set<Action> {
    set a | a in actions && Executable(a)
  }

  /** What one action contributed to the plan status. */
  datatype ActionState = Stopped(phase: Phase) | OnlyProposed | OnlyDryRun | Succeeded

  predicate IsStopPhase(phase: Phase) {
    phase in {PhaseFailed, DryRunFailed, SnapshotFailed, Verifying, VerificationFailed}
  }

  ghost predicate Completed(actions: seq<Action>, statuses: seq<ActionState>, mutationEnabled: bool) {
    |statuses| <= |actions| && forall k :: 0 <= k < |statuses| ==>
      statuses[k] == if !Executable(actions[k]) then OnlyProposed else if mutationEnabled then Succeeded else OnlyDryRun
  }

  ghost predicate AllAchieved(actions: seq<Action>, mutationEnabled: bool, cluster: Cluster) {
    forall k :: 0 <= k < |actions| && Executable(actions[k]) && mutationEnabled ==> Achieved(actions[k], cluster)
  }

  /** Later actions with disjoint writes leave earlier achievements standing. */
  lemma AchievedSurvives(actions: seq<Action>, at: nat, mutationEnabled: bool, before: Cluster, after: Cluster)
    requires at < |actions| && DisjointWrites(actions)
    requires AllAchieved(actions[..at], mutationEnabled, before)
    requires forall ref :: ref !in WriteRefs(actions[at]) ==> StateOf(after, ref) == StateOf(before, ref)
    requires !Executable(actions[at]) ==> after == before
    requires Executable(actions[at]) && mutationEnabled ==> Achieved(actions[at], after)
    ensures AllAchieved(actions[..at + 1], mutationEnabled, after)
  {
    forall k | 0 <= k < at + 1 && Executable(actions[k]) && mutationEnabled ensures Achieved(actions[k], after) {
      if k < at {
        assert actions[..at][k] == actions[k];
        if Executable(actions[at]) { assert WriteRefs(actions[k]) !! WriteRefs(actions[at]); }
        AchievedFrame(actions[k], before, after);
      }
    }
  }

  /** The loop's counters say which kinds of status occur. */
  ghost predicate Counted(statuses: seq<ActionState>, applied: nat, dryRuns: nat, proposals: nat) {
    && (applied > 0 <==> Succeeded in statuses)
    && (dryRuns > 0 <==> Succeeded in statuses || OnlyDryRun in statuses)
    && (proposals > 0 <==> OnlyProposed in statuses)
  }

  lemma CountNext(statuses: seq<ActionState>, state: ActionState, applied: nat, dryRuns: nat, proposals: nat)
    requires Counted(statuses, applied, dryRuns, proposals) && !state.Stopped?
    ensures var done, tried := state.Succeeded?, state.Succeeded? || state.OnlyDryRun?;
            Counted(statuses + [state], if done then applied + 1 else applied, if tried then dryRuns + 1 else dryRuns,
                    if state.OnlyProposed? then proposals + 1 else proposals)
  {
    var more := statuses + [state];
    assert more[|statuses|] == state;
    forall s | s in statuses ensures s in more {
      var k :| 0 <= k < |statuses| && statuses[k] == s;
      assert more[k] == s;
    }
  }

  ghost predicate AchievedSoFar(actions: seq<Action>, at: nat, mutationEnabled: bool, cluster: Cluster) {
    at <= |actions| && (DisjointWrites(actions) ==> AllAchieved(actions[..at], mutationEnabled, cluster))
  }

  lemma CompletedStep(actions: seq<Action>, statuses: seq<ActionState>, mutationEnabled: bool, state: ActionState)
    requires |statuses| < |actions| && Completed(actions, statuses, mutationEnabled)
    requires state == if !Executable(actions[|statuses|]) then OnlyProposed
                      else if mutationEnabled then Succeeded else OnlyDryRun
    ensures Completed(actions, statuses + [state], mutationEnabled)
  {}

  /** Snapshots are only ever taken of actions whose snapshot has a shape. */
  ghost predicate Recorded(snapshots: map<Action, seq<Item>>) {
    forall a :: a in snapshots ==> SnapshotRefs(a).Some?
  }

  /** The phase of a plan that got through to its end. */
  ghost function EndPhase(actions: seq<Action>): Phase {
    if exists k :: 0 <= k < |actions| && Executable(actions[k]) then Applied
    else if actions != [] then PhaseProposalOnly else Prepared
  }

  /** The same where only rehearsals are allowed. */
  ghost function RehearsedPhase(actions: seq<Action>): Phase {
    if exists k :: 0 <= k < |actions| && Executable(actions[k]) then DryRunPassed
    else if actions != [] then PhaseProposalOnly else Prepared
  }

  lemma RehearsedPhaseOf(actions: seq<Action>, statuses: seq<ActionState>)
    requires |statuses| == |actions| && Completed(actions, statuses, false)
    ensures OnlyDryRun in statuses <==> RehearsedPhase(actions) == DryRunPassed
    ensures Succeeded !in statuses
    ensures OnlyDryRun !in statuses ==> (OnlyProposed in statuses <==> actions != [])
  {
    if k :| 0 <= k < |actions| && Executable(actions[k]) { assert statuses[k] == OnlyDryRun; }
    if OnlyDryRun !in statuses && actions != [] { assert statuses[0] == OnlyProposed; }
  }

  lemma EndPhaseOf(actions: seq<Action>, statuses: seq<ActionState>)
    requires |statuses| == |actions| && Completed(actions, statuses, true)
    ensures Succeeded in statuses <==> EndPhase(actions) == Applied
    ensures OnlyDryRun !in statuses
    ensures Succeeded !in statuses ==> (OnlyProposed in statuses <==> actions != [])
  {
    if k :| 0 <= k < |actions| && Executable(actions[k]) { assert statuses[k] == Succeeded; }
    if Succeeded !in statuses && actions != [] { assert statuses[0] == OnlyProposed; }
  }

  /** The first actions got through, and the cluster is what they make of it. */
  ghost predicate InTurn(actions: seq<Action>, at: nat, start: Cluster, cluster: Cluster, parse: QuantityParser) {
    && at <= |actions| && cluster == ApplyAll(actions[..at], start, parse)
    && forall k :: 0 <= k < at ==> Goes(actions[k], start, parse)
  }

  lemma TakeTurn(actions: seq<Action>, at: nat, start: Cluster, cluster: Cluster, parse: QuantityParser)
    requires DisjointWrites(actions) && at < |actions|
    ensures InTurn(actions, at, start, cluster, parse) ==>
              (Goes(actions[at], cluster, parse) <==> Goes(actions[at], start, parse))
    ensures InTurn(actions, at, start, cluster, parse) && Goes(actions[at], start, parse) ==>
              InTurn(actions, at + 1, start,
                     if Executable(actions[at]) then AppliedTo(actions[at], cluster, parse) else cluster, parse)
  {
    GoesAtItsTurn(actions, start, parse, at);
    ApplyNext(actions, start, parse, at);
  }

  datatype Restore = RestoreDone | RestoreRefused | RestoreFailed

  /** Some saved item says "did not exist", yet an object KubeAthrix does not manage is there now. */
  ghost predicate RefusalPossible(cluster: Cluster, snapshots: map<Action, seq<Item>>) {
    exists ref :: Saved(snapshots, Item(ref, None)) && ref in cluster && !Managed(cluster[ref])
  }

  ghost predicate ListsOnce(order: seq<Action>, snapshots: map<Action, seq<Item>>) {
    && (forall k :: 0 <= k < |order| ==> order[k] in snapshots)
    && (forall i, j :: 0 <= i < j < |order| ==> order[i] != order[j])
  }

  ghost predicate ListsAll(order: seq<Action>, snapshots: map<Action, seq<Item>>) {
    forall a :: a in snapshots ==> a in order
  }

  /** `order` is what a pass has visited when `todo` is left. */
  ghost predicate Visited(order: seq<Action>, todo: set<Action>, snapshots: map<Action, seq<Item>>) {
    && ListsOnce(order, snapshots) && todo <= snapshots.Keys
    && forall a :: a in snapshots ==> (a in order <==> a !in todo)
  }

  lemma VisitNext(first: Cluster, order: seq<Action>, todo: set<Action>, snapshots: map<Action, seq<Item>>, a: Action)
    requires Visited(order, todo, snapshots) && a in todo
    ensures Visited(order + [a], todo - {a}, snapshots)
    ensures RestoreKeys(first, snapshots, order + [a])
            == RestoreItems(RestoreKeys(first, snapshots, order), snapshots[a])
  {
    assert (order + [a])[..|order|] == order;
  }

  lemma RestoreIsAStep(acts: set<Action>, parse: QuantityParser, w: World, w': World, a: Action, k: nat)
    requires a in w.snapshots && k < |w.snapshots[a]| && w'.snapshots == w.snapshots
    requires w'.cluster == w.cluster || w'.cluster == Restored(w.cluster, w.snapshots[a][k])
    ensures Reach(acts, parse, w, w')
  {
    if w' == w {
      ReachSelf(acts, parse, w);
    } else {
      assert RestoreStep(w, w', a, k);
      ReachStep(acts, parse, w, w');
    }
  }

  lemma RestoredKeepsPartly(first: Cluster, before: Cluster, after: Cluster, snapshots: map<Action, seq<Item>>,
                            a: Action, k: nat)
    requires PartlyRestored(first, before, snapshots) && a in snapshots && k < |snapshots[a]|
    requires after == before || after == Restored(before, snapshots[a][k])
    ensures PartlyRestored(first, after, snapshots)
  {
    var item := snapshots[a][k];
    assert item in snapshots[a];
    assert Saved(snapshots, item);
    forall ref ensures StateOf(after, ref) == StateOf(first, ref) || Saved(snapshots, Item(ref, StateOf(after, ref))) {
      assert StateOf(before, ref) == StateOf(first, ref) || Saved(snapshots, Item(ref, StateOf(before, ref)));
      if after != before && ref == item.ref { assert Item(ref, StateOf(after, ref)) == item; }
    }
  }

  lemma PartlyThrough(a: Cluster, b: Cluster, c: Cluster, snapshots: map<Action, seq<Item>>)
    requires PartlyRestored(a, b, snapshots) && PartlyRestored(b, c, snapshots)
    ensures PartlyRestored(a, c, snapshots)
  {
    forall ref ensures StateOf(c, ref) == StateOf(a, ref) || Saved(snapshots, Item(ref, StateOf(c, ref))) {
      assert StateOf(b, ref) == StateOf(a, ref) || Saved(snapshots, Item(ref, StateOf(b, ref)));
    }
  }

  class Reconciler {
    var cluster: Cluster
    var snapshots: map<Action, seq<Item>>
    const mutationEnabled: bool
    const parse: QuantityParser
    /** With a reliable API every call succeeds and takes effect; otherwise any call may fail. */
    const reliable: bool
    /** Whether the cluster's controllers have always caught up: rollouts are complete and budgets are observed. */
    const caughtUp: bool
    /** The actions whose dry run has passed and which have not been written since. */
    ghost var rehearsed: set<Action>

    constructor (cluster: Cluster, mutationEnabled: bool, parse: QuantityParser, reliable: bool, caughtUp: bool)
      ensures this.cluster == cluster && this.snapshots == map[]
      ensures this.mutationEnabled == mutationEnabled && this.parse == parse && this.reliable == reliable
      ensures this.caughtUp == caughtUp
    {
      this.cluster, this.snapshots, this.rehearsed := cluster, map[], {};
      this.mutationEnabled, this.parse, this.reliable, this.caughtUp := mutationEnabled, parse, reliable, caughtUp;
    }

    function State(): World
      reads this
    {
      World(cluster, snapshots)
    }

    /** Nothing fails, controllers have caught up, and writing is allowed. */
    predicate Ideal() {
      reliable && caughtUp && mutationEnabled
    }

    // ---- The API contract: any call may fail, and a failed write may or may not have taken effect ----

    method Get(ref: Ref) returns (r: Result<Obj, ApiError>)
      ensures r.Ok? ==> StateOf(cluster, ref) == Some(r.value)
      ensures r.Err? && r.error.NotFound? ==> ref !in cluster
      ensures reliable ==> r == if ref in cluster then Ok(cluster[ref]) else Err(NotFound)
    {
      var up := *;
      if !up && !reliable { return Err(Unavailable); }
      r := if ref in cluster then Ok(cluster[ref]) else Err(NotFound);
    }

    method Put(ref: Ref, obj: Obj) returns (ok: bool)
      modifies this`cluster
      ensures cluster == old(cluster) || cluster == old(cluster)[ref := obj]
      ensures ok ==> cluster == old(cluster)[ref := obj]
      ensures reliable ==> ok
    {
      ok := *;
      ok := ok || reliable;
      var taken := *;
      if ok || taken { cluster := cluster[ref := obj]; }
    }

    /** A delete that is accepted may still leave the object behind, for example while finalizers run. */
    method Delete(ref: Ref) returns (ok: bool)
      modifies this`cluster
      ensures cluster == old(cluster) || cluster == old(cluster) - {ref}
      ensures reliable ==> ok && cluster == old(cluster) - {ref}
    {
      ok := *;
      ok := ok || reliable;
      var taken := *;
      if taken || reliable { cluster := cluster - {ref}; }
    }

    /** A server-side dry run: it may be refused, and it never changes anything. */
    method DryRun() returns (ok: bool)
      ensures reliable ==> ok
    {
      ok := *;
      ok := ok || reliable;
    }

    // ---- Writing on behalf of a snapshotted action ----

    /** Stores the intended object of `action` under `ref`, or dry-runs that write. */
    method Write(action: Action, ref: Ref, obj: Obj, dryRun: bool, ghost acts: set<Action>) returns (ok: bool)
      requires Intended(action, ref, cluster, parse) == Some(obj)
      requires !dryRun ==> action in acts && action in snapshots
      modifies this`cluster
      ensures Reach(acts, parse, old(State()), State())
      ensures dryRun ==> cluster == old(cluster)
      ensures cluster == old(cluster) || cluster == old(cluster)[ref := obj]
      ensures ok && !dryRun ==> cluster == old(cluster)[ref := obj]
      ensures reliable ==> ok
    {
      ReachSelf(acts, parse, State());
      if dryRun {
        ok := DryRun();
      } else {
        ghost var before := State();
        ok := Put(ref, obj);
        if cluster != before.cluster {
          assert WriteStep(acts, parse, before, State(), action, ref);
          ReachStep(acts, parse, before, State());
        }
      }
    }

    /** upsertObject for an object this action owns by name. */
    method UpsertObject(action: Action, ref: Ref, spec: Spec, dryRun: bool, ghost acts: set<Action>) returns (ok: bool)
      requires Intended(action, ref, cluster, parse) == Upserted(cluster, ref, spec)
      requires !dryRun ==> action in acts && action in snapshots
      modifies this`cluster
      ensures Reach(acts, parse, old(State()), State())
      ensures dryRun ==> cluster == old(cluster)
      ensures cluster == old(cluster) || (Upserted(old(cluster), ref, spec).Some?
              && cluster == old(cluster)[ref := Upserted(old(cluster), ref, spec).value])
      ensures ok && !dryRun ==>
        (Upserted(old(cluster), ref, spec).Some?
         && cluster == old(cluster)[ref := Upserted(old(cluster), ref, spec).value])
      ensures reliable ==> (ok <==> Upserted(old(cluster), ref, spec).Some?)
      ensures reliable && !ok ==> cluster == old(cluster)
    {
      ReachSelf(acts, parse, State());
      var current := Get(ref);
      if current.Err? && current.error.Unavailable? { return false; }
      if current.Ok? && !Managed(current.value) { return false; }
      ok := Write(action, ref, Obj(map[ManagedBy := OWNER], spec, ""), dryRun, acts);
    }

    method ApplyResourceGovernance(action: Action, dryRun: bool, ghost acts: set<Action>) returns (ok: bool)
      requires action.kind.ApplyResourceGovernance? && TargetNamespace(action).Some?
      requires !dryRun ==> action in acts && action in snapshots
      modifies this`cluster
      ensures Reach(acts, parse, old(State()), State())
      ensures dryRun ==> cluster == old(cluster)
      ensures forall ref :: ref !in WriteRefs(action) ==> StateOf(cluster, ref) == StateOf(old(cluster), ref)
      ensures reliable && !dryRun ==> cluster == AppliedTo(action, old(cluster), parse)
      ensures reliable && dryRun ==> (ok <==> Writable(action, cluster, parse))
      ensures reliable && !dryRun && Writable(action, old(cluster), parse) ==> ok
      ensures !dryRun && ok ==>
                Writable(action, old(cluster), parse) && cluster == AppliedTo(action, old(cluster), parse)
    {
      var ns := TargetNamespace(action).value;
      ReachSelf(acts, parse, State());
      if ns == "" { return false; }
      ok := UpsertObject(action, QuotaRef(ns), QUOTA_SPEC, dryRun, acts);
      if !ok { return false; }
      ghost var middle := State();
      ok := UpsertObject(action, LimitsRef(ns), LIMITS_SPEC, dryRun, acts);
      ReachThrough(acts, parse, old(State()), middle, State());
    }

    method VerifyResourceGovernance(action: Action) returns (ok: bool)
      requires action.kind.ApplyResourceGovernance? && TargetNamespace(action).Some?
      ensures ok ==> Achieved(action, cluster)
      ensures reliable && Achieved(action, cluster) ==> ok
    {
      var ns := TargetNamespace(action).value;
      var quota := Get(QuotaRef(ns));
      if quota.Err? || !quota.value.spec.Quota? { return false; }
      var hard := quota.value.spec.hardRequests;
      if Cpu !in hard || Memory !in hard || hard[Cpu] != "4" || hard[Memory] != "8Gi" { return false; }
      var limits := Get(LimitsRef(ns));
      ok := limits.Ok? && limits.value.spec.LimitDefaults? && |limits.value.spec.limits| == 1;
    }

    method ExecuteGovernance(action: Action, dryRun: bool, ghost acts: set<Action>) returns (outcome: Outcome)
      requires action.kind.ApplyResourceGovernance?
      requires !dryRun ==> action in acts && action in snapshots
      modifies this`cluster
      ensures Reach(acts, parse, old(State()), State())
      ensures dryRun ==> cluster == old(cluster)
      ensures forall ref :: ref !in WriteRefs(action) ==> StateOf(cluster, ref) == StateOf(old(cluster), ref)
      ensures !dryRun && outcome == Done ==> Achieved(action, cluster)
      ensures reliable && !dryRun ==> cluster == AppliedTo(action, old(cluster), parse)
      ensures reliable && dryRun ==> (outcome == Done <==> Writable(action, cluster, parse))
      ensures reliable && caughtUp && !dryRun && Writable(action, old(cluster), parse) && Achieved(action, cluster) ==>
                outcome == Done
      ensures outcome == StillPending ==> !dryRun && !caughtUp && Achieved(action, cluster)
      ensures !dryRun && outcome != Failed ==>
                Writable(action, old(cluster), parse) && cluster == AppliedTo(action, old(cluster), parse)
      ensures !dryRun && outcome != Failed ==> GovernanceEffect(action, old(cluster), cluster)
    {
      ReachSelf(acts, parse, State());
      if TargetNamespace(action).None? { return Failed; }
      var ok := ApplyResourceGovernance(action, dryRun, acts);
      if !ok { return Failed; }
      if dryRun { return Done; }
      GovernanceHasEffect(action, old(cluster), parse);
      ok := VerifyResourceGovernance(action);
      outcome := if ok then Done else Failed;
    }

    method ExecutePodSecurityLabels(action: Action, dryRun: bool, ghost acts: set<Action>) returns (outcome: Outcome)
      requires action.kind.PatchPodSecurityLabels?
      requires !dryRun ==> action in acts && action in snapshots
      modifies this`cluster
      ensures Reach(acts, parse, old(State()), State())
      ensures dryRun ==> cluster == old(cluster)
      ensures forall ref :: ref !in WriteRefs(action) ==> StateOf(cluster, ref) == StateOf(old(cluster), ref)
      ensures !dryRun && outcome == Done ==> Achieved(action, cluster)
      ensures reliable && !dryRun ==> cluster == AppliedTo(action, old(cluster), parse)
      ensures reliable && dryRun ==> (outcome == Done <==> Writable(action, cluster, parse))
      ensures reliable && caughtUp && !dryRun && Writable(action, old(cluster), parse) && Achieved(action, cluster) ==>
                outcome == Done
      ensures outcome == StillPending ==> !dryRun && !caughtUp && Achieved(action, cluster)
      ensures !dryRun && outcome != Failed ==>
                Writable(action, old(cluster), parse) && cluster == AppliedTo(action, old(cluster), parse)
      ensures !dryRun && outcome != Failed ==> PodSecurityEffect(action, old(cluster), cluster)
    {
      ReachSelf(acts, parse, State());
      if TargetNamespace(action).None? || ProtectedNamespace(TargetNamespace(action).value) { return Failed; }
      var ref := NamespaceRef(TargetNamespace(action).value);
      var desired := PodSecurityLabels(action);
      var found := Get(ref);
      if found.Err? { return Failed; }
      var ok := Write(action, ref, found.value.(labels := found.value.labels + desired), dryRun, acts);
      if !ok { return Failed; }
      if dryRun { return Done; }
      LabelsHaveEffect(action, old(cluster), parse);
      var verified := Get(ref);
      if verified.Err? { return Failed; }
      if exists key :: key in desired && (key !in verified.value.labels || verified.value.labels[key] != desired[key]) {
        return Failed;
      }
      outcome := Done;
    }

    /** Reads the target workload's pod template, or refuses. */
    method GetTemplate(action: Action) returns (r: Option<Obj>)
      ensures r.Some? ==> r.value.spec.PodTemplate? && StateOf(cluster, WorkloadRef(action)) == r
      ensures r.Some? ==> WorkloadSpecOf(action, cluster) == Some(r.value.spec)
      ensures reliable ==> (r.Some? <==> WorkloadSpecOf(action, cluster).Some?)
    {
      if !CompleteTarget(action.target) || !IsWorkloadKind(action.target.kind) { return None; }
      var found := Get(WorkloadRef(action));
      if found.Err? || !found.value.spec.PodTemplate? { return None; }
      r := Some(found.value);
    }

    /** verifyWorkloadRollout: the rollout status is whatever the cluster's controllers report. */
    method RolloutOutcome() returns (outcome: Outcome)
      ensures caughtUp ==> outcome == Done
    {
      var reached, available := *, *;
      if caughtUp { return Done; }
      outcome := if !reached then Failed else if !available then StillPending else Done;
    }

    method ExecuteWorkloadResources(action: Action, dryRun: bool, ghost acts: set<Action>) returns (outcome: Outcome)
      requires action.kind.PatchWorkloadResources?
      requires !dryRun ==> action in acts && action in snapshots
      modifies this`cluster
      ensures Reach(acts, parse, old(State()), State())
      ensures dryRun ==> cluster == old(cluster)
      ensures forall ref :: ref !in WriteRefs(action) ==> StateOf(cluster, ref) == StateOf(old(cluster), ref)
      ensures !dryRun && outcome == Done ==> Achieved(action, cluster)
      ensures reliable && !dryRun ==> cluster == AppliedTo(action, old(cluster), parse)
      ensures reliable && dryRun ==> (outcome == Done <==> Writable(action, cluster, parse))
      ensures reliable && caughtUp && !dryRun && Writable(action, old(cluster), parse) && Achieved(action, cluster) ==>
                outcome == Done
      ensures outcome == StillPending ==> !dryRun && !caughtUp && Achieved(action, cluster)
      ensures !dryRun && outcome != Failed ==>
                Writable(action, old(cluster), parse) && cluster == AppliedTo(action, old(cluster), parse)
      ensures !dryRun && outcome != Failed ==> ResourcesEffect(action, old(cluster), cluster, parse)
    {
      ReachSelf(acts, parse, State());
      if !GoodQuantities(QuantitiesOf(action), parse) { return Failed; }
      var q := Parsed(QuantitiesOf(action), parse);
      var found := GetTemplate(action);
      if found.None? { return Failed; }
      var spec := found.value.spec;
      var newInit, newContainers := Workload.ExecuteWorkloadResources(spec.initContainers, spec.containers, q);
      var filled := found.value.(spec := spec.(initContainers := newInit, containers := newContainers));
      var ok := Write(action, WorkloadRef(action), filled, dryRun, acts);
      if !ok { return Failed; }
      if dryRun { return Done; }
      ResourcesHaveEffect(action, old(cluster), parse);
      var verified := GetTemplate(action);
      if verified.None? || !AllComplete(verified.value.spec.initContainers)
        || !AllComplete(verified.value.spec.containers) {
        return Failed;
      }
      outcome := RolloutOutcome();
    }

    /** Adds the missing probes to the named container. */
    method WriteProbes(action: Action, dryRun: bool, ghost acts: set<Action>) returns (ok: bool)
      requires action.kind.PatchWorkloadProbes? && ParamOf(action, Configured) == "true"
      requires !dryRun ==> action in acts && action in snapshots
      modifies this`cluster
      ensures Reach(acts, parse, old(State()), State())
      ensures dryRun ==> cluster == old(cluster)
      ensures forall ref :: ref !in WriteRefs(action) ==> StateOf(cluster, ref) == StateOf(old(cluster), ref)
      ensures reliable && !dryRun ==> cluster == AppliedTo(action, old(cluster), parse)
      ensures reliable && dryRun ==> (ok <==> Writable(action, cluster, parse))
      ensures reliable && !dryRun && Writable(action, old(cluster), parse) ==> ok
      ensures !dryRun && ok ==>
                Writable(action, old(cluster), parse) && cluster == AppliedTo(action, old(cluster), parse)
    {
      ReachSelf(acts, parse, State());
      var found := GetTemplate(action);
      if found.None? { return false; }
      var edited := WithProbes(found.value.spec.containers, action);
      if edited.None? { return false; }
      ok := Write(action, WorkloadRef(action), found.value.(spec := found.value.spec.(containers := edited.value)),
                  dryRun, acts);
    }

    method VerifyProbes(action: Action) returns (ok: bool)
      requires action.kind.PatchWorkloadProbes?
      ensures ok ==> Achieved(action, cluster)
      ensures reliable && Achieved(action, cluster) ==> ok
    {
      var verified := GetTemplate(action);
      if verified.None? { return false; }
      var cs := verified.value.spec.containers;
      var k := FirstNamed(cs, ParamOf(action, ContainerName));
      ok := k.Some? && ProbeMatches(cs[k.value].readiness, ParamOf(action, ReadinessPath), ParamOf(action, Port))
            && ProbeMatches(cs[k.value].liveness, ParamOf(action, LivenessPath), ParamOf(action, Port));
    }

    method ExecuteWorkloadProbes(action: Action, dryRun: bool, ghost acts: set<Action>) returns (outcome: Outcome)
      requires action.kind.PatchWorkloadProbes?
      requires !dryRun ==> action in acts && action in snapshots
      modifies this`cluster
      ensures Reach(acts, parse, old(State()), State())
      ensures dryRun ==> cluster == old(cluster)
      ensures forall ref :: ref !in WriteRefs(action) ==> StateOf(cluster, ref) == StateOf(old(cluster), ref)
      ensures !dryRun && outcome == Done ==> Achieved(action, cluster)
      ensures reliable && !dryRun ==> cluster == AppliedTo(action, old(cluster), parse)
      ensures reliable && dryRun ==> (outcome == Done <==> Writable(action, cluster, parse))
      ensures reliable && caughtUp && !dryRun && Writable(action, old(cluster), parse) && Achieved(action, cluster) ==>
                outcome == Done
      ensures outcome == StillPending ==> !dryRun && !caughtUp && Achieved(action, cluster)
      ensures !dryRun && outcome != Failed ==>
                Writable(action, old(cluster), parse) && cluster == AppliedTo(action, old(cluster), parse)
      ensures !dryRun && outcome != Failed ==> ProbesEffect(action, old(cluster), cluster)
    {
      ReachSelf(acts, parse, State());
      if ParamOf(action, Configured) != "true" { return Failed; }
      var ok := WriteProbes(action, dryRun, acts);
      if !ok { return Failed; }
      if dryRun { return Done; }
      WorkloadProbesHaveEffect(action, old(cluster), parse);
      ok := VerifyProbes(action);
      if !ok { return Failed; }
      outcome := RolloutOutcome();
    }

    method ExecutePdb(action: Action, dryRun: bool, ghost acts: set<Action>) returns (outcome: Outcome)
      requires action.kind.CreatePdb?
      requires !dryRun ==> action in acts && action in snapshots
      modifies this`cluster
      ensures Reach(acts, parse, old(State()), State())
      ensures dryRun ==> cluster == old(cluster)
      ensures forall ref :: ref !in WriteRefs(action) ==> StateOf(cluster, ref) == StateOf(old(cluster), ref)
      ensures !dryRun && outcome == Done ==> Achieved(action, cluster)
      ensures reliable && !dryRun ==> cluster == AppliedTo(action, old(cluster), parse)
      ensures reliable && dryRun ==> (outcome == Done <==> Writable(action, cluster, parse))
      ensures reliable && caughtUp && !dryRun && Writable(action, old(cluster), parse) && Achieved(action, cluster) ==>
                outcome == Done
      ensures outcome == StillPending ==> !dryRun && !caughtUp && Achieved(action, cluster)
      ensures !dryRun && outcome != Failed ==>
                Writable(action, old(cluster), parse) && cluster == AppliedTo(action, old(cluster), parse)
      ensures !dryRun && outcome != Failed ==> BudgetEffect(action, old(cluster), cluster)
    {
      ReachSelf(acts, parse, State());
      if action.target.kind == DaemonSet { return Failed; }
      var workload := GetTemplate(action);
      if workload.None? || workload.value.spec.selector == map[] { return Failed; }
      var minimum := ParamOf(action, MinAvailable);
      var ok := UpsertObject(action, PdbRef(action), DisruptionBudget(minimum, workload.value.spec.selector),
                             dryRun, acts);
      if !ok { return Failed; }
      if dryRun { return Done; }
      AppliedHasEffect(action, old(cluster), parse);
      var verified := Get(PdbRef(action));
      if verified.Err? || !verified.value.spec.DisruptionBudget? || verified.value.spec.selector == map[]
         || verified.value.spec.minAvailable != minimum {
        return Failed;
      }
      var observed := *;
      outcome := if observed || caughtUp then Done else StillPending;
    }

    /** A dry run rehearses the action; a real run needs that rehearsal, and uses it up. */
    method ExecuteTypedAction(action: Action, dryRun: bool, ghost acts: set<Action>) returns (outcome: Outcome)
      requires !dryRun ==> action in acts && action in snapshots && action in rehearsed
      modifies this`cluster, this`rehearsed
      ensures Reach(acts, parse, old(State()), State())
      ensures dryRun ==> cluster == old(cluster)
      ensures dryRun && outcome == Done ==> action in rehearsed
      ensures forall ref :: ref !in WriteRefs(action) ==> StateOf(cluster, ref) == StateOf(old(cluster), ref)
      ensures !dryRun && outcome == Done ==> Achieved(action, cluster)
      ensures reliable && !dryRun ==> cluster == AppliedTo(action, old(cluster), parse)
      ensures reliable && dryRun ==> (outcome == Done <==> Writable(action, cluster, parse))
      ensures reliable && caughtUp && !dryRun && Writable(action, old(cluster), parse) && Achieved(action, cluster) ==>
                outcome == Done
      ensures outcome == StillPending ==> !dryRun && !caughtUp && Achieved(action, cluster)
      ensures !dryRun && outcome != Failed ==>
                Writable(action, old(cluster), parse) && cluster == AppliedTo(action, old(cluster), parse)
      ensures !dryRun && outcome != Failed ==> Effect(action, old(cluster), cluster, parse)
      ensures reliable && dryRun ==> (outcome == Done <==> Accepts(action, cluster, parse))
    {
      match action.kind {
        case ApplyResourceGovernance => outcome := ExecuteGovernance(action, dryRun, acts);
        case PatchPodSecurityLabels => outcome := ExecutePodSecurityLabels(action, dryRun, acts);
        case PatchWorkloadResources => outcome := ExecuteWorkloadResources(action, dryRun, acts);
        case CreatePdb => outcome := ExecutePdb(action, dryRun, acts);
        case PatchWorkloadProbes => outcome := ExecuteWorkloadProbes(action, dryRun, acts);
        case _ =>
          ReachSelf(acts, parse, State());
          outcome := Failed;
      }
      rehearsed := if dryRun && outcome == Done then rehearsed + {action} else rehearsed - {action};
      WritableIff(action, old(cluster), parse);
      if !dryRun && outcome != Failed { AppliedHasEffect(action, old(cluster), parse); }
    }

    // ---- Snapshots ----

    method SnapshotItemsForAction(action: Action) returns (r: Option<seq<Item>>)
      ensures r.Some? ==> SnapshotRefs(action).Some? && r.value == ItemsFor(cluster, SnapshotRefs(action).value)
      ensures reliable ==> (r.Some? <==> SnapshotRefs(action).Some?)
    {
      var refs := SnapshotRefs(action);
      if refs.None? { return None; }
      var items := [];
      for at := 0 to |refs.value|
        invariant |items| == at
        invariant forall k :: 0 <= k < at ==> items[k] == Item(refs.value[k], StateOf(cluster, refs.value[k]))
      {
        var found := Get(refs.value[at]);
        if found.Err? && found.error.Unavailable? { return None; }
        items := items + [Item(refs.value[at], if found.Ok? then Some(found.value) else None)];
      }
      r := Some(items);
    }

    /** Saves the pre-change state of this action's objects unless a snapshot of it already exists. */
    method EnsureActionSnapshot(action: Action, ghost acts: set<Action>) returns (ok: bool)
      requires action in acts
      modifies this`snapshots
      ensures Reach(acts, parse, old(State()), State())
      ensures ok ==> action in snapshots
      ensures action in old(snapshots) ==> snapshots == old(snapshots)
      ensures snapshots == old(snapshots) || (SnapshotRefs(action).Some?
              && snapshots == old(snapshots)[action := ItemsFor(cluster, SnapshotRefs(action).value)])
      ensures reliable ==> (ok <==> action in old(snapshots) || SnapshotRefs(action).Some?)
    {
      ReachSelf(acts, parse, State());
      var reachable := *;
      if !reachable && !reliable { return false; }
      if action in snapshots { return true; }
      var items := SnapshotItemsForAction(action);
      if items.None? { return false; }
      var taken;
      ok, taken := *, *;
      ok := ok || reliable;
      if ok || taken {
        ghost var before := State();
        snapshots := snapshots[action := items.value];
        assert SnapshotStep(acts, before, State(), action);
        ReachStep(acts, parse, before, State());
      }
    }

    // ---- The action loop ----

    /** One iteration of the action loop: validate, dry-run, snapshot, write, verify. */
    method ProcessAction(action: Action, ghost acts: set<Action>) returns (state: ActionState)
      requires Executable(action) ==> action in acts
      modifies this`cluster, this`snapshots, this`rehearsed
      ensures Reach(acts, parse, old(State()), State())
      ensures forall ref :: ref !in WriteRefs(action) ==> StateOf(cluster, ref) == StateOf(old(cluster), ref)
      ensures !mutationEnabled || !Executable(action) ==> State() == old(State())
      ensures forall a :: a in old(snapshots) ==> a in snapshots && snapshots[a] == old(snapshots)[a]
      ensures state.Succeeded? ==>
                mutationEnabled && Executable(action) && Achieved(action, cluster) && action in snapshots
      ensures state.Stopped? ==> IsStopPhase(state.phase)
      ensures state.OnlyProposed? ==> !Executable(action)
      ensures state.OnlyDryRun? ==> !mutationEnabled && Executable(action)
      ensures reliable && Executable(action) ==>
                (state == Stopped(DryRunFailed) <==> !Writable(action, old(cluster), parse))
      ensures reliable && Executable(action) && mutationEnabled && Writable(action, old(cluster), parse)
              && SnapshotRefs(action).Some? ==>
                cluster == AppliedTo(action, old(cluster), parse) && action in snapshots
      ensures state == Stopped(PhaseFailed) <==> ValidateProposal(action).Err?
      ensures state == Stopped(DryRunFailed) ==> Executable(action) && State() == old(State())
      ensures reliable && Executable(action) ==>
                (state == Stopped(DryRunFailed) <==> !Accepts(action, old(cluster), parse))
      ensures state == Stopped(SnapshotFailed) ==> mutationEnabled && Executable(action) && cluster == old(cluster)
      ensures state == Stopped(SnapshotFailed) && reliable ==>
                action !in old(snapshots) && SnapshotRefs(action).None?
      ensures state == Stopped(Verifying) ==> mutationEnabled && !caughtUp && Achieved(action, cluster)
      ensures state == Stopped(VerificationFailed) ==> mutationEnabled && Executable(action) && action in snapshots
      ensures state == Stopped(VerificationFailed) && reliable && caughtUp ==> !Achieved(action, cluster)
      ensures state == Succeeded || state == Stopped(Verifying) ==> Effect(action, old(cluster), cluster, parse)
      ensures !mutationEnabled && state.Stopped? ==> state.phase in {PhaseFailed, DryRunFailed}
      ensures !mutationEnabled && reliable ==> (!state.Stopped? <==> Rehearses(action, old(cluster), parse))
      ensures Recorded(old(snapshots)) ==> Recorded(snapshots)
      ensures Ideal() && Recorded(old(snapshots)) ==> (!state.Stopped? <==> Goes(action, old(cluster), parse))
      ensures Ideal() && !state.Stopped? ==>
                cluster == if Executable(action) then AppliedTo(action, old(cluster), parse) else old(cluster)
    {
      rehearsed := {};
      ReachSelf(acts, parse, State());
      if ValidateProposal(action).Err? { return Stopped(PhaseFailed); }
      if ExecutionModeFor(action) != Direct { return OnlyProposed; }
      if Validate(action).Err? { return OnlyProposed; }
      var tried := ExecuteTypedAction(action, true, acts);
      if tried != Done { return Stopped(DryRunFailed); }
      if !mutationEnabled { return OnlyDryRun; }
      var saved := EnsureActionSnapshot(action, acts);
      ghost var middle := State();
      if !saved { return Stopped(SnapshotFailed); }
      var outcome := ExecuteTypedAction(action, false, acts);
      ReachThrough(acts, parse, old(State()), middle, State());
      match outcome
      case Done => state := Succeeded;
      case StillPending => state := Stopped(Verifying);
      case Failed => state := Stopped(VerificationFailed);
    }

    method RunAction(actions: seq<Action>, at: nat, ghost acts: set<Action>) returns (state: ActionState)
      requires at < |actions| && acts == ExecutableSet(actions) && AchievedSoFar(actions, at, mutationEnabled, cluster)
      modifies this`cluster, this`snapshots, this`rehearsed
      ensures Reach(acts, parse, old(State()), State())
      ensures !mutationEnabled ==> State() == old(State())
      ensures state.Stopped? ==> IsStopPhase(state.phase)
      ensures !state.Stopped? ==> AchievedSoFar(actions, at + 1, mutationEnabled, cluster)
      ensures !state.Stopped? ==>
        (state == if !Executable(actions[at]) then OnlyProposed else if mutationEnabled then Succeeded else OnlyDryRun)
      ensures !mutationEnabled && state.Stopped? ==> state.phase in {PhaseFailed, DryRunFailed}
      ensures !mutationEnabled && reliable ==> (!state.Stopped? <==> Rehearses(actions[at], old(cluster), parse))
      ensures Recorded(old(snapshots)) ==> Recorded(snapshots)
      ensures Ideal() && Recorded(old(snapshots)) ==> (!state.Stopped? <==> Goes(actions[at], old(cluster), parse))
      ensures Ideal() && !state.Stopped? ==>
                cluster == if Executable(actions[at]) then AppliedTo(actions[at], old(cluster), parse) else old(cluster)
    {
      state := ProcessAction(actions[at], acts);
      if !state.Stopped? && DisjointWrites(actions) {
        AchievedSurvives(actions, at, mutationEnabled, old(cluster), cluster);
      }
    }

    /** The loop over the plan's actions; it stops at the first action that fails or still has to be verified. */
    method RunActions(actions: seq<Action>, ghost acts: set<Action>)
      returns (stop: Option<Phase>, statuses: seq<ActionState>, applied: nat, dryRuns: nat, proposals: nat)
      requires acts == ExecutableSet(actions)
      modifies this`cluster, this`snapshots, this`rehearsed
      ensures Reach(acts, parse, old(State()), State())
      ensures !mutationEnabled ==> State() == old(State())
      ensures stop.Some? ==> IsStopPhase(stop.value)
      ensures stop.None? ==> |statuses| == |actions| && Completed(actions, statuses, mutationEnabled)
      ensures stop.None? ==> Counted(statuses, applied, dryRuns, proposals)
      ensures stop.None? ==> AchievedSoFar(actions, |actions|, mutationEnabled, cluster)
      ensures !mutationEnabled && stop.Some? ==> stop.value in {PhaseFailed, DryRunFailed}
      ensures !mutationEnabled && reliable ==>
                (stop.None? <==> AllRehearse(actions, |actions|, old(cluster), parse))
      ensures Recorded(old(snapshots)) ==> Recorded(snapshots)
      ensures Ideal() && DisjointWrites(actions) && Recorded(old(snapshots)) ==>
                (stop.None? <==> AllGo(actions, old(cluster), parse))
                && (stop.None? ==> cluster == ApplyAll(actions, old(cluster), parse))
    {
      ghost var first := State();
      ReachSelf(acts, parse, first);
      statuses, applied, dryRuns, proposals := [], 0, 0, 0;
      for at := 0 to |actions|
        invariant Reach(acts, parse, first, State())
        invariant !mutationEnabled ==> State() == first
        invariant |statuses| == at && Completed(actions, statuses, mutationEnabled)
        invariant Counted(statuses, applied, dryRuns, proposals)
        invariant AchievedSoFar(actions, at, mutationEnabled, cluster)
        invariant !mutationEnabled && reliable ==> AllRehearse(actions, at, first.cluster, parse)
        invariant Recorded(first.snapshots) ==> Recorded(snapshots)
        invariant Ideal() && DisjointWrites(actions) && Recorded(first.snapshots) ==>
                    InTurn(actions, at, first.cluster, cluster, parse)
      {
        ghost var before := State();
        var state := RunAction(actions, at, acts);
        ReachThrough(acts, parse, first, before, State());
        RehearseNext(actions, at, first.cluster, parse);
        if DisjointWrites(actions) { TakeTurn(actions, at, first.cluster, before.cluster, parse); }
        if state.Stopped? { return Some(state.phase), statuses + [state], applied, dryRuns, proposals; }
        CompletedStep(actions, statuses, mutationEnabled, state);
        CountNext(statuses, state, applied, dryRuns, proposals);
        statuses := statuses + [state];
        match state {
          case OnlyProposed => proposals := proposals + 1;
          case OnlyDryRun => dryRuns := dryRuns + 1;
          case Succeeded => dryRuns, applied := dryRuns + 1, applied + 1;
        }
      }
      stop := None;
      assert actions[..|actions|] == actions;
    }

    /**
     * Applies a plan. Nothing happens while the gate is closed or mutation is disabled; whatever happens is a run of
     * snapshot-then-write steps; and `Applied` means that every executable action reads back as intended.
     */
    method ReconcilePlanActions(plan: Plan) returns (phase: Phase, statuses: seq<ActionState>)
      modifies this`cluster, this`snapshots, this`rehearsed
      ensures Reach(ExecutableSet(plan.actions), parse, old(State()), State())
      ensures !GateOpen(plan) || !mutationEnabled ==> State() == old(State())
      ensures !GateOpen(plan) ==> phase == GatePhase(plan)
      ensures plan.approvalRequired && plan.decision == Rejected ==> phase == PhaseRejected
      ensures plan.approvalRequired && plan.decision == Pending ==> phase == PendingApproval
      ensures plan.approvalRequired && plan.decision == Approved && !plan.executionRequested ==> phase == PhaseApproved
      ensures !plan.approvalRequired && !plan.executionRequested ==> phase == Prepared
      ensures (plan.approvalRequired && plan.decision != Approved) || !plan.executionRequested ==>
                State() == old(State())
      ensures GateOpen(plan) && !mutationEnabled ==>
                phase in {PhaseFailed, DryRunFailed} || phase == RehearsedPhase(plan.actions)
      ensures GateOpen(plan) && !mutationEnabled && reliable ==>
                (phase == RehearsedPhase(plan.actions)
                 <==> AllRehearse(plan.actions, |plan.actions|, old(cluster), parse))
      ensures phase == Applied ==> GateOpen(plan) && mutationEnabled
      ensures phase != RolledBack
      ensures phase == Applied ==>
                |statuses| == |plan.actions| && Completed(plan.actions, statuses, true) && Succeeded in statuses
      ensures phase == Applied && DisjointWrites(plan.actions) ==> AllAchieved(plan.actions, true, cluster)
      ensures Recorded(old(snapshots)) ==> Recorded(snapshots)
      ensures Ideal() && GateOpen(plan) && DisjointWrites(plan.actions) && Recorded(old(snapshots)) ==>
                if AllGo(plan.actions, old(cluster), parse)
                then phase == EndPhase(plan.actions) && cluster == ApplyAll(plan.actions, old(cluster), parse)
                     && |statuses| == |plan.actions| && Completed(plan.actions, statuses, true)
                else IsStopPhase(phase)
    {
      ReachSelf(ExecutableSet(plan.actions), parse, State());
      if plan.approvalRequired && plan.decision == Rejected { return PhaseRejected, []; }
      if plan.approvalRequired && plan.decision != Approved { return PendingApproval, []; }
      if plan.approvalRequired && !plan.executionRequested { return PhaseApproved, []; }
      if !plan.executionRequested { return Prepared, []; }
      var stop, applied, dryRuns, proposals;
      stop, statuses, applied, dryRuns, proposals := RunActions(plan.actions, ExecutableSet(plan.actions));
      assert plan.actions[..|plan.actions|] == plan.actions;
      if stop.None? {
        if mutationEnabled { EndPhaseOf(plan.actions, statuses); } else { RehearsedPhaseOf(plan.actions, statuses); }
      }
      phase := if stop.Some? then stop.value else if applied > 0 then Applied else if dryRuns > 0 then DryRunPassed
               else if proposals > 0 then PhaseProposalOnly else Prepared;
    }

    // ---- Rollback ----

    /** restoreSnapshotItem: put the saved object back, or delete an object that did not exist before. */
    method RestoreSnapshotItem(a: Action, k: nat, ghost acts: set<Action>) returns (r: Restore)
      requires a in snapshots && k < |snapshots[a]|
      modifies this`cluster
      ensures Reach(acts, parse, old(State()), State())
      ensures cluster == old(cluster) || cluster == Restored(old(cluster), snapshots[a][k])
      ensures r == RestoreDone ==> cluster == Restored(old(cluster), snapshots[a][k])
      ensures r == RestoreRefused ==> snapshots[a][k].state.None? && snapshots[a][k].ref in cluster
                                      && !Managed(cluster[snapshots[a][k].ref])
      ensures reliable ==> r != RestoreFailed
    {
      var item := snapshots[a][k];
      ghost var before := State();
      ReachSelf(acts, parse, before);
      var current := Get(item.ref);
      if item.state.None? {
        if current.Err? {
          return if current.error.NotFound? then RestoreDone else RestoreFailed;
        }
        if !Managed(current.value) { return RestoreRefused; }
        var ok := Delete(item.ref);
        if !ok {
          RestoreIsAStep(acts, parse, before, State(), a, k);
          return RestoreFailed;
        }
      } else {
        if current.Err? && current.error.Unavailable? { return RestoreFailed; }
        var ok := Put(item.ref, item.state.value);
        if !ok {
          RestoreIsAStep(acts, parse, before, State(), a, k);
          return RestoreFailed;
        }
      }
      RestoreIsAStep(acts, parse, before, State(), a, k);
      var verified := Get(item.ref);
      r := if item.state.None? && verified.Err? && verified.error.NotFound? then RestoreDone
           else if item.state.Some? && verified.Ok? && verified.value.spec == item.state.value.spec
                   && verified.value.labels == item.state.value.labels then RestoreDone
           else RestoreFailed;
    }

    /** All items of one snapshot key, in order. */
    method RestoreKey(a: Action, ghost acts: set<Action>) returns (r: Restore)
      requires a in snapshots
      modifies this`cluster
      ensures Reach(acts, parse, old(State()), State())
      ensures PartlyRestored(old(cluster), cluster, snapshots)
      ensures r == RestoreDone ==> cluster == RestoreItems(old(cluster), snapshots[a])
      ensures r == RestoreRefused ==> RefusalPossible(cluster, snapshots)
      ensures reliable ==> r != RestoreFailed
    {
      var items := snapshots[a];
      ghost var first := State();
      ReachSelf(acts, parse, first);
      for k := 0 to |items|
        invariant Reach(acts, parse, first, State()) && snapshots == first.snapshots
        invariant cluster == RestoreItems(first.cluster, items[..k])
        invariant PartlyRestored(first.cluster, cluster, snapshots)
      {
        ghost var before := State();
        r := RestoreSnapshotItem(a, k, acts);
        ReachThrough(acts, parse, first, before, State());
        RestoredKeepsPartly(first.cluster, before.cluster, cluster, snapshots, a, k);
        if r == RestoreRefused { assert items[k] in snapshots[a]; assert Saved(snapshots, items[k]); }
        if r != RestoreDone { return; }
        assert items[..k + 1][..k] == items[..k];
      }
      assert items[..|items|] == items;
      r := RestoreDone;
    }

    /** reconcileRollback: Go visits the ConfigMap keys in an arbitrary order, and so does this loop. */
    method ReconcileRollback(ghost acts: set<Action>) returns (phase: Phase, refused: bool, ghost order: seq<Action>)
      modifies this`cluster
      ensures Reach(acts, parse, old(State()), State())
      ensures phase == RolledBack || phase == RollbackFailed
      ensures snapshots == map[] ==> phase == RollbackFailed && cluster == old(cluster)
      ensures PartlyRestored(old(cluster), cluster, snapshots)
      ensures ListsOnce(order, snapshots) && (phase == RolledBack ==> ListsAll(order, snapshots))
      ensures phase == RolledBack ==> cluster == RestoreKeys(old(cluster), snapshots, order)
      ensures refused ==> RefusalPossible(cluster, snapshots)
      ensures reliable && snapshots != map[] && !refused ==> phase == RolledBack
    {
      order, refused := [], false;
      ghost var first := State();
      ReachSelf(acts, parse, first);
      var reachable := *;
      if (!reachable && !reliable) || snapshots == map[] { return RollbackFailed, false, []; }
      var todo := snapshots.Keys;
      while todo != {}
        invariant Reach(acts, parse, first, State()) && snapshots == first.snapshots
        invariant Visited(order, todo, snapshots)
        invariant cluster == RestoreKeys(first.cluster, snapshots, order)
        invariant PartlyRestored(first.cluster, cluster, snapshots)
        decreases todo
      {
        var a :| a in todo;
        ghost var before := State();
        var r := RestoreKey(a, acts);
        ReachThrough(acts, parse, first, before, State());
        PartlyThrough(first.cluster, before.cluster, cluster, snapshots);
        if r != RestoreDone { return RollbackFailed, r == RestoreRefused, order; }
        VisitNext(first.cluster, order, todo, snapshots, a);
        order := order + [a];
        todo := todo - {a};
      }
      phase := RolledBack;
    }

    /**
     * One reconcile of the plan: rollback once it is requested, and otherwise the action loop. A rollback that was
     * already recorded for this generation is not repeated.
     */
    method Reconcile(plan: Plan, rollbackRequested: bool, status: Phase, observed: bool)
      returns (phase: Phase, ghost order: seq<Action>)
      modifies this`cluster, this`snapshots, this`rehearsed
      ensures Reach(ExecutableSet(plan.actions), parse, old(State()), State())
      ensures !rollbackRequested ==> phase != RolledBack
      ensures rollbackRequested ==> snapshots == old(snapshots)
      ensures rollbackRequested && snapshots == map[] ==> State() == old(State())
      ensures rollbackRequested && phase == RolledBack ==>
        (status == RolledBack && State() == old(State()))
        || (ListsOnce(order, snapshots) && ListsAll(order, snapshots)
            && cluster == RestoreKeys(old(cluster), snapshots, order))
      ensures !rollbackRequested && (!GateOpen(plan) || !mutationEnabled) ==> State() == old(State())
      ensures Recorded(old(snapshots)) ==> Recorded(snapshots)
      ensures !rollbackRequested && Ideal() && GateOpen(plan) && DisjointWrites(plan.actions)
              && Recorded(old(snapshots)) ==>
                if AllGo(plan.actions, old(cluster), parse)
                then phase == EndPhase(plan.actions) && cluster == ApplyAll(plan.actions, old(cluster), parse)
                else IsStopPhase(phase)
    {
      order := [];
      if rollbackRequested {
        if status == RolledBack && observed {
          ReachSelf(ExecutableSet(plan.actions), parse, State());
          return RolledBack, order;
        }
        var refused;
        phase, refused, order := ReconcileRollback(ExecutableSet(plan.actions));
      } else {
        var statuses;
        phase, statuses := ReconcilePlanActions(plan);
      }
    }
  }
}
