/** Rollback undoes apply: over every run of the operator, with any failures, for every plan the builder can produce. */
module OperatorLaws {
  import opened Basics
  import opened Catalog
  import PlanBuilder
  import opened Workload
  import opened ClusterModel
  import opened ApplyLaws
  import opened Effects
  import opened Operator

  predicate Covers(a: Action, ref: Ref) {
    SnapshotRefs(a).Some? && ref in SnapshotRefs(a).value
  }

  ghost predicate Covered(snapshots: map<Action, seq<Item>>, ref: Ref) {
    exists a :: a in snapshots && Covers(a, ref)
  }

  ghost predicate DisjointSnapshots(acts: set<Action>) {
    forall a, b, ref :: a in acts && b in acts && Covers(a, ref) && Covers(b, ref) ==> a == b
  }

  /** The catalog makes the snapshot cover exactly what the executor may write. */
  lemma SnapshotCoversWrites(a: Action, ref: Ref)
    requires Executable(a) && SnapshotRefs(a).Some?
    ensures Covers(a, ref) <==> ref in WriteRefs(a)
  {
    ExecutableTargets(a);
  }

  lemma NoSharedRef(actions: seq<Action>, i: nat, j: nat, ref: Ref)
    requires DisjointWrites(actions) && i < j < |actions| && Executable(actions[i]) && Executable(actions[j])
    ensures !(ref in WriteRefs(actions[i]) && ref in WriteRefs(actions[j]))
  {
    assert WriteRefs(actions[i]) !! WriteRefs(actions[j]);
  }

  lemma DisjointWritesDisjointSnapshots(actions: seq<Action>)
    requires DisjointWrites(actions)
    ensures DisjointSnapshots(ExecutableSet(actions))
  {
    forall a, b, ref | a in ExecutableSet(actions) && b in ExecutableSet(actions) && Covers(a, ref) && Covers(b, ref)
      ensures a == b
    {
      var i :| 0 <= i < |actions| && actions[i] == a;
      var j :| 0 <= j < |actions| && actions[j] == b;
      if i < j { NoSharedRef(actions, i, j, ref); }
      if j < i { NoSharedRef(actions, j, i, ref); }
      SnapshotCoversWrites(a, ref);
      SnapshotCoversWrites(b, ref);
    }
  }

  lemma KindsSeparateWrites(a: Action, b: Action, ref: Ref)
    requires Executable(a) && Executable(b) && a.kind != b.kind
    requires !a.kind.PatchWorkloadProbes? && !b.kind.PatchWorkloadProbes?
    ensures !(ref in WriteRefs(a) && ref in WriteRefs(b))
  {
    ExecutableTargets(a);
    ExecutableTargets(b);
  }

  /** The executable actions of every plan built from a finding write pairwise disjoint objects. */
  lemma BuiltPlansWriteDisjointObjects(finding: PlanBuilder.Finding)
    ensures DisjointWrites(PlanBuilder.TypedActionsForFinding(finding))
  {
    PlanBuilder.BuiltPlans(finding);
    BuiltActionsAreDisjoint(PlanBuilder.TypedActionsForFinding(finding));
  }

  lemma BuiltActionsAreDisjoint(actions: seq<Action>)
    requires PlanBuilder.WellBuilt(actions)
    ensures DisjointWrites(actions)
  {
    forall i, j | 0 <= i < j < |actions| && Executable(actions[i]) && Executable(actions[j])
      ensures WriteRefs(actions[i]) !! WriteRefs(actions[j])
    {
      ExecutableTargets(actions[i]);
      ExecutableTargets(actions[j]);
      assert PlanBuilder.ProbesOff(actions[i]) && PlanBuilder.ProbesOff(actions[j]);
      forall ref | ref in WriteRefs(actions[i]) ensures ref !in WriteRefs(actions[j]) {
        KindsSeparateWrites(actions[i], actions[j], ref);
      }
    }
  }

  // ---- The invariant of every run ----

  /**
   * Saved items hold the original states; unsaved objects are untouched; objects new to the cluster are marked as ours.
   */
  ghost predicate Inv(origin: Cluster, acts: set<Action>, w: World) {
    && (forall a :: a in w.snapshots ==> a in acts && SnapshotRefs(a).Some?
                                         && w.snapshots[a] == ItemsFor(origin, SnapshotRefs(a).value))
    && (forall ref :: !Covered(w.snapshots, ref) ==> StateOf(w.cluster, ref) == StateOf(origin, ref))
    && (forall ref :: ref in w.cluster && ref !in origin ==> Managed(w.cluster[ref]))
  }

  lemma SnapshotKeepsInv(origin: Cluster, acts: set<Action>, w: World, w': World, a: Action)
    requires DisjointSnapshots(acts) && Inv(origin, acts, w) && SnapshotStep(acts, w, w', a)
    ensures Inv(origin, acts, w')
  {
    var refs := SnapshotRefs(a).value;
    forall k | 0 <= k < |refs| ensures StateOf(w.cluster, refs[k]) == StateOf(origin, refs[k]) {
      assert Covers(a, refs[k]);
      assert !Covered(w.snapshots, refs[k]);
    }
    assert ItemsFor(w.cluster, refs) == ItemsFor(origin, refs);
    forall ref | !Covered(w'.snapshots, ref) ensures StateOf(w'.cluster, ref) == StateOf(origin, ref) {
      assert !Covered(w.snapshots, ref) by {
        if b :| b in w.snapshots && Covers(b, ref) { assert b in w'.snapshots; }
      }
    }
  }

  lemma IntendedStaysManaged(a: Action, ref: Ref, cluster: Cluster, parse: QuantityParser)
    requires Intended(a, ref, cluster, parse).Some?
    requires ref in cluster ==> Managed(cluster[ref])
    ensures Managed(Intended(a, ref, cluster, parse).value)
  {}

  lemma WriteKeepsInv(origin: Cluster, acts: set<Action>, parse: QuantityParser, w: World, w': World, a: Action,
                      ref: Ref)
    requires (forall x :: x in acts ==> Executable(x)) && Inv(origin, acts, w) && WriteStep(acts, parse, w, w', a, ref)
    ensures Inv(origin, acts, w')
  {
    SnapshotCoversWrites(a, ref);
    assert Covered(w.snapshots, ref);
    if ref !in origin { IntendedStaysManaged(a, ref, w.cluster, parse); }
    forall r | !Covered(w'.snapshots, r) ensures StateOf(w'.cluster, r) == StateOf(origin, r) { assert r != ref; }
  }

  lemma RestoreKeepsInv(origin: Cluster, acts: set<Action>, w: World, w': World, a: Action, k: nat)
    requires Inv(origin, acts, w) && RestoreStep(w, w', a, k)
    ensures Inv(origin, acts, w')
  {
    var item := w.snapshots[a][k];
    assert item == Item(SnapshotRefs(a).value[k], StateOf(origin, SnapshotRefs(a).value[k]));
    assert Covers(a, item.ref);
    assert Covered(w.snapshots, item.ref);
  }

  lemma StepKeepsInv(origin: Cluster, acts: set<Action>, parse: QuantityParser, w: World, w': World)
    requires (forall x :: x in acts ==> Executable(x)) && DisjointSnapshots(acts)
    requires Inv(origin, acts, w) && Step(acts, parse, w, w')
    ensures Inv(origin, acts, w')
  {
    if a :| SnapshotStep(acts, w, w', a) {
      SnapshotKeepsInv(origin, acts, w, w', a);
    } else if a, ref :| WriteStep(acts, parse, w, w', a, ref) {
      WriteKeepsInv(origin, acts, parse, w, w', a, ref);
    } else {
      var a, k :| RestoreStep(w, w', a, k);
      RestoreKeepsInv(origin, acts, w, w', a, k);
    }
  }

  lemma {:induction false} RunKeepsInv(origin: Cluster, acts: set<Action>, parse: QuantityParser, run: seq<World>)
    requires (forall x :: x in acts ==> Executable(x)) && DisjointSnapshots(acts)
    requires IsRun(acts, parse, run) && Inv(origin, acts, run[0])
    ensures Inv(origin, acts, run[|run| - 1])
  {
    if |run| > 1 {
      var before := run[..|run| - 1];
      forall k | 0 <= k < |before| - 1 ensures Step(acts, parse, before[k], before[k + 1]) {
        assert Step(acts, parse, run[k], run[k + 1]);
      }
      RunKeepsInv(origin, acts, parse, before);
      assert Step(acts, parse, run[|run| - 2], run[|run| - 2 + 1]);
      StepKeepsInv(origin, acts, parse, run[|run| - 2], run[|run| - 1]);
    }
  }

  /** Every world reachable from a cluster without snapshots satisfies the invariant for that cluster. */
  lemma ReachableWorlds(origin: Cluster, acts: set<Action>, parse: QuantityParser, w: World)
    requires (forall x :: x in acts ==> Executable(x)) && DisjointSnapshots(acts)
    requires Reach(acts, parse, World(origin, map[]), w)
    ensures Inv(origin, acts, w)
  {
    var run :| RunFromTo(acts, parse, run, World(origin, map[]), w);
    RunKeepsInv(origin, acts, parse, run);
  }

  // ---- What a rollback pass computes ----

  ghost predicate AtMostOneItem(snapshots: map<Action, seq<Item>>, ref: Ref) {
    forall x, y :: Saved(snapshots, x) && Saved(snapshots, y) && x.ref == ref && y.ref == ref ==> x == y
  }

  /** No object is saved in two different states. */
  ghost predicate Consistent(snapshots: map<Action, seq<Item>>) {
    forall ref :: AtMostOneItem(snapshots, ref)
  }

  /** What rollback must leave under `ref`: the saved state if there is one, and otherwise what is there. */
  ghost predicate Settled(before: Cluster, after: Cluster, snapshots: map<Action, seq<Item>>, ref: Ref) {
    && (forall item :: Saved(snapshots, item) && item.ref == ref ==> StateOf(after, ref) == item.state)
    && ((forall item :: Saved(snapshots, item) ==> item.ref != ref) ==> StateOf(after, ref) == StateOf(before, ref))
  }

  predicate Mentions(items: seq<Item>, ref: Ref) {
    exists k :: 0 <= k < |items| && items[k].ref == ref
  }

  lemma {:induction false} ItemsAre(cluster: Cluster, items: seq<Item>, ref: Ref)
    ensures var after := StateOf(RestoreItems(cluster, items), ref);
            if Mentions(items, ref) then Item(ref, after) in items else after == StateOf(cluster, ref)
  {
    if |items| > 0 {
      var init, last := items[..|items| - 1], items[|items| - 1];
      ItemsAre(cluster, init, ref);
      if last.ref == ref {
        assert Item(ref, StateOf(RestoreItems(cluster, items), ref)) == last;
        assert items[|items| - 1].ref == ref;
      } else {
        assert StateOf(RestoreItems(cluster, items), ref) == StateOf(RestoreItems(cluster, init), ref);
        if k :| 0 <= k < |items| && items[k].ref == ref { assert init[k].ref == ref; }
        if k :| 0 <= k < |init| && init[k].ref == ref { assert items[k].ref == ref; }
      }
    }
  }

  /** Visited keys decide: an object some visited key mentions ends in a saved state, any other is untouched. */
  lemma {:induction false} KeysAre(cluster: Cluster, snapshots: map<Action, seq<Item>>, order: seq<Action>, ref: Ref)
    requires forall k :: 0 <= k < |order| ==> order[k] in snapshots
    ensures var after := StateOf(RestoreKeys(cluster, snapshots, order), ref);
            if exists k :: 0 <= k < |order| && Mentions(snapshots[order[k]], ref)
            then Saved(snapshots, Item(ref, after))
            else after == StateOf(cluster, ref)
  {
    if |order| > 0 {
      var init, last := order[..|order| - 1], order[|order| - 1];
      KeysAre(cluster, snapshots, init, ref);
      ItemsAre(RestoreKeys(cluster, snapshots, init), snapshots[last], ref);
      if Mentions(snapshots[last], ref) {
        assert Saved(snapshots, Item(ref, StateOf(RestoreKeys(cluster, snapshots, order), ref)));
      } else if k :| 0 <= k < |order| && Mentions(snapshots[order[k]], ref) {
        assert init[k] == order[k];
      }
    }
  }

  lemma MentionedIsSaved(snapshots: map<Action, seq<Item>>, a: Action, ref: Ref)
    requires a in snapshots
    ensures Mentions(snapshots[a], ref) ==> exists item :: Saved(snapshots, item) && item.ref == ref
  {
    if k :| 0 <= k < |snapshots[a]| && snapshots[a][k].ref == ref {
      assert snapshots[a][k] in snapshots[a];
      assert Saved(snapshots, snapshots[a][k]);
    }
  }

  /** Even when keys share objects: every saved object ends in one of its saved states and nothing else moves. */
  lemma RollbackLandsOnSnapshots(cluster: Cluster, snapshots: map<Action, seq<Item>>, order: seq<Action>, ref: Ref)
    requires ListsOnce(order, snapshots) && ListsAll(order, snapshots)
    ensures var after := RestoreKeys(cluster, snapshots, order);
            if exists item :: Saved(snapshots, item) && item.ref == ref
            then Saved(snapshots, Item(ref, StateOf(after, ref)))
            else StateOf(after, ref) == StateOf(cluster, ref)
  {
    KeysAre(cluster, snapshots, order, ref);
    if item :| Saved(snapshots, item) && item.ref == ref {
      var a :| a in snapshots && item in snapshots[a];
      var k :| 0 <= k < |order| && order[k] == a;
      var i :| 0 <= i < |snapshots[a]| && snapshots[a][i] == item;
      assert Mentions(snapshots[order[k]], ref);
    } else {
      forall k | 0 <= k < |order| ensures !Mentions(snapshots[order[k]], ref) {
        MentionedIsSaved(snapshots, order[k], ref);
      }
    }
  }

  lemma SavedItemsAgree(snapshots: map<Action, seq<Item>>, x: Item, y: Item)
    requires Consistent(snapshots) && Saved(snapshots, x) && Saved(snapshots, y) && x.ref == y.ref
    ensures x == y
  {
    assert AtMostOneItem(snapshots, x.ref);
  }

  lemma RollbackSettles(cluster: Cluster, snapshots: map<Action, seq<Item>>, order: seq<Action>, ref: Ref)
    requires Consistent(snapshots) && ListsOnce(order, snapshots) && ListsAll(order, snapshots)
    ensures Settled(cluster, RestoreKeys(cluster, snapshots, order), snapshots, ref)
  {
    RollbackLandsOnSnapshots(cluster, snapshots, order, ref);
    var after := RestoreKeys(cluster, snapshots, order);
    forall item | Saved(snapshots, item) && item.ref == ref ensures StateOf(after, ref) == item.state {
      SavedItemsAgree(snapshots, item, Item(ref, StateOf(after, ref)));
    }
  }

  /** The visiting order of the ConfigMap keys does not matter. */
  lemma RollbackOrderDoesNotMatter(cluster: Cluster, snapshots: map<Action, seq<Item>>, order: seq<Action>,
                                   other: seq<Action>)
    requires Consistent(snapshots)
    requires ListsOnce(order, snapshots) && ListsAll(order, snapshots)
    requires ListsOnce(other, snapshots) && ListsAll(other, snapshots)
    ensures RestoreKeys(cluster, snapshots, order) == RestoreKeys(cluster, snapshots, other)
  {
    RollbackResumes(cluster, cluster, snapshots, order, other);
  }

  /** A pass that follows any number of interrupted passes ends where one uninterrupted pass would have. */
  lemma RollbackResumes(cluster: Cluster, interrupted: Cluster, snapshots: map<Action, seq<Item>>,
                        order: seq<Action>, other: seq<Action>)
    requires Consistent(snapshots) && PartlyRestored(cluster, interrupted, snapshots)
    requires ListsOnce(order, snapshots) && ListsAll(order, snapshots)
    requires ListsOnce(other, snapshots) && ListsAll(other, snapshots)
    ensures RestoreKeys(cluster, snapshots, order) == RestoreKeys(interrupted, snapshots, other)
  {
    var one, two := RestoreKeys(cluster, snapshots, order), RestoreKeys(interrupted, snapshots, other);
    forall ref ensures StateOf(one, ref) == StateOf(two, ref) {
      RollbackSettles(cluster, snapshots, order, ref);
      RollbackSettles(interrupted, snapshots, other, ref);
      if item :| Saved(snapshots, item) && item.ref == ref {
      } else {
        assert StateOf(interrupted, ref) == StateOf(cluster, ref);
      }
    }
    SameStatesSameCluster(one, two);
  }

  // ---- The main theorem ----

  lemma InvariantSnapshotsAreConsistent(origin: Cluster, acts: set<Action>, w: World)
    requires Inv(origin, acts, w)
    ensures Consistent(w.snapshots)
    ensures forall item :: Saved(w.snapshots, item) ==>
              item.state == StateOf(origin, item.ref) && Covered(w.snapshots, item.ref)
    ensures forall ref :: Covered(w.snapshots, ref) ==> Saved(w.snapshots, Item(ref, StateOf(origin, ref)))
  {
    forall item | Saved(w.snapshots, item)
      ensures item.state == StateOf(origin, item.ref) && Covered(w.snapshots, item.ref)
    {
      var a :| a in w.snapshots && item in w.snapshots[a];
      assert w.snapshots[a] == ItemsFor(origin, SnapshotRefs(a).value);
      assert Covers(a, item.ref);
    }
    forall ref | Covered(w.snapshots, ref) ensures Saved(w.snapshots, Item(ref, StateOf(origin, ref))) {
      var a :| a in w.snapshots && Covers(a, ref);
      var k :| 0 <= k < |SnapshotRefs(a).value| && SnapshotRefs(a).value[k] == ref;
      assert w.snapshots[a][k] == Item(ref, StateOf(origin, ref));
      assert w.snapshots[a][k] in w.snapshots[a];
    }
    forall ref ensures AtMostOneItem(w.snapshots, ref) {}
  }

  /** From any world the invariant allows, a complete rollback pass in any order returns the original cluster. */
  lemma RollbackRestoresOrigin(origin: Cluster, acts: set<Action>, w: World, order: seq<Action>)
    requires Inv(origin, acts, w) && ListsOnce(order, w.snapshots) && ListsAll(order, w.snapshots)
    ensures RestoreKeys(w.cluster, w.snapshots, order) == origin
  {
    InvariantSnapshotsAreConsistent(origin, acts, w);
    var after := RestoreKeys(w.cluster, w.snapshots, order);
    forall ref ensures StateOf(after, ref) == StateOf(origin, ref) {
      RollbackSettles(w.cluster, w.snapshots, order, ref);
      if Covered(w.snapshots, ref) {
        assert Saved(w.snapshots, Item(ref, StateOf(origin, ref)));
      }
    }
    SameStatesSameCluster(after, origin);
  }

  /**
   * Rollback undoes apply. Whatever plan is built from a finding, and however its snapshots, writes and partial
   * rollbacks were interleaved and interrupted, a completed rollback leaves the cluster exactly as it was at the start.
   */
  lemma RollbackUndoesApply(finding: PlanBuilder.Finding, origin: Cluster, parse: QuantityParser, w: World,
                            order: seq<Action>)
    requires Reach(ExecutableSet(PlanBuilder.TypedActionsForFinding(finding)), parse, World(origin, map[]), w)
    requires ListsOnce(order, w.snapshots) && ListsAll(order, w.snapshots)
    ensures RestoreKeys(w.cluster, w.snapshots, order) == origin
  {
    var actions := PlanBuilder.TypedActionsForFinding(finding);
    BuiltPlansWriteDisjointObjects(finding);
    UndoFromDisjointWrites(actions, origin, parse, w, order);
  }

  /** The same for any action list whose executable actions write disjoint objects. */
  lemma UndoFromDisjointWrites(actions: seq<Action>, origin: Cluster, parse: QuantityParser, w: World,
                               order: seq<Action>)
    requires DisjointWrites(actions)
    requires Reach(ExecutableSet(actions), parse, World(origin, map[]), w)
    requires ListsOnce(order, w.snapshots) && ListsAll(order, w.snapshots)
    ensures RestoreKeys(w.cluster, w.snapshots, order) == origin
  {
    DisjointWritesDisjointSnapshots(actions);
    ReachableWorlds(origin, ExecutableSet(actions), parse, w);
    RollbackRestoresOrigin(origin, ExecutableSet(actions), w, order);
  }

  /** Rollback never meets an object it must refuse to delete. */
  lemma RollbackIsNeverRefused(origin: Cluster, acts: set<Action>, w: World)
    requires Inv(origin, acts, w)
    ensures !RefusalPossible(w.cluster, w.snapshots)
  {
    InvariantSnapshotsAreConsistent(origin, acts, w);
    forall ref | Saved(w.snapshots, Item(ref, None)) ensures ref in w.cluster ==> Managed(w.cluster[ref]) {
      var item := Item(ref, None);
      assert item.state == StateOf(origin, item.ref);
    }
  }

  ghost predicate Unwritten(actions: seq<Action>, ref: Ref) {
    forall a :: a in ExecutableSet(actions) ==> ref !in WriteRefs(a)
  }

  /** Nothing outside the plan's write set is ever touched, whatever the plan. */
  lemma OnlyWrittenObjectsChange(actions: seq<Action>, origin: Cluster, parse: QuantityParser, w: World, ref: Ref)
    requires Reach(ExecutableSet(actions), parse, World(origin, map[]), w) && Unwritten(actions, ref)
    ensures StateOf(w.cluster, ref) == StateOf(origin, ref)
  {
    FirstItemsHoldOrigin(actions, origin, parse, w, ref);
    if a :| a in w.snapshots && Covers(a, ref) { SnapshotCoversWrites(a, ref); }
  }

  /**
   * The whole life of a built plan: any number of reconciles, with the approval fields, the rollback request and the
   * recorded status changing arbitrarily in between. Whenever the last phase is RolledBack the cluster is as it was.
   */
  method PlanLife(reconciler: Reconciler, finding: PlanBuilder.Finding, rounds: nat) returns (status: Phase)
    requires reconciler.snapshots == map[]
    modifies reconciler
    ensures status == RolledBack ==> reconciler.cluster == old(reconciler.cluster)
    ensures forall ref :: Unwritten(PlanBuilder.TypedActionsForFinding(finding), ref) ==>
              StateOf(reconciler.cluster, ref) == StateOf(old(reconciler.cluster), ref)
  {
    var actions := PlanBuilder.TypedActionsForFinding(finding);
    ghost var start := reconciler.State();
    BuiltPlansWriteDisjointObjects(finding);
    ReachSelf(ExecutableSet(actions), reconciler.parse, start);
    status := Prepared;
    for round := 0 to rounds
      invariant Reach(ExecutableSet(actions), reconciler.parse, start, reconciler.State())
      invariant status == RolledBack ==> reconciler.cluster == start.cluster
    {
      ghost var before := reconciler.State();
      var required, decision, executionRequested, rollbackRequested, observed := *, *, *, *, *;
      var phase;
      ghost var order;
      phase, order := reconciler.Reconcile(Plan(required, decision, executionRequested, actions), rollbackRequested,
                                           status, observed);
      ReachThrough(ExecutableSet(actions), reconciler.parse, start, before, reconciler.State());
      if ListsOnce(order, before.snapshots) && ListsAll(order, before.snapshots) {
        UndoFromDisjointWrites(actions, start.cluster, reconciler.parse, before, order);
      }
      status := phase;
    }
    forall ref | Unwritten(actions, ref)
      ensures StateOf(reconciler.cluster, ref) == StateOf(start.cluster, ref)
    {
      OnlyWrittenObjectsChange(actions, start.cluster, reconciler.parse, reconciler.State(), ref);
    }
  }

  /** With a reliable API, rolling back a plan that has snapshots succeeds, and so restores the original cluster. */
  method RollBackPlan(reconciler: Reconciler, finding: PlanBuilder.Finding, ghost origin: Cluster)
    returns (phase: Phase)
    requires reconciler.reliable && reconciler.snapshots != map[]
    requires Reach(ExecutableSet(PlanBuilder.TypedActionsForFinding(finding)), reconciler.parse,
                   World(origin, map[]), reconciler.State())
    modifies reconciler
    ensures phase == RolledBack && reconciler.cluster == origin
  {
    ghost var acts, before := ExecutableSet(PlanBuilder.TypedActionsForFinding(finding)), reconciler.State();
    BuiltPlansWriteDisjointObjects(finding);
    DisjointWritesDisjointSnapshots(PlanBuilder.TypedActionsForFinding(finding));
    var refused;
    ghost var order;
    phase, refused, order := reconciler.ReconcileRollback(acts);
    ReachThrough(acts, reconciler.parse, World(origin, map[]), before, reconciler.State());
    ReachableWorlds(origin, acts, reconciler.parse, reconciler.State());
    RollbackIsNeverRefused(origin, acts, reconciler.State());
    RollbackUndoesApply(finding, origin, reconciler.parse, before, order);
  }

  // ---- When everything is in order ----

  /** Snapshots of reachable worlds have their shape. */
  lemma ReachableIsRecorded(actions: seq<Action>, origin: Cluster, parse: QuantityParser, w: World)
    requires Reach(ExecutableSet(actions), parse, World(origin, map[]), w)
    ensures Recorded(w.snapshots)
  {
    FirstItemsHoldOrigin(actions, origin, parse, w, NamespaceRef(""));
    forall a | a in w.snapshots ensures SnapshotRefs(a).Some? { assert ShapedKey(w.snapshots[a], a); }
  }

  lemma ProposalGoesIff(a: Action, c: Cluster, parse: QuantityParser)
    requires PlanBuilder.ProbesOff(a) && (Executable(a) ==> a.target.name != "")
    ensures Goes(a, c, parse) <==> ValidateProposal(a).Ok? && (Executable(a) ==> Writable(a, c, parse))
  {
    if Executable(a) && Writable(a, c, parse) {
      ExecutableTargets(a);
      WritableGoes(a, c, parse);
    }
  }

  /**
   * A plan as it is built (BuiltPlans), over named objects, gets through iff its proposals are valid and its writes
   * would be accepted.
   */
  lemma WellBuiltGoesIff(actions: seq<Action>, c: Cluster, parse: QuantityParser)
    requires PlanBuilder.WellBuilt(actions) && forall a :: a in actions && Executable(a) ==> a.target.name != ""
    ensures AllGo(actions, c, parse) <==>
            forall a :: a in actions ==> ValidateProposal(a).Ok? && (Executable(a) ==> Writable(a, c, parse))
  {
    forall k | 0 <= k < |actions|
      ensures Goes(actions[k], c, parse)
         <==> ValidateProposal(actions[k]).Ok? && (Executable(actions[k]) ==> Writable(actions[k], c, parse))
    {
      ProposalGoesIff(actions[k], c, parse);
    }
  }

  lemma AchievedAtTheEnd(actions: seq<Action>, c: Cluster, parse: QuantityParser)
    requires DisjointWrites(actions) && AllGo(actions, c, parse)
    ensures AllAchieved(actions, true, ApplyAll(actions, c, parse))
  {
    forall k | 0 <= k < |actions| && Executable(actions[k])
      ensures Achieved(actions[k], ApplyAll(actions, c, parse))
    {
      SettledAtTheEnd(actions, c, parse, k);
    }
  }

  /**
   * A built plan whose gate is open, with an API that does not fail and controllers that have caught up: it gets
   * through to its end iff every action would have got through at the start. Then the cluster is what its executable
   * actions make of it in order, each reads back as intended, and reconciling again ends in the same phase and changes
   * nothing.
   */
  method ReconcileTwice(reconciler: Reconciler, finding: PlanBuilder.Finding, plan: Plan)
    returns (first: Phase, second: Phase)
    requires reconciler.Ideal() && Recorded(reconciler.snapshots)
    requires GateOpen(plan) && plan.actions == PlanBuilder.TypedActionsForFinding(finding)
    modifies reconciler
    ensures if AllGo(plan.actions, old(reconciler.cluster), reconciler.parse)
            then first == second == EndPhase(plan.actions) && AllAchieved(plan.actions, true, reconciler.cluster)
                 && reconciler.cluster == ApplyAll(plan.actions, old(reconciler.cluster), reconciler.parse)
            else IsStopPhase(first)
  {
    ghost var actions := plan.actions;
    BuiltPlansWriteDisjointObjects(finding);
    ghost var start := reconciler.cluster;
    ghost var order;
    first, order := reconciler.Reconcile(plan, false, Prepared, false);
    ApplyAllTwice(actions, start, reconciler.parse);
    if AllGo(actions, start, reconciler.parse) { AchievedAtTheEnd(actions, start, reconciler.parse); }
    second, order := reconciler.Reconcile(plan, false, first, true);
  }

  // ---- The preview tells the truth ----

  predicate Previews(action: Action, c: Cluster, shown: (seq<Container>, seq<Container>), changes: seq<Change>) {
    && WorkloadSpecOf(action, c).Some?
    && var spec, q := WorkloadSpecOf(action, c).value, QuantitiesOf(action);
       && shown == (FillAll(spec.initContainers, q), FillAll(spec.containers, q))
       && changes == ListChanges(InitContainers, spec.initContainers, q)
                     + ListChanges(Containers, spec.containers, q)
  }

  /** A line is exactly a value that some container lacks, with the parameter that it will be filled from. */
  ghost predicate ShowsExactly(action: Action, c: Cluster, changes: seq<Change>) {
    forall line :: line in changes <==> TellsOf(action, c, line)
  }

  lemma ShownLine(action: Action, c: Cluster, shown: (seq<Container>, seq<Container>), changes: seq<Change>,
                  line: Change)
    requires Previews(action, c, shown, changes) && action.kind.PatchWorkloadResources?
    ensures line in changes <==> TellsOf(action, c, line)
  {
    var spec := WorkloadSpecOf(action, c).value;
    LinesAreOf(action, InitContainers, spec.initContainers, line);
    LinesAreOf(action, Containers, spec.containers, line);
    assert HasTemplate(action, c) && spec == c[TemplateOf(action)].spec;
    assert line in changes
      <==> line in ListChanges(InitContainers, spec.initContainers, QuantitiesOf(action))
           || line in ListChanges(Containers, spec.containers, QuantitiesOf(action));
  }

  lemma PreviewShowsExactly(action: Action, c: Cluster, shown: (seq<Container>, seq<Container>), changes: seq<Change>)
    requires Previews(action, c, shown, changes) && action.kind.PatchWorkloadResources?
    ensures ShowsExactly(action, c, changes)
  {
    forall line ensures line in changes <==> TellsOf(action, c, line) {
      ShownLine(action, c, shown, changes, line);
    }
  }

  /** The preview of a resource edit: the two rendered lists and the lines. */
  method PreviewResources(action: Action, c: Cluster)
    returns (changes: seq<Change>, shown: (seq<Container>, seq<Container>))
    requires action.kind.PatchWorkloadResources? && WorkloadSpecOf(action, c).Some?
    ensures Previews(action, c, shown, changes)
    ensures ShowsExactly(action, c, changes)
    ensures changes == [] <==> Achieved(action, c)
  {
    var spec := WorkloadSpecOf(action, c).value;
    var init, main;
    changes, init, main := RenderWorkloadResources(spec.initContainers, spec.containers, QuantitiesOf(action));
    shown := (init, main);
    NoLinesIffComplete(InitContainers, spec.initContainers, QuantitiesOf(action));
    NoLinesIffComplete(Containers, spec.containers, QuantitiesOf(action));
    PreviewShowsExactly(action, c, shown, changes);
  }

  /**
   * Shows the preview of a resource edit, then lets the executor rehearse and carry it out. It is refused iff one of
   * the four quantities does not parse, which only the executor checks. Otherwise what was shown is what is stored,
   * each new value as its shown text parses; and it reads the same iff every shown text is canonical.
   */
  method PreviewMatchesExecution(reconciler: Reconciler, action: Action, ghost acts: set<Action>)
    returns (changes: seq<Change>, shown: (seq<Container>, seq<Container>), outcome: Outcome)
    requires reconciler.reliable && reconciler.caughtUp && action.kind.PatchWorkloadResources?
    requires action in acts && action in reconciler.snapshots && WorkloadSpecOf(action, reconciler.cluster).Some?
    modifies reconciler
    ensures outcome == if GoodQuantities(QuantitiesOf(action), reconciler.parse) then Done else Failed
    ensures outcome == Failed ==> reconciler.cluster == old(reconciler.cluster)
    ensures outcome == Done ==>
              Shown(action, old(reconciler.cluster), reconciler.cluster, shown, changes, reconciler.parse)
    ensures outcome == Done ==> ResourcesEffect(action, old(reconciler.cluster), reconciler.cluster, reconciler.parse)
    ensures ShowsExactly(action, old(reconciler.cluster), changes)
    ensures changes == [] <==> Achieved(action, old(reconciler.cluster))
  {
    ghost var before := reconciler.cluster;
    changes, shown := PreviewResources(action, reconciler.cluster);
    WritableIffParsed(action, before, reconciler.parse);
    outcome := reconciler.ExecuteTypedAction(action, true, acts);
    if outcome != Done { return changes, shown, Failed; }
    FilledIsShown(action, before, shown, changes, reconciler.parse);
    outcome := reconciler.ExecuteTypedAction(action, false, acts);
  }

  lemma WritableIffParsed(action: Action, c: Cluster, parse: QuantityParser)
    requires action.kind.PatchWorkloadResources? && WorkloadSpecOf(action, c).Some?
    ensures Writable(action, c, parse) <==> GoodQuantities(QuantitiesOf(action), parse)
  {
    assert WriteRefs(action) == {WorkloadRef(action)};
    assert WorkloadRef(action) in WriteRefs(action);
  }

  predicate ListShownAs(was: seq<Container>, shown: seq<Container>, written: seq<Container>, parse: QuantityParser) {
    |was| == |shown| == |written| && forall k :: 0 <= k < |was| ==> ShownAs(was[k], shown[k], written[k], parse)
  }

  /** What the preview showed of `before` is what `after` holds. */
  predicate Shown(action: Action, before: Cluster, after: Cluster, shown: (seq<Container>, seq<Container>),
                  changes: seq<Change>, parse: QuantityParser)
  {
    && WorkloadSpecOf(action, before).Some? && WorkloadSpecOf(action, after).Some?
    && var was, written := WorkloadSpecOf(action, before).value, WorkloadSpecOf(action, after).value;
       && ListShownAs(was.initContainers, shown.0, written.initContainers, parse)
       && ListShownAs(was.containers, shown.1, written.containers, parse)
       && (shown == (written.initContainers, written.containers) <==> Canonical(changes, parse))
  }

  lemma AppliedFills(action: Action, c: Cluster, parse: QuantityParser)
    requires action.kind.PatchWorkloadResources? && WorkloadSpecOf(action, c).Some?
    requires GoodQuantities(QuantitiesOf(action), parse)
    ensures var spec, q := WorkloadSpecOf(action, c).value, Parsed(QuantitiesOf(action), parse);
            WorkloadSpecOf(action, AppliedTo(action, c, parse))
            == Some(spec.(initContainers := FillAll(spec.initContainers, q), containers := FillAll(spec.containers, q)))
  {}

  lemma TextsOfBoth(init: seq<Container>, main: seq<Container>, q: Quantities, parse: QuantityParser)
    requires GoodQuantities(q, parse)
    ensures (FillAll(init, q), FillAll(main, q)) == (FillAll(init, Parsed(q, parse)), FillAll(main, Parsed(q, parse)))
       <==> Canonical(ListChanges(InitContainers, init, q) + ListChanges(Containers, main, q), parse)
  {
    SameTextsIff(InitContainers, init, q, parse);
    SameTextsIff(Containers, main, q, parse);
    CanonicalAppends(ListChanges(InitContainers, init, q), ListChanges(Containers, main, q), parse);
  }

  lemma FilledIsShown(action: Action, c: Cluster, shown: (seq<Container>, seq<Container>), changes: seq<Change>,
                      parse: QuantityParser)
    requires action.kind.PatchWorkloadResources? && WorkloadSpecOf(action, c).Some?
    requires GoodQuantities(QuantitiesOf(action), parse)
    requires Previews(action, c, shown, changes)
    ensures Shown(action, c, AppliedTo(action, c, parse), shown, changes, parse)
    ensures Achieved(action, AppliedTo(action, c, parse))
  {
    var spec, q := WorkloadSpecOf(action, c).value, QuantitiesOf(action);
    AppliedFills(action, c, parse);
    TextsOfBoth(spec.initContainers, spec.containers, q, parse);
    FillIsShown(spec.initContainers, q, parse);
    FillIsShown(spec.containers, q, parse);
    AllFilled(spec.initContainers, Parsed(q, parse));
    AllFilled(spec.containers, Parsed(q, parse));
  }

  lemma FillIsShown(cs: seq<Container>, q: Quantities, parse: QuantityParser)
    requires GoodQuantities(q, parse)
    ensures ListShownAs(cs, FillAll(cs, q), FillAll(cs, Parsed(q, parse)), parse)
  {
    forall k | 0 <= k < |cs| ensures ShownAs(cs[k], FillAll(cs, q)[k], FillAll(cs, Parsed(q, parse))[k], parse) {
      FillsAreShown(cs[k], q, parse);
    }
  }

  // ---- Snapshots are write-once ----

  lemma {:induction false} RunKeepsSnapshots(acts: set<Action>, parse: QuantityParser, run: seq<World>, a: Action)
    requires IsRun(acts, parse, run) && a in run[0].snapshots
    ensures a in run[|run| - 1].snapshots && run[|run| - 1].snapshots[a] == run[0].snapshots[a]
  {
    if |run| > 1 {
      var before := run[..|run| - 1];
      forall k | 0 <= k < |before| - 1 ensures Step(acts, parse, before[k], before[k + 1]) {
        assert Step(acts, parse, run[k], run[k + 1]);
      }
      RunKeepsSnapshots(acts, parse, before, a);
      assert Step(acts, parse, run[|run| - 2], run[|run| - 2 + 1]);
    }
  }

  /** Once taken, an action's snapshot is never changed or dropped. */
  lemma SnapshotsAreKept(acts: set<Action>, parse: QuantityParser, w: World, w': World, a: Action)
    requires Reach(acts, parse, w, w') && a in w.snapshots
    ensures a in w'.snapshots && w'.snapshots[a] == w.snapshots[a]
  {
    var run :| RunFromTo(acts, parse, run, w, w');
    RunKeepsSnapshots(acts, parse, run, a);
  }

  lemma {:induction false} SnapshotIsTaken(acts: set<Action>, parse: QuantityParser, run: seq<World>, a: Action)
    returns (at: nat)
    requires IsRun(acts, parse, run) && a !in run[0].snapshots && a in run[|run| - 1].snapshots
    ensures at < |run| - 1 && a !in run[at].snapshots && a in run[at + 1].snapshots
  {
    if a in run[|run| - 2].snapshots {
      var before := run[..|run| - 1];
      forall k | 0 <= k < |before| - 1 ensures Step(acts, parse, before[k], before[k + 1]) {
        assert Step(acts, parse, run[k], run[k + 1]);
      }
      at := SnapshotIsTaken(acts, parse, before, a);
    } else {
      at := |run| - 2;
    }
  }

  lemma SubrunIsRun(acts: set<Action>, parse: QuantityParser, run: seq<World>, from: nat, to: nat)
    requires IsRun(acts, parse, run) && from < to <= |run|
    ensures IsRun(acts, parse, run[from..to])
  {
    var part := run[from..to];
    forall k | 0 <= k < |part| - 1 ensures Step(acts, parse, part[k], part[k + 1]) {
      assert Step(acts, parse, run[from + k], run[from + k + 1]);
    }
  }

  lemma OnlySnapshotsAddKeys(acts: set<Action>, parse: QuantityParser, w: World, w': World, a: Action)
    requires Step(acts, parse, w, w') && a !in w.snapshots && a in w'.snapshots
    ensures SnapshotStep(acts, w, w', a)
  {
    if b :| SnapshotStep(acts, w, w', b) {
      assert b == a;
    }
  }

  /**
   * Before an action's first write its snapshot was taken, of exactly the states found at that moment, and it still
   * stands.
   */
  lemma SnapshotPrecedesWrites(acts: set<Action>, parse: QuantityParser, run: seq<World>, a: Action) returns (at: nat)
    requires IsRun(acts, parse, run) && run[0].snapshots == map[] && a in run[|run| - 1].snapshots
    ensures at < |run| - 1 && SnapshotStep(acts, run[at], run[at + 1], a)
    ensures run[|run| - 1].snapshots[a] == ItemsFor(run[at].cluster, SnapshotRefs(a).value)
    ensures forall k :: 0 <= k <= at ==> a !in run[k].snapshots
  {
    at := SnapshotIsTaken(acts, parse, run, a);
    assert Step(acts, parse, run[at], run[at + 1]);
    OnlySnapshotsAddKeys(acts, parse, run[at], run[at + 1], a);
    SubrunIsRun(acts, parse, run, at + 1, |run|);
    RunKeepsSnapshots(acts, parse, run[at + 1..|run|], a);
    forall k | 0 <= k <= at ensures a !in run[k].snapshots {
      if a in run[k].snapshots {
        SubrunIsRun(acts, parse, run, k, at + 1);
        RunKeepsSnapshots(acts, parse, run[k..at + 1], a);
      }
    }
  }

  /** Every snapshot belongs to an action of the plan and lists what its snapshot covers, each object in one state. */
  ghost predicate Shaped(acts: set<Action>, w: World) {
    forall a :: a in w.snapshots ==> a in acts && ShapedKey(w.snapshots[a], a)
  }

  ghost predicate ShapedKey(items: seq<Item>, a: Action) {
    && SnapshotRefs(a).Some? && |items| == |SnapshotRefs(a).value|
    && (forall k :: 0 <= k < |items| ==> items[k].ref == SnapshotRefs(a).value[k])
    && (forall x, y :: x in items && y in items && x.ref == y.ref ==> x == y)
  }

  lemma StepKeepsShape(acts: set<Action>, parse: QuantityParser, w: World, w': World)
    requires Shaped(acts, w) && Step(acts, parse, w, w')
    ensures Shaped(acts, w')
  {
    forall a | a in w'.snapshots ensures a in acts && ShapedKey(w'.snapshots[a], a) {
      if a in w.snapshots { assert ShapedKey(w.snapshots[a], a); }
    }
  }

  /** The first item saved for an object holds its original state, and until then the object is untouched. */
  ghost predicate OriginKept(origin: Cluster, w: World, ref: Ref) {
    if Covered(w.snapshots, ref) then Saved(w.snapshots, Item(ref, StateOf(origin, ref)))
    else StateOf(w.cluster, ref) == StateOf(origin, ref)
  }

  lemma SnapshotKeepsOrigin(acts: set<Action>, origin: Cluster, w: World, w': World, a: Action, ref: Ref)
    requires OriginKept(origin, w, ref) && SnapshotStep(acts, w, w', a)
    ensures OriginKept(origin, w', ref)
  {
    var item := Item(ref, StateOf(origin, ref));
    if Covered(w.snapshots, ref) {
      var b :| b in w.snapshots && item in w.snapshots[b];
      assert b in w'.snapshots && item in w'.snapshots[b];
    } else if Covers(a, ref) {
      var k :| 0 <= k < |SnapshotRefs(a).value| && SnapshotRefs(a).value[k] == ref;
      assert w'.snapshots[a][k] == item;
      assert item in w'.snapshots[a];
    } else if b :| b in w'.snapshots && Covers(b, ref) {
      assert b in w.snapshots;
    }
  }

  lemma StepKeepsOrigin(acts: set<Action>, parse: QuantityParser, origin: Cluster, w: World, w': World, ref: Ref)
    requires (forall x :: x in acts ==> Executable(x)) && Shaped(acts, w) && OriginKept(origin, w, ref)
    requires Step(acts, parse, w, w')
    ensures OriginKept(origin, w', ref)
  {
    if a :| SnapshotStep(acts, w, w', a) {
      SnapshotKeepsOrigin(acts, origin, w, w', a, ref);
    } else {
      assert w'.snapshots == w.snapshots;
      if StateOf(w'.cluster, ref) != StateOf(w.cluster, ref) { StepChangesCovered(acts, parse, w, w', ref); }
    }
  }

  lemma {:induction false} RunKeepsOrigin(acts: set<Action>, parse: QuantityParser, run: seq<World>, ref: Ref)
    requires (forall x :: x in acts ==> Executable(x)) && IsRun(acts, parse, run) && run[0].snapshots == map[]
    ensures Shaped(acts, run[|run| - 1]) && OriginKept(run[0].cluster, run[|run| - 1], ref)
  {
    if |run| > 1 {
      SubrunIsRun(acts, parse, run, 0, |run| - 1);
      RunKeepsOrigin(acts, parse, run[0..|run| - 1], ref);
      assert Step(acts, parse, run[|run| - 2], run[|run| - 2 + 1]);
      StepKeepsShape(acts, parse, run[|run| - 2], run[|run| - 1]);
      StepKeepsOrigin(acts, parse, run[0].cluster, run[|run| - 2], run[|run| - 1], ref);
    }
  }

  /** For every plan whatsoever: the first item saved for an object holds its original state. */
  lemma FirstItemsHoldOrigin(actions: seq<Action>, origin: Cluster, parse: QuantityParser, w: World, ref: Ref)
    requires Reach(ExecutableSet(actions), parse, World(origin, map[]), w)
    ensures Shaped(ExecutableSet(actions), w) && OriginKept(origin, w, ref)
  {
    var run :| RunFromTo(ExecutableSet(actions), parse, run, World(origin, map[]), w);
    RunKeepsOrigin(ExecutableSet(actions), parse, run, ref);
  }

  lemma StepChangesCovered(acts: set<Action>, parse: QuantityParser, w: World, w': World, ref: Ref)
    requires (forall x :: x in acts ==> Executable(x)) && Shaped(acts, w) && Step(acts, parse, w, w')
    requires StateOf(w'.cluster, ref) != StateOf(w.cluster, ref)
    ensures Covered(w.snapshots, ref)
  {
    if a, r :| WriteStep(acts, parse, w, w', a, r) {
      assert ShapedKey(w.snapshots[a], a);
      SnapshotCoversWrites(a, r);
    } else {
      var a, k: nat :| RestoreStep(w, w', a, k);
      assert ShapedKey(w.snapshots[a], a);
      assert Covers(a, w.snapshots[a][k].ref);
    }
  }

  /** For every plan whatsoever: whatever a step changes was covered by a snapshot taken before. */
  lemma ChangesAreCovered(actions: seq<Action>, parse: QuantityParser, origin: Cluster, w: World, w': World, ref: Ref)
    requires Reach(ExecutableSet(actions), parse, World(origin, map[]), w) && Step(ExecutableSet(actions), parse, w, w')
    ensures StateOf(w'.cluster, ref) != StateOf(w.cluster, ref) ==> Covered(w.snapshots, ref)
  {
    FirstItemsHoldOrigin(actions, origin, parse, w, ref);
    if StateOf(w'.cluster, ref) != StateOf(w.cluster, ref) {
      StepChangesCovered(ExecutableSet(actions), parse, w, w', ref);
    }
  }

  // ---- When snapshots share an object ----

  /** What visiting this key leaves under `ref`. */
  function KeyState(items: seq<Item>, ref: Ref): Option<Obj> {
    StateOf(RestoreItems(map[], items), ref)
  }

  lemma {:induction false} KeyDecides(cluster: Cluster, items: seq<Item>, ref: Ref)
    requires Mentions(items, ref)
    ensures StateOf(RestoreItems(cluster, items), ref) == KeyState(items, ref)
  {
    var init, last := items[..|items| - 1], items[|items| - 1];
    if last.ref != ref {
      var k :| 0 <= k < |items| && items[k].ref == ref;
      assert init[k].ref == ref;
      KeyDecides(cluster, init, ref);
    }
  }

  /** The last visited key that mentions an object decides its final state. */
  lemma {:induction false} LastKeyWins(cluster: Cluster, snapshots: map<Action, seq<Item>>, order: seq<Action>,
                                       at: nat, ref: Ref)
    requires (forall k :: 0 <= k < |order| ==> order[k] in snapshots) && at < |order|
    requires Mentions(snapshots[order[at]], ref)
    requires forall k :: at < k < |order| ==> !Mentions(snapshots[order[k]], ref)
    ensures StateOf(RestoreKeys(cluster, snapshots, order), ref) == KeyState(snapshots[order[at]], ref)
  {
    var init, last := order[..|order| - 1], order[|order| - 1];
    if at == |order| - 1 {
      KeyDecides(RestoreKeys(cluster, snapshots, init), snapshots[last], ref);
    } else {
      LastKeyWins(cluster, snapshots, init, at, ref);
      ItemsAre(RestoreKeys(cluster, snapshots, init), snapshots[last], ref);
    }
  }

  lemma {:induction false} OrderEndingIn(keys: set<Action>, snapshots: map<Action, seq<Item>>)
    returns (order: seq<Action>)
    requires forall a :: a in keys ==> a in snapshots
    ensures ListsOnce(order, snapshots) && forall a :: a in order <==> a in keys
  {
    if keys == {} { return []; }
    var a :| a in keys;
    var init := OrderEndingIn(keys - {a}, snapshots);
    order := init + [a];
  }

  /** Every visiting order restores `ref` to its original state. */
  ghost predicate AlwaysRestored(origin: Cluster, w: World, ref: Ref) {
    forall order :: ListsOnce(order, w.snapshots) && ListsAll(order, w.snapshots)
      ==> StateOf(RestoreKeys(w.cluster, w.snapshots, order), ref) == StateOf(origin, ref)
  }

  ghost predicate MentionedAnywhere(snapshots: map<Action, seq<Item>>, ref: Ref) {
    exists a :: a in snapshots && Mentions(snapshots[a], ref)
  }

  lemma MentionedIsCovered(acts: set<Action>, w: World, ref: Ref)
    requires Shaped(acts, w)
    ensures MentionedAnywhere(w.snapshots, ref) <==> Covered(w.snapshots, ref)
  {
    if a :| a in w.snapshots && Mentions(w.snapshots[a], ref) {
      assert ShapedKey(w.snapshots[a], a);
      assert Covers(a, ref);
    }
    if a :| a in w.snapshots && Covers(a, ref) {
      assert ShapedKey(w.snapshots[a], a);
      var k :| 0 <= k < |SnapshotRefs(a).value| && SnapshotRefs(a).value[k] == ref;
      assert w.snapshots[a][k].ref == ref;
      assert Mentions(w.snapshots[a], ref);
    }
  }

  /** A pass that visits the key of `item` last leaves exactly that item. */
  lemma SomeOrderLeaves(acts: set<Action>, w: World, item: Item) returns (order: seq<Action>)
    requires Shaped(acts, w) && Saved(w.snapshots, item)
    ensures ListsOnce(order, w.snapshots) && ListsAll(order, w.snapshots)
    ensures StateOf(RestoreKeys(w.cluster, w.snapshots, order), item.ref) == item.state
  {
    var a :| a in w.snapshots && item in w.snapshots[a];
    assert ShapedKey(w.snapshots[a], a);
    var init := OrderEndingIn(w.snapshots.Keys - {a}, w.snapshots);
    order := init + [a];
    var i :| 0 <= i < |w.snapshots[a]| && w.snapshots[a][i] == item;
    assert Mentions(w.snapshots[a], item.ref);
    LastKeyWins(w.cluster, w.snapshots, order, |init|, item.ref);
    ItemsAre(map[], w.snapshots[a], item.ref);
    assert Item(item.ref, KeyState(w.snapshots[a], item.ref)) == item;
  }

  /**
   * The exact condition, for every plan and every reachable world: whatever order a rollback visits the keys in, a
   * saved object gets its original state back iff the ConfigMap holds it in one state only.
   */
  lemma RollbackIsSafeIff(actions: seq<Action>, origin: Cluster, parse: QuantityParser, w: World, ref: Ref)
    requires Reach(ExecutableSet(actions), parse, World(origin, map[]), w) && MentionedAnywhere(w.snapshots, ref)
    ensures AlwaysRestored(origin, w, ref) <==> AtMostOneItem(w.snapshots, ref)
  {
    var first := Item(ref, StateOf(origin, ref));
    FirstItemsHoldOrigin(actions, origin, parse, w, ref);
    MentionedIsCovered(ExecutableSet(actions), w, ref);
    if AlwaysRestored(origin, w, ref) {
      forall x | Saved(w.snapshots, x) && x.ref == ref ensures x == first {
        var order := SomeOrderLeaves(ExecutableSet(actions), w, x);
      }
    }
    if AtMostOneItem(w.snapshots, ref) {
      forall order | ListsOnce(order, w.snapshots) && ListsAll(order, w.snapshots)
        ensures StateOf(RestoreKeys(w.cluster, w.snapshots, order), ref) == StateOf(origin, ref)
      {
        RollbackLandsOnSnapshots(w.cluster, w.snapshots, order, ref);
        assert Item(ref, StateOf(RestoreKeys(w.cluster, w.snapshots, order), ref)) == first;
      }
    }
  }

  /** Every visiting order gives the whole original cluster back. */
  ghost predicate AlwaysUndone(origin: Cluster, w: World) {
    forall order :: ListsOnce(order, w.snapshots) && ListsAll(order, w.snapshots)
      ==> RestoreKeys(w.cluster, w.snapshots, order) == origin
  }

  lemma UnsavedStays(actions: seq<Action>, origin: Cluster, parse: QuantityParser, w: World, order: seq<Action>,
                     ref: Ref)
    requires Reach(ExecutableSet(actions), parse, World(origin, map[]), w) && !MentionedAnywhere(w.snapshots, ref)
    requires ListsOnce(order, w.snapshots) && ListsAll(order, w.snapshots)
    ensures StateOf(RestoreKeys(w.cluster, w.snapshots, order), ref) == StateOf(origin, ref)
  {
    FirstItemsHoldOrigin(actions, origin, parse, w, ref);
    MentionedIsCovered(ExecutableSet(actions), w, ref);
    KeysAre(w.cluster, w.snapshots, order, ref);
  }

  /** So, for every plan: rollback undoes apply in every order iff no object is saved in two states. */
  lemma RollbackUndoesIff(actions: seq<Action>, origin: Cluster, parse: QuantityParser, w: World)
    requires Reach(ExecutableSet(actions), parse, World(origin, map[]), w)
    ensures AlwaysUndone(origin, w) <==> Consistent(w.snapshots)
  {
    if Consistent(w.snapshots) {
      forall order | ListsOnce(order, w.snapshots) && ListsAll(order, w.snapshots)
        ensures RestoreKeys(w.cluster, w.snapshots, order) == origin
      {
        var after := RestoreKeys(w.cluster, w.snapshots, order);
        forall ref ensures StateOf(after, ref) == StateOf(origin, ref) {
          if MentionedAnywhere(w.snapshots, ref) {
            RollbackIsSafeIff(actions, origin, parse, w, ref);
            assert AtMostOneItem(w.snapshots, ref);
          } else {
            UnsavedStays(actions, origin, parse, w, order, ref);
          }
        }
        SameStatesSameCluster(after, origin);
      }
    }
    if AlwaysUndone(origin, w) {
      forall ref ensures AtMostOneItem(w.snapshots, ref) {
        if MentionedAnywhere(w.snapshots, ref) {
          assert AlwaysRestored(origin, w, ref);
          RollbackIsSafeIff(actions, origin, parse, w, ref);
        } else {
          Unmentioned(w.snapshots, ref);
        }
      }
    }
  }

  lemma Unmentioned(snapshots: map<Action, seq<Item>>, ref: Ref)
    requires !MentionedAnywhere(snapshots, ref)
    ensures forall item :: Saved(snapshots, item) ==> item.ref != ref
  {
    forall item | Saved(snapshots, item) ensures item.ref != ref {
      var a :| a in snapshots && item in snapshots[a];
      var i :| 0 <= i < |snapshots[a]| && snapshots[a][i] == item;
      assert !Mentions(snapshots[a], ref);
    }
  }

  const SHARED := Ref(AppsV1, Deployment, "shop", "web")

  const FILL_SHARED := Action(PatchWorkloadResources, SHARED,
                              map[CpuRequest := "1", MemoryRequest := "1", CpuLimit := "1", MemoryLimit := "1"])

  const PROBE_SHARED := Action(PatchWorkloadProbes, SHARED,
                               map[Configured := "true", ContainerName := "c", Port := "1", ReadinessPath := "/",
                                   LivenessPath := "/"])

  const BARE := Container("c", map[], map[], None, None, "")

  function SharedCluster(c: Container): Cluster {
    map[SHARED := Obj(map[], PodTemplate([], [c], map[], ""), "")]
  }

  lemma BothAreExecutable()
    ensures Executable(FILL_SHARED) && Executable(PROBE_SHARED)
  {
    assert Matches(WORKLOADS[0], SHARED);
    assert !Blank("1") by { assert "1"[0] == '1'; }
    assert !Blank("/") by { assert "/"[0] == '/'; }
    assert !Blank("c") by { assert "c"[0] == 'c'; }
    assert !Blank("true") by { assert "true"[0] == 't'; }
  }

  /** The world after filling, then snapshotting for the second action. */
  function SharedWorld(filled: Container): World {
    World(SharedCluster(filled), map[FILL_SHARED := ItemsFor(SharedCluster(BARE), [SHARED]),
                                     PROBE_SHARED := ItemsFor(SharedCluster(filled), [SHARED])])
  }

  lemma SharedRun(parse: QuantityParser, filled: Container)
    requires (forall s :: parse(s) == Some(s)) && filled == FillContainer(BARE, QuantitiesOf(FILL_SHARED))
    ensures Reach({FILL_SHARED, PROBE_SHARED}, parse, World(SharedCluster(BARE), map[]), SharedWorld(filled))
  {
    var acts := {FILL_SHARED, PROBE_SHARED};
    var start := World(SharedCluster(BARE), map[]);
    var saved := start.(snapshots := map[FILL_SHARED := ItemsFor(start.cluster, [SHARED])]);
    var written := saved.(cluster := SharedCluster(filled));
    assert SnapshotStep(acts, start, saved, FILL_SHARED);
    FillWrites(parse);
    assert WriteStep(acts, parse, saved, written, FILL_SHARED, SHARED);
    assert SnapshotStep(acts, written, SharedWorld(filled), PROBE_SHARED);
    ReachStep(acts, parse, start, saved);
    ReachStep(acts, parse, saved, written);
    ReachStep(acts, parse, written, SharedWorld(filled));
    ReachThrough(acts, parse, start, saved, written);
    ReachThrough(acts, parse, start, written, SharedWorld(filled));
  }

  lemma ProbeKeyWins(filled: Container, order: seq<Action>)
    requires order == [FILL_SHARED, PROBE_SHARED]
    ensures ListsOnce(order, SharedWorld(filled).snapshots) && ListsAll(order, SharedWorld(filled).snapshots)
    ensures StateOf(RestoreKeys(SharedCluster(filled), SharedWorld(filled).snapshots, order), SHARED)
         == StateOf(SharedCluster(filled), SHARED)
  {
    var items := SharedWorld(filled).snapshots[PROBE_SHARED];
    assert items[0] == Item(SHARED, StateOf(SharedCluster(filled), SHARED));
    assert Mentions(items, SHARED);
    LastKeyWins(SharedCluster(filled), SharedWorld(filled).snapshots, order, 1, SHARED);
    ItemsAre(map[], items, SHARED);
  }

  /** Two executable actions on one workload: visiting the earlier snapshot first loses the original spec. */
  lemma SharedWorkloadBreaksRollback() returns (parse: QuantityParser, origin: Cluster, w: World, order: seq<Action>)
    ensures Executable(FILL_SHARED) && Executable(PROBE_SHARED)
    ensures Reach({FILL_SHARED, PROBE_SHARED}, parse, World(origin, map[]), w)
    ensures ListsOnce(order, w.snapshots) && ListsAll(order, w.snapshots)
    ensures RestoreKeys(w.cluster, w.snapshots, order) != origin
  {
    BothAreExecutable();
    parse, origin, order := s => Some(s), SharedCluster(BARE), [FILL_SHARED, PROBE_SHARED];
    var filled := FillContainer(BARE, QuantitiesOf(FILL_SHARED));
    w := SharedWorld(filled);
    SharedRun(parse, filled);
    ProbeKeyWins(filled, order);
    assert Cpu in filled.requests && Cpu !in BARE.requests;
  }

  lemma FillWrites(parse: QuantityParser)
    requires forall s :: parse(s) == Some(s)
    ensures var filled := FillContainer(BARE, QuantitiesOf(FILL_SHARED));
            var next := Intended(FILL_SHARED, SHARED, SharedCluster(BARE), parse);
            next.Some? && SharedCluster(BARE)[SHARED := next.value] == SharedCluster(filled)
  {
    var q := QuantitiesOf(FILL_SHARED);
    assert WorkloadRef(FILL_SHARED) == SHARED;
    assert FillAll([BARE], q) == [FillContainer(BARE, q)];
    assert FillAll([], q) == [];
  }
}
