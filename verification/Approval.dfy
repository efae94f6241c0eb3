/**
 * The approval protocol over two stored objects, the approval request and the plan, that any number of callers update
 * by resource-version compare-and-swap, and the operator that reads the plan, possibly long after it was stored.
 */
module Approval {
  import opened Basics
  import opened PlanBuilder
  import Catalog
  import Operator

  /** The plan fields the protocol uses. */
  datatype PlanSpec = PlanSpec(required: bool, decision: Decision, executionRequested: bool, rollbackRequested: bool)

  /** Every stored version of every object, oldest first; an object's resource version is the number of its versions. */
  datatype View = View(approvals: map<string, seq<Decision>>, plans: map<string, seq<PlanSpec>>)

  function Newest<T>(versions: seq<T>): T
    requires |versions| > 0
  {
    versions[|versions| - 1]
  }

  // ---- The writes that the callers of this protocol may make ----

  function FirstPlan(required: bool): PlanSpec {
    PlanSpec(required, if required then Pending else Approved, false, false)
  }

  ghost predicate PlanCreated(v: View, v': View, id: string, required: bool) {
    id !in v.plans && v' == v.(plans := v.plans[id := [FirstPlan(required)]])
  }

  ghost predicate ApprovalCreated(v: View, v': View, id: string) {
    && id !in v.approvals && id in v.plans && |v.plans[id]| > 0 && Newest(v.plans[id]).required
    && v' == v.(approvals := v.approvals[id := [Pending]])
  }

  /** A decision is written over a pending one or over itself. */
  ghost predicate Decided(v: View, v': View, id: string, decision: Decision) {
    && id in v.approvals && |v.approvals[id]| > 0 && decision != Pending
    && (Newest(v.approvals[id]) == Pending || Newest(v.approvals[id]) == decision)
    && v' == v.(approvals := v.approvals[id := v.approvals[id] + [decision]])
  }

  predicate MayBecome(v: View, id: string, before: PlanSpec, after: PlanSpec) {
    || (after == before.(decision := after.decision) && after.decision != Pending
        && id in v.approvals && after.decision in v.approvals[id])
    || (after == before.(executionRequested := true) && (before.required ==> before.decision == Approved))
    || after == before.(rollbackRequested := true)
  }

  ghost predicate PlanUpdated(v: View, v': View, id: string, after: PlanSpec) {
    && id in v.plans && |v.plans[id]| > 0 && MayBecome(v, id, Newest(v.plans[id]), after)
    && v' == v.(plans := v.plans[id := v.plans[id] + [after]])
  }

  /** `needs` says which plans require approval; a plan's id determines the plan. */
  ghost predicate Step(needs: string -> bool, v: View, v': View) {
    || (exists id :: PlanCreated(v, v', id, needs(id)))
    || (exists id :: ApprovalCreated(v, v', id))
    || (exists id, decision :: Decided(v, v', id, decision))
    || (exists id, after :: PlanUpdated(v, v', id, after))
  }

  ghost predicate StepAt(needs: string -> bool, run: seq<View>, k: nat) {
    k + 1 < |run| && Step(needs, run[k], run[k + 1])
  }

  ghost predicate RunFromTo(needs: string -> bool, run: seq<View>, v: View, v': View) {
    && |run| > 0 && run[0] == v && Newest(run) == v'
    && forall k: nat :: k + 1 < |run| ==> StepAt(needs, run, k)
  }

  ghost predicate Reach(needs: string -> bool, v: View, v': View) {
    exists run :: RunFromTo(needs, run, v, v')
  }

  lemma ReachSelf(needs: string -> bool, v: View)
    ensures Reach(needs, v, v)
  {
    assert RunFromTo(needs, [v], v, v);
  }

  lemma ReachStep(needs: string -> bool, v: View, middle: View, v': View)
    requires Reach(needs, v, middle) && Step(needs, middle, v')
    ensures Reach(needs, v, v')
  {
    var run :| RunFromTo(needs, run, v, middle);
    var longer := run + [v'];
    forall k: nat | k + 1 < |longer| ensures StepAt(needs, longer, k) {
      if k + 1 < |run| { assert StepAt(needs, run, k); }
    }
    assert RunFromTo(needs, longer, v, v');
  }

  lemma ReachThrough(needs: string -> bool, a: View, b: View, c: View)
    requires Reach(needs, a, b) && Reach(needs, b, c)
    ensures Reach(needs, a, c)
  {
    var first :| RunFromTo(needs, first, a, b);
    var second :| RunFromTo(needs, second, b, c);
    var run := first + second[1..];
    forall k: nat | k + 1 < |run| ensures StepAt(needs, run, k) {
      if k + 1 < |first| {
        assert StepAt(needs, first, k);
      } else {
        assert StepAt(needs, second, k + 1 - |first|);
      }
    }
    assert RunFromTo(needs, run, a, c);
  }

  // ---- What every run keeps ----

  /** It starts pending, and once made a decision never changes. */
  predicate NeverFlips(decisions: seq<Decision>) {
    && |decisions| > 0 && decisions[0] == Pending
    && forall i, j :: 0 <= i < j < |decisions| && decisions[i] != Pending ==> decisions[j] == decisions[i]
  }

  /**
   * It starts undecided if gated, with nothing requested. Its decision is pending or the approval's own, execution is
   * requested only on approval, and requests stay.
   */
  predicate PlanTrail(versions: seq<PlanSpec>, required: bool, approval: Decision) {
    && |versions| > 0
    && versions[0] == PlanSpec(required, if required then Pending else Approved, false, false)
    && (forall k :: 0 <= k < |versions| ==> TrailAt(versions, required, approval, k))
    && (forall i, j :: 0 <= i < j < |versions| ==> Keeps(versions[i], versions[j]))
  }

  predicate TrailAt(versions: seq<PlanSpec>, required: bool, approval: Decision, k: nat)
    requires k < |versions|
  {
    var spec := versions[k];
    && spec.required == required
    && (if required then spec.decision == Pending || spec.decision == approval else spec.decision == Approved)
    && (spec.executionRequested && required ==> spec.decision == Approved)
  }

  predicate Keeps(before: PlanSpec, after: PlanSpec) {
    && (before.decision != Pending ==> after.decision == before.decision)
    && (before.executionRequested ==> after.executionRequested)
    && (before.rollbackRequested ==> after.rollbackRequested)
  }

  function DecisionOf(v: View, id: string): Decision {
    if id in v.approvals && |v.approvals[id]| > 0 then Newest(v.approvals[id]) else Pending
  }

  predicate Fits(needs: string -> bool, v: View, id: string) {
    && (id in v.approvals ==> id in v.plans && needs(id) && NeverFlips(v.approvals[id]))
    && (id in v.plans ==> PlanTrail(v.plans[id], needs(id), DecisionOf(v, id)))
  }

  ghost predicate Inv(needs: string -> bool, v: View) {
    forall id :: Fits(needs, v, id)
  }

  lemma CreationKeepsFits(needs: string -> bool, v: View, v': View, id: string, other: string)
    requires Fits(needs, v, id) && Fits(needs, v, other)
    requires PlanCreated(v, v', id, needs(id)) || ApprovalCreated(v, v', id)
    ensures Fits(needs, v', other)
  {
    if id in v.plans { assert TrailAt(v.plans[id], needs(id), DecisionOf(v, id), |v.plans[id]| - 1); }
  }

  lemma DecisionKeepsFits(needs: string -> bool, v: View, v': View, id: string, decision: Decision)
    requires Fits(needs, v, id) && Decided(v, v', id, decision)
    ensures Fits(needs, v', id)
  {
    forall k | 0 <= k < |v.plans[id]| ensures TrailAt(v.plans[id], needs(id), decision, k) {
      assert TrailAt(v.plans[id], needs(id), DecisionOf(v, id), k);
    }
  }

  lemma UpdateKeepsFits(needs: string -> bool, v: View, v': View, id: string, after: PlanSpec)
    requires Fits(needs, v, id) && PlanUpdated(v, v', id, after)
    ensures Fits(needs, v', id)
  {
    var versions, approval := v.plans[id], DecisionOf(v, id);
    assert TrailAt(versions, needs(id), approval, |versions| - 1);
    forall k | 0 <= k < |versions| + 1 ensures TrailAt(versions + [after], needs(id), approval, k) {
      if k < |versions| { assert TrailAt(versions, needs(id), approval, k); }
    }
    forall i, j | 0 <= i < j < |versions| + 1 ensures Keeps((versions + [after])[i], (versions + [after])[j]) {
      if j < |versions| {
        assert Keeps(versions[i], versions[j]);
      } else if i < |versions| - 1 {
        assert Keeps(versions[i], versions[|versions| - 1]);
      }
    }
  }

  lemma StepKeepsInv(needs: string -> bool, v: View, v': View)
    requires Inv(needs, v) && Step(needs, v, v')
    ensures Inv(needs, v')
  {
    forall other ensures Fits(needs, v', other) {
      assert Fits(needs, v, other);
      if id :| PlanCreated(v, v', id, needs(id)) || ApprovalCreated(v, v', id) {
        assert Fits(needs, v, id);
        CreationKeepsFits(needs, v, v', id, other);
      } else if id, decision :| Decided(v, v', id, decision) {
        if other == id { DecisionKeepsFits(needs, v, v', id, decision); }
      } else {
        var id, after :| PlanUpdated(v, v', id, after);
        if other == id { UpdateKeepsFits(needs, v, v', id, after); }
      }
    }
  }

  lemma {:induction false} RunKeepsInv(needs: string -> bool, run: seq<View>, v: View, v': View)
    requires RunFromTo(needs, run, v, v') && Inv(needs, v)
    ensures Inv(needs, v')
  {
    if |run| > 1 {
      var before := run[..|run| - 1];
      forall k: nat | k + 1 < |before| ensures StepAt(needs, before, k) { assert StepAt(needs, run, k); }
      RunKeepsInv(needs, before, v, Newest(before));
      assert StepAt(needs, run, |run| - 2);
      StepKeepsInv(needs, Newest(before), v');
    }
  }

  /** Whatever interleaving of writes led here, the invariant holds. */
  lemma ReachableViews(needs: string -> bool, v: View)
    requires Reach(needs, View(map[], map[]), v)
    ensures Inv(needs, v)
  {
    var run :| RunFromTo(needs, run, View(map[], map[]), v);
    RunKeepsInv(needs, run, View(map[], map[]), v);
  }

  /** Stored versions are never rewritten. */
  predicate Grows(v: View, v': View) {
    && (forall id :: id in v.approvals ==> id in v'.approvals && v.approvals[id] <= v'.approvals[id])
    && (forall id :: id in v.plans ==> id in v'.plans && v.plans[id] <= v'.plans[id])
  }

  lemma StepGrows(needs: string -> bool, v: View, v': View)
    requires Step(needs, v, v')
    ensures Grows(v, v')
  {}

  lemma {:induction false} RunGrows(needs: string -> bool, run: seq<View>, v: View, v': View)
    requires RunFromTo(needs, run, v, v')
    ensures Grows(v, v')
  {
    if |run| > 1 {
      var before := run[..|run| - 1];
      forall k: nat | k + 1 < |before| ensures StepAt(needs, before, k) { assert StepAt(needs, run, k); }
      RunGrows(needs, before, v, Newest(before));
      assert StepAt(needs, run, |run| - 2);
      StepGrows(needs, Newest(before), v');
    }
  }

  /** The decision of an approval, once made, is the decision ever after. */
  lemma DecisionsNeverFlip(needs: string -> bool, v: View, v': View, id: string)
    requires Inv(needs, v') && Reach(needs, v, v') && id in v.approvals && |v.approvals[id]| > 0
    requires Newest(v.approvals[id]) != Pending
    ensures id in v'.approvals && |v'.approvals[id]| > 0 && Newest(v'.approvals[id]) == Newest(v.approvals[id])
  {
    var run :| RunFromTo(needs, run, v, v');
    RunGrows(needs, run, v, v');
    assert Fits(needs, v', id);
    assert v'.approvals[id][|v.approvals[id]| - 1] == Newest(v.approvals[id]);
  }

  /** Approved as far as the plan needs it, and requested: by the approval object and by the plan itself. */
  predicate Authorized(v: View, id: string) {
    && id in v.plans && |v.plans[id]| > 0 && Newest(v.plans[id]).executionRequested
    && (Newest(v.plans[id]).required ==>
          id in v.approvals && |v.approvals[id]| > 0 && Newest(v.approvals[id]) == Approved
            && Newest(v.plans[id]).decision == Approved)
  }

  function OperatorPlan(spec: PlanSpec, actions: seq<Catalog.Action>): Operator.Plan {
    Operator.Plan(spec.required, spec.decision, spec.executionRequested, actions)
  }

  /** However old the operator's copy of the plan, its open gate means that the plan is authorized now. */
  lemma OpenGateIsAuthorized(needs: string -> bool, v: View, id: string, k: nat, actions: seq<Catalog.Action>)
    requires Inv(needs, v) && id in v.plans && k < |v.plans[id]|
    requires Operator.GateOpen(OperatorPlan(v.plans[id][k], actions))
    ensures Authorized(v, id)
  {
    assert Fits(needs, v, id);
    var last := |v.plans[id]| - 1;
    assert TrailAt(v.plans[id], needs(id), DecisionOf(v, id), k);
    assert TrailAt(v.plans[id], needs(id), DecisionOf(v, id), last);
    if k < last { assert Keeps(v.plans[id][k], v.plans[id][last]); }
  }

  lemma AuthorizationLasts(needs: string -> bool, v: View, v': View, id: string)
    requires Inv(needs, v) && Inv(needs, v') && Reach(needs, v, v') && Authorized(v, id)
    ensures Authorized(v', id)
  {
    var run :| RunFromTo(needs, run, v, v');
    RunGrows(needs, run, v, v');
    assert v'.plans[id][|v.plans[id]| - 1] == Newest(v.plans[id]);
    assert Fits(needs, v, id);
    assert TrailAt(v.plans[id], needs(id), DecisionOf(v, id), |v.plans[id]| - 1);
    OpenGateIsAuthorized(needs, v', id, |v.plans[id]| - 1, []);
  }

  // ---- The callers ----

  datatype Stored<T> = Stored(value: T, version: nat)

  datatype WorkflowError = NotFound | Conflict | Unavailable

  datatype Update = Updated | Stale | Lost

  const RETRIES := 5

  /**
   * The two kinds of stored objects. Between any two calls of one caller, other callers may write whatever the protocol
   * allows.
   */
  class Workflow {
    const needs: string -> bool
    /** Alone, no other caller writes and no call fails. */
    const alone: bool
    var approvals: map<string, Stored<Decision>>
    var plans: map<string, Stored<PlanSpec>>
    ghost var view: View

    ghost predicate ApprovalStored(id: string)
      reads this
    {
      if id in approvals
      then id in view.approvals && |view.approvals[id]| > 0
        && approvals[id] == Stored(Newest(view.approvals[id]), |view.approvals[id]|)
      else id !in view.approvals
    }

    ghost predicate PlanStored(id: string)
      reads this
    {
      if id in plans
      then id in view.plans && |view.plans[id]| > 0 && plans[id] == Stored(Newest(view.plans[id]), |view.plans[id]|)
      else id !in view.plans
    }

    ghost predicate Valid()
      reads this
    {
      Inv(needs, view) && (forall id :: ApprovalStored(id)) && (forall id :: PlanStored(id))
    }

    constructor (needs: string -> bool, alone: bool)
      ensures Valid() && this.needs == needs && this.alone == alone && view == View(map[], map[])
    {
      this.needs, this.alone, approvals, plans, view := needs, alone, map[], map[], View(map[], map[]);
    }

    twostate predicate Unchanged()
      reads this
    {
      approvals == old(approvals) && plans == old(plans) && view == old(view)
    }

    twostate predicate Advanced()
      reads this
    {
      Valid() && Reach(needs, old(view), view)
    }

    // ---- Single writes ----

    method PutPlan(id: string, after: PlanSpec)
      requires Valid() && id in plans && MayBecome(view, id, plans[id].value, after)
      modifies this
      ensures Advanced() && approvals == old(approvals)
      ensures plans == old(plans)[id := Stored(after, old(plans)[id].version + 1)]
    {
      assert PlanStored(id);
      ghost var v := view;
      ghost var v' := v.(plans := v.plans[id := v.plans[id] + [after]]);
      assert PlanUpdated(v, v', id, after);
      StepKeepsInv(needs, v, v');
      ReachSelf(needs, v);
      ReachStep(needs, v, v, v');
      plans := plans[id := Stored(after, plans[id].version + 1)];
      view := v';
      forall other ensures PlanStored(other) { assert old(PlanStored(other)); }
      forall other ensures ApprovalStored(other) { assert old(ApprovalStored(other)); }
    }

    method PutDecision(id: string, decision: Decision)
      requires Valid() && id in approvals && decision != Pending
      requires (approvals[id].value == Pending || approvals[id].value == decision)
      modifies this
      ensures Advanced() && plans == old(plans)
      ensures approvals == old(approvals)[id := Stored(decision, old(approvals)[id].version + 1)]
    {
      assert ApprovalStored(id);
      ghost var v := view;
      ghost var v' := v.(approvals := v.approvals[id := v.approvals[id] + [decision]]);
      assert Decided(v, v', id, decision);
      StepKeepsInv(needs, v, v');
      ReachSelf(needs, v);
      ReachStep(needs, v, v, v');
      approvals := approvals[id := Stored(decision, approvals[id].version + 1)];
      view := v';
      forall other ensures PlanStored(other) { assert old(PlanStored(other)); }
      forall other ensures ApprovalStored(other) { assert old(ApprovalStored(other)); }
    }

    method InsertPlan(id: string)
      requires Valid() && id !in plans
      modifies this
      ensures Advanced() && approvals == old(approvals)
      ensures plans == old(plans)[id := Stored(FirstPlan(needs(id)), 1)]
    {
      assert PlanStored(id);
      ghost var v := view;
      ghost var v' := v.(plans := v.plans[id := [FirstPlan(needs(id))]]);
      assert PlanCreated(v, v', id, needs(id));
      StepKeepsInv(needs, v, v');
      ReachSelf(needs, v);
      ReachStep(needs, v, v, v');
      plans := plans[id := Stored(FirstPlan(needs(id)), 1)];
      view := v';
      forall other ensures PlanStored(other) { assert old(PlanStored(other)); }
      forall other ensures ApprovalStored(other) { assert old(ApprovalStored(other)); }
    }

    method InsertApproval(id: string)
      requires Valid() && id !in approvals && id in plans && plans[id].value.required
      modifies this
      ensures Advanced() && plans == old(plans) && approvals == old(approvals)[id := Stored(Pending, 1)]
    {
      assert ApprovalStored(id) && PlanStored(id);
      ghost var v := view;
      ghost var v' := v.(approvals := v.approvals[id := [Pending]]);
      assert ApprovalCreated(v, v', id);
      StepKeepsInv(needs, v, v');
      ReachSelf(needs, v);
      ReachStep(needs, v, v, v');
      approvals := approvals[id := Stored(Pending, 1)];
      view := v';
      forall other ensures PlanStored(other) { assert old(PlanStored(other)); }
      forall other ensures ApprovalStored(other) { assert old(ApprovalStored(other)); }
    }

    // ---- Other callers ----

    method Interfere()
      requires Valid()
      modifies this
      ensures Advanced() && (alone ==> Unchanged())
    {
      ghost var first := view;
      ReachSelf(needs, first);
      if alone { return; }
      var rounds: int := *;
      while rounds > 0
        invariant Valid() && Reach(needs, first, view)
      {
        ghost var before := view;
        OtherCaller();
        ReachThrough(needs, first, before, view);
        rounds := rounds - 1;
      }
    }

    method OtherCaller()
      requires Valid()
      modifies this
      ensures Advanced()
    {
      ReachSelf(needs, view);
      var id: string := *;
      var after: PlanSpec := *;
      var decision: Decision := *;
      var planFirst := *;
      if id !in plans {
        InsertPlan(id);
      } else if id !in approvals && plans[id].value.required {
        InsertApproval(id);
      } else if planFirst && SafeUpdate(id, after) {
        PutPlan(id, after);
      } else if id in approvals && decision != Pending
        && (approvals[id].value == Pending || approvals[id].value == decision) {
        PutDecision(id, decision);
      }
    }

    /** A plan update that needs no memory of earlier versions: the decision it copies is the approval's newest. */
    predicate SafeUpdate(id: string, after: PlanSpec)
      requires Valid() && id in plans
      reads this
      ensures SafeUpdate(id, after) ==> MayBecome(view, id, plans[id].value, after)
    {
      assert ApprovalStored(id);
      var before := plans[id].value;
      || (after == before.(decision := after.decision) && after.decision != Pending && id in approvals
          && approvals[id].value == after.decision)
      || (after == before.(executionRequested := true) && (before.required ==> before.decision == Approved))
      || after == before.(rollbackRequested := true)
    }

    // ---- Reading, and compare-and-swap on what was read ----

    ghost predicate ReadApproval(id: string, got: Stored<Decision>)
      reads this
    {
      && id in view.approvals && 1 <= got.version <= |view.approvals[id]|
      && view.approvals[id][got.version - 1] == got.value
    }

    ghost predicate ReadPlan(id: string, got: Stored<PlanSpec>)
      reads this
    {
      && id in view.plans && 1 <= got.version <= |view.plans[id]|
      && view.plans[id][got.version - 1] == got.value
    }

    method GetApproval(id: string) returns (r: Result<Stored<Decision>, WorkflowError>)
      requires Valid()
      modifies this
      ensures Advanced() && (r.Ok? ==> ReadApproval(id, r.value)) && r != Err(Conflict)
      ensures alone ==> Unchanged() && r == if id in approvals then Ok(approvals[id]) else Err(NotFound)
    {
      Interfere();
      assert ApprovalStored(id);
      var reachable := *;
      r := if !reachable && !alone then Err(Unavailable) else if id !in approvals then Err(NotFound)
        else Ok(approvals[id]);
    }

    method GetPlan(id: string) returns (r: Result<Stored<PlanSpec>, WorkflowError>)
      requires Valid()
      modifies this
      ensures Advanced() && (r.Ok? ==> ReadPlan(id, r.value)) && r != Err(Conflict)
      ensures alone ==> Unchanged() && r == if id in plans then Ok(plans[id]) else Err(NotFound)
    {
      Interfere();
      assert PlanStored(id);
      var reachable := *;
      r := if !reachable && !alone then Err(Unavailable) else if id !in plans then Err(NotFound) else Ok(plans[id]);
    }

    /** What was read or decided once stays on record. */
    lemma RecordsLast(before: View, id: string)
      requires Reach(needs, before, view)
      ensures id in before.approvals ==> id in view.approvals && before.approvals[id] <= view.approvals[id]
      ensures id in before.plans ==> id in view.plans && before.plans[id] <= view.plans[id]
      ensures forall a, b :: MayBecome(before, id, a, b) ==> MayBecome(view, id, a, b)
    {
      var run :| RunFromTo(needs, run, before, view);
      RunGrows(needs, run, before, view);
    }

    /** Stores `after` over exactly what was read. A lost reply leaves the caller not knowing whether it was stored. */
    method UpdatePlan(id: string, got: Stored<PlanSpec>, after: PlanSpec) returns (r: Update)
      requires Valid() && ReadPlan(id, got) && MayBecome(view, id, got.value, after)
      modifies this
      ensures Advanced() && (r.Updated? ==> id in plans && plans[id].value == after)
      ensures alone && old(id in plans && plans[id] == got) ==>
                r.Updated? && approvals == old(approvals) && plans == old(plans)[id := Stored(after, got.version + 1)]
    {
      ghost var first := view;
      Interfere();
      ghost var middle := view;
      RecordsLast(first, id);
      assert PlanStored(id);
      var sent, answered := *, *;
      answered := answered || alone;
      if !sent && !alone { return Lost; }
      if plans[id].version != got.version { return if answered then Stale else Lost; }
      PutPlan(id, after);
      ReachThrough(needs, first, middle, view);
      r := if answered then Updated else Lost;
    }

    method UpdateApproval(id: string, got: Stored<Decision>, decision: Decision) returns (r: Update)
      requires Valid() && ReadApproval(id, got) && decision != Pending
      requires (got.value == Pending || got.value == decision)
      modifies this
      ensures Advanced() && (r.Updated? ==> id in approvals && approvals[id].value == decision)
      ensures alone && old(id in approvals && approvals[id] == got) ==>
                && r.Updated? && plans == old(plans)
                && approvals == old(approvals)[id := Stored(decision, got.version + 1)]
    {
      ghost var first := view;
      Interfere();
      ghost var middle := view;
      RecordsLast(first, id);
      assert ApprovalStored(id);
      var sent, answered := *, *;
      answered := answered || alone;
      if !sent && !alone { return Lost; }
      if approvals[id].version != got.version { return if answered then Stale else Lost; }
      PutDecision(id, decision);
      ReachThrough(needs, first, middle, view);
      r := if answered then Updated else Lost;
    }

    // ---- The workflow client ----

    /** What was there stays; a new plan is undecided if gated, with nothing requested. */
    function WithPlan(plans: map<string, Stored<PlanSpec>>, id: string): map<string, Stored<PlanSpec>> {
      if id in plans then plans
      else plans[id := Stored(PlanSpec(needs(id), if needs(id) then Pending else Approved, false, false), 1)]
    }

    function WithApproval(approvals: map<string, Stored<Decision>>, id: string): map<string, Stored<Decision>> {
      if id in approvals then approvals else approvals[id := Stored(Pending, 1)]
    }

    /** createIdempotent for the plan, then for its approval request if it needs one; a crash may come in between. */
    method CreatePlan(id: string) returns (ok: bool)
      requires Valid()
      modifies this
      ensures Advanced() && (ok ==> id in plans && (needs(id) ==> id in approvals))
      ensures alone ==> ok && plans == WithPlan(old(plans), id)
      ensures alone ==> approvals == if needs(id) then WithApproval(old(approvals), id) else old(approvals)
    {
      ghost var first := view;
      Interfere();
      ghost var second := view;
      var created := CreateOne(id, false);
      ghost var third := view;
      ReachThrough(needs, first, second, third);
      if !created || !needs(id) { return created; }
      ok := CreateOne(id, true);
      ReachThrough(needs, first, third, view);
    }

    /** createIdempotent: an object that is already there counts as created. */
    method CreateOne(id: string, approval: bool) returns (ok: bool)
      requires Valid() && (approval ==> id in plans && needs(id))
      modifies this
      ensures Advanced() && (ok ==> id in plans && (approval ==> id in approvals))
      ensures alone ==> ok && plans == if approval then old(plans) else WithPlan(old(plans), id)
      ensures alone ==> approvals == if approval then WithApproval(old(approvals), id) else old(approvals)
    {
      ReachSelf(needs, view);
      var sent, answered := *, *;
      answered := answered || alone;
      if !sent && !alone { return false; }
      assert PlanStored(id) && Fits(needs, view, id);
      if approval {
        assert TrailAt(view.plans[id], needs(id), DecisionOf(view, id), |view.plans[id]| - 1);
        if id !in approvals { InsertApproval(id); }
      } else if id !in plans {
        InsertPlan(id);
      }
      ok := answered;
    }

    /** DecideApproval: decide the approval request, retrying on conflicts, then copy the decision to the plan. */
    method DecideApproval(id: string, decision: Decision)
      returns (r: Result<Decision, WorkflowError>, ghost stale: nat)
      requires Valid()
      modifies this
      ensures Advanced()
      ensures r == Err(Conflict) ==> decision == Pending || stale == 5 || DecidedOtherwise(id, decision)
      ensures alone && r.Err? ==> Unchanged()
      ensures alone && r.Ok? ==> id in old(approvals) && id in old(plans)
      ensures alone && r.Ok? ==>
                && approvals == old(approvals)[id := Stored(decision, old(approvals)[id].version + 1)]
                && plans == old(plans)[id := Stored(old(plans)[id].value.(decision := decision),
                                                    old(plans)[id].version + 1)]
      ensures r.Ok? ==> r.value == decision && Settled(id, decision)
      ensures decision == Pending ==> r.Err?
      ensures old(id in approvals && approvals[id].value != Pending && approvals[id].value != decision) ==> r.Err?
      ensures alone && decision != Pending ==>
                (old(id in approvals && (approvals[id].value == Pending || approvals[id].value == decision)) ==> r.Ok?)
    {
      ghost var first := view;
      stale := 0;
      ReachSelf(needs, first);
      assert ApprovalStored(id);
      if decision == Pending { return Err(Conflict), stale; }
      var update := Stale;
      var attempt := 0;
      while attempt < RETRIES && update.Stale?
        invariant Valid() && Reach(needs, first, view) && (attempt == 0 ==> update.Stale?)
        invariant update.Updated? ==> id in approvals && approvals[id].value == decision
        invariant attempt <= RETRIES && (update.Stale? ==> stale == attempt)
        invariant alone && attempt == 0 ==> Unchanged()
        invariant alone && attempt > 0 ==> update.Updated? && id in old(approvals) && plans == old(plans)
        invariant alone && attempt > 0 ==>
          approvals == old(approvals)[id := Stored(decision, old(approvals)[id].version + 1)]
        decreases RETRIES - attempt
      {
        ghost var before := view;
        var got := GetApproval(id);
        ReachThrough(needs, first, before, view);
        if got.Err? { return Err(got.error), stale; }
        if got.value.value != Pending && got.value.value != decision {
          assert view.approvals[id][got.value.version - 1] in view.approvals[id];
          return Err(Conflict), stale;
        }
        ghost var middle := view;
        update := UpdateApproval(id, got.value, decision);
        ReachThrough(needs, first, middle, view);
        attempt := attempt + 1;
        if update.Stale? { stale := attempt; }
      }
      if !update.Updated? { return Err(if update.Stale? then Conflict else Unavailable), stale; }
      assert ApprovalStored(id) && Fits(needs, view, id) && PlanStored(id);
      ghost var decided := view;
      var copied := SetPlanApprovalDecision(id, decision);
      ReachThrough(needs, first, decided, view);
      if !copied { return Err(Unavailable), stale; }
      r := Ok(decision);
      AlreadyDecided(first, id, decision);
    }

    /** The other decision is on record. */
    ghost predicate DecidedOtherwise(id: string, decision: Decision)
      reads this
    {
      id in view.approvals && exists d :: d in view.approvals[id] && d != Pending && d != decision
    }

    /** Approval and plan agree on this decision. */
    predicate Settled(id: string, decision: Decision)
      reads this
    {
      id in approvals && id in plans && approvals[id].value == decision && plans[id].value.decision == decision
    }

    /** A caller that ends in agreement cannot have overruled an earlier decision. */
    lemma AlreadyDecided(before: View, id: string, decision: Decision)
      requires Valid() && Reach(needs, before, view) && Settled(id, decision)
      ensures id in before.approvals && |before.approvals[id]| > 0 && Newest(before.approvals[id]) != Pending
              ==> Newest(before.approvals[id]) == decision
    {
      assert ApprovalStored(id);
      if id in before.approvals && |before.approvals[id]| > 0 && Newest(before.approvals[id]) != Pending {
        DecisionsNeverFlip(needs, before, view, id);
      }
    }

    method SetPlanApprovalDecision(id: string, decision: Decision) returns (ok: bool)
      requires Valid() && decision != Pending && id in view.approvals && decision in view.approvals[id]
      modifies this
      ensures Advanced() && (ok ==> Settled(id, decision))
      ensures alone && id in old(plans) ==>
                && ok && approvals == old(approvals)
                && plans == old(plans)[id := Stored(old(plans)[id].value.(decision := decision),
                                                    old(plans)[id].version + 1)]
    {
      ghost var first := view;
      ReachSelf(needs, first);
      var update := Stale;
      var attempt := 0;
      while attempt < RETRIES && update.Stale?
        invariant Valid() && Reach(needs, first, view) && (attempt == 0 ==> update.Stale?)
        invariant update.Updated? ==> id in plans && plans[id].value.decision == decision
        invariant alone && attempt == 0 ==> Unchanged()
        invariant alone && id in old(plans) && attempt > 0 ==>
          && update.Updated? && approvals == old(approvals)
          && plans == old(plans)[id := Stored(old(plans)[id].value.(decision := decision), old(plans)[id].version + 1)]
        decreases RETRIES - attempt
      {
        ghost var before := view;
        var got := GetPlan(id);
        ReachThrough(needs, first, before, view);
        if got.Err? { return false; }
        RecordsLast(first, id);
        ghost var middle := view;
        update := UpdatePlan(id, got.value, got.value.value.(decision := decision));
        ReachThrough(needs, first, middle, view);
        attempt := attempt + 1;
      }
      ok := update.Updated?;
      RecordsLast(first, id);
      DecisionOnRecord(id, decision);
    }

    /** A decision that was ever made is the approval's decision now. */
    lemma DecisionOnRecord(id: string, decision: Decision)
      requires Valid() && decision != Pending && id in view.approvals && decision in view.approvals[id]
      ensures id in approvals && approvals[id].value == decision
    {
      assert ApprovalStored(id) && Fits(needs, view, id);
      var k :| 0 <= k < |view.approvals[id]| && view.approvals[id][k] == decision;
    }

    /** RequestExecution: refuse unless approved as required, and otherwise mark the plan as it was read. */
    method RequestExecution(id: string) returns (r: Result<bool, WorkflowError>, ghost stale: nat)
      requires Valid()
      modifies this
      ensures Advanced()
      ensures r == Err(Conflict) ==> stale == 5 || Unapproved(id)
      ensures alone && r.Err? ==> Unchanged()
      ensures alone && r.Ok? ==>
                && id in old(plans) && approvals == old(approvals)
                && plans == old(plans)[id := Stored(old(plans)[id].value.(executionRequested := true),
                                                    old(plans)[id].version + 1)]
      ensures r.Ok? ==> Authorized(view, id)
      ensures alone ==> (r.Ok? <==>
                         old(id in plans && (plans[id].value.required ==> plans[id].value.decision == Approved)))
    {
      ghost var first := view;
      stale := 0;
      ReachSelf(needs, first);
      var update := Stale;
      var attempt := 0;
      while attempt < RETRIES && update.Stale?
        invariant Valid() && Reach(needs, first, view) && (attempt == 0 ==> update.Stale?)
        invariant update.Updated? ==> id in plans && plans[id].value.executionRequested
        invariant attempt <= RETRIES && (update.Stale? ==> stale == attempt)
        invariant alone && attempt == 0 ==> Unchanged()
        invariant alone && attempt > 0 ==>
          update.Updated? && old(id in plans && (plans[id].value.required ==> plans[id].value.decision == Approved))
        invariant alone && attempt > 0 ==>
          && approvals == old(approvals)
          && plans == old(plans)[id := Stored(old(plans)[id].value.(executionRequested := true),
                                              old(plans)[id].version + 1)]
        decreases RETRIES - attempt
      {
        ghost var before := view;
        var got := GetPlan(id);
        ReachThrough(needs, first, before, view);
        if got.Err? { return Err(got.error), stale; }
        var spec := got.value.value;
        if spec.required && spec.decision != Approved {
          assert view.plans[id][got.value.version - 1] in view.plans[id];
          return Err(Conflict), stale;
        }
        ghost var middle := view;
        update := UpdatePlan(id, got.value, spec.(executionRequested := true));
        ReachThrough(needs, first, middle, view);
        attempt := attempt + 1;
        if update.Stale? { stale := attempt; }
      }
      if !update.Updated? { return Err(if update.Stale? then Conflict else Unavailable), stale; }
      RequestedIsAuthorized(id);
      r := Ok(true);
    }

    /** Some stored version of the plan is gated and not approved. */
    ghost predicate Unapproved(id: string)
      reads this
    {
      id in view.plans && exists spec :: spec in view.plans[id] && spec.required && spec.decision != Approved
    }

    lemma RequestedIsAuthorized(id: string)
      requires Valid() && id in plans && plans[id].value.executionRequested
      ensures Authorized(view, id)
    {
      assert PlanStored(id) && Fits(needs, view, id);
      assert TrailAt(view.plans[id], needs(id), DecisionOf(view, id), |view.plans[id]| - 1);
      OpenGateIsAuthorized(needs, view, id, |view.plans[id]| - 1, []);
    }

    method RequestRollback(id: string, eligible: bool) returns (r: Result<bool, WorkflowError>, ghost stale: nat)
      requires Valid()
      modifies this
      ensures Advanced()
      ensures r == Err(Conflict) ==> !eligible || stale == 5
      ensures alone && r.Err? ==> Unchanged()
      ensures alone && r.Ok? ==>
                && id in old(plans) && approvals == old(approvals)
                && plans == old(plans)[id := Stored(old(plans)[id].value.(rollbackRequested := true),
                                                    old(plans)[id].version + 1)]
      ensures r.Ok? ==> eligible && id in plans && plans[id].value.rollbackRequested
      ensures alone ==> (r.Ok? <==> eligible && id in old(plans))
    {
      ghost var first := view;
      stale := 0;
      ReachSelf(needs, first);
      if !eligible { return Err(Conflict), stale; }
      var update := Stale;
      var attempt := 0;
      while attempt < RETRIES && update.Stale?
        invariant Valid() && Reach(needs, first, view) && (attempt == 0 ==> update.Stale?)
        invariant update.Updated? ==> id in plans && plans[id].value.rollbackRequested
        invariant attempt <= RETRIES && (update.Stale? ==> stale == attempt)
        invariant alone && attempt == 0 ==> Unchanged()
        invariant alone && attempt > 0 ==>
          && update.Updated? && id in old(plans) && approvals == old(approvals)
          && plans == old(plans)[id := Stored(old(plans)[id].value.(rollbackRequested := true),
                                              old(plans)[id].version + 1)]
        decreases RETRIES - attempt
      {
        ghost var before := view;
        var got := GetPlan(id);
        ReachThrough(needs, first, before, view);
        if got.Err? { return Err(got.error), stale; }
        ghost var middle := view;
        update := UpdatePlan(id, got.value, got.value.value.(rollbackRequested := true));
        ReachThrough(needs, first, middle, view);
        attempt := attempt + 1;
        if update.Stale? { stale := attempt; }
      }
      if !update.Updated? { return Err(if update.Stale? then Conflict else Unavailable), stale; }
      r := Ok(true);
    }
  }

  // ---- End to end ----

  /**
   * One reconcile on a copy of the plan that may be arbitrarily old: if anything at all changes in the cluster,
   * mutation is enabled and the plan is approved and requested at this moment. The condition on snapshots is what
   * earlier passes leave.
   */
  method OperatorPass(workflow: Workflow, operator: Operator.Reconciler, id: string, got: Stored<PlanSpec>,
                      actions: seq<Catalog.Action>,
                      status: Operator.Phase, observed: bool) returns (phase: Operator.Phase)
    requires workflow.Valid() && workflow.ReadPlan(id, got)
    requires operator.snapshots != map[] ==> operator.mutationEnabled && Authorized(workflow.view, id)
    modifies operator
    ensures operator.State() != old(operator.State()) ==> operator.mutationEnabled && Authorized(workflow.view, id)
    ensures operator.snapshots != map[] ==> operator.mutationEnabled && Authorized(workflow.view, id)
  {
    var plan := OperatorPlan(got.value, actions);
    if Operator.GateOpen(plan) { OpenGateIsAuthorized(workflow.needs, workflow.view, id, got.version - 1, actions); }
    ghost var order;
    phase, order := operator.Reconcile(plan, got.value.rollbackRequested, status, observed);
  }

  /**
   * The operator's whole life on one plan, interleaved with every other caller of the protocol and reading stale copies
   * at will: the cluster has changed only if mutation is enabled and the plan is approved and requested.
   */
  method OperatorLife(workflow: Workflow, operator: Operator.Reconciler, id: string, actions: seq<Catalog.Action>,
                      rounds: nat)
    requires workflow.Valid() && operator.snapshots == map[]
    modifies workflow, operator
    ensures workflow.Valid()
    ensures operator.State() != old(operator.State()) ==> operator.mutationEnabled && Authorized(workflow.view, id)
  {
    var status := Operator.Prepared;
    var copy: Option<Stored<PlanSpec>> := None;
    ghost var first := operator.State();
    for round := 0 to rounds
      invariant workflow.Valid() && (copy.Some? ==> workflow.ReadPlan(id, copy.value))
      invariant operator.State() != first || operator.snapshots != map[] ==>
                  operator.mutationEnabled && Authorized(workflow.view, id)
    {
      ghost var before := workflow.view;
      copy := Refresh(workflow, id, copy);
      if Authorized(before, id) { AuthorizationLasts(workflow.needs, before, workflow.view, id); }
      if copy.Some? {
        var observed := *;
        status := OperatorPass(workflow, operator, id, copy.value, actions, status, observed);
      }
    }
  }

  /** Time passes for the operator's cached copy of the plan, which may or may not be refreshed. */
  method Refresh(workflow: Workflow, id: string, copy: Option<Stored<PlanSpec>>)
    returns (copy': Option<Stored<PlanSpec>>)
    requires workflow.Valid() && (copy.Some? ==> workflow.ReadPlan(id, copy.value))
    modifies workflow
    ensures workflow.Advanced() && (copy'.Some? ==> workflow.ReadPlan(id, copy'.value))
  {
    ghost var first := workflow.view;
    var got := workflow.GetPlan(id);
    ghost var middle := workflow.view;
    workflow.RecordsLast(first, id);
    var refreshed := *;
    copy' := if refreshed && got.Ok? then Some(got.value) else copy;
    workflow.Interfere();
    workflow.RecordsLast(middle, id);
    ReachThrough(workflow.needs, first, middle, workflow.view);
  }
}
