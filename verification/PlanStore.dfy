/** The in-memory store of remediation plans, their runs and approvals, and the audit log. */
module PlanStore {
  import opened Basics
  import opened PlanBuilder
  import Catalog
  import PlanMeaning

  /** Plan ids: numbered, or a hash of the request that is injective. A run and an approval share their plan's id. */
  datatype PlanId = Numbered(findingId: string, number: nat) | Keyed(findingId: string, requester: string, key: string)

  datatype RunState =
    | PendingApproval | Prepared | RunApproved | ExecutionRequested | ProposalOnly | DryRunPassed | Running | Verifying
    | RollbackRequested | Succeeded | RunFailed | RolledBack

  datatype PlanStatus = Proposed | PlanApproved | PlanRejected | AsRun(state: RunState)

  datatype Plan = Plan(
    id: PlanId, findingId: string, actions: seq<Catalog.Action>, required: bool, decision: Decision,
      status: PlanStatus, ai: Option<string>)

  datatype Run = Run(id: PlanId, planId: PlanId, state: RunState)

  datatype Approval = Approval(id: PlanId, requester: string, status: Decision, approver: string, reason: string)

  datatype EventKind = PlanCreated | ExecutionAsked | ApprovalGiven | ApprovalRefused | RollbackAsked

  datatype AuditEvent = AuditEvent(kind: EventKind, actor: string, subject: PlanId)

  function StatusAfter(decision: Decision): PlanStatus {
    if decision == Approved then PlanApproved else PlanRejected
  }

  function StateAfter(decision: Decision): RunState {
    if decision == Approved then RunApproved else RunFailed
  }

  function EventOf(decision: Decision): EventKind {
    if decision == Approved then ApprovalGiven else ApprovalRefused
  }

  datatype StoreError = NotFound | Invalid | Conflict

  function Scope(requester: string, key: string): string {
    requester + "|" + key
  }

  /** buildRemediationPlan, up to its texts. */
  function Built(finding: Finding, id: PlanId): Plan {
    var actions := TypedActionsForFinding(finding);
    var policy := ApprovalPolicyForActions(actions);
    Plan(id, finding.id, actions, policy.required, policy.decision, Proposed, None)
  }

  /** This plan, whatever its id, is the one built from the finding. */
  ghost predicate BuiltFrom(p: Plan, finding: Finding) {
    forall id :: Built(finding, id).(id := p.id) == p
  }

  /** What such a plan holds, told without the builder; it is gated iff it does more than set namespace defaults. */
  ghost predicate Fits(p: Plan, finding: Finding) {
    && p.findingId == finding.id && p.status == Proposed && p.ai.None? && PlanMeaning.PlanFits(finding, p.actions)
    && (p.required <==> exists k :: 0 <= k < |p.actions| && !PlanMeaning.NamespaceDefaults(p.actions[k]))
    && p.decision == if p.required then Pending else Approved
  }

  ghost predicate FitsFinding(p: Plan, finding: Finding) {
    forall id :: Fits(p.(id := id), finding)
  }

  lemma BuiltIsBuiltFrom(finding: Finding, id: PlanId)
    ensures BuiltFrom(Built(finding, id), finding)
  {}

  lemma BuiltFitsAs(finding: Finding, id: PlanId, other: PlanId)
    ensures Fits(Built(finding, id).(id := other), finding)
  {
    BuiltPlansStartPending(finding, id);
    PlanMeaning.BuiltPlansFit(finding);
    PlanMeaning.ApprovalIsNeededIff(TypedActionsForFinding(finding));
  }

  lemma BuiltFits(finding: Finding, id: PlanId)
    ensures FitsFinding(Built(finding, id), finding)
  {
    forall other ensures Fits(Built(finding, id).(id := other), finding) { BuiltFitsAs(finding, id, other); }
  }

  lemma BuiltNeedsApproval(p: Plan, finding: Finding)
    requires BuiltFrom(p, finding)
    ensures p.required <==> ApprovalPolicyForActions(TypedActionsForFinding(finding)).required
  {
    assert Built(finding, p.id).(id := p.id) == p;
  }

  lemma BuiltPlansStartPending(finding: Finding, id: PlanId)
    ensures Built(finding, id).decision == if Built(finding, id).required then Pending else Approved
  {
    ApprovalIsSkippedOnlyForGovernance(TypedActionsForFinding(finding));
  }

  // ---- The audit log ----

  function Count(audit: seq<AuditEvent>, kind: EventKind, id: PlanId): nat {
    if |audit| == 0 then 0
    else
      var before, last := Count(audit[..|audit| - 1], kind, id), audit[|audit| - 1];
      if last.kind == kind && last.subject == id then before + 1 else before
  }

  lemma CountAppend(audit: seq<AuditEvent>, e: AuditEvent, kind: EventKind, id: PlanId)
    ensures Count(audit + [e], kind, id) == Count(audit, kind, id) + if e.kind == kind && e.subject == id then 1 else 0
  {
    assert (audit + [e])[..|audit|] == audit;
  }

  lemma {:induction false} CountPrefix(audit: seq<AuditEvent>, k: nat, kind: EventKind, id: PlanId)
    requires k <= |audit|
    ensures Count(audit[..k], kind, id) <= Count(audit, kind, id)
  {
    if k < |audit| {
      var init := audit[..|audit| - 1];
      assert init[..k] == audit[..k];
      CountPrefix(init, k, kind, id);
    } else {
      assert audit[..k] == audit;
    }
  }

  function StatusOf(approvals: map<PlanId, Approval>, id: PlanId): Decision {
    if id in approvals then approvals[id].status else Pending
  }

  /**
   * The log tells an approval's whole story: one event when it is given, one when it is refused, none while it is
   * pending.
   */
  predicate StoryFits(audit: seq<AuditEvent>, id: PlanId, status: Decision) {
    && Count(audit, ApprovalGiven, id) == (if status == Approved then 1 else 0)
    && Count(audit, ApprovalRefused, id) == (if status == Rejected then 1 else 0)
  }

  /** An execution of a gated plan follows exactly one approval, and no refusal of that plan is ever logged. */
  predicate ExecutionFits(plans: map<PlanId, Plan>, audit: seq<AuditEvent>, k: nat)
    requires k < |audit|
  {
    var id := audit[k].subject;
    audit[k].kind == ExecutionAsked ==>
      && id in plans
      && (plans[id].required ==> Count(audit[..k], ApprovalGiven, id) == 1 && Count(audit, ApprovalRefused, id) == 0)
  }

  // ---- The tables ----

  /** `past` holds every version of every plan that was ever stored, for callers that still work on an old copy. */
  datatype Tables = Tables(
    plans: map<PlanId, Plan>, runs: map<PlanId, Run>, approvals: map<PlanId, Approval>, past: map<PlanId, set<Plan>>,
    audit: seq<AuditEvent>)

  /**
   * A version is of the same plan; its decision is that of the approval, or older than it; and only a refusal rejects.
   */
  predicate VersionFits(p: Plan, id: PlanId, current: Plan, status: Decision) {
    && p.id == id == current.id && p.findingId == current.findingId && p.actions == current.actions
    && p.required == current.required && (p.status == PlanRejected ==> p.decision == Rejected)
    && (if p.required then p.decision == Pending || p.decision == status else p.decision == Approved)
  }

  predicate RowFits(t: Tables, id: PlanId) {
    && (id in t.approvals ==> id in t.plans) && (id in t.past ==> id in t.plans)
      && (id in t.runs ==> t.runs[id].id == id)
    && (id in t.plans ==>
          && id in t.runs && id in t.past && t.plans[id] in t.past[id]
          && (id in t.approvals <==> t.plans[id].required) && (id in t.approvals ==> t.approvals[id].id == id)
          && forall p :: p in t.past[id] ==> VersionFits(p, id, t.plans[id], StatusOf(t.approvals, id)))
    && StoryFits(t.audit, id, StatusOf(t.approvals, id))
  }

  ghost predicate Inv(t: Tables) {
    && (forall id :: RowFits(t, id))
    && (forall k: nat :: k < |t.audit| ==> ExecutionFits(t.plans, t.audit, k))
  }

  /**
   * A plan's row is rewritten without touching what its gate depends on, and an event that is no decision is logged.
   */
  function WithPlan(t: Tables, p: Plan): Tables {
    t.(plans := t.plans[p.id := p], past := t.past[p.id := (if p.id in t.past then t.past[p.id] else {}) + {p}])
  }

  function Logged(t: Tables, e: AuditEvent): Tables {
    t.(audit := t.audit + [e])
  }

  lemma RewriteKeepsInv(t: Tables, p: Plan)
    requires Inv(t) && p.id in t.plans && VersionFits(p, p.id, t.plans[p.id], StatusOf(t.approvals, p.id))
    ensures Inv(WithPlan(t, p))
  {
    var t' := WithPlan(t, p);
    forall id ensures RowFits(t', id) { assert RowFits(t, id); }
    forall k: nat | k < |t'.audit| ensures ExecutionFits(t'.plans, t'.audit, k) {
      assert ExecutionFits(t.plans, t.audit, k);
    }
  }

  lemma LogKeepsInv(t: Tables, e: AuditEvent)
    requires Inv(t) && e.kind != ApprovalGiven && e.kind != ApprovalRefused
    requires e.kind == ExecutionAsked ==> e.subject in t.plans && t.plans[e.subject].decision == Approved
    ensures Inv(Logged(t, e))
  {
    var t' := Logged(t, e);
    forall id ensures RowFits(t', id) {
      assert RowFits(t, id);
      CountAppend(t.audit, e, ApprovalGiven, id);
      CountAppend(t.audit, e, ApprovalRefused, id);
    }
    forall k: nat | k < |t'.audit| ensures ExecutionFits(t'.plans, t'.audit, k) {
      CountAppend(t.audit, e, ApprovalRefused, t'.audit[k].subject);
      if k < |t.audit| {
        assert ExecutionFits(t.plans, t.audit, k);
        assert t'.audit[..k] == t.audit[..k];
      } else {
        assert RowFits(t, e.subject);
        assert t'.audit[..k] == t.audit;
      }
    }
  }

  function WithNewPlan(t: Tables, p: Plan, run: Run, approval: Approval): Tables {
    WithPlan(t, p).(runs := t.runs[p.id := run],
                    approvals := if p.required then t.approvals[p.id := approval] else t.approvals)
  }

  lemma CreationKeepsInv(t: Tables, p: Plan, run: Run, approval: Approval)
    requires Inv(t) && p.id !in t.plans && approval.status == Pending && approval.id == p.id
    requires p.decision == (if p.required then Pending else Approved) && p.status == Proposed && run.id == p.id
    ensures Inv(WithNewPlan(t, p, run, approval))
  {
    var t' := WithNewPlan(t, p, run, approval);
    forall id ensures RowFits(t', id) { assert RowFits(t, id); }
    forall k: nat | k < |t'.audit| ensures ExecutionFits(t'.plans, t'.audit, k) {
      assert ExecutionFits(t.plans, t.audit, k);
    }
  }

  function WithDecision(t: Tables, approval: Approval, kind: EventKind): Tables {
    Logged(t.(approvals := t.approvals[approval.id := approval]), AuditEvent(kind, approval.approver, approval.id))
  }

  /** No execution of a gated plan can be on record while its approval is pending. */
  lemma PendingMeansUnexecuted(t: Tables, id: PlanId, k: nat)
    requires Inv(t) && id in t.plans && t.plans[id].required && StatusOf(t.approvals, id) == Pending
    requires k < |t.audit| && t.audit[k].subject == id
    ensures t.audit[k].kind != ExecutionAsked
  {
    assert RowFits(t, id) && ExecutionFits(t.plans, t.audit, k);
    CountPrefix(t.audit, k, ApprovalGiven, id);
  }

  lemma DecisionKeepsInv(t: Tables, approval: Approval, kind: EventKind)
    requires Inv(t) && approval.id in t.approvals && t.approvals[approval.id].status == Pending
    requires approval.status != Pending
    requires kind == if approval.status == Approved then ApprovalGiven else ApprovalRefused
    ensures Inv(WithDecision(t, approval, kind))
  {
    var t', e := WithDecision(t, approval, kind), AuditEvent(kind, approval.approver, approval.id);
    forall id ensures RowFits(t', id) {
      assert RowFits(t, id);
      CountAppend(t.audit, e, ApprovalGiven, id);
      CountAppend(t.audit, e, ApprovalRefused, id);
    }
    assert RowFits(t, approval.id);
    forall k: nat | k < |t'.audit| ensures ExecutionFits(t'.plans, t'.audit, k) {
      if k < |t.audit| {
        assert ExecutionFits(t.plans, t.audit, k);
        assert t'.audit[..k] == t.audit[..k];
        CountAppend(t.audit, e, ApprovalRefused, t.audit[k].subject);
        if t.audit[k].subject == approval.id { PendingMeansUnexecuted(t, approval.id, k); }
      }
    }
  }

  lemma RunKeepsInv(t: Tables, run: Run)
    requires Inv(t)
    ensures Inv(t.(runs := t.runs[run.id := run]))
  {
    var t' := t.(runs := t.runs[run.id := run]);
    forall id ensures RowFits(t', id) { assert RowFits(t, id); }
    forall k: nat | k < |t'.audit| ensures ExecutionFits(t'.plans, t'.audit, k) {
      assert ExecutionFits(t.plans, t.audit, k);
    }
  }

  predicate Tells(audit: seq<AuditEvent>, k: nat, kind: EventKind, id: PlanId)
    requires k < |audit|
  {
    audit[k].kind == kind && audit[k].subject == id
  }

  lemma {:induction false} FirstTold(audit: seq<AuditEvent>, kind: EventKind, id: PlanId) returns (at: nat)
    requires Count(audit, kind, id) > 0
    ensures at < |audit| && Tells(audit, at, kind, id)
  {
    at := |audit| - 1;
    if !Tells(audit, at, kind, id) { at := FirstTold(audit[..|audit| - 1], kind, id); }
  }

  lemma {:induction false} NeverTold(audit: seq<AuditEvent>, j: nat, kind: EventKind, id: PlanId)
    requires j < |audit| && Count(audit, kind, id) == 0
    ensures !Tells(audit, j, kind, id)
  {
    if j < |audit| - 1 { NeverTold(audit[..|audit| - 1], j, kind, id); }
  }

  /** Two different events of a kind count for at least two. */
  lemma {:induction false} TwiceTold(audit: seq<AuditEvent>, i: nat, j: nat, kind: EventKind, id: PlanId)
    requires i < |audit| && j < |audit| && i != j && Tells(audit, i, kind, id) && Tells(audit, j, kind, id)
    ensures Count(audit, kind, id) >= 2
  {
    var init := audit[..|audit| - 1];
    if i < |init| && j < |init| {
      TwiceTold(init, i, j, kind, id);
    } else {
      var other := if i < |init| then i else j;
      if Count(init, kind, id) == 0 { NeverTold(init, other, kind, id); }
    }
  }

  // ---- Idempotency scopes ----

  predicate HasBar(text: string) {
    '|' in text
  }

  lemma LongerRequesterMeansBar(r: string, k: string, r': string, k': string)
    requires Scope(r, k) == Scope(r', k') && |r| < |r'|
    ensures HasBar(r')
    ensures HasBar(k)
  {
    var scope := Scope(r, k);
    assert scope[|r|] == '|' && scope[|r'|] == '|';
    assert scope[|r|] == r'[|r|] && scope[|r'|] == k[|r'| - |r| - 1];
  }

  /** Keys without the separator, which is all the API accepts, keep requests apart. */
  lemma ScopesKeepRequestsApart(r: string, k: string, r': string, k': string)
    requires !HasBar(k) && !HasBar(k')
    ensures Scope(r, k) == Scope(r', k') <==> r == r' && k == k'
  {
    if Scope(r, k) == Scope(r', k') {
      if |r| < |r'| { LongerRequesterMeansBar(r, k, r', k'); }
      if |r'| < |r| { LongerRequesterMeansBar(r', k', r, k); }
      var scope := Scope(r, k);
      assert scope[..|r|] == r && scope[..|r'|] == r';
      assert scope[|r| + 1..] == k && scope[|r'| + 1..] == k';
    }
  }

  /** No other request shares the scope of this one. */
  ghost predicate ScopeIsOwn(r: string, k: string) {
    forall r', k' :: Scope(r, k) == Scope(r', k') ==> r == r' && k == k'
  }

  /** A separator lets the scope be split elsewhere. */
  lemma BarGivesTwin(r: string, k: string) returns (r': string, k': string)
    requires HasBar(r) || HasBar(k)
    ensures Scope(r', k') == Scope(r, k) && r' != r
  {
    if HasBar(k) {
      var i :| 0 <= i < |k| && k[i] == '|';
      r', k' := r + "|" + k[..i], k[i + 1..];
      assert k == k[..i] + "|" + k[i + 1..];
    } else {
      var i :| 0 <= i < |r| && r[i] == '|';
      r', k' := r[..i], r[i + 1..] + "|" + k;
      assert r == r[..i] + "|" + r[i + 1..];
    }
  }

  /** The exact condition: a request owns its scope iff neither the requester nor the key contains the separator. */
  lemma ScopeIsOwnIff(r: string, k: string)
    ensures ScopeIsOwn(r, k) <==> !HasBar(r) && !HasBar(k)
  {
    if HasBar(r) || HasBar(k) {
      var r', k' := BarGivesTwin(r, k);
      assert Scope(r, k) == Scope(r', k') && r != r';
    } else {
      forall r', k' | Scope(r, k) == Scope(r', k') ensures r == r' && k == k' {
        if |r| < |r'| { LongerRequesterMeansBar(r, k, r', k'); }
        if |r'| < |r| { LongerRequesterMeansBar(r', k', r, k); }
        var scope := Scope(r, k);
        assert scope[..|r|] == r && scope[..|r'|] == r' && scope[|r| + 1..] == k && scope[|r'| + 1..] == k';
      }
    }
  }

  // ---- The store ----

  predicate IdFits(id: PlanId, number: nat, idempotency: map<string, PlanId>) {
    match id
    case Numbered(_, n) => n <= number
    case Keyed(_, requester, key) => Scope(requester, key) in idempotency
  }

  predicate IdsFit(plans: map<PlanId, Plan>, number: nat, idempotency: map<string, PlanId>) {
    && (forall id :: id in plans ==> IdFits(id, number, idempotency))
    && (forall scope :: scope in idempotency ==> idempotency[scope] in plans)
  }

  predicate KeepsPlans(before: map<PlanId, Plan>, after: map<PlanId, Plan>) {
    forall id :: id in before ==> id in after && after[id].findingId == before[id].findingId
  }

  predicate KeepsVersions(before: map<PlanId, set<Plan>>, after: map<PlanId, set<Plan>>) {
    forall id :: id in before ==> id in after && before[id] <= after[id]
  }

  predicate KeepsScopes(before: map<string, PlanId>, after: map<string, PlanId>) {
    forall scope :: scope in before ==> scope in after && after[scope] == before[scope]
  }

  function FreshId(findingId: string, requester: string, key: string, number: nat): PlanId {
    if key == "" then Numbered(findingId, number + 1) else Keyed(findingId, requester, key)
  }

  function FreshScopes(idempotency: map<string, PlanId>, id: PlanId, requester: string,
                       key: string): map<string, PlanId> {
    if key == "" then idempotency else idempotency[Scope(requester, key) := id]
  }

  /** A request whose scope is new gets an id that no plan has yet. */
  lemma FreshIdsFit(plans: map<PlanId, Plan>, number: nat, idempotency: map<string, PlanId>, plan: Plan,
                    requester: string, key: string)
    requires IdsFit(plans, number, idempotency) && (key != "" ==> Scope(requester, key) !in idempotency)
    requires plan.id == FreshId(plan.findingId, requester, key, number)
    ensures plan.id !in plans
    ensures IdsFit(plans[plan.id := plan], number + 1, FreshScopes(idempotency, plan.id, requester, key))
    ensures KeepsPlans(plans, plans[plan.id := plan])
    ensures KeepsScopes(idempotency, FreshScopes(idempotency, plan.id, requester, key))
  {
    assert plan.id in plans ==> IdFits(plan.id, number, idempotency);
  }

  class MemoryStore {
    var findings: map<string, Finding>
    var plans: map<PlanId, Plan>
    var runs: map<PlanId, Run>
    var approvals: map<PlanId, Approval>
    var idempotency: map<string, PlanId>
    var audit: seq<AuditEvent>
    var number: nat
    ghost var past: map<PlanId, set<Plan>>

    ghost function View(): Tables
      reads this
    {
      Tables(plans, runs, approvals, past, audit)
    }

    ghost predicate Valid()
      reads this
    {
      && Inv(View()) && IdsFit(plans, number, idempotency)
      && (forall id :: id in findings ==> findings[id].id == id)
    }

    /** Plans and their versions are never dropped, idempotency records never change, and the log only grows. */
    twostate predicate Grown()
      reads this
    {
      && Valid() && old(audit) <= audit && old(number) <= number
      && KeepsPlans(old(plans), plans) && KeepsVersions(old(past), past) && KeepsScopes(old(idempotency), idempotency)
    }

    /** Nothing about plans changed. */
    twostate predicate Same()
      reads this
    {
      View() == old(View()) && idempotency == old(idempotency) && number == old(number)
    }

    constructor ()
      ensures Valid() && findings == map[] && plans == map[] && idempotency == map[] && audit == []
    {
      findings, plans, runs, approvals, idempotency := map[], map[], map[], map[], map[];
      audit, number, past := [], 0, map[];
      new;
      forall id ensures RowFits(View(), id) {}
    }

    /** The finding as stored; a new one as given. */
    function Current(finding: Finding): Finding
      reads this
    {
      if finding.id in findings then findings[finding.id] else finding
    }

    method CreateRemediationPlanFromFinding(finding: Finding, requester: string, key: string)
      returns (r: Result<Plan, StoreError>)
      requires Valid()
      modifies this
      ensures Grown() && (r.Err? ==> Same())
      ensures findings == if finding.id == "" || finding.id in old(findings) then old(findings)
                          else old(findings)[finding.id := finding]
      ensures r.Ok? ==> finding.id != "" && requester != "" && r.value.id in plans && plans[r.value.id] == r.value
      ensures r.Ok? ==> r.value.findingId == finding.id
      ensures finding.id == "" || requester == "" ==> r == Err(Invalid)
      ensures finding.id != "" && requester != "" ==>
                (r.Err? <==> key != "" && Scope(requester, key) in old(idempotency)
                             && old(plans)[old(idempotency)[Scope(requester, key)]].findingId != finding.id)
      ensures r.Ok? && key != "" ==>
                Scope(requester, key) in idempotency && idempotency[Scope(requester, key)] == r.value.id
      ensures r.Ok? && key != "" && Scope(requester, key) in old(idempotency) ==>
                Same() && r.value == old(plans)[old(idempotency)[Scope(requester, key)]]
      ensures r.Ok? && (key == "" || Scope(requester, key) !in old(idempotency)) ==>
                Added(finding.id, requester, r.value)
                && r.value.id == FreshId(finding.id, requester, key, old(number))
                && BuiltFrom(r.value, old(Current(finding))) && FitsFinding(r.value, old(Current(finding)))
    {
      if finding.id == "" { return Err(Invalid); }
      var current := Current(finding);
      if finding.id !in findings { findings := findings[finding.id := finding]; }
      r := CreatePlanLocked(current, requester, key);
    }

    method CreateRemediationPlan(findingId: string, requester: string, key: string)
      returns (r: Result<Plan, StoreError>)
      requires Valid()
      modifies this
      ensures Grown() && (r.Err? ==> Same()) && findings == old(findings)
      ensures r == Err(NotFound) <==> findingId !in old(findings)
      ensures findingId in old(findings) ==>
                (r == Err(Invalid) <==> requester == "")
                && (r == Err(Conflict) <==> requester != "" && key != "" && Scope(requester, key) in old(idempotency)
                                            && old(plans[idempotency[Scope(requester, key)]]).findingId != findingId)
                && (r.Err? ==> r.error == Invalid || r.error == Conflict)
      ensures r.Ok? ==> r.value.id in plans && plans[r.value.id] == r.value && r.value.findingId == findingId
      ensures r.Ok? && key != "" && Scope(requester, key) in old(idempotency) ==>
                Same() && r.value == old(plans)[old(idempotency)[Scope(requester, key)]]
      ensures r.Ok? && (key == "" || Scope(requester, key) !in old(idempotency)) ==>
                Added(findingId, requester, r.value)
                && r.value.id == FreshId(findingId, requester, key, old(number))
                && BuiltFrom(r.value, old(findings)[findingId]) && FitsFinding(r.value, old(findings)[findingId])
    {
      if findingId !in findings { return Err(NotFound); }
      r := CreatePlanLocked(findings[findingId], requester, key);
    }

    /** Exactly one plan, its run, one log entry, and an approval iff the plan needs one, were added. */
    twostate predicate Added(findingId: string, requester: string, plan: Plan)
      reads this
    {
      && plan.id !in old(plans) && plan.findingId == findingId && plans == old(plans)[plan.id := plan]
      && plan.decision == (if plan.required then Pending else Approved)
      && runs == old(runs)[plan.id := Run(plan.id, plan.id, if plan.required then PendingApproval else Prepared)]
      && approvals == (if plan.required then old(approvals)[plan.id := Approval(plan.id, requester, Pending, "", "")]
                       else old(approvals))
      && audit == old(audit) + [AuditEvent(PlanCreated, requester, plan.id)]
    }

    method CreatePlanLocked(finding: Finding, requester: string, key: string) returns (r: Result<Plan, StoreError>)
      requires Valid()
      modifies this`plans, this`runs, this`approvals, this`idempotency, this`audit, this`number, this`past
      ensures Grown() && (r.Err? ==> Same())
      ensures requester == "" ==> r == Err(Invalid)
      ensures requester != "" ==>
                (r == Err(Conflict) <==> key != "" && Scope(requester, key) in old(idempotency)
                                         && old(plans)[old(idempotency)[Scope(requester, key)]].findingId != finding.id)
      ensures r.Err? ==> r.error == Conflict || requester == ""
      ensures r.Err? && requester == "" ==> r.error == Invalid
      ensures r.Ok? ==> requester != "" && r.value.id in plans && plans[r.value.id] == r.value
      ensures r.Ok? ==> r.value.findingId == finding.id
      ensures r.Ok? && key != "" ==>
                Scope(requester, key) in idempotency && idempotency[Scope(requester, key)] == r.value.id
      ensures r.Ok? && key != "" && Scope(requester, key) in old(idempotency) ==>
                Same() && r.value == old(plans)[old(idempotency)[Scope(requester, key)]]
      ensures r.Ok? && (key == "" || Scope(requester, key) !in old(idempotency)) ==>
                Added(finding.id, requester, r.value) && r.value.id == FreshId(finding.id, requester, key, old(number))
                && BuiltFrom(r.value, finding) && FitsFinding(r.value, finding)
    {
      if requester == "" { return Err(Invalid); }
      if key != "" && Scope(requester, key) in idempotency {
        var existing := plans[idempotency[Scope(requester, key)]];
        assert RowFits(View(), existing.id) && RowFits(View(), idempotency[Scope(requester, key)]);
        if existing.findingId != finding.id { return Err(Conflict); }
        return Ok(existing);
      }
      var plan := Built(finding, FreshId(finding.id, requester, key, number));
      BuiltPlansStartPending(finding, plan.id);
      BuiltIsBuiltFrom(finding, plan.id);
      BuiltFits(finding, plan.id);
      CreateFresh(plan, requester, key);
      r := Ok(plan);
    }

    method CreateFresh(plan: Plan, requester: string, key: string)
      requires Valid() && (key != "" ==> Scope(requester, key) !in idempotency)
      requires plan.id == FreshId(plan.findingId, requester, key, number) && plan.status == Proposed
      requires plan.decision == if plan.required then Pending else Approved
      modifies this`plans, this`runs, this`approvals, this`idempotency, this`audit, this`number, this`past
      ensures Grown() && Added(plan.findingId, requester, plan)
      ensures key != "" ==> Scope(requester, key) in idempotency && idempotency[Scope(requester, key)] == plan.id
    {
      FreshIdsFit(plans, number, idempotency, plan, requester, key);
      AddPlan(plan, requester);
      ghost var added := View();
      number := number + 1;
      idempotency := FreshScopes(idempotency, plan.id, requester, key);
      assert View() == added;
    }

    method AddPlan(plan: Plan, requester: string)
      requires Inv(View()) && plan.id !in plans && plan.status == Proposed
      requires plan.decision == if plan.required then Pending else Approved
      modifies this`plans, this`runs, this`approvals, this`audit, this`past
      ensures Inv(View()) && Added(plan.findingId, requester, plan) && KeepsVersions(old(past), past)
    {
      var run := Run(plan.id, plan.id, if plan.required then PendingApproval else Prepared);
      var approval := Approval(plan.id, requester, Pending, "", "");
      ghost var t := View();
      assert RowFits(t, plan.id);
      CreationKeepsInv(t, plan, run, approval);
      LogKeepsInv(WithNewPlan(t, plan, run, approval), AuditEvent(PlanCreated, requester, plan.id));
      plans := plans[plan.id := plan];
      past := past[plan.id := {} + {plan}];
      if plan.required { approvals := approvals[plan.id := approval]; }
      runs := runs[plan.id := run];
      audit := audit + [AuditEvent(PlanCreated, requester, plan.id)];
      assert View() == Logged(WithNewPlan(t, plan, run, approval), AuditEvent(PlanCreated, requester, plan.id));
    }

    /** Stores another version of a plan that its gate accepts. */
    method PutPlan(plan: Plan)
      requires Valid() && plan.id in plans && VersionFits(plan, plan.id, plans[plan.id], StatusOf(approvals, plan.id))
      modifies this`plans, this`past
      ensures Grown() && plans == old(plans)[plan.id := plan]
    {
      ghost var t := View();
      RewriteKeepsInv(t, plan);
      assert RowFits(t, plan.id);
      plans := plans[plan.id := plan];
      past := past[plan.id := past[plan.id] + {plan}];
      assert View() == WithPlan(t, plan);
    }

    method Log(kind: EventKind, actor: string, subject: PlanId)
      requires Valid() && kind != ApprovalGiven && kind != ApprovalRefused
      requires kind == ExecutionAsked ==> subject in plans && plans[subject].decision == Approved
      modifies this`audit
      ensures Grown() && audit == old(audit) + [AuditEvent(kind, actor, subject)]
    {
      ghost var t, e := View(), AuditEvent(kind, actor, subject);
      LogKeepsInv(t, e);
      audit := audit + [AuditEvent(kind, actor, subject)];
      assert View() == Logged(t, e);
    }

    method PutRun(run: Run)
      requires Valid()
      modifies this`runs
      ensures Grown() && runs == old(runs)[run.id := run]
    {
      ghost var t := View();
      runs := runs[run.id := run];
      RunKeepsInv(t, run);
      assert View() == t.(runs := t.runs[run.id := run]);
    }

    /** Execution is refused unless the plan is approved as required and not rejected. */
    method ExecuteRemediationPlan(id: PlanId, actor: string) returns (r: Result<Run, StoreError>)
      requires Valid()
      modifies this`plans, this`runs, this`audit, this`past
      ensures Grown() && (r.Err? ==> Same())
      ensures r.Ok? <==> actor != "" && id in old(plans) && old(plans)[id].status != PlanRejected
                         && (old(plans)[id].required ==> old(plans)[id].decision == Approved)
      ensures r == Err(NotFound) <==> actor != "" && id !in old(plans)
      ensures r.Ok? ==> r.value == Run(id, id, ExecutionRequested) && runs == old(runs)[id := r.value]
      ensures r.Ok? ==> plans == old(plans)[id := old(plans)[id].(status := AsRun(ExecutionRequested))]
      ensures r.Ok? ==> audit == old(audit) + [AuditEvent(ExecutionAsked, actor, id)] && approvals == old(approvals)
    {
      if actor == "" { return Err(Invalid); }
      if id !in plans { return Err(NotFound); }
      var plan := plans[id];
      if plan.required && plan.decision != Approved { return Err(Invalid); }
      if plan.status == PlanRejected { return Err(Invalid); }
      assert RowFits(View(), id);
      var run := RecordExecution(plan, actor);
      r := Ok(run);
    }

    method RecordExecution(plan: Plan, actor: string) returns (run: Run)
      requires Valid() && plan.id in plans && plans[plan.id] == plan && plan.decision == Approved
      modifies this`plans, this`runs, this`audit, this`past
      ensures Grown() && run == Run(plan.id, plan.id, ExecutionRequested) && runs == old(runs)[plan.id := run]
      ensures plans == old(plans)[plan.id := plan.(status := AsRun(ExecutionRequested))]
      ensures audit == old(audit) + [AuditEvent(ExecutionAsked, actor, plan.id)]
    {
      assert RowFits(View(), plan.id);
      PutPlan(plan.(status := AsRun(ExecutionRequested)));
      run := Run(plan.id, plan.id, ExecutionRequested);
      PutRun(run);
      Log(ExecutionAsked, actor, plan.id);
    }

    /** decide: only a pending approval can be decided, and the plan takes over the decision. */
    method Decide(id: PlanId, actor: string, reason: string, status: Decision) returns (r: Result<Approval, StoreError>)
      requires Valid() && status != Pending
      modifies this`plans, this`runs, this`approvals, this`audit, this`past
      ensures Grown() && (r.Err? ==> Same())
      ensures r.Ok? <==> actor != "" && id in old(approvals) && old(approvals)[id].status == Pending
      ensures r == Err(NotFound) <==> id !in old(approvals)
      ensures r.Ok? ==> r.value == old(approvals)[id].(status := status, approver := actor, reason := reason)
                        && approvals == old(approvals)[id := r.value]
      ensures r.Ok? ==> id in old(plans)
      ensures r.Ok? ==> plans == old(plans)[id := old(plans)[id].(status := StatusAfter(status), decision := status)]
      ensures r.Ok? ==> runs == old(runs)[id := Run(id, id, StateAfter(status))]
      ensures r.Ok? ==> audit == old(audit) + [AuditEvent(EventOf(status), actor, id)]
    {
      if id !in approvals { return Err(NotFound); }
      if approvals[id].status != Pending { return Err(Invalid); }
      if actor == "" { return Err(Invalid); }
      assert RowFits(View(), id);
      var approval := PutDecision(id, actor, reason, status);
      assert RowFits(View(), id);
      PutPlan(plans[id].(status := StatusAfter(status), decision := status));
      PutRun(Run(id, id, StateAfter(status)));
      r := Ok(approval);
    }

    method PutDecision(id: PlanId, actor: string, reason: string, status: Decision) returns (approval: Approval)
      requires Valid() && id in approvals && approvals[id].status == Pending && status != Pending
      modifies this`approvals, this`audit
      ensures Grown() && approval == old(approvals)[id].(status := status, approver := actor, reason := reason)
      ensures approvals == old(approvals)[id := approval]
      ensures audit == old(audit) + [AuditEvent(EventOf(status), actor, id)]
    {
      ghost var t := View();
      approval := approvals[id].(status := status, approver := actor, reason := reason);
      var kind := EventOf(status);
      ApprovalIdsFit(id);
      DecisionKeepsInv(t, approval, kind);
      approvals := approvals[id := approval];
      audit := audit + [AuditEvent(kind, actor, id)];
      assert View() == WithDecision(t, approval, kind);
    }

    lemma ApprovalIdsFit(id: PlanId)
      requires Valid() && id in approvals
      ensures approvals[id].id == id
    {
      assert RowFits(View(), id);
    }

    method Approve(id: PlanId, actor: string, reason: string) returns (r: Result<Approval, StoreError>)
      requires Valid()
      modifies this`plans, this`runs, this`approvals, this`audit, this`past
      ensures Grown() && (r.Err? ==> Same())
      ensures r.Ok? <==> actor != "" && id in old(approvals) && old(approvals)[id].status == Pending
      ensures r == Err(NotFound) <==> id !in old(approvals)
      ensures r.Ok? ==> r.value == old(approvals)[id].(status := Approved, approver := actor, reason := reason)
                        && approvals == old(approvals)[id := r.value]
      ensures r.Ok? ==> id in old(plans)
      ensures r.Ok? ==> plans == old(plans)[id := old(plans)[id].(status := PlanApproved, decision := Approved)]
      ensures r.Ok? ==> runs == old(runs)[id := Run(id, id, RunApproved)]
      ensures r.Ok? ==> audit == old(audit) + [AuditEvent(ApprovalGiven, actor, id)]
    {
      r := Decide(id, actor, reason, Approved);
    }

    method Reject(id: PlanId, actor: string, reason: string) returns (r: Result<Approval, StoreError>)
      requires Valid()
      modifies this`plans, this`runs, this`approvals, this`audit, this`past
      ensures Grown() && (r.Err? ==> Same())
      ensures r.Ok? <==> actor != "" && id in old(approvals) && old(approvals)[id].status == Pending
      ensures r == Err(NotFound) <==> id !in old(approvals)
      ensures r.Ok? ==> r.value == old(approvals)[id].(status := Rejected, approver := actor, reason := reason)
                        && approvals == old(approvals)[id := r.value]
      ensures r.Ok? ==> id in old(plans)
      ensures r.Ok? ==> plans == old(plans)[id := old(plans)[id].(status := PlanRejected, decision := Rejected)]
      ensures r.Ok? ==> runs == old(runs)[id := Run(id, id, RunFailed)]
      ensures r.Ok? ==> audit == old(audit) + [AuditEvent(ApprovalRefused, actor, id)]
    {
      r := Decide(id, actor, reason, Rejected);
    }

    ghost predicate WasStored(p: Plan)
      reads this
    {
      p.id in past && p in past[p.id]
    }

    /** Some version that was stored earlier, with another AI analysis attached: what the callers of a sync pass. */
    ghost predicate IsCopy(plan: Plan)
      reads this
    {
      exists p :: WasStored(p) && plan == p.(ai := plan.ai)
    }

    /** Stores whatever it is given under an id it knows; a copy of an earlier version keeps every invariant. */
    method SyncRemediationPlan(plan: Plan) returns (r: Result<Plan, StoreError>)
      requires Valid()
      modifies this`plans, this`past
      ensures r.Err? ==> Same()
      ensures r.Ok? <==> plan.findingId != "" && plan.id in old(plans)
      ensures r == Err(Invalid) <==> plan.findingId == ""
      ensures r.Ok? ==> plans == old(plans)[plan.id := plan]
      ensures r.Err? || old(IsCopy(plan)) ==> Grown()
    {
      if plan.findingId == "" { return Err(Invalid); }
      if plan.id !in plans { return Err(NotFound); }
      ghost var t := View();
      assert RowFits(t, plan.id);
      if IsCopy(plan) { RewriteKeepsInv(t, plan); }
      plans := plans[plan.id := plan];
      past := past[plan.id := past[plan.id] + {plan}];
      assert View() == WithPlan(t, plan);
      r := Ok(plan);
    }

    /** Mirrors the operator's run state, and makes it the plan's status. */
    method SyncRemediationRun(run: Run)
      requires Valid()
      modifies this`plans, this`runs, this`past
      ensures Grown() && runs == old(runs)[run.id := run] && audit == old(audit)
      ensures plans == if run.planId in old(plans)
                       then old(plans)[run.planId := old(plans)[run.planId].(status := AsRun(run.state))]
                       else old(plans)
    {
      PutRun(run);
      if run.planId in plans {
        assert RowFits(View(), run.planId);
        PutPlan(plans[run.planId].(status := AsRun(run.state)));
      }
    }

    method RequestRollback(id: PlanId, actor: string) returns (r: Result<Run, StoreError>)
      requires Valid()
      modifies this`plans, this`runs, this`audit, this`past
      ensures Grown() && (r.Err? ==> Same())
      ensures r.Ok? <==> actor != "" && id in old(runs)
      ensures r == Err(NotFound) <==> actor != "" && id !in old(runs)
      ensures r.Ok? ==> r.value == old(runs)[id].(state := RollbackRequested) && runs == old(runs)[id := r.value]
      ensures r.Ok? ==> var of := r.value.planId;
                        plans == if of !in old(plans) then old(plans)
                                 else old(plans)[of := old(plans)[of].(status := AsRun(RollbackRequested))]
      ensures r.Ok? ==> audit == old(audit) + [AuditEvent(RollbackAsked, actor, id)] && approvals == old(approvals)
    {
      if actor == "" { return Err(Invalid); }
      if id !in runs { return Err(NotFound); }
      var run := runs[id].(state := RollbackRequested);
      assert RowFits(View(), id);
      PutRun(run);
      if run.planId in plans {
        assert RowFits(View(), run.planId);
        PutPlan(plans[run.planId].(status := AsRun(RollbackRequested)));
      }
      Log(RollbackAsked, actor, id);
      r := Ok(run);
    }

    // ---- What the log and the tables guarantee at any time ----

    /** Every execution of a gated plan follows its one approval, and that plan was never refused. */
    lemma GatedExecutionsAreApproved(k: nat) returns (at: nat)
      requires Valid() && k < |audit| && audit[k].kind == ExecutionAsked && audit[k].subject in plans
      requires plans[audit[k].subject].required
      ensures at < k && Tells(audit, at, ApprovalGiven, audit[k].subject)
      ensures forall j: nat :: j < |audit| && Tells(audit, j, ApprovalGiven, audit[k].subject) ==> j == at
      ensures forall j: nat :: j < |audit| ==> !Tells(audit, j, ApprovalRefused, audit[k].subject)
    {
      var id := audit[k].subject;
      assert ExecutionFits(View().plans, View().audit, k) && RowFits(View(), id);
      at := FirstTold(audit[..k], ApprovalGiven, id);
      forall j: nat | j < |audit| && Tells(audit, j, ApprovalGiven, id) ensures j == at {
        if j != at { TwiceTold(audit, j, at, ApprovalGiven, id); }
      }
      forall j: nat | j < |audit| ensures !Tells(audit, j, ApprovalRefused, id) {
        NeverTold(audit, j, ApprovalRefused, id);
      }
    }

    /** Every plan has its run, and an approval exactly when it needs one. */
    lemma PlansAreComplete(id: PlanId)
      requires Valid() && id in plans
      ensures id in runs && (id in approvals <==> plans[id].required)
      ensures plans[id].required && plans[id].decision != Pending ==> approvals[id].status == plans[id].decision
    {
      assert RowFits(View(), id);
    }
  }

  /**
   * After an approval, a sync keeps the plan executable exactly when the copy it carries was read after that approval.
   * With an older copy the plan is stranded: it can be neither executed nor decided again, although its approval says
   * approved.
   */
  method SyncAfterApproval(store: MemoryStore, copy: Plan, ai: Option<string>, actor: string)
    returns (executed: Result<Run, StoreError>, approved: Result<Approval, StoreError>,
             rejected: Result<Approval, StoreError>)
    requires store.Valid() && copy.id in store.plans && store.WasStored(copy) && copy.required && actor != ""
    requires copy.findingId != "" && copy.id in store.approvals && store.approvals[copy.id].status == Approved
    modifies store
    ensures executed.Ok? <==> copy.decision == Approved
    ensures approved.Err? && rejected.Err?
    ensures store.Valid() && copy.id in store.approvals && store.approvals[copy.id].status == Approved
    ensures executed.Err? ==> store.runs == old(store.runs)
  {
    assert RowFits(store.View(), copy.id);
    assert store.IsCopy(copy.(ai := ai));
    var synced := store.SyncRemediationPlan(copy.(ai := ai));
    executed := store.ExecuteRemediationPlan(copy.id, actor);
    approved := store.Approve(copy.id, actor, "");
    rejected := store.Reject(copy.id, actor, "");
  }

  /** A gated plan, its copy as created, and its approval. */
  method CreateAndApprove(finding: Finding, requester: string, approver: string)
    returns (store: MemoryStore, plan: Plan)
    requires finding.id != "" && requester != "" && approver != ""
    requires ApprovalPolicyForActions(TypedActionsForFinding(finding)).required
    ensures fresh(store) && store.Valid() && plan.id in store.plans && store.WasStored(plan)
    ensures plan.findingId == finding.id
    ensures plan.required && plan.decision == Pending
    ensures plan.id in store.approvals && store.approvals[plan.id].status == Approved
    ensures plan.id in store.runs && store.runs[plan.id].state == RunApproved
  {
    store := new MemoryStore();
    var created := store.CreateRemediationPlanFromFinding(finding, requester, "");
    plan := created.value;
    BuiltNeedsApproval(plan, finding);
    assert RowFits(store.View(), plan.id);
    var approval := store.Approve(plan.id, approver, "reviewed");
  }

  /**
   * So every plan that needs an approval can be stranded: read it, approve it, and write the copy back with an
   * analysis.
   */
  method Strand(finding: Finding, requester: string, approver: string, ai: Option<string>)
    returns (store: MemoryStore, plan: Plan, executed: Result<Run, StoreError>)
    requires finding.id != "" && requester != "" && approver != ""
    requires ApprovalPolicyForActions(TypedActionsForFinding(finding)).required
    ensures store.Valid() && executed.Err?
    ensures plan.id in store.approvals && store.approvals[plan.id].status == Approved
    ensures plan.id in store.runs && store.runs[plan.id].state == RunApproved
  {
    store, plan := CreateAndApprove(finding, requester, approver);
    var approved, rejected;
    executed, approved, rejected := SyncAfterApproval(store, plan, ai, approver);
  }

  lemma OneScope()
    ensures Scope("a|b", "c") == Scope("a", "b|c")
  {
    assert Scope("a|b", "c") == "a|b|c" && Scope("a", "b|c") == "a|b|c";
  }

  /** Two requesters whose scopes collide: the second is answered with the plan that was made for the first. */
  method AnswerAnother(finding: Finding) returns (first: Result<Plan, StoreError>, second: Result<Plan, StoreError>)
    requires finding.id != ""
    ensures first.Ok? && second == first && first.value.id == Keyed(finding.id, "a", "b|c")
  {
    var store := new MemoryStore();
    OneScope();
    first := store.CreateRemediationPlanFromFinding(finding, "a", "b|c");
    second := store.CreateRemediationPlanFromFinding(finding, "a|b", "c");
  }
}
