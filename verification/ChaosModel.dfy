/** The chaos run record, and every transition the manager may commit, as one function of what the caller saw. */
module ChaosModel {
  import opened Basics

  datatype Status =
    | PreflightValidated | PendingApproval | Approved | ExecutionRequested | Running
    | CleanupRequested | AbortRequested | Verifying
    | Succeeded | Failed | Rejected | Aborted | Expired

  datatype Actor = Nobody | System | User(name: string)

  datatype Reason = VanishedBeforeInjection | VanishedEarly | NeverInjected | MeshReported(text: string)

  datatype Recovery = NotChecked | Healthy | Unhealthy

  datatype Event =
    | PreflightDone | ApprovalAsked | ApprovalGiven | ApprovalRefused | ApprovalLapsed
    | ExecutionAsked | ExecutionRetried | ResourceCreated | ResourceRecovered | InjectionPending | ExecutionStarted
    | CleanupAsked | CleanupCompleted | RecoveryAsked | AbortAsked | AbortDone | RunSucceeded | RunFailed

  /** The status line: a fixed text per event, or the text of an observation. */
  datatype Message = Fixed(event: Event) | Observed(text: string)

  /** How the cluster addresses an object. Experiments name theirs in the manifest, so two runs may share one. */
  datatype Resource = Resource(kind: string, namespace: string, name: string)

  /** Times are whole seconds. */
  datatype Run = Run(
    id: string, resource: Resource, status: Status, message: Message,
    requestedBy: Actor, approvedBy: Actor, abortedBy: Actor,
    failureReason: Option<Reason>, recovery: Recovery,
    attempts: nat, version: nat, duration: nat,
    createdAt: int, updatedAt: int,
    approvalExpiresAt: Option<int>, injectionDeadline: Option<int>, startedAt: Option<int>,
    cleanupDeadline: Option<int>, recoveryDeadline: Option<int>, finishedAt: Option<int>)

  const APPROVAL_TTL := 900
  const INJECTION_WINDOW := 30
  const CLEANUP_GRACE := 30
  const RECOVERY_WINDOW := 120
  const MAX_ATTEMPTS := 3
  const MAX_DURATION := 300

  datatype Observation = Observation(injected: bool, failed: bool, text: string)

  /**
   * What one reconcile saw of the cluster: the owned resource, the outcome of creating it, its status, the target pods.
   */
  datatype Seen = Seen(present: bool, created: bool, observation: Observation, healthy: bool)

  /** A record as committed, with the audit event written in the same critical section. */
  datatype Commit = Commit(run: Run, actor: Actor, event: Event)

  predicate Active(status: Status) {
    status.ExecutionRequested? || status.Running? || status.CleanupRequested? || status.AbortRequested?
      || status.Verifying?
  }

  predicate Waiting(status: Status) {
    status.PendingApproval? || status.Approved?
  }

  predicate Ended(status: Status) {
    status.Succeeded? || status.Failed? || status.Rejected? || status.Aborted? || status.Expired?
  }

  predicate Abortable(status: Status) {
    Waiting(status) || status.ExecutionRequested? || status.Running? || status.CleanupRequested? || status.Verifying?
  }

  predicate Passed(deadline: Option<int>, now: int) {
    deadline.Some? && deadline.value <= now
  }

  function Committed(run: Run, actor: Actor, event: Event): Commit {
    Commit(run.(version := run.version + 1, message := Fixed(event)), actor, event)
  }

  /** Every transition keeps the request, counts the version up by one and stamps the time. */
  predicate Advances(before: Run, after: Run, now: int) {
    && after.version == before.version + 1 && after.updatedAt == now
    && after.id == before.id && after.resource == before.resource && after.requestedBy == before.requestedBy
      && after.duration == before.duration
    && after.createdAt == before.createdAt && after.approvalExpiresAt == before.approvalExpiresAt
  }

  // ---- What the reconciler commits, status by status ----

  function ExecutionCommit(run: Run, now: int, seen: Seen): (c: Option<Commit>)
    requires run.status == ExecutionRequested
    ensures c.Some? ==> Advances(run, c.value.run, now)
  {
    if !seen.present && run.injectionDeadline.Some? then
      Some(Committed(run.(status := Verifying, failureReason := Some(VanishedBeforeInjection),
                          recoveryDeadline := Some(now + RECOVERY_WINDOW), updatedAt := now), System, RecoveryAsked))
    else if !seen.present && !seen.created then
      var tried := run.(attempts := run.attempts + 1, updatedAt := now);
      if tried.attempts >= MAX_ATTEMPTS
        then Some(Committed(tried.(status := Failed, finishedAt := Some(now)), System, RunFailed))
      else Some(Committed(tried, System, ExecutionRetried))
    else if !seen.present then
      Some(Committed(run.(injectionDeadline := Some(now + INJECTION_WINDOW), updatedAt := now),
                     System, ResourceCreated))
    else if run.injectionDeadline.None? then
      Some(Committed(run.(injectionDeadline := Some(now + INJECTION_WINDOW), updatedAt := now),
                     System, ResourceRecovered))
    else InjectionCommit(run, now, seen.observation)
  }

  function InjectionCommit(run: Run, now: int, observation: Observation): (c: Option<Commit>)
    requires run.status == ExecutionRequested && run.injectionDeadline.Some?
    ensures c.Some? ==> Advances(run, c.value.run, now)
  {
    if observation.injected then
      var cleanup := now + run.duration + CLEANUP_GRACE;
      Some(Committed(run.(status := Running, startedAt := Some(now), cleanupDeadline := Some(cleanup),
                          recoveryDeadline := Some(cleanup + RECOVERY_WINDOW), updatedAt := now),
                     System, ExecutionStarted))
    else if now < run.injectionDeadline.value then
      if observation.text != "" && Observed(observation.text) != run.message
      then Some(Commit(run.(version := run.version + 1, message := Observed(observation.text), updatedAt := now),
                       System, InjectionPending))
      else None
    else
      var reason := if observation.failed && observation.text != "" then MeshReported(observation.text)
        else NeverInjected;
      var cleanup := now + CLEANUP_GRACE;
      Some(Committed(run.(status := CleanupRequested, failureReason := Some(reason), cleanupDeadline := Some(cleanup),
                          recoveryDeadline := Some(cleanup + RECOVERY_WINDOW), updatedAt := now), System, CleanupAsked))
  }

  function RunningCommit(run: Run, now: int, seen: Seen): (c: Option<Commit>)
    requires run.status == Running
    ensures c.Some? ==> Advances(run, c.value.run, now)
  {
    if run.startedAt.None? then
      Some(Committed(run.(status := Failed, updatedAt := now, finishedAt := Some(now)), System, RunFailed))
    else if now < run.startedAt.value + run.duration then
      if seen.present then None
      else
        Some(Committed(run.(status := Verifying, failureReason := Some(VanishedEarly),
                            recoveryDeadline := Some(now + RECOVERY_WINDOW), updatedAt := now), System, RecoveryAsked))
    else Some(Committed(run.(status := CleanupRequested, updatedAt := now), System, CleanupAsked))
  }

  function CleanupCommit(run: Run, now: int, seen: Seen): (c: Option<Commit>)
    requires run.status == CleanupRequested
    ensures c.Some? ==> Advances(run, c.value.run, now)
  {
    if seen.present then None
      else Some(Committed(run.(status := Verifying, updatedAt := now), System, CleanupCompleted))
  }

  function AbortCommit(run: Run, now: int, seen: Seen): (c: Option<Commit>)
    requires run.status == AbortRequested
    ensures c.Some? ==> Advances(run, c.value.run, now)
  {
    if seen.present then None
    else if seen.healthy then
      Some(Committed(run.(status := Aborted, recovery := Healthy, updatedAt := now, finishedAt := Some(now)),
                     run.abortedBy, AbortDone))
    else if Passed(run.recoveryDeadline, now) then
      Some(Committed(run.(status := Failed, recovery := Unhealthy, updatedAt := now, finishedAt := Some(now)),
                     run.abortedBy, RunFailed))
    else None
  }

  function VerifyCommit(run: Run, now: int, seen: Seen): (c: Option<Commit>)
    requires run.status == Verifying
    ensures c.Some? ==> Advances(run, c.value.run, now)
  {
    if seen.present then None
    else if seen.healthy then
      var ended := run.(recovery := Healthy, updatedAt := now, finishedAt := Some(now));
      if run.failureReason.None? then Some(Committed(ended.(status := Succeeded), System, RunSucceeded))
      else Some(Committed(ended.(status := Failed), System, RunFailed))
    else if Passed(run.recoveryDeadline, now) then
      Some(Committed(run.(status := Failed, recovery := Unhealthy, updatedAt := now, finishedAt := Some(now)),
                     System, RunFailed))
    else None
  }

  function ReconcileCommit(run: Run, now: int, seen: Seen): (c: Option<Commit>)
    ensures c.Some? ==> Advances(run, c.value.run, now)
  {
    match run.status
    case ExecutionRequested => ExecutionCommit(run, now, seen)
    case Running => RunningCommit(run, now, seen)
    case CleanupRequested => CleanupCommit(run, now, seen)
    case AbortRequested => AbortCommit(run, now, seen)
    case Verifying => VerifyCommit(run, now, seen)
    case _ => None
  }

  /**
   * One caller's request. `checked` is when it compared the clock with the approval's expiry, before its commit at
   * `now`.
   */
  datatype Op =
    | Approve(actor: Actor, checked: int)
    | Reject(actor: Actor, checked: int)
    | Expire(checked: int)
    | Execute(actor: Actor, checked: int)
    | Abort(actor: Actor)
    | Reconcile(seen: Seen)

  function AbortRequestCommit(run: Run, actor: Actor, now: int): (c: Option<Commit>)
    ensures c.Some? ==> Advances(run, c.value.run, now)
  {
    if !Abortable(run.status) then None
    else if Waiting(run.status) then
      Some(Committed(run.(status := Aborted, abortedBy := actor, updatedAt := now, finishedAt := Some(now)),
                     actor, AbortDone))
    else
      Some(Committed(run.(status := AbortRequested, abortedBy := actor, updatedAt := now,
                          recoveryDeadline := Some(now + CLEANUP_GRACE + RECOVERY_WINDOW)), actor, AbortAsked))
  }

  /** What `op` commits on a copy of `run` with a clock reading of `now`, if anything. */
  function Next(op: Op, run: Run, now: int): (c: Option<Commit>)
    ensures c.Some? ==> Advances(run, c.value.run, now)
  {
    match op
    case Approve(actor, checked) =>
      if run.status == PendingApproval && !Passed(run.approvalExpiresAt, checked) && checked <= now
        && actor != run.requestedBy
      then Some(Committed(run.(status := Approved, approvedBy := actor, updatedAt := now), actor, ApprovalGiven))
      else None
    case Reject(actor, checked) =>
      if run.status == PendingApproval && !Passed(run.approvalExpiresAt, checked) && checked <= now
        && actor != run.requestedBy
      then Some(Committed(run.(status := Rejected, approvedBy := actor, updatedAt := now, finishedAt := Some(now)),
                          actor, ApprovalRefused))
      else None
    case Expire(checked) =>
      if Waiting(run.status) && Passed(run.approvalExpiresAt, checked) && checked <= now
      then Some(Committed(run.(status := Expired, updatedAt := now, finishedAt := Some(now)), System, ApprovalLapsed))
      else None
    case Execute(actor, checked) =>
      if run.status == Approved && !Passed(run.approvalExpiresAt, checked) && checked <= now
      then Some(Committed(run.(status := ExecutionRequested, updatedAt := now), actor, ExecutionAsked))
      else None
    case Abort(actor) => AbortRequestCommit(run, actor, now)
    case Reconcile(seen) => ReconcileCommit(run, now, seen)
  }

  /** A transition on the current record, at a clock reading no earlier than the one it was written with. */
  ghost predicate StepBy(op: Op, now: int, before: Run, after: Commit) {
    before.updatedAt <= now && Next(op, before, now) == Some(after)
  }

  ghost predicate Follows(before: Run, after: Commit) {
    exists op, now :: StepBy(op, now, before, after)
  }

  lemma StepFollows(op: Op, now: int, before: Run, after: Commit)
    requires StepBy(op, now, before, after)
    ensures Follows(before, after)
  {}

  /** Request commits this: with execution disabled the record is final, otherwise it waits for approval. */
  function Requested(id: string, resource: Resource, actor: Actor, duration: nat, enabled: bool, now: int): Commit {
    var event := if enabled then ApprovalAsked else PreflightDone;
    var status := if enabled then PendingApproval else PreflightValidated;
    Commit(Run(id, resource, status, Fixed(event), actor, Nobody, Nobody,
               None, NotChecked, 0, 1, duration, now, now,
               if enabled then Some(now + APPROVAL_TTL) else None, None, None, None, None, None),
           actor, event)
  }

  ghost predicate IsRequest(first: Commit) {
    var run := first.run;
    exists enabled :: first == Requested(run.id, run.resource, first.actor, run.duration, enabled, run.createdAt)
  }

  ghost predicate StepAt(history: seq<Commit>, k: nat) {
    0 < k < |history| && Follows(history[k - 1].run, history[k])
  }

  /** A record's committed versions, oldest first. */
  ghost predicate Legal(history: seq<Commit>) {
    && |history| > 0 && IsRequest(history[0]) && history[0].run.duration <= MAX_DURATION
    && forall k :: 0 < k < |history| ==> StepAt(history, k)
  }

  lemma LegalExtends(history: seq<Commit>, after: Commit)
    requires Legal(history) && Follows(history[|history| - 1].run, after)
    ensures Legal(history + [after])
  {
    var longer := history + [after];
    forall k | 0 < k < |longer| ensures StepAt(longer, k) {
      if k < |history| { assert StepAt(history, k); }
    }
  }
}
