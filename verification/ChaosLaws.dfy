/** What every legal history of a chaos run guarantees, whoever committed its versions and in whatever order. */
module ChaosLaws {
  import opened Basics
  import opened ChaosModel

  /** The approval deadline, the start time and the clean-up deadlines fit together. */
  predicate DeadlinesFit(r: Run) {
    && (r.status.CleanupRequested? || r.status.AbortRequested? || r.status.Verifying? ==> r.recoveryDeadline.Some?)
    && (r.startedAt.Some? ==> r.injectionDeadline.Some? && r.startedAt.value <= r.updatedAt)
    && (r.startedAt.Some? ==> r.cleanupDeadline == Some(r.startedAt.value + r.duration + CLEANUP_GRACE))
    && (r.status == Running ==>
        r.startedAt.Some? && r.recoveryDeadline == Some(r.cleanupDeadline.value + RECOVERY_WINDOW))
    && (r.cleanupDeadline.Some? ==> r.cleanupDeadline.value <= r.updatedAt + MAX_DURATION + CLEANUP_GRACE)
    && (r.recoveryDeadline.Some? ==>
        r.recoveryDeadline.value <= r.updatedAt + MAX_DURATION + CLEANUP_GRACE + RECOVERY_WINDOW)
    && (r.injectionDeadline.Some? ==> r.injectionDeadline.value <= r.updatedAt + INJECTION_WINDOW)
  }

  predicate BeforeStart(status: Status) {
    status.PreflightValidated? || Waiting(status) || status.ExecutionRequested?
  }

  /** A run without a clean-up deadline is one whose resource vanished before its injection was proven. */
  predicate ReasonsFit(r: Run) {
    && (BeforeStart(r.status) || r.status.Running? ==> r.failureReason.None?)
    && (BeforeStart(r.status) ==> r.startedAt.None? && r.cleanupDeadline.None?)
    && (r.failureReason == Some(VanishedBeforeInjection) ==> r.cleanupDeadline.None? && r.startedAt.None?)
    && (r.status.CleanupRequested? ==> r.cleanupDeadline.Some?)
    && (r.status.Verifying? && r.failureReason != Some(VanishedBeforeInjection) ==> r.cleanupDeadline.Some?)
    && (r.status.CleanupRequested? || r.status.Verifying? || r.status.Succeeded? ==>
          (r.failureReason.None? ==> r.startedAt.Some? && r.startedAt.value + r.duration <= r.updatedAt))
  }

  predicate EndingFits(r: Run) {
    && (r.finishedAt.Some? <==> Ended(r.status))
    && (Ended(r.status) ==> r.finishedAt == Some(r.updatedAt))
    && r.attempts <= MAX_ATTEMPTS && (r.attempts == MAX_ATTEMPTS ==> r.status == Failed)
    && (r.status == Succeeded ==> r.failureReason.None? && r.recovery == Healthy)
    && (r.status.Rejected? || r.status.Expired? ==> r.recovery == NotChecked)
    && (!Ended(r.status) ==> r.recovery == NotChecked)
  }

  predicate ApprovalFits(r: Run) {
    && (r.status.PreflightValidated? || r.status.PendingApproval? ==> r.approvedBy == Nobody)
    && (Active(r.status) || r.status.Approved? || r.status.Succeeded? ==> r.approvedBy != r.requestedBy)
    && (r.status != PreflightValidated ==> r.approvalExpiresAt == Some(r.createdAt + APPROVAL_TTL))
  }

  predicate WellFormed(r: Run) {
    r.duration <= MAX_DURATION && r.createdAt <= r.updatedAt && DeadlinesFit(r) && ReasonsFit(r) && EndingFits(r)
      && ApprovalFits(r)
  }

  lemma StartKeepsWellFormed(observation: Observation, now: int, before: Run, after: Commit)
    requires WellFormed(before) && before.status == ExecutionRequested && before.injectionDeadline.Some?
    requires before.updatedAt <= now
    requires observation.injected && InjectionCommit(before, now, observation) == Some(after)
    ensures WellFormed(after.run)
  {}

  lemma WaitingKeepsWellFormed(observation: Observation, now: int, before: Run, after: Commit)
    requires WellFormed(before) && before.status == ExecutionRequested && before.injectionDeadline.Some?
    requires before.updatedAt <= now
    requires !observation.injected && InjectionCommit(before, now, observation) == Some(after)
    ensures WellFormed(after.run)
  {}

  lemma VanishingKeepsWellFormed(seen: Seen, now: int, before: Run, after: Commit)
    requires WellFormed(before) && before.status == ExecutionRequested && before.updatedAt <= now
    requires !seen.present && before.injectionDeadline.Some? && ExecutionCommit(before, now, seen) == Some(after)
    ensures WellFormed(after.run)
  {}

  lemma CreationKeepsWellFormed(seen: Seen, now: int, before: Run, after: Commit)
    requires WellFormed(before) && before.status == ExecutionRequested && before.updatedAt <= now
    requires before.injectionDeadline.None? && ExecutionCommit(before, now, seen) == Some(after)
    ensures WellFormed(after.run)
  {}

  lemma ExecutionKeepsWellFormed(seen: Seen, now: int, before: Run, after: Commit)
    requires WellFormed(before) && before.status == ExecutionRequested && before.updatedAt <= now
    requires ExecutionCommit(before, now, seen) == Some(after)
    ensures WellFormed(after.run)
  {
    if before.injectionDeadline.None? {
      CreationKeepsWellFormed(seen, now, before, after);
    } else if seen.present && seen.observation.injected {
      StartKeepsWellFormed(seen.observation, now, before, after);
    } else if seen.present {
      WaitingKeepsWellFormed(seen.observation, now, before, after);
    } else {
      VanishingKeepsWellFormed(seen, now, before, after);
    }
  }

  lemma RunningKeepsWellFormed(seen: Seen, now: int, before: Run, after: Commit)
    requires WellFormed(before) && before.status == Running && before.updatedAt <= now
    requires RunningCommit(before, now, seen) == Some(after)
    ensures WellFormed(after.run)
  {}

  lemma CleanupKeepsWellFormed(seen: Seen, now: int, before: Run, after: Commit)
    requires WellFormed(before) && before.status == CleanupRequested && before.updatedAt <= now
    requires CleanupCommit(before, now, seen) == Some(after)
    ensures WellFormed(after.run)
  {}

  lemma AbortKeepsWellFormed(seen: Seen, now: int, before: Run, after: Commit)
    requires WellFormed(before) && before.status == AbortRequested && before.updatedAt <= now
    requires AbortCommit(before, now, seen) == Some(after)
    ensures WellFormed(after.run)
  {}

  lemma VerifyKeepsWellFormed(seen: Seen, now: int, before: Run, after: Commit)
    requires WellFormed(before) && before.status == Verifying && before.updatedAt <= now
    requires VerifyCommit(before, now, seen) == Some(after)
    ensures WellFormed(after.run)
  {}

  lemma EarlyAbortKeepsWellFormed(actor: Actor, now: int, before: Run, after: Commit)
    requires WellFormed(before) && before.updatedAt <= now && Waiting(before.status)
    requires AbortRequestCommit(before, actor, now) == Some(after)
    ensures WellFormed(after.run)
  {}

  lemma LateAbortKeepsWellFormed(actor: Actor, now: int, before: Run, after: Commit)
    requires WellFormed(before) && before.updatedAt <= now && !Waiting(before.status)
    requires AbortRequestCommit(before, actor, now) == Some(after)
    ensures WellFormed(after.run)
  {}

  lemma DecisionKeepsWellFormed(op: Op, now: int, before: Run, after: Commit)
    requires WellFormed(before) && StepBy(op, now, before, after) && !op.Reconcile? && !op.Abort?
    ensures WellFormed(after.run)
  {}

  lemma StepKeepsWellFormed(before: Run, after: Commit)
    requires WellFormed(before) && Follows(before, after)
    ensures WellFormed(after.run)
  {
    var op, now :| StepBy(op, now, before, after);
    match op
    case Abort(actor) =>
      if Waiting(before.status) {
        EarlyAbortKeepsWellFormed(actor, now, before, after);
      } else {
        LateAbortKeepsWellFormed(actor, now, before, after);
      }
    case Reconcile(seen) =>
      match before.status {
       case ExecutionRequested => ExecutionKeepsWellFormed(seen, now, before, after);
       case Running => RunningKeepsWellFormed(seen, now, before, after);
       case CleanupRequested => CleanupKeepsWellFormed(seen, now, before, after);
       case AbortRequested => AbortKeepsWellFormed(seen, now, before, after);
       case _ => VerifyKeepsWellFormed(seen, now, before, after);
      }
    case _ => DecisionKeepsWellFormed(op, now, before, after);
  }

  lemma RequestIsWellFormed(first: Commit)
    requires IsRequest(first) && first.run.duration <= MAX_DURATION
    ensures WellFormed(first.run) && first.run.version == 1
  {
    var run := first.run;
    var enabled :| first == Requested(run.id, run.resource, first.actor, run.duration, enabled, run.createdAt);
  }

  /** Every committed version is well formed, numbered by its position, and still the same request. */
  lemma {:induction false} RecordInvariants(history: seq<Commit>, k: nat)
    requires Legal(history) && k < |history|
    ensures WellFormed(history[k].run) && history[k].run.version == k + 1
    ensures history[k].run.id == history[0].run.id && history[k].run.requestedBy == history[0].run.requestedBy
    ensures history[k].run.resource == history[0].run.resource
    ensures history[k].run.duration == history[0].run.duration
  {
    if k > 0 {
      RecordInvariants(history, k - 1);
      assert StepAt(history, k);
      StepKeepsWellFormed(history[k - 1].run, history[k]);
      StepKeepsRequest(history[k - 1].run, history[k]);
    } else {
      RequestIsWellFormed(history[0]);
    }
  }

  lemma StepKeepsRequest(before: Run, after: Commit)
    requires Follows(before, after)
    ensures after.run.version == before.version + 1 && after.run.id == before.id
    ensures after.run.resource == before.resource
    ensures after.run.requestedBy == before.requestedBy && after.run.duration == before.duration
    ensures after.run.updatedAt >= before.updatedAt
  {
    var op, now :| StepBy(op, now, before, after);
  }

  /** A running record carries all its deadlines, so the branch for a missing start time is dead. */
  lemma RunningRecords(history: seq<Commit>, k: nat)
    requires Legal(history) && k < |history| && history[k].run.status == Running
    ensures var r := history[k].run;
            && r.startedAt.Some? && r.failureReason.None?
            && r.cleanupDeadline == Some(r.startedAt.value + r.duration + 30)
            && r.recoveryDeadline == Some(r.startedAt.value + r.duration + 150)
            && r.recoveryDeadline.value <= r.startedAt.value + 450
  {
    RecordInvariants(history, k);
  }

  /** No transition leaves an ended or preflight-only record. */
  lemma EndedIsFinal(history: seq<Commit>, k: nat)
    requires Legal(history) && k < |history| - 1
    ensures !Ended(history[k].run.status) && history[k].run.status != PreflightValidated
  {
    assert StepAt(history, k + 1);
    var op, now :| StepBy(op, now, history[k].run, history[k + 1]);
  }

  // ---- Before a start ----

  /** At `k`, someone other than the requester approved a pending run. */
  ghost predicate ApprovedAt(history: seq<Commit>, k: nat) {
    && 0 < k < |history| && history[k - 1].run.status == PendingApproval && history[k].run.status == Approved
    && history[k].actor == history[k].run.approvedBy != history[k].run.requestedBy
  }

  /** At `k`, an approved run was asked to execute. */
  ghost predicate ExecutedAt(history: seq<Commit>, k: nat) {
    0 < k < |history| && history[k - 1].run.status == Approved && history[k].run.status == ExecutionRequested
  }

  predicate PastApproval(status: Status) {
    Active(status) || status.Approved? || status.Succeeded?
  }

  lemma StepPastApproval(before: Run, after: Commit)
    requires Follows(before, after) && PastApproval(after.run.status)
    ensures if PastApproval(before.status) then after.run.approvedBy == before.approvedBy
            else before.status == PendingApproval && after.run.status == Approved
                 && after.actor == after.run.approvedBy != after.run.requestedBy
  {
    var op, now :| StepBy(op, now, before, after);
  }

  /** Whatever is past approval was approved, by the approver it still names. */
  lemma {:induction false} ApprovalPrecedes(history: seq<Commit>, k: nat) returns (at: nat)
    requires Legal(history) && k < |history| && PastApproval(history[k].run.status)
    ensures at <= k && ApprovedAt(history, at) && history[at].run.approvedBy == history[k].run.approvedBy
  {
    assert k > 0;
    assert StepAt(history, k);
    StepPastApproval(history[k - 1].run, history[k]);
    if PastApproval(history[k - 1].run.status) {
      at := ApprovalPrecedes(history, k - 1);
    } else {
      at := k;
    }
  }

  predicate PastExecution(status: Status) {
    Active(status) || status.Succeeded?
  }

  lemma StepToExecution(before: Run, after: Commit)
    requires Follows(before, after)
    ensures PastExecution(after.run.status) ==>
              PastExecution(before.status) || (before.status == Approved && after.run.status == ExecutionRequested)
    ensures Waiting(after.run.status) ==> Waiting(before.status)
  {
    var op, now :| StepBy(op, now, before, after);
  }

  /** Whatever is past execution went from approved to execution_requested. */
  lemma {:induction false} ExecutionPrecedes(history: seq<Commit>, k: nat) returns (at: nat)
    requires Legal(history) && k < |history| && PastExecution(history[k].run.status)
    ensures at <= k && ExecutedAt(history, at)
  {
    assert k > 0;
    assert StepAt(history, k);
    StepToExecution(history[k - 1].run, history[k]);
    if PastExecution(history[k - 1].run.status) {
      at := ExecutionPrecedes(history, k - 1);
    } else {
      at := k;
    }
  }

  lemma {:induction false} WaitingThroughout(history: seq<Commit>, k: nat, j: nat)
    requires Legal(history) && j <= k < |history| && Waiting(history[k].run.status)
    ensures Waiting(history[j].run.status)
  {
    if j < k {
      assert StepAt(history, k);
      StepToExecution(history[k - 1].run, history[k]);
      WaitingThroughout(history, k - 1, j);
    }
  }

  predicate NeverStarted(r: Run) {
    r.status.Rejected? || r.status.Expired? || (r.status == Aborted && r.recovery == NotChecked)
  }

  lemma NeverStartedStep(before: Run, after: Commit)
    requires WellFormed(before) && Follows(before, after) && NeverStarted(after.run)
    ensures Waiting(before.status)
  {
    var op, now :| StepBy(op, now, before, after);
    if op.Reconcile? { assert before.status == AbortRequested ==> AbortCommit(before, now, op.seen) == Some(after); }
  }

  /** A rejected, expired, or unverified aborted run never even asked for execution. */
  lemma NeverStartedMeans(history: seq<Commit>, k: nat)
    requires Legal(history) && NeverStarted(history[|history| - 1].run) && k < |history|
    ensures history[k].run.status != ExecutionRequested
  {
    var last := |history| - 1;
    if k < last {
      RecordInvariants(history, last - 1);
      assert StepAt(history, last);
      NeverStartedStep(history[last - 1].run, history[last]);
      WaitingThroughout(history, last - 1, k);
    }
  }

  // ---- Success ----

  /** At `k`, the run started. */
  ghost predicate StartedAt(history: seq<Commit>, k: nat) {
    && 0 < k < |history| && history[k - 1].run.status == ExecutionRequested && history[k].run.status == Running
    && history[k].run.startedAt == Some(history[k].run.updatedAt)
  }

  lemma StartStep(before: Run, after: Commit)
    requires Follows(before, after) && after.run.startedAt.Some? && after.run.startedAt != before.startedAt
    ensures before.status == ExecutionRequested && after.run.status == Running
    ensures after.run.startedAt == Some(after.run.updatedAt)
  {
    var op, now :| StepBy(op, now, before, after);
  }

  lemma {:induction false} StartPrecedes(history: seq<Commit>, k: nat) returns (at: nat)
    requires Legal(history) && k < |history| && history[k].run.startedAt.Some?
    ensures at <= k && StartedAt(history, at) && history[at].run.startedAt == history[k].run.startedAt
  {
    assert k > 0;
    assert StepAt(history, k);
    if history[k - 1].run.startedAt == history[k].run.startedAt {
      at := StartPrecedes(history, k - 1);
    } else {
      at := k;
      StartStep(history[k - 1].run, history[k]);
    }
  }

  lemma AbortStep(before: Run, after: Commit)
    requires Follows(before, after)
    requires (before.status.AbortRequested? || before.status.Aborted? || before.status.Failed?)
    ensures before.status == AbortRequested && (after.run.status.Aborted? || after.run.status.Failed?)
  {
    var op, now :| StepBy(op, now, before, after);
  }

  /** An abort request is never forgotten. */
  lemma {:induction false} AbortSticks(history: seq<Commit>, j: nat, k: nat)
    requires Legal(history) && j <= k < |history| && history[j].run.status == AbortRequested
    ensures history[k].run.status.AbortRequested? || history[k].run.status.Aborted? || history[k].run.status.Failed?
  {
    if j < k {
      AbortSticks(history, j, k - 1);
      assert StepAt(history, k);
      AbortStep(history[k - 1].run, history[k]);
    }
  }

  lemma ReasonStep(before: Run, after: Commit)
    requires Follows(before, after) && before.failureReason.Some?
    ensures after.run.failureReason.Some?
  {
    var op, now :| StepBy(op, now, before, after);
  }

  /** A noted failure is never forgotten, so the run can no longer succeed. */
  lemma {:induction false} FailureSticks(history: seq<Commit>, j: nat, k: nat)
    requires Legal(history) && j <= k < |history| && history[j].run.failureReason.Some?
    ensures history[k].run.failureReason.Some? && history[k].run.status != Succeeded
  {
    RecordInvariants(history, k);
    if j < k {
      FailureSticks(history, j, k - 1);
      assert StepAt(history, k);
      ReasonStep(history[k - 1].run, history[k]);
    }
  }

  lemma NoAbortBeforeSuccess(history: seq<Commit>)
    requires Legal(history) && history[|history| - 1].run.status == Succeeded
    ensures forall k :: 0 <= k < |history| ==> history[k].run.status != AbortRequested
  {
    forall k | 0 <= k < |history| ensures history[k].run.status != AbortRequested {
      if history[k].run.status == AbortRequested { AbortSticks(history, k, |history| - 1); }
    }
  }

  lemma SuccessStep(before: Run, after: Commit)
    requires Follows(before, after) && after.run.status == Succeeded
    ensures before.status == Verifying
  {
    var op, now :| StepBy(op, now, before, after);
  }
}
