/**
 * What every audit event says about the two versions around it. Read this way the log fixes every transition: two
 * well-formed versions follow each other exactly when the event between them says so.
 */
module ChaosEvents {
  import opened Basics
  import opened ChaosModel
  import opened ChaosLaws

  /** One version later, at time `t`; every other field stays. */
  function Stamped(was: Run, t: int, message: Message): Run {
    was.(version := was.version + 1, updatedAt := t, message := message)
  }

  function EndedAt(was: Run, t: int, message: Message): Run {
    Stamped(was, t, message).(finishedAt := Some(t))
  }

  predicate DecisionMeans(was: Run, after: Commit, t: int, decision: Event) {
    && was.status == PendingApproval && after.actor != was.requestedBy
    && after.run == if decision == ApprovalGiven
                    then Stamped(was, t, Fixed(decision)).(status := Approved, approvedBy := after.actor)
                    else EndedAt(was, t, Fixed(decision)).(status := Rejected, approvedBy := after.actor)
  }

  predicate LapseMeans(was: Run, after: Commit, t: int) {
    && (was.status == PendingApproval || was.status == Approved) && was.createdAt + 900 <= t
    && after.run == EndedAt(was, t, Fixed(ApprovalLapsed)).(status := Expired)
  }

  /** A failed Start counts as an attempt, and the run stays where it was while fewer than three were made. */
  predicate RetryMeans(was: Run, after: Commit, t: int) {
    && was.status == ExecutionRequested && was.injectionDeadline.None? && was.attempts < 2
    && after.run == Stamped(was, t, Fixed(ExecutionRetried)).(attempts := was.attempts + 1)
  }

  predicate ResourceMeans(was: Run, after: Commit, t: int, found: Event) {
    && was.status == ExecutionRequested && was.injectionDeadline.None?
    && after.run == Stamped(was, t, Fixed(found)).(injectionDeadline := Some(t + 30))
  }

  predicate PendingMeans(was: Run, after: Commit, t: int) {
    && was.status == ExecutionRequested && was.injectionDeadline.Some? && t < was.injectionDeadline.value
    && after.run.message.Observed? && after.run.message.text != "" && after.run.message != was.message
    && after.run == Stamped(was, t, after.run.message)
  }

  predicate StartMeans(was: Run, after: Commit, t: int) {
    && was.status == ExecutionRequested && was.injectionDeadline.Some?
    && after.run == Stamped(was, t, Fixed(ExecutionStarted)).(status := Running, startedAt := Some(t),
                      cleanupDeadline := Some(t + was.duration + 30), recoveryDeadline := Some(t + was.duration + 150))
  }

  /** Either the injection deadline passed, with a reason, or the bounded duration did. */
  predicate CleanupMeans(was: Run, after: Commit, t: int) {
    var next := Stamped(was, t, Fixed(CleanupAsked)).(status := CleanupRequested);
    if was.status == ExecutionRequested then
      && was.injectionDeadline.Some? && was.injectionDeadline.value <= t
      && after.run == next.(cleanupDeadline := Some(t + 30), recoveryDeadline := Some(t + 150),
                            failureReason := after.run.failureReason)
      && after.run.failureReason.Some?
      && match after.run.failureReason.value {
           case NeverInjected => true
           case MeshReported(text) => text != ""
           case _ => false
         }
    else
      && was.status == Running && was.startedAt.Some? && was.startedAt.value + was.duration <= t && after.run == next
  }

  predicate CleanedMeans(was: Run, after: Commit, t: int) {
    && was.status == CleanupRequested
    && after.run == Stamped(was, t, Fixed(CleanupCompleted)).(status := Verifying)
  }

  /** The resource was lost: before its injection was proven, or before the bounded duration was over. */
  predicate LossMeans(was: Run, after: Commit, t: int) {
    var next := Stamped(was, t, Fixed(RecoveryAsked)).(status := Verifying, recoveryDeadline := Some(t + 120));
    if was.status == ExecutionRequested then
      was.injectionDeadline.Some? && after.run == next.(failureReason := Some(VanishedBeforeInjection))
    else
      && was.status == Running && was.startedAt.Some? && t < was.startedAt.value + was.duration
      && after.run == next.(failureReason := Some(VanishedEarly))
  }

  predicate AskMeans(was: Run, after: Commit, t: int) {
    && was.status in {ExecutionRequested, Running, CleanupRequested, Verifying}
    && after.run == Stamped(was, t, Fixed(AbortAsked)).(status := AbortRequested, abortedBy := after.actor,
                                                        recoveryDeadline := Some(t + 150))
  }

  /** At once, before anything was created; or by the actor who asked, once the targets were healthy. */
  predicate AbortedMeans(was: Run, after: Commit, t: int) {
    var next := EndedAt(was, t, Fixed(AbortDone)).(status := Aborted);
    if was.status == AbortRequested then after.actor == was.abortedBy && after.run == next.(recovery := Healthy)
    else
      (was.status == PendingApproval || was.status == Approved) && after.run == next.(abortedBy := after.actor)
  }

  predicate SucceededMeans(was: Run, after: Commit, t: int) {
    && was.status == Verifying && was.failureReason.None?
    && after.run == EndedAt(was, t, Fixed(RunSucceeded)).(status := Succeeded, recovery := Healthy)
  }

  /** The third attempt failed, or a reason was noted and the targets recovered, or they did not recover in time. */
  predicate FailedMeans(was: Run, after: Commit, t: int) {
    var next := EndedAt(was, t, Fixed(RunFailed)).(status := Failed);
    && after.actor == (if was.status == AbortRequested then was.abortedBy else System)
    && if was.status == ExecutionRequested then
         was.injectionDeadline.None? && was.attempts >= 2 && after.run == next.(attempts := was.attempts + 1)
       else
         || (was.status == Verifying && was.failureReason.Some? && after.run == next.(recovery := Healthy))
         || ((was.status == Verifying || was.status == AbortRequested)
             && was.recoveryDeadline.Some? && was.recoveryDeadline.value <= t
             && after.run == next.(recovery := Unhealthy))
  }

  predicate ByTheSystem(event: Event) {
    event in {ApprovalLapsed, ExecutionRetried, ResourceCreated, ResourceRecovered, InjectionPending, ExecutionStarted,
              CleanupAsked, CleanupCompleted, RecoveryAsked, RunSucceeded}
  }

  predicate Means(was: Run, after: Commit) {
    var t := after.run.updatedAt;
    && was.updatedAt <= t && (ByTheSystem(after.event) ==> after.actor == System)
    && match after.event
       case PreflightDone => false
       case ApprovalAsked => false
       case ApprovalGiven => DecisionMeans(was, after, t, ApprovalGiven)
       case ApprovalRefused => DecisionMeans(was, after, t, ApprovalRefused)
       case ApprovalLapsed => LapseMeans(was, after, t)
       case ExecutionAsked =>
         was.status == Approved && after.run == Stamped(was, t, Fixed(ExecutionAsked)).(status := ExecutionRequested)
       case ExecutionRetried => RetryMeans(was, after, t)
       case ResourceCreated => ResourceMeans(was, after, t, ResourceCreated)
       case ResourceRecovered => ResourceMeans(was, after, t, ResourceRecovered)
       case InjectionPending => PendingMeans(was, after, t)
       case ExecutionStarted => StartMeans(was, after, t)
       case CleanupAsked => CleanupMeans(was, after, t)
       case CleanupCompleted => CleanedMeans(was, after, t)
       case RecoveryAsked => LossMeans(was, after, t)
       case AbortAsked => AskMeans(was, after, t)
       case AbortDone => AbortedMeans(was, after, t)
       case RunSucceeded => SucceededMeans(was, after, t)
       case RunFailed => FailedMeans(was, after, t)
  }

  // ---- Every transition is told by its event ----

  lemma InjectionIsTold(observation: Observation, now: int, was: Run, after: Commit)
    requires was.status == ExecutionRequested && was.injectionDeadline.Some? && was.updatedAt <= now
    requires InjectionCommit(was, now, observation) == Some(after)
    ensures Means(was, after)
  {}

  lemma StartIsTold(seen: Seen, now: int, was: Run, after: Commit)
    requires was.status == ExecutionRequested && was.injectionDeadline.None? && was.updatedAt <= now
    requires ExecutionCommit(was, now, seen) == Some(after)
    ensures Means(was, after)
  {}

  lemma ExecutionIsTold(seen: Seen, now: int, was: Run, after: Commit)
    requires was.status == ExecutionRequested && was.updatedAt <= now
    requires ExecutionCommit(was, now, seen) == Some(after)
    ensures Means(was, after)
  {
    if was.injectionDeadline.None? {
      StartIsTold(seen, now, was, after);
    } else if seen.present {
      InjectionIsTold(seen.observation, now, was, after);
    }
  }

  lemma AbortIsTold(actor: Actor, now: int, was: Run, after: Commit)
    requires was.updatedAt <= now && AbortRequestCommit(was, actor, now) == Some(after)
    ensures Means(was, after)
  {}

  lemma DecisionIsTold(op: Op, now: int, was: Run, after: Commit)
    requires was.approvalExpiresAt == Some(was.createdAt + 900)
    requires StepBy(op, now, was, after) && !op.Reconcile? && !op.Abort?
    ensures Means(was, after)
  {}

  lemma RunningIsTold(seen: Seen, now: int, was: Run, after: Commit)
    requires was.status == Running && was.startedAt.Some? && was.updatedAt <= now
    requires RunningCommit(was, now, seen) == Some(after)
    ensures Means(was, after)
  {}

  lemma VerifyingIsTold(seen: Seen, now: int, was: Run, after: Commit)
    requires was.status == Verifying && was.updatedAt <= now && VerifyCommit(was, now, seen) == Some(after)
    ensures Means(was, after)
  {}

  lemma DeletingIsTold(seen: Seen, now: int, was: Run, after: Commit)
    requires (was.status == CleanupRequested || was.status == AbortRequested) && was.updatedAt <= now
    requires ReconcileCommit(was, now, seen) == Some(after)
    ensures Means(was, after)
  {}

  lemma ReconcileIsTold(seen: Seen, now: int, was: Run, after: Commit)
    requires WellFormed(was) && was.updatedAt <= now && ReconcileCommit(was, now, seen) == Some(after)
    ensures Means(was, after)
  {
    match was.status
    case ExecutionRequested => ExecutionIsTold(seen, now, was, after);
    case Running => RunningIsTold(seen, now, was, after);
    case Verifying => VerifyingIsTold(seen, now, was, after);
    case _ => DeletingIsTold(seen, now, was, after);
  }

  lemma StepIsTold(was: Run, after: Commit)
    requires WellFormed(was) && Follows(was, after)
    ensures Means(was, after)
  {
    var op, now :| StepBy(op, now, was, after);
    if op.Abort? {
      AbortIsTold(op.actor, now, was, after);
    } else if !op.Reconcile? {
      DecisionIsTold(op, now, was, after);
    } else {
      ReconcileIsTold(op.seen, now, was, after);
    }
  }

  // ---- And whatever an event may tell can happen ----

  lemma SeenHappens(was: Run, after: Commit, seen: Seen)
    requires was.updatedAt <= after.run.updatedAt && ReconcileCommit(was, after.run.updatedAt, seen) == Some(after)
    ensures Follows(was, after)
  {
    StepFollows(Reconcile(seen), after.run.updatedAt, was, after);
  }

  lemma StartHappens(was: Run, after: Commit)
    requires Means(was, after)
    requires after.event in {ExecutionRetried, ResourceCreated, ResourceRecovered}
    ensures Follows(was, after)
  {
    var found, created := after.event == ResourceRecovered, after.event == ResourceCreated;
    SeenHappens(was, after, Seen(found, created, Observation(false, false, ""), false));
  }

  lemma InjectionHappens(was: Run, after: Commit)
    requires Means(was, after) && (after.event == InjectionPending || after.event == ExecutionStarted)
    ensures Follows(was, after)
  {
    var text := if after.run.message.Observed? then after.run.message.text else "";
    SeenHappens(was, after, Seen(true, false, Observation(after.event == ExecutionStarted, false, text), false));
  }

  lemma CleanupHappens(was: Run, after: Commit)
    requires Means(was, after) && after.event == CleanupAsked
    ensures Follows(was, after)
  {
    var text := match after.run.failureReason
      case Some(MeshReported(text)) => text
      case _ => "";
    SeenHappens(was, after, Seen(true, false, Observation(false, true, text), false));
  }

  lemma LossHappens(was: Run, after: Commit)
    requires Means(was, after) && (after.event == RecoveryAsked || after.event == CleanupCompleted)
    ensures Follows(was, after)
  {
    SeenHappens(was, after, Seen(false, false, Observation(false, false, ""), false));
  }

  lemma FailureHappens(was: Run, after: Commit)
    requires Means(was, after) && after.event == RunFailed
    ensures Follows(was, after)
  {
    var healthy := after.run.recovery == Healthy && was.status == Verifying;
    SeenHappens(was, after, Seen(false, false, Observation(false, false, ""), healthy));
  }

  lemma EndHappens(was: Run, after: Commit)
    requires Means(was, after) && Active(was.status) && (after.event == RunSucceeded || after.event == AbortDone)
    ensures Follows(was, after)
  {
    SeenHappens(was, after, Seen(false, false, Observation(false, false, ""), true));
  }

  lemma DecisionHappens(was: Run, after: Commit)
    requires was.approvalExpiresAt == Some(was.createdAt + 900) && Means(was, after)
    requires after.event in {ApprovalGiven, ApprovalRefused, ExecutionAsked}
    ensures Follows(was, after)
  {
    var t := after.run.updatedAt;
    var early := if t < was.createdAt + 900 then t else was.createdAt;
    match after.event
    case ApprovalGiven => StepFollows(Approve(after.actor, early), t, was, after);
    case ApprovalRefused => StepFollows(Reject(after.actor, early), t, was, after);
    case ExecutionAsked => StepFollows(Execute(after.actor, early), t, was, after);
  }

  lemma CallHappens(was: Run, after: Commit)
    requires was.approvalExpiresAt == Some(was.createdAt + 900) && Means(was, after)
    requires after.event == ApprovalLapsed || after.event == AbortAsked
    ensures Follows(was, after)
  {
    var t := after.run.updatedAt;
    StepFollows(if after.event == AbortAsked then Abort(after.actor) else Expire(t), t, was, after);
  }

  lemma EarlyAbortHappens(was: Run, after: Commit)
    requires Means(was, after) && !Active(was.status) && after.event == AbortDone
    ensures Follows(was, after)
  {
    StepFollows(Abort(after.actor), after.run.updatedAt, was, after);
  }

  lemma ToldHappens(was: Run, after: Commit)
    requires WellFormed(was) && Means(was, after)
    ensures Follows(was, after)
  {
    match after.event
    case CleanupAsked => CleanupHappens(was, after);
    case RecoveryAsked => LossHappens(was, after);
    case CleanupCompleted => LossHappens(was, after);
    case RunFailed => FailureHappens(was, after);
    case RunSucceeded => EndHappens(was, after);
    case AbortDone => if Active(was.status) { EndHappens(was, after); } else { EarlyAbortHappens(was, after); }
    case AbortAsked => CallHappens(was, after);
    case ApprovalLapsed => CallHappens(was, after);
    case InjectionPending => InjectionHappens(was, after);
    case ExecutionStarted => InjectionHappens(was, after);
    case ExecutionRetried => StartHappens(was, after);
    case ResourceCreated => StartHappens(was, after);
    case ResourceRecovered => StartHappens(was, after);
    case _ => DecisionHappens(was, after);
  }

  /** Two versions follow each other exactly when the event stored with the second says so. */
  lemma EventsTellAll(was: Run, after: Commit)
    requires WellFormed(was)
    ensures Follows(was, after) <==> Means(was, after)
  {
    if Follows(was, after) { StepIsTold(was, after); }
    if Means(was, after) { ToldHappens(was, after); }
  }

  // ---- Over histories ----

  ghost predicate Tells(history: seq<Commit>, k: nat) {
    0 < k < |history| && Means(history[k - 1].run, history[k])
  }

  /** What a request stores: with execution disabled a final record, otherwise 900 seconds to approve it. */
  predicate Opens(first: Commit) {
    var r := first.run;
    && r.version == 1 && r.requestedBy == first.actor && r.createdAt == r.updatedAt && r.message == Fixed(first.event)
    && r.approvedBy == Nobody && r.abortedBy == Nobody && r.failureReason.None? && r.recovery == NotChecked
    && r.attempts == 0 && r.injectionDeadline.None? && r.startedAt.None? && r.cleanupDeadline.None?
    && r.recoveryDeadline.None? && r.finishedAt.None? && r.duration <= 300
    && match first.event {
         case PreflightDone => r.status == PreflightValidated && r.approvalExpiresAt.None?
         case ApprovalAsked => r.status == PendingApproval && r.approvalExpiresAt == Some(r.createdAt + 900)
         case _ => false
       }
  }

  /** The legal histories are those whose log tells them from the request on. */
  lemma {:induction false} HistoriesAreTold(history: seq<Commit>)
    requires |history| > 0
    ensures Legal(history) <==> Opens(history[0]) && forall k :: 0 < k < |history| ==> Tells(history, k)
  {
    if Legal(history) {
      var run := history[0].run;
      var enabled :| history[0]
        == Requested(run.id, run.resource, history[0].actor, run.duration, enabled, run.createdAt);
      forall k | 0 < k < |history| ensures Tells(history, k) {
        RecordInvariants(history, k - 1);
        assert StepAt(history, k);
        EventsTellAll(history[k - 1].run, history[k]);
      }
    }
    if Opens(history[0]) && forall k :: 0 < k < |history| ==> Tells(history, k) {
      ToldIsLegal(history, |history|);
      assert history[..|history|] == history;
    }
  }

  lemma OpensIsRequest(first: Commit)
    requires Opens(first)
    ensures IsRequest(first)
  {
    var run := first.run;
    assert first == Requested(run.id, run.resource, first.actor, run.duration, first.event == ApprovalAsked,
                              run.createdAt);
  }

  lemma {:induction false} ToldIsLegal(history: seq<Commit>, n: nat)
    requires 0 < n <= |history| && Opens(history[0]) && forall k :: 0 < k < |history| ==> Tells(history, k)
    ensures Legal(history[..n])
  {
    if n == 1 {
      OpensIsRequest(history[0]);
    } else {
      ToldIsLegal(history, n - 1);
      RecordInvariants(history[..n - 1], n - 2);
      assert Tells(history, n - 1);
      EventsTellAll(history[n - 2].run, history[n - 1]);
      LegalExtends(history[..n - 1], history[n - 1]);
      assert history[..n] == history[..n - 1] + [history[n - 1]];
    }
  }

  lemma VersionIsTold(history: seq<Commit>, k: nat)
    requires Legal(history) && 0 < k < |history|
    ensures WellFormed(history[k - 1].run) && Means(history[k - 1].run, history[k])
  {
    HistoriesAreTold(history);
    assert Tells(history, k);
    RecordInvariants(history, k - 1);
  }

  /** Unhealthy targets fail a run only once its recovery deadline has come. */
  lemma UnhealthyMeans(history: seq<Commit>, k: nat)
    requires Legal(history) && 0 < k < |history|
    requires history[k].run.status == Failed && history[k].run.recovery == Unhealthy
    ensures var was := history[k - 1].run;
            && (was.status == Verifying || was.status == AbortRequested)
            && was.recoveryDeadline.Some? && was.recoveryDeadline.value <= history[k].run.updatedAt
  {
    VersionIsTold(history, k);
  }

  /** A run fails without a resource only at its third failed Start; the first two leave it asking for execution. */
  lemma FailedStartsMean(history: seq<Commit>, k: nat)
    requires Legal(history) && 0 < k < |history| && history[k].run.attempts != history[k - 1].run.attempts
    ensures var was, r := history[k - 1].run, history[k].run;
            && was.status == ExecutionRequested && r.attempts == was.attempts + 1 && r.injectionDeadline.None?
            && r.status == if r.attempts < 3 then ExecutionRequested else Failed
  {
    VersionIsTold(history, k);
  }
}
