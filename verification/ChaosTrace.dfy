/**
 * What really happened, in order: clock readings, looks at the cluster, Starts and commits. Every commit rests on
 * entries made before it about the very version that it replaces.
 */
module ChaosTrace {
  import opened Basics
  import opened ChaosModel
  import opened ChaosLaws

  /**
   * ClockRead: the clock was compared with the run's approval window. Looked: the cluster answered whether the run's
   * own resource is there. StartEnded: a creation was acknowledged, or reported as failed.
   */
  datatype What =
    | ClockRead | Looked(present: bool) | StartBegun | StartEnded(created: bool)
    | ObservedMesh(observation: Observation) | DeleteAccepted | CheckedPods(healthy: bool) | Saved

  /** `run` is the version in the caller's hands, and `at` the time; for Saved it is the version just stored. */
  datatype Entry = Entry(at: int, run: Run, what: What)

  predicate IsEntry(trace: seq<Entry>, k: nat, run: Run, what: What) {
    k < |trace| && trace[k].run == run && trace[k].what == what
  }

  predicate Logged(trace: seq<Entry>, run: Run, what: What) {
    exists k :: 0 <= k < |trace| && IsEntry(trace, k, run, what)
  }

  predicate ReadAt(trace: seq<Entry>, run: Run, at: int) {
    exists k :: 0 <= k < |trace| && IsEntry(trace, k, run, ClockRead) && trace[k].at == at
  }

  // ---- The entries that each commit needs ----

  predicate ReconcileEvidence(trace: seq<Entry>, run: Run, seen: Seen) {
    match run.status
    case ExecutionRequested =>
      && Logged(trace, run, Looked(seen.present))
      && (!seen.present && run.injectionDeadline.None? ==> Logged(trace, run, StartEnded(seen.created)))
      && (seen.present && run.injectionDeadline.Some? ==> Logged(trace, run, ObservedMesh(seen.observation)))
    case Running => run.startedAt.Some? ==> Logged(trace, run, Looked(seen.present))
    case CleanupRequested => Logged(trace, run, DeleteAccepted) && Logged(trace, run, Looked(seen.present))
    case AbortRequested =>
      && Logged(trace, run, DeleteAccepted) && Logged(trace, run, Looked(seen.present))
      && (!seen.present ==> Logged(trace, run, CheckedPods(seen.healthy)))
    case Verifying =>
      Logged(trace, run, Looked(seen.present)) && (!seen.present ==> Logged(trace, run, CheckedPods(seen.healthy)))
    case _ => true
  }

  predicate Evidence(trace: seq<Entry>, run: Run, op: Op) {
    match op
    case Approve(_, checked) => ReadAt(trace, run, checked)
    case Reject(_, checked) => ReadAt(trace, run, checked)
    case Expire(checked) => ReadAt(trace, run, checked)
    case Execute(_, checked) => ReadAt(trace, run, checked)
    case Abort(_) => true
    case Reconcile(seen) => ReconcileEvidence(trace, run, seen)
  }

  ghost predicate Justified(trace: seq<Entry>, before: Run, after: Commit) {
    exists op, now :: StepBy(op, now, before, after) && Evidence(trace, before, op)
  }

  /** At `n`, `after` was stored over `before`, on the strength of what precedes. */
  ghost predicate SavedAt(trace: seq<Entry>, n: nat, before: Run, after: Commit) {
    IsEntry(trace, n, after.run, Saved) && Justified(trace[..n], before, after)
  }

  ghost predicate Witness(trace: seq<Entry>, before: Run, after: Commit) {
    exists n: nat :: SavedAt(trace, n, before, after)
  }

  ghost predicate WitnessedAt(trace: seq<Entry>, history: seq<Commit>, k: nat) {
    0 < k < |history| && Witness(trace, history[k - 1].run, history[k])
  }

  /** Every version after the first was stored on the strength of earlier entries about the version before it. */
  ghost predicate Witnessed(trace: seq<Entry>, history: seq<Commit>) {
    forall k :: 0 < k < |history| ==> WitnessedAt(trace, history, k)
  }

  lemma JustifiedByOp(trace: seq<Entry>, op: Op, now: int, before: Run, after: Commit)
    requires StepBy(op, now, before, after) && Evidence(trace, before, op)
    ensures Justified(trace, before, after)
  {}

  lemma WitnessStays(trace: seq<Entry>, longer: seq<Entry>, history: seq<Commit>)
    requires trace <= longer && Witnessed(trace, history)
    ensures Witnessed(longer, history)
  {
    forall k | 0 < k < |history| ensures WitnessedAt(longer, history, k) {
      assert WitnessedAt(trace, history, k);
      var n: nat :| SavedAt(trace, n, history[k - 1].run, history[k]);
      assert longer[..n] == trace[..n];
      assert SavedAt(longer, n, history[k - 1].run, history[k]);
    }
  }

  lemma WitnessedPrefix(trace: seq<Entry>, history: seq<Commit>, n: nat)
    requires Witnessed(trace, history) && n <= |history|
    ensures Witnessed(trace, history[..n])
  {
    forall k | 0 < k < n ensures WitnessedAt(trace, history[..n], k) {
      assert WitnessedAt(trace, history, k);
    }
  }

  lemma WitnessExtends(trace: seq<Entry>, history: seq<Commit>, after: Commit, at: int)
    requires |history| > 0 && Witnessed(trace, history) && Justified(trace, history[|history| - 1].run, after)
    ensures Witnessed(trace + [Entry(at, after.run, Saved)], history + [after])
  {
    var longer, more := trace + [Entry(at, after.run, Saved)], history + [after];
    WitnessStays(trace, longer, history);
    forall k | 0 < k < |more| ensures WitnessedAt(longer, more, k) {
      if k < |history| {
        assert WitnessedAt(longer, history, k);
      } else {
        assert longer[..|trace|] == trace;
        assert SavedAt(longer, |trace|, more[k - 1].run, after);
      }
    }
  }

  lemma LoggedStays(trace: seq<Entry>, longer: seq<Entry>, run: Run, what: What)
    requires trace <= longer && Logged(trace, run, what)
    ensures Logged(longer, run, what)
  {
    var k :| 0 <= k < |trace| && IsEntry(trace, k, run, what);
    assert IsEntry(longer, k, run, what);
  }

  lemma ReadStaysLogged(trace: seq<Entry>, longer: seq<Entry>, run: Run, at: int)
    requires trace <= longer && ReadAt(trace, run, at)
    ensures ReadAt(longer, run, at)
  {
    var k :| 0 <= k < |trace| && IsEntry(trace, k, run, ClockRead) && trace[k].at == at;
    assert IsEntry(longer, k, run, ClockRead);
  }

  lemma ReconcileEvidenceStays(trace: seq<Entry>, longer: seq<Entry>, run: Run, seen: Seen)
    requires trace <= longer && ReconcileEvidence(trace, run, seen)
    ensures ReconcileEvidence(longer, run, seen)
  {
    forall what | Logged(trace, run, what) ensures Logged(longer, run, what) { LoggedStays(trace, longer, run, what); }
  }

  lemma JustifiedStays(trace: seq<Entry>, longer: seq<Entry>, before: Run, after: Commit)
    requires trace <= longer && Justified(trace, before, after)
    ensures Justified(longer, before, after)
  {
    var op, now :| StepBy(op, now, before, after) && Evidence(trace, before, op);
    match op
    case Abort(_) =>
    case Reconcile(seen) => ReconcileEvidenceStays(trace, longer, before, seen);
    case _ => ReadStaysLogged(trace, longer, before, op.checked);
  }

  lemma JustifiedLater(trace: seq<Entry>, longer: seq<Entry>, op: Op, now: int, before: Run, after: Commit)
    requires StepBy(op, now, before, after) && Evidence(trace, before, op) && trace <= longer
    ensures Justified(longer, before, after)
  {
    JustifiedByOp(trace, op, now, before, after);
    JustifiedStays(trace, longer, before, after);
  }

  // ---- What the evidence of a commit says ----

  /** The approval window of `before` was still open when the clock was read for it. */
  ghost predicate ReadInWindow(trace: seq<Entry>, before: Run) {
    exists k :: 0 <= k < |trace| && IsEntry(trace, k, before, ClockRead)
      && trace[k].at < before.createdAt + APPROVAL_TTL
  }

  lemma WindowEvidence(trace: seq<Entry>, before: Run, after: Commit)
    requires WellFormed(before) && Justified(trace, before, after)
    requires (before.status == PendingApproval && (after.run.status == Approved || after.run.status == Rejected))
             || (before.status == Approved && after.run.status == ExecutionRequested)
    ensures ReadInWindow(trace, before)
  {
    var op, now :| StepBy(op, now, before, after) && Evidence(trace, before, op);
    assert op.Approve? || op.Reject? || op.Execute?;
    assert ReadAt(trace, before, op.checked) && op.checked < before.createdAt + APPROVAL_TTL;
  }

  /** The resource was there, and the mesh reported every target injected. */
  ghost predicate SawInjection(trace: seq<Entry>, before: Run) {
    && Logged(trace, before, Looked(true))
    && exists observation: Observation :: observation.injected && Logged(trace, before, ObservedMesh(observation))
  }

  lemma StartEvidence(trace: seq<Entry>, before: Run, after: Commit)
    requires Justified(trace, before, after) && before.status == ExecutionRequested && after.run.status == Running
    ensures SawInjection(trace, before)
  {
    var op, now :| StepBy(op, now, before, after) && Evidence(trace, before, op);
    assert op.Reconcile? && op.seen.present && op.seen.observation.injected && before.injectionDeadline.Some?;
  }

  /** The resource was gone and every target pod was healthy. */
  predicate SawRecovery(trace: seq<Entry>, before: Run) {
    Logged(trace, before, Looked(false)) && Logged(trace, before, CheckedPods(true))
  }

  lemma RecoveryEvidence(trace: seq<Entry>, before: Run, after: Commit)
    requires Justified(trace, before, after) && after.run.recovery == Healthy && before.recovery == NotChecked
    ensures SawRecovery(trace, before)
    ensures before.status == AbortRequested ==> Logged(trace, before, DeleteAccepted)
  {
    var op, now :| StepBy(op, now, before, after) && Evidence(trace, before, op);
    assert op.Reconcile? && !op.seen.present && op.seen.healthy
           && (before.status == AbortRequested || before.status == Verifying);
  }

  /** A version was stored at `n`, after entries that say this. */
  lemma WitnessOf(trace: seq<Entry>, history: seq<Commit>, k: nat) returns (n: nat)
    requires Witnessed(trace, history) && 0 < k < |history|
    ensures SavedAt(trace, n, history[k - 1].run, history[k])
  {
    assert WitnessedAt(trace, history, k);
    n :| SavedAt(trace, n, history[k - 1].run, history[k]);
  }

  lemma ApprovedBeforeExecuted(history: seq<Commit>, approved: nat, executed: nat)
    requires Legal(history) && ApprovedAt(history, approved) && ExecutedAt(history, executed)
    ensures approved < executed
  {
    if executed <= approved { WaitingThroughout(history, approved, executed); }
  }

  /**
   * The approval and the execution request of whatever got past them were made in time, by the clock that was read for
   * them.
   */
  lemma ApprovalsAreTimely(trace: seq<Entry>, history: seq<Commit>, k: nat)
    returns (approved: nat, executed: nat, a: nat, e: nat)
    requires Legal(history) && Witnessed(trace, history) && k < |history| && PastExecution(history[k].run.status)
    ensures ApprovedAt(history, approved) && ExecutedAt(history, executed) && approved < executed <= k
    ensures history[approved].run.approvedBy == history[k].run.approvedBy
    ensures IsEntry(trace, a, history[approved].run, Saved) && ReadInWindow(trace[..a], history[approved - 1].run)
    ensures IsEntry(trace, e, history[executed].run, Saved) && ReadInWindow(trace[..e], history[executed - 1].run)
  {
    executed := ExecutionPrecedes(history, k);
    approved := ApprovalPrecedes(history, k);
    ApprovedBeforeExecuted(history, approved, executed);
    RecordInvariants(history, approved - 1);
    RecordInvariants(history, executed - 1);
    a := WitnessOf(trace, history, approved);
    e := WitnessOf(trace, history, executed);
    WindowEvidence(trace[..a], history[approved - 1].run, history[approved]);
    WindowEvidence(trace[..e], history[executed - 1].run, history[executed]);
  }

  /**
   * Success means: approved and asked to execute in time, the first by someone other than the requester; every target
   * seen injected; the full duration elapsed; no abort requested and no failure noted; and, before the last version was
   * stored, the resource seen gone and every target pod healthy.
   */
  lemma SuccessMeans(trace: seq<Entry>, history: seq<Commit>)
    returns (approved: nat, executed: nat, started: nat, s: nat, e: nat)
    requires Legal(history) && Witnessed(trace, history) && history[|history| - 1].run.status == Succeeded
    ensures ApprovedAt(history, approved) && ExecutedAt(history, executed) && StartedAt(history, started)
    ensures approved < executed < started < |history| - 1
    ensures ReadInWindow(trace, history[approved - 1].run) && ReadInWindow(trace, history[executed - 1].run)
    ensures IsEntry(trace, s, history[started].run, Saved) && SawInjection(trace[..s], history[started - 1].run)
    ensures IsEntry(trace, e, history[|history| - 1].run, Saved) && SawRecovery(trace[..e], history[|history| - 2].run)
    ensures RanItsCourse(history[|history| - 1].run, history[started].run)
    ensures forall k :: 0 <= k < |history| ==> history[k].run.status != AbortRequested
  {
    var last := |history| - 1;
    NoAbortBeforeSuccess(history);
    e := RecoveryOf(trace, history);
    started, s := StartOf(trace, history, last);
    var a, x;
    approved, executed, a, x := ApprovalsAreTimely(trace, history, started);
    ReadStays(trace, a, history[approved - 1].run);
    ReadStays(trace, x, history[executed - 1].run);
    RecordInvariants(history, last);
  }

  predicate RanItsCourse(ended: Run, started: Run) {
    && ended.startedAt == started.startedAt && ended.startedAt.Some? && ended.finishedAt.Some?
    && ended.startedAt.value + ended.duration <= ended.finishedAt.value
    && ended.failureReason.None? && ended.recovery == Healthy
  }

  lemma ReadStays(trace: seq<Entry>, n: nat, before: Run)
    requires n <= |trace| && ReadInWindow(trace[..n], before)
    ensures ReadInWindow(trace, before)
  {
    var k :| 0 <= k < n && IsEntry(trace[..n], k, before, ClockRead)
      && trace[..n][k].at < before.createdAt + APPROVAL_TTL;
    assert IsEntry(trace, k, before, ClockRead);
  }

  lemma StartOf(trace: seq<Entry>, history: seq<Commit>, k: nat) returns (started: nat, s: nat)
    requires Legal(history) && Witnessed(trace, history) && k < |history| && history[k].run.startedAt.Some?
    ensures started <= k && StartedAt(history, started) && history[started].run.startedAt == history[k].run.startedAt
    ensures IsEntry(trace, s, history[started].run, Saved) && SawInjection(trace[..s], history[started - 1].run)
  {
    started := StartPrecedes(history, k);
    s := WitnessOf(trace, history, started);
    StartEvidence(trace[..s], history[started - 1].run, history[started]);
  }

  lemma RecoveryOf(trace: seq<Entry>, history: seq<Commit>) returns (e: nat)
    requires Legal(history) && Witnessed(trace, history) && history[|history| - 1].run.status == Succeeded
    ensures |history| > 1 && history[|history| - 1].run.startedAt.Some?
    ensures IsEntry(trace, e, history[|history| - 1].run, Saved) && SawRecovery(trace[..e], history[|history| - 2].run)
  {
    var last := |history| - 1;
    assert last > 0;
    RecordInvariants(history, last);
    RecordInvariants(history, last - 1);
    assert StepAt(history, last);
    SuccessStep(history[last - 1].run, history[last]);
    e := WitnessOf(trace, history, last);
    RecoveryEvidence(trace[..e], history[last - 1].run, history[last]);
  }
}
