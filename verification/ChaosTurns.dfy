/** One reconcile with nobody interfering, and a table of when it has which outcome. */
module ChaosTurns {
  import opened Basics
  import opened ChaosModel
  import opened ChaosLaws
  import opened ChaosWorld
  import ChaosEvents

  const NOTHING_SEEN := Seen(false, false, Observation(false, false, ""), false)

  function After(run: Run, c: Option<Commit>): Run {
    if c.Some? then c.value.run else run
  }

  /** What one reconcile makes of a record and of what stands under its name when nobody interferes. */
  function AtomicStep(run: Run, presence: Presence, now: int, seen: Seen): (Run, Presence) {
    match run.status
    case ExecutionRequested =>
      if presence == Other then (run, Other)
      else
        (After(run, ExecutionCommit(run, now, seen.(present := presence == Own))),
         if presence == Own || (run.injectionDeadline.None? && seen.created) then Own else Absent)
    case Running =>
      if run.startedAt.None? then (After(run, RunningCommit(run, now, seen)), presence)
      else if presence == Other then (run, Other)
      else
        var first := RunningCommit(run, now, seen.(present := presence == Own));
        if first.Some? && first.value.run.status == CleanupRequested
        then (After(first.value.run, CleanupCommit(first.value.run, now, seen.(present := false))), Absent)
        else (After(run, first), presence)
    case CleanupRequested => (After(run, CleanupCommit(run, now, seen.(present := false))), Absent)
    case AbortRequested => (After(run, AbortCommit(run, now, seen.(present := false))), Absent)
    case Verifying =>
      if presence == Other then (run, Other)
      else
        (After(run, VerifyCommit(run, now, seen.(present := presence == Own))),
         if presence == Own && !Passed(run.cleanupDeadline, now) then Own else Absent)
    case _ => (run, presence)
  }

  /** Past its end, a running record is asked to clean up, and the same reconcile goes on to do it. */
  function Finished(run: Run, now: int): Run
    requires run.status == Running && run.startedAt.Some? && run.startedAt.value + run.duration <= now
  {
    var asked := RunningCommit(run, now, NOTHING_SEEN).value.run;
    After(asked, CleanupCommit(asked, now, NOTHING_SEEN))
  }

  lemma ExecutionSteps(run: Run, presence: Presence, now: int, seen: Seen)
    requires run.status == ExecutionRequested && presence != Other && seen.present == (presence == Own)
    ensures AtomicStep(run, presence, now, seen)
         == (After(run, ReconcileCommit(run, now, seen)),
             if presence == Own || (run.injectionDeadline.None? && seen.created) then Own else Absent)
  {}

  lemma RunningSteps(run: Run, presence: Presence, now: int, seen: Seen)
    requires run.status == Running && run.startedAt.Some? && presence != Other && seen.present == (presence == Own)
    ensures AtomicStep(run, presence, now, seen)
         == if run.startedAt.value + run.duration <= now then (Finished(run, now), Absent)
            else (After(run, ReconcileCommit(run, now, seen)), presence)
  {}

  lemma DeletingSteps(run: Run, presence: Presence, now: int, seen: Seen)
    requires (run.status == CleanupRequested || run.status == AbortRequested) && !seen.present
    ensures AtomicStep(run, presence, now, seen) == (After(run, ReconcileCommit(run, now, seen)), Absent)
  {}

  lemma VerifyingSteps(run: Run, presence: Presence, now: int, seen: Seen)
    requires run.status == Verifying && presence != Other && seen.present == (presence == Own)
    ensures AtomicStep(run, presence, now, seen)
         == (After(run, ReconcileCommit(run, now, seen)),
             if presence == Own && !Passed(run.cleanupDeadline, now) then Own else Absent)
  {}

  /** The cluster once `presence` is what stands under the run's name. */
  function Placed(objects: map<Resource, Owner>, run: Run, presence: Presence): map<Resource, Owner> {
    match presence
    case Absent => objects - {run.resource}
    case Own => objects[run.resource := OwnedBy(run.id)]
    case Other => objects
  }

  /** Another owner's object stands under the run's name, and this status has to look before it does anything. */
  predicate Blocked(run: Run, presence: Presence) {
    && presence == Other
    && (run.status.ExecutionRequested? || (run.status.Running? && run.startedAt.Some?) || run.status.Verifying?)
  }

  // ---- When each outcome comes about ----

  /** The run's own object is there, and its injection is not proven yet. */
  predicate Unproven(run: Run, presence: Presence, seen: Seen) {
    && run.status == ExecutionRequested && presence == Own && run.injectionDeadline.Some?
    && !seen.observation.injected
  }

  predicate Proven(run: Run, presence: Presence, seen: Seen) {
    && run.status == ExecutionRequested && presence == Own && run.injectionDeadline.Some?
    && seen.observation.injected
  }

  predicate FailedStart(run: Run, presence: Presence, seen: Seen) {
    run.status == ExecutionRequested && presence == Absent && run.injectionDeadline.None? && !seen.created
  }

  predicate GotResource(run: Run, presence: Presence, seen: Seen) {
    && run.status == ExecutionRequested && run.injectionDeadline.None?
    && (presence == Own || (presence == Absent && seen.created))
  }

  /** The bounded duration is over, and the look at the resource succeeds. */
  predicate Over(run: Run, presence: Presence, now: int) {
    && run.status == Running && run.startedAt.Some? && run.startedAt.value + run.duration <= now && presence != Other
  }

  predicate Lost(run: Run, presence: Presence, now: int) {
    && presence == Absent
    && ((run.status == ExecutionRequested && run.injectionDeadline.Some?)
        || (run.status == Running && !Over(run, presence, now)))
  }

  /** The recovery is checked: an abort has deleted whatever stood there, and a verifying run found nothing. */
  predicate Checked(run: Run, presence: Presence) {
    run.status == AbortRequested || (run.status == Verifying && presence == Absent)
  }

  predicate RecoveryIsDue(run: Run, now: int) {
    run.recoveryDeadline.Some? && run.recoveryDeadline.value <= now
  }

  predicate Fails(run: Run, presence: Presence, now: int, seen: Seen) {
    || (FailedStart(run, presence, seen) && run.attempts >= 2)
    || (run.status == Verifying && presence == Absent && seen.healthy && run.failureReason.Some?)
    || (Checked(run, presence) && !seen.healthy && RecoveryIsDue(run, now))
  }

  /** The record stays as it is. */
  predicate Stays(run: Run, presence: Presence, now: int, seen: Seen) {
    || (presence == Other && run.status in {ExecutionRequested, Running, Verifying})
    || (presence == Own && run.status == Verifying)
    || (presence == Own && run.status == Running && !Over(run, presence, now))
    || (Checked(run, presence) && !seen.healthy && !RecoveryIsDue(run, now))
    || (Unproven(run, presence, seen) && now < run.injectionDeadline.value
        && (seen.observation.text == "" || run.message == Observed(seen.observation.text)))
  }

  predicate StatusFits(run: Run, presence: Presence, now: int, seen: Seen, run': Run) {
    && (run'.status == Running
        <==> Proven(run, presence, seen) || (run.status == Running && Stays(run, presence, now, seen)))
    && (run'.status == CleanupRequested
        <==> Unproven(run, presence, seen) && run.injectionDeadline.value <= now)
    && (run'.status == Verifying
        <==> Lost(run, presence, now) || Over(run, presence, now) || run.status == CleanupRequested
             || (run.status == Verifying && Stays(run, presence, now, seen)))
    && (run'.status == AbortRequested <==> run.status == AbortRequested && Stays(run, presence, now, seen))
    && (run'.status == Aborted <==> run.status == AbortRequested && seen.healthy)
    && (run'.status == Succeeded
        <==> run.status == Verifying && presence == Absent && seen.healthy && run.failureReason.None?)
    && (run'.status == Failed <==> Fails(run, presence, now, seen))
  }

  /** Where the status alone does not say it. */
  predicate FieldsFit(run: Run, presence: Presence, now: int, seen: Seen, run': Run) {
    && run'.attempts == run.attempts + (if FailedStart(run, presence, seen) then 1 else 0)
    && run'.injectionDeadline == (if GotResource(run, presence, seen) then Some(now + 30) else run.injectionDeadline)
    && (run'.status == CleanupRequested ==>
          run'.failureReason
          == Some(if seen.observation.failed && seen.observation.text != "" then MeshReported(seen.observation.text)
                  else NeverInjected))
    && (Unproven(run, presence, seen) && run' != run && run'.status == ExecutionRequested ==>
          run'.message == Observed(seen.observation.text))
  }

  /** What stands under the run's name afterwards. */
  predicate PresenceFits(run: Run, presence: Presence, now: int, seen: Seen, presence': Presence) {
    var deletes := || run.status == CleanupRequested || run.status == AbortRequested || Over(run, presence, now)
                   || (run.status == Verifying && presence == Own && run.cleanupDeadline.Some?
                       && run.cleanupDeadline.value <= now);
    presence' == if deletes then Absent
                 else if presence == Absent && GotResource(run, presence, seen) then Own else presence
  }

  ghost predicate Told(run: Run, run': Run, now: int) {
    run'.updatedAt == now && exists c: Commit :: ChaosEvents.Means(run, c) && c.run == run'
  }

  /** One audit event leads there; two where clean-up is asked for and carried out at once. */
  ghost predicate LeadsTo(run: Run, presence: Presence, now: int, run': Run) {
    if Over(run, presence, now)
    then exists asked: Run :: asked.status == CleanupRequested && Told(run, asked, now) && Told(asked, run', now)
    else Told(run, run', now)
  }

  /** The table: which outcome, by which events, and what is left under the run's name. */
  ghost predicate Turn(run: Run, presence: Presence, now: int, seen: Seen, run': Run, presence': Presence) {
    && (run' == run <==> Stays(run, presence, now, seen)) && (run' != run ==> LeadsTo(run, presence, now, run'))
    && StatusFits(run, presence, now, seen, run') && FieldsFit(run, presence, now, seen, run')
    && PresenceFits(run, presence, now, seen, presence')
  }

  /**
   * Reconciling `run` alone: its record and what stands under its name turn out as the table says, no other record
   * moved, nothing else in the cluster was touched, and it errs only when another owner's object is in its way.
   */
  ghost predicate Turned(runs: map<string, Run>, objects: map<Resource, Owner>, runs': map<string, Run>,
                         objects': map<Resource, Owner>, run: Run, now: int, ok: bool, seen: Seen)
  {
    && run.id in runs' && runs' == runs[run.id := runs'[run.id]]
    && Turn(run, PresenceOf(objects, run), now, seen, runs'[run.id], PresenceOf(objects', run))
    && objects' - {run.resource} == objects - {run.resource}
    && (ok <==> !(PresenceOf(objects, run) == Other && run.status in {ExecutionRequested, Running, Verifying}))
  }

  /** With nothing left under the run's name and unhealthy targets, only the recovery deadline moves the record. */
  predicate WaitsForRecovery(objects: map<Resource, Owner>, runs': map<string, Run>, objects': map<Resource, Owner>,
                             run: Run, now: int, seen: Seen)
  {
    run.resource !in objects' && !seen.healthy
    && (run.status == AbortRequested || (run.status == Verifying && run.resource !in objects)) ==>
      && run.id in runs'
      && (runs'[run.id] != run <==> run.recoveryDeadline.Some? && run.recoveryDeadline.value <= now)
  }

  lemma CommitIsTold(run: Run, now: int, seen: Seen)
    requires WellFormed(run) && run.updatedAt <= now && ReconcileCommit(run, now, seen).Some?
    ensures Told(run, ReconcileCommit(run, now, seen).value.run, now)
  {
    ChaosEvents.ReconcileIsTold(seen, now, run, ReconcileCommit(run, now, seen).value);
  }

  lemma ExecutionTurns(run: Run, presence: Presence, now: int, seen: Seen)
    requires WellFormed(run) && run.status == ExecutionRequested && run.updatedAt <= now
    ensures var (run', presence') := AtomicStep(run, presence, now, seen);
            Turn(run, presence, now, seen, run', presence')
  {
    var seen' := seen.(present := presence == Own);
    if ReconcileCommit(run, now, seen').Some? { CommitIsTold(run, now, seen'); }
  }

  lemma RunningTurns(run: Run, presence: Presence, now: int, seen: Seen)
    requires WellFormed(run) && run.status == Running && run.updatedAt <= now
    ensures var (run', presence') := AtomicStep(run, presence, now, seen);
            Turn(run, presence, now, seen, run', presence')
  {
    var seen' := seen.(present := presence == Own);
    if ReconcileCommit(run, now, seen').Some? {
      CommitIsTold(run, now, seen');
      RunningKeepsWellFormed(seen', now, run, RunningCommit(run, now, seen').value);
      if Over(run, presence, now) {
        CommitIsTold(RunningCommit(run, now, seen').value.run, now, seen.(present := false));
      }
    }
  }

  lemma DeletingTurns(run: Run, presence: Presence, now: int, seen: Seen)
    requires WellFormed(run) && (run.status == CleanupRequested || run.status == AbortRequested) && run.updatedAt <= now
    ensures var (run', presence') := AtomicStep(run, presence, now, seen);
            Turn(run, presence, now, seen, run', presence')
  {
    var seen' := seen.(present := false);
    if ReconcileCommit(run, now, seen').Some? { CommitIsTold(run, now, seen'); }
  }

  lemma VerifyingTurns(run: Run, presence: Presence, now: int, seen: Seen)
    requires WellFormed(run) && run.status == Verifying && run.updatedAt <= now
    ensures var (run', presence') := AtomicStep(run, presence, now, seen);
            Turn(run, presence, now, seen, run', presence')
  {
    var seen' := seen.(present := presence == Own);
    if ReconcileCommit(run, now, seen').Some? { CommitIsTold(run, now, seen'); }
  }

  /** The atomic step of every active run is as the table says. */
  lemma StepsAreTurns(run: Run, presence: Presence, now: int, seen: Seen)
    requires WellFormed(run) && Active(run.status) && run.updatedAt <= now
    ensures var (run', presence') := AtomicStep(run, presence, now, seen);
            Turn(run, presence, now, seen, run', presence')
  {
    match run.status
    case ExecutionRequested => ExecutionTurns(run, presence, now, seen);
    case Running => RunningTurns(run, presence, now, seen);
    case Verifying => VerifyingTurns(run, presence, now, seen);
    case _ => DeletingTurns(run, presence, now, seen);
  }
}
