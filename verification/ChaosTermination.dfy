/**
 * Left alone, an active run ends in a bounded number of reconciles and its resource is gone by then, unless it is
 * stuck; and the states in which it is stuck are exactly two.
 */
module ChaosTermination {
  import opened Basics
  import opened ChaosModel
  import opened ChaosLaws
  import opened ChaosTrace
  import opened ChaosWorld
  import opened ChaosStore
  import opened ChaosManager
  import opened ChaosTurns

  /** Verifying with no clean-up deadline while the run's own resource is there: nothing will delete it. */
  predicate Stalled(run: Run, presence: Presence) {
    run.status == Verifying && presence == Own && run.cleanupDeadline.None?
  }

  /** Either that, or another owner's object stands under the run's name and every look fails. */
  predicate Stuck(run: Run, presence: Presence) {
    Stalled(run, presence) || Blocked(run, presence)
  }

  function Left(deadline: Option<int>, now: int): nat {
    if deadline.None? || deadline.value <= now then 0 else deadline.value - now
  }

  const FULL_MEASURE := 800

  /** How many more reconciles a run can need when each comes at least a second after the last. */
  function Measure(run: Run, presence: Presence, now: int): nat
    requires run.attempts <= MAX_ATTEMPTS
  {
    match run.status
    case ExecutionRequested =>
      if run.injectionDeadline.None? then FULL_MEASURE - run.attempts else 500 + Left(run.injectionDeadline, now)
    case Running => 4 + Left(run.recoveryDeadline, now)
    case CleanupRequested => 2 + Left(run.recoveryDeadline, now)
    case AbortRequested => 1 + Left(run.recoveryDeadline, now)
    case Verifying =>
      1 + Left(run.recoveryDeadline, now) + (if presence == Own then 1 + Left(run.cleanupDeadline, now) else 0)
    case _ => 0
  }

  lemma MeasureIsBounded(run: Run, presence: Presence, now: int)
    requires WellFormed(run) && run.updatedAt <= now
    ensures Measure(run, presence, now) <= FULL_MEASURE
  {}

  /** Time never makes the wait longer, and neither does the loss of the resource. */
  lemma LossShortens(run: Run, presence: Presence, now: int, later: int)
    requires run.attempts <= MAX_ATTEMPTS && now <= later
    ensures Measure(run, presence, later) <= Measure(run, presence, now)
    ensures Measure(run, Absent, later) <= Measure(run, presence, now)
  {}

  /** What an atomic step must achieve: end without a resource, or come closer to the end without getting stuck. */
  predicate Progresses(run: Run, presence: Presence, last: int, now: int, run': Run, presence': Presence)
    requires WellFormed(run)
  {
    && WellFormed(run') && run'.updatedAt <= now && run'.id == run.id && run'.resource == run.resource
    && if Ended(run'.status) then presence' == Absent
       else Active(run'.status) && !Stuck(run', presence')
            && Measure(run', presence', now) < Measure(run, presence, last)
  }

  lemma ExecutionProgresses(run: Run, presence: Presence, last: int, now: int, seen: Seen)
    requires WellFormed(run) && run.status == ExecutionRequested && run.updatedAt <= last < now && presence != Other
    ensures var (run', presence') := AtomicStep(run, presence, now, seen);
            Progresses(run, presence, last, now, run', presence')
  {
    var seen' := seen.(present := presence == Own);
    var c := ExecutionCommit(run, now, seen');
    if c.Some? { ExecutionKeepsWellFormed(seen', now, run, c.value); }
  }

  lemma RunningProgresses(run: Run, presence: Presence, last: int, now: int, seen: Seen)
    requires WellFormed(run) && run.status == Running && run.updatedAt <= last < now && presence != Other
    ensures var (run', presence') := AtomicStep(run, presence, now, seen);
            Progresses(run, presence, last, now, run', presence')
  {
    var seen' := seen.(present := presence == Own);
    var c := RunningCommit(run, now, seen');
    if c.Some? {
      RunningKeepsWellFormed(seen', now, run, c.value);
      if c.value.run.status == CleanupRequested {
        var gone := seen.(present := false);
        CleanupKeepsWellFormed(gone, now, c.value.run, CleanupCommit(c.value.run, now, gone).value);
      }
    }
  }

  lemma CleanupProgresses(run: Run, presence: Presence, last: int, now: int, seen: Seen)
    requires WellFormed(run) && run.status == CleanupRequested && run.updatedAt <= last < now
    ensures var (run', presence') := AtomicStep(run, presence, now, seen);
            Progresses(run, presence, last, now, run', presence')
  {
    var gone := seen.(present := false);
    CleanupKeepsWellFormed(gone, now, run, CleanupCommit(run, now, gone).value);
  }

  lemma AbortProgresses(run: Run, presence: Presence, last: int, now: int, seen: Seen)
    requires WellFormed(run) && run.status == AbortRequested && run.updatedAt <= last < now
    ensures var (run', presence') := AtomicStep(run, presence, now, seen);
            Progresses(run, presence, last, now, run', presence')
  {
    var gone := seen.(present := false);
    var c := AbortCommit(run, now, gone);
    if c.Some? { AbortKeepsWellFormed(gone, now, run, c.value); }
  }

  lemma VerifyProgresses(run: Run, presence: Presence, last: int, now: int, seen: Seen)
    requires WellFormed(run) && run.status == Verifying && run.updatedAt <= last < now && !Stuck(run, presence)
    ensures var (run', presence') := AtomicStep(run, presence, now, seen);
            Progresses(run, presence, last, now, run', presence')
  {
    var seen' := seen.(present := presence == Own);
    var c := VerifyCommit(run, now, seen');
    if c.Some? { VerifyKeepsWellFormed(seen', now, run, c.value); }
  }

  lemma AtomicStepProgresses(run: Run, presence: Presence, last: int, now: int, seen: Seen)
    requires WellFormed(run) && Active(run.status) && run.updatedAt <= last < now && !Stuck(run, presence)
    ensures var (run', presence') := AtomicStep(run, presence, now, seen);
            Progresses(run, presence, last, now, run', presence')
  {
    match run.status
    case ExecutionRequested => ExecutionProgresses(run, presence, last, now, seen);
    case Running => RunningProgresses(run, presence, last, now, seen);
    case CleanupRequested => CleanupProgresses(run, presence, last, now, seen);
    case AbortRequested => AbortProgresses(run, presence, last, now, seen);
    case Verifying => VerifyProgresses(run, presence, last, now, seen);
  }

  /** Whatever is seen at any later time, nothing changes. */
  ghost predicate StuckForever(run: Run, presence: Presence) {
    forall now, seen :: run.updatedAt < now ==> Idle(run, presence, now, seen)
  }

  predicate Idle(run: Run, presence: Presence, now: int, seen: Seen) {
    AtomicStep(run, presence, now, seen) == (run, presence)
  }

  /**
   * The exact condition, which a caller can check on the record and on the label of the object under its name: an
   * active run is stuck for good iff it is stalled or blocked.
   */
  lemma StuckIff(run: Run, presence: Presence)
    requires WellFormed(run) && Active(run.status)
    ensures Stuck(run, presence) <==> StuckForever(run, presence)
  {
    if Stuck(run, presence) {
      forall now, seen | run.updatedAt < now ensures Idle(run, presence, now, seen) {}
    } else if StuckForever(run, presence) {
      var now := run.updatedAt + FULL_MEASURE;
      var seen := Seen(presence == Own, true, Observation(true, false, ""), true);
      assert Idle(run, presence, now, seen);
      MovesOn(run, presence, now, seen);
    }
  }

  /** Once every deadline has passed, a run that is not stuck moves when all goes well. */
  lemma MovesOn(run: Run, presence: Presence, now: int, seen: Seen)
    requires WellFormed(run) && Active(run.status) && now == run.updatedAt + FULL_MEASURE && !Stuck(run, presence)
    requires seen == Seen(presence == Own, true, Observation(true, false, ""), true)
    ensures !Idle(run, presence, now, seen)
  {}

  /** After this many rounds the run has ended without a resource, or needs at most what is left of the full measure. */
  predicate OnTrack(run: Run, presence: Presence, clock: int, rounds: nat) {
    && WellFormed(run) && run.updatedAt <= clock && rounds + Measure(run, presence, clock) <= FULL_MEASURE
    && if Ended(run.status) then presence == Absent else Active(run.status) && !Stuck(run, presence)
  }

  lemma ProgressStaysOnTrack(run: Run, before: Presence, presence: Presence, last: int, now: int, clock: int, run': Run,
                             presence': Presence, rounds: nat)
    requires OnTrack(run, before, last, rounds) && Active(run.status) && last < now <= clock
    requires (presence == before || presence == Absent) && Progresses(run, presence, now - 1, now, run', presence')
    ensures OnTrack(run', presence', clock, rounds + 1)
  {
    LossShortens(run, before, last, now - 1);
    LossShortens(run', presence', now, clock);
  }

  lemma RoundStaysOnTrack(run: Run, before: Presence, presence: Presence, last: int, now: int, clock: int, seen: Seen,
                          rounds: nat)
    requires OnTrack(run, before, last, rounds) && Active(run.status) && last < now <= clock
    requires presence == before || presence == Absent
    ensures var (run', presence') := AtomicStep(run, presence, now, seen); OnTrack(run', presence', clock, rounds + 1)
  {
    AtomicStepProgresses(run, presence, now - 1, now, seen);
    var (run', presence') := AtomicStep(run, presence, now, seen);
    ProgressStaysOnTrack(run, before, presence, last, now, clock, run', presence', rounds);
  }

  /**
   * Reconciles one run until it ends. Time passes between two reconciles and the resource may vanish by itself; nobody
   * else acts, deletes take effect and a failed creation leaves nothing.
   */
  method ReconcileUntilEnded(manager: Manager, id: string) returns (rounds: nat)
    requires manager.Valid() && manager.alone && id in manager.store.runs && Active(manager.store.runs[id].status)
    requires !Stuck(manager.store.runs[id], PresenceOf(manager.objects, manager.store.runs[id]))
    modifies manager, manager.store
    ensures manager.Valid() && id in manager.store.runs && Ended(manager.store.runs[id].status)
    ensures old(manager.store.runs)[id].resource !in manager.objects
    ensures rounds <= FULL_MEASURE
  {
    rounds := 0;
    manager.StoredIsHeld(id);
    manager.HeldIsStored(manager.store.runs[id]);
    var run := manager.store.runs[id];
    MeasureIsBounded(run, PresenceOf(manager.objects, run), manager.clock);
    while !Ended(run.status)
      invariant manager.Valid() && manager.Holds(run) && manager.Current(run) && run.id == id
      invariant run.resource == old(manager.store.runs)[id].resource
      invariant OnTrack(run, PresenceOf(manager.objects, run), manager.clock, rounds)
      decreases FULL_MEASURE - rounds
    {
      run := ReconcileRound(manager, run, rounds);
      rounds := rounds + 1;
    }
  }

  method ReconcileRound(manager: Manager, run: Run, ghost rounds: nat) returns (run': Run)
    requires manager.Valid() && manager.alone && manager.Holds(run) && manager.Current(run) && !Ended(run.status)
    requires OnTrack(run, PresenceOf(manager.objects, run), manager.clock, rounds)
    modifies manager, manager.store
    ensures manager.Valid() && manager.Holds(run') && manager.Current(run')
    ensures run'.id == run.id && run'.resource == run.resource
    ensures OnTrack(run', PresenceOf(manager.objects, run'), manager.clock, rounds + 1)
  {
    ghost var before, last := PresenceOf(manager.objects, run), manager.clock;
    var vanished := *;
    Wait(manager, run, vanished);
    ghost var objects := manager.objects;
    var ok;
    ghost var now, seen;
    ok, now, seen := manager.ReconcileOne(run);
    RoundStaysOnTrack(run, before, PresenceOf(objects, run), last, now, manager.clock, seen, rounds);
    StepLeaves(run, objects, now, seen);
    run' := manager.store.runs[run.id];
    manager.StoredIsHeld(run.id);
  }

  /** The step tells what stands under the run's name afterwards. */
  lemma StepLeaves(run: Run, objects: map<Resource, Owner>, now: int, seen: Seen)
    ensures var (run', presence') := AtomicStep(run, PresenceOf(objects, run), now, seen);
            run'.id == run.id && run'.resource == run.resource
            && PresenceOf(Placed(objects, run, presence'), run') == presence'
  {}

  method Wait(manager: Manager, run: Run, vanished: bool)
    requires manager.Valid() && manager.Holds(run) && manager.Current(run)
    modifies manager`clock, manager`objects
    ensures manager.Valid() && manager.clock > old(manager.clock)
    ensures manager.objects == if vanished then old(manager.objects) - {run.resource} else old(manager.objects)
  {
    var now := manager.Now();
    manager.Tick();
    if vanished { manager.Removed(run.resource); }
  }
}
