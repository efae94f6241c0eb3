/**
 * Runs that name the same object: what one of them does to the object of another, exactly when, and what becomes of the
 * run that lost its object.
 */
module ChaosNeighbours {
  import opened Basics
  import opened ChaosModel
  import opened ChaosLaws
  import opened ChaosTrace
  import opened ChaosWorld
  import opened ChaosManager
  import opened ChaosTurns
  import opened ChaosTermination
  import opened ChaosHazards

  const SHARED := Resource("StressChaos", "n", "kubeathrix-cpu-stress")

  /**
   * Two runs of one experiment name the same resource. While the object of the first stands, the second can do nothing,
   * for as long as nobody else acts.
   */
  lemma SharedNameBlocks() returns (w: World, first: Run, second: Run)
    ensures Reach(EMPTY, w) && Newest(w.history, first) && Newest(w.history, second) && first.id != second.id
    ensures first.resource == second.resource && PresenceOf(w.objects, first) == Own
    ensures Active(second.status) && Blocked(second, PresenceOf(w.objects, second))
    ensures StuckForever(second, PresenceOf(w.objects, second))
  {
    EmptyFits();
    var w1, asked := Readying(EMPTY, "r", SHARED);
    var w2, acknowledged, k := Acknowledging(w1, asked);
    first := acknowledged;
    w, second := Readying(w2, "s", SHARED);
    MovedThrough(EMPTY, w1, w2);
    MovedThrough(EMPTY, w2, w);
    KnownFacts(w, second);
    StuckIff(second, PresenceOf(w.objects, second));
  }

  // ---- When a reconcile removes another owner's object ----

  predicate Deletes(run: Run) {
    run.status == CleanupRequested || run.status == AbortRequested
  }

  /**
   * The exact condition: an atomic step of a run changes the object of another owner iff the run is cleaning up or
   * aborting, and then it removes it.
   */
  lemma RemovesAnothersIff(objects: map<Resource, Owner>, run: Run, now: int, seen: Seen)
    requires PresenceOf(objects, run) == Other
    ensures var objects' := Placed(objects, run, AtomicStep(run, Other, now, seen).1);
            (objects' != objects <==> Deletes(run)) && (run.resource !in objects' <==> Deletes(run))
  {
    assert run.resource in objects && run.resource !in objects - {run.resource};
  }

  /** The same by the manager's own method, which leaves every other object alone in either case. */
  method ReconcileBesideAnother(manager: Manager, run: Run) returns (ok: bool)
    requires manager.Valid() && manager.alone && manager.Holds(run) && manager.Current(run) && Active(run.status)
    requires PresenceOf(manager.objects, run) == Other
    modifies manager, manager.store
    ensures manager.Valid() && (run.resource !in manager.objects <==> Deletes(run))
    ensures manager.objects == if Deletes(run) then old(manager.objects) - {run.resource} else old(manager.objects)
    ensures Moved(old(manager.Here()), manager.Here()) && run.id in manager.store.runs
    ensures manager.store.runs == old(manager.store.runs)[run.id := manager.store.runs[run.id]]
  {
    ghost var now, seen;
    ok, now, seen := manager.ReconcileOne(run);
    RemovesAnothersIff(old(manager.objects), run, now, seen);
  }

  // ---- What becomes of the run whose object was removed ----

  /** A running run whose object is gone is noted as failed iff it is reconciled before its end. */
  lemma LossIsNotedIff(hit: Run, now: int, seen: Seen)
    requires WellFormed(hit) && hit.status == Running
    ensures var (run', presence') := AtomicStep(hit, Absent, now, seen);
            presence' == Absent && run'.status == Verifying
            && (run'.failureReason.Some? <==> now < hit.startedAt.value + hit.duration)
  {}

  /**
   * So once its targets are healthy it ends as failed iff it was reconciled before its end; otherwise it is recorded as
   * succeeded, although its object may have been gone long before.
   */
  lemma LossEndsIn(hit: Run, now: int, seen: Seen, later: int, healthy: Seen)
    requires WellFormed(hit) && hit.status == Running && healthy.healthy
    ensures var (run', presence') := AtomicStep(hit, Absent, now, seen);
            AtomicStep(run', presence', later, healthy).0.status
            == if now < hit.startedAt.value + hit.duration then Failed else Succeeded
  {
    LossIsNotedIff(hit, now, seen);
  }

  /** One reconcile of the run that deletes, then one of the run that shared its name. */
  method DeleteTheNeighbour(manager: Manager, deleted: Run, hit: Run) returns (ghost later: int)
    requires manager.Valid() && manager.alone && manager.Holds(deleted) && manager.Current(deleted) && Deletes(deleted)
    requires manager.Holds(hit) && manager.Current(hit) && hit.status == Running
    requires deleted.id != hit.id && deleted.resource == hit.resource && PresenceOf(manager.objects, hit) == Own
    modifies manager, manager.store
    ensures manager.Valid() && hit.id in manager.store.runs && hit.resource !in manager.objects
    ensures hit.startedAt.Some? && old(manager.clock) <= later && manager.store.runs[hit.id].status == Verifying
    ensures manager.store.runs[hit.id].failureReason.Some? <==> later < hit.startedAt.value + hit.duration
  {
    var ok := ReconcileBesideAnother(manager, deleted);
    later := ReconcileTheNeighbour(manager, hit);
  }

  method ReconcileTheNeighbour(manager: Manager, hit: Run) returns (ghost now: int)
    requires manager.Valid() && manager.alone && manager.Holds(hit) && manager.Current(hit) && hit.status == Running
    requires hit.resource !in manager.objects
    modifies manager, manager.store
    ensures manager.Valid() && hit.id in manager.store.runs && hit.resource !in manager.objects
    ensures hit.startedAt.Some? && old(manager.clock) <= now && manager.store.runs[hit.id].status == Verifying
    ensures manager.store.runs[hit.id].failureReason.Some? <==> now < hit.startedAt.value + hit.duration
  {
    manager.HeldIsStored(hit);
    var ok;
    ghost var seen;
    ok, now, seen := manager.ReconcileOne(hit);
    LossIsNotedIff(hit, now, seen);
  }

  // ---- That all this happens ----

  /** An acknowledged resource is seen, and the mesh reports every target injected. */
  lemma Injecting(w: World, run: Run) returns (w': World, run': Run)
    requires Inv(w) && Newest(w.history, run) && Known(w.history, run) && run.updatedAt <= w.clock
    requires run.status == ExecutionRequested && run.injectionDeadline.Some? && PresenceOf(w.objects, run) == Own
    ensures Apart(w, w', run.id) && Newest(w'.history, run') && Known(w'.history, run') && w'.objects == w.objects
    ensures run'.id == run.id && run'.resource == run.resource && run'.status == Running && run'.updatedAt == w.clock
    ensures run'.startedAt == Some(w.clock) && run'.duration == run.duration
  {
    var report := Observation(true, false, "");
    var looked := Noting(w, run, Looked(true));
    var observed := Noting(looked, run, ObservedMesh(report));
    LoggedStays(looked.trace, observed.trace, run, Looked(true));
    w', run' := Saving(observed, run, ChaosModel.Reconcile(Seen(true, false, report, false)));
    MovedThrough(w, looked, observed);
    MovedThrough(w, observed, w');
  }

  /** A run that asked for execution is aborted. */
  lemma Aborting(w: World, run: Run) returns (w': World, run': Run)
    requires Inv(w) && Newest(w.history, run) && Known(w.history, run) && run.updatedAt <= w.clock
    requires run.status == ExecutionRequested
    ensures Apart(w, w', run.id) && Newest(w'.history, run') && Known(w'.history, run') && w'.objects == w.objects
    ensures run'.id == run.id && run'.resource == run.resource && run'.status == AbortRequested
  {
    w', run' := Saving(w, run, ChaosModel.Abort(User("b")));
  }

  /** A running run that owns its object, beside an aborted run of the same name: the abort will delete that object. */
  lemma NeighboursAreReachable() returns (w: World, hit: Run, deleted: Run)
    ensures Reach(EMPTY, w) && Moved(EMPTY, w) && Inv(w) && hit.id != deleted.id
    ensures Newest(w.history, hit) && Newest(w.history, deleted)
    ensures Known(w.history, hit) && Known(w.history, deleted) && hit.resource == deleted.resource
    ensures hit.status == Running && PresenceOf(w.objects, hit) == Own && deleted.status == AbortRequested
    ensures hit.updatedAt == w.clock && hit.startedAt == Some(w.clock) && hit.duration == 60
  {
    EmptyFits();
    var w1, asked := Readying(EMPTY, "r", SHARED);
    var w2, acknowledged, k := Acknowledging(w1, asked);
    var w3, running := Injecting(w2, acknowledged);
    hit := running;
    var w4, second := Readying(w3, "s", SHARED);
    w, deleted := Aborting(w4, second);
    MovedThrough(EMPTY, w1, w2);
    MovedThrough(EMPTY, w2, w3);
    MovedThrough(EMPTY, w3, w4);
    MovedThrough(EMPTY, w4, w);
  }

  /** The abort's delete is accepted, and the shared object is gone. */
  lemma Deleting(w: World, deleted: Run) returns (w': World)
    requires Inv(w) && Known(w.history, deleted) && deleted.status == AbortRequested
    ensures Inv(w') && Moved(w, w') && w'.history == w.history && w'.clock == w.clock
    ensures w'.objects == w.objects - {deleted.resource} && Logged(w'.trace, deleted, DeleteAccepted)
  {
    ActMoves(w, Remove(deleted.resource));
    var removed := Perform(w, Remove(deleted.resource));
    w' := Noting(removed, deleted, DeleteAccepted);
    MovedThrough(w, removed, w');
  }

  /** Nobody looks before the end; then a look finds nothing, and the record goes on to clean up. */
  lemma Ending(w: World, hit: Run) returns (w': World, run': Run)
    requires Inv(w) && Newest(w.history, hit) && Known(w.history, hit) && hit.status == Running
    requires hit.startedAt.Some? && hit.startedAt.value + hit.duration <= w.clock && hit.failureReason.None?
    requires hit.updatedAt <= w.clock && hit.resource !in w.objects
    ensures Apart(w, w', hit.id) && Newest(w'.history, run') && Known(w'.history, run') && w'.objects == w.objects
    ensures run'.id == hit.id && run'.resource == hit.resource && run'.status == CleanupRequested
    ensures run'.failureReason.None? && run'.updatedAt == w.clock
  {
    var looked := Noting(w, hit, Looked(false));
    w', run' := Saving(looked, hit, ChaosModel.Reconcile(NOTHING_SEEN));
    MovedThrough(w, looked, w');
  }

  /** Deleting what is gone is accepted, and the record goes on to verification. */
  lemma CleaningUp(w: World, run: Run) returns (w': World, run': Run)
    requires Inv(w) && Newest(w.history, run) && Known(w.history, run) && run.status == CleanupRequested
    requires run.failureReason.None? && run.updatedAt <= w.clock && run.resource !in w.objects
    ensures Apart(w, w', run.id) && Newest(w'.history, run') && Known(w'.history, run') && w'.objects == w.objects
    ensures run'.id == run.id && run'.resource == run.resource && run'.status == Verifying
    ensures run'.failureReason.None? && run'.updatedAt == w.clock
  {
    var accepted := Noting(w, run, DeleteAccepted);
    var looked := Noting(accepted, run, Looked(false));
    LoggedStays(accepted.trace, looked.trace, run, DeleteAccepted);
    w', run' := Saving(looked, run, ChaosModel.Reconcile(NOTHING_SEEN));
    MovedThrough(w, accepted, looked);
    MovedThrough(w, looked, w');
  }

  /** Healthy targets close it as succeeded. */
  lemma Succeeding(w: World, run: Run) returns (w': World, run': Run)
    requires Inv(w) && Newest(w.history, run) && Known(w.history, run) && run.status == Verifying
    requires run.failureReason.None? && run.updatedAt <= w.clock && run.resource !in w.objects
    ensures Apart(w, w', run.id) && Newest(w'.history, run')
    ensures run'.id == run.id && run'.resource == run.resource && run'.status == Succeeded
  {
    var looked := Noting(w, run, Looked(false));
    var checked := Noting(looked, run, CheckedPods(true));
    LoggedStays(looked.trace, checked.trace, run, Looked(false));
    w', run' := Saving(checked, run, ChaosModel.Reconcile(NOTHING_SEEN.(healthy := true)));
    MovedThrough(w, looked, checked);
    MovedThrough(w, checked, w');
  }

  /**
   * So a run can be recorded as succeeded although an aborted neighbour had its object deleted as soon as it was
   * running: `cut` is the world after that delete, still before the end of the run.
   */
  lemma SuccessWithoutItsObject() returns (cut: World, w: World, hit: Run, ended: Run)
    ensures Reach(EMPTY, cut) && Newest(cut.history, hit) && hit.status == Running && hit.resource !in cut.objects
    ensures hit.startedAt.Some? && cut.clock < hit.startedAt.value + hit.duration
    ensures Reach(cut, w) && Newest(w.history, ended) && ended.id == hit.id && ended.status == Succeeded
  {
    var w1, running, deleted := NeighboursAreReachable();
    hit := running;
    cut := Deleting(w1, deleted);
    MovedThrough(EMPTY, w1, cut);
    ActMoves(cut, Pass(60));
    var late := Perform(cut, Pass(60));
    KnownFacts(late, hit);
    var w2, cleaning := Ending(late, hit);
    var w3, verifying := CleaningUp(w2, cleaning);
    w, ended := Succeeding(w3, verifying);
    MovedThrough(cut, late, w2);
    MovedThrough(cut, w2, w3);
    MovedThrough(cut, w3, w);
  }
}
