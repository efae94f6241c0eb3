/** Runs of acts that lead to what a reader would not expect, and what causes them: late Starts and late stamps. */
module ChaosHazards {
  import opened Basics
  import opened ChaosModel
  import opened ChaosLaws
  import opened ChaosTrace
  import opened ChaosWorld
  import opened ChaosManager
  import opened ChaosTurns
  import opened ChaosTermination

  // ---- A Start that lands late ----

  lemma {:induction false} EntryWasNoted(w: World, worlds: seq<World>, acts: seq<Act>, w': World, k: nat, n: nat)
    returns (j: nat)
    requires Leads(w, worlds, acts, w') && k <= |acts| && |w.trace| <= n < |worlds[k].trace|
    requires worlds[k].trace[n].what != Saved
    ensures j < k && acts[j] == Note(worlds[k].trace[n].run, worlds[k].trace[n].what)
  {
    assert k > 0;
    assert ActAt(worlds, acts, k - 1);
    ActIsLater(worlds[k - 1], acts[k - 1]);
    if n < |worlds[k - 1].trace| {
      j := EntryWasNoted(w, worlds, acts, w', k - 1, n);
    } else {
      j := k - 1;
    }
  }

  /** Only the landing of a run's own Start makes its resource appear. */
  lemma {:induction false} OwnWasLanded(w: World, worlds: seq<World>, acts: seq<Act>, w': World, run: Run, j: nat,
                                        k: nat)
    returns (i: nat)
    requires Inv(w) && Leads(w, worlds, acts, w') && j <= k <= |acts|
    requires PresenceOf(worlds[j].objects, run) != Own && PresenceOf(worlds[k].objects, run) == Own
    ensures j <= i < k && acts[i].Land? && Began(worlds[i].trace, acts[i].k, run.id, run.resource)
  {
    assert ActAt(worlds, acts, k - 1);
    if PresenceOf(worlds[k - 1].objects, run) == Own {
      i := OwnWasLanded(w, worlds, acts, w', run, j, k - 1);
    } else {
      i := k - 1;
      RunKeepsInv(w, worlds, acts, w', i);
      assert FlightFits(worlds[i], acts[i].k);
    }
  }

  lemma VanishCommit(before: Run, now: int, seen: Seen, after: Commit)
    requires WellFormed(before) && ReconcileCommit(before, now, seen) == Some(after)
    requires after.run.status == Verifying && after.run.cleanupDeadline.None?
    ensures before.status == ExecutionRequested && before.injectionDeadline.Some? && !seen.present
  {}

  lemma VanishStep(trace: seq<Entry>, before: Run, after: Commit)
    requires WellFormed(before) && Justified(trace, before, after)
    requires after.run.status == Verifying && after.run.cleanupDeadline.None?
    ensures before.status == ExecutionRequested && before.injectionDeadline.Some?
    ensures Logged(trace, before, Looked(false))
  {
    var op, now :| StepBy(op, now, before, after) && Evidence(trace, before, op);
    VanishCommit(before, now, op.seen, after);
  }

  lemma StalledWasLost(w: World, run: Run) returns (before: Run, n: nat)
    requires Inv(w) && Newest(w.history, run) && run.status == Verifying && run.cleanupDeadline.None?
    ensures before.id == run.id && before.resource == run.resource
    ensures before.status == ExecutionRequested && before.injectionDeadline.Some?
    ensures n < |w.trace| && w.trace[n].run == before && w.trace[n].what == Looked(false)
  {
    var history := w.history[run.id];
    var last := |history| - 1;
    assert RowLegal(w, run.id);
    assert last > 0;
    before := history[last - 1].run;
    RecordInvariants(history, last - 1);
    RecordInvariants(history, last);
    var m := WitnessOf(w.trace, history, last);
    VanishStep(w.trace[..m], before, history[last]);
    n :| 0 <= n < m && IsEntry(w.trace[..m], n, before, Looked(false));
  }

  /**
   * Every stall has this cause: a caller looked and found the acknowledged resource missing, and after that look a
   * Start of this run, logged under its name, landed. Where no Start is in flight any more, a run cannot come to stall.
   */
  lemma StallsComeFromLateStarts(worlds: seq<World>, acts: seq<Act>, w: World, run: Run) returns (j: nat, i: nat)
    requires Leads(EMPTY, worlds, acts, w) && Newest(w.history, run) && Stalled(run, PresenceOf(w.objects, run))
    ensures j < i < |acts| && acts[j].Note? && acts[j].what == Looked(false) && acts[j].run.id == run.id
    ensures acts[j].run.status == ExecutionRequested && acts[j].run.injectionDeadline.Some?
    ensures acts[i].Land? && Began(worlds[i].trace, acts[i].k, run.id, run.resource)
  {
    EmptyFits();
    RunKeepsInv(EMPTY, worlds, acts, w, |acts|);
    var before, n := StalledWasLost(w, run);
    j := EntryWasNoted(EMPTY, worlds, acts, w, |acts|, n);
    assert ActAt(worlds, acts, j);
    i := OwnWasLanded(EMPTY, worlds, acts, w, run, j, |acts|);
  }

  // ---- Runs of acts ----

  lemma Noting(w: World, run: Run, what: What) returns (w': World)
    requires Inv(w) && Known(w.history, run) && Answers(w, run, what)
    ensures w' == Noted(w, run, what) && Inv(w') && Moved(w, w') && Logged(w'.trace, run, what)
  {
    w' := Noted(w, run, what);
    ActMoves(w, Note(run, what));
    assert IsEntry(w'.trace, |w.trace|, run, what);
  }

  lemma Saving(w: World, run: Run, op: Op) returns (w': World, run': Run)
    requires Inv(w) && MaySave(w, run, op, w.clock)
    ensures Next(op, run, w.clock).Some? && run' == Next(op, run, w.clock).value.run
    ensures w' == Stored(w, Next(op, run, w.clock).value) && Inv(w') && Moved(w, w')
    ensures Newest(w'.history, run') && Known(w'.history, run')
  {
    var c := Next(op, run, w.clock).value;
    w', run' := Stored(w, c), c.run;
    JustifiedByOp(w.trace, op, w.clock, run, c);
    SaveMoves(w, run, c);
  }

  /** Acts on the run `id` alone, and no time passes. */
  ghost predicate Apart(w: World, w': World, id: string) {
    && Inv(w') && Moved(w, w') && w'.clock == w.clock && w'.history.Keys <= w.history.Keys + {id}
    && forall run: Run :: run.id != id && Newest(w.history, run) ==> Newest(w'.history, run)
  }

  lemma ApartThrough(a: World, b: World, c: World, id: string)
    requires Apart(a, b, id) && Apart(b, c, id)
    ensures Apart(a, c, id)
  {
    MovedThrough(a, b, c);
  }

  lemma Asking(w: World, id: string, resource: Resource) returns (w': World, run: Run)
    requires Inv(w) && id !in w.history
    ensures Apart(w, w', id) && Newest(w'.history, run) && Known(w'.history, run)
    ensures w'.objects == w.objects
    ensures run == Requested(id, resource, User("a"), 60, true, w.clock).run
  {
    AskMoves(w, id, resource, User("a"), 60, true);
    var c := Requested(id, resource, User("a"), 60, true, w.clock);
    w', run := Stored(w, c), c.run;
  }

  /** One decision about a waiting run, after a look at the clock. */
  lemma Deciding(w: World, run: Run, op: Op) returns (w': World, run': Run)
    requires Inv(w) && Newest(w.history, run) && Known(w.history, run) && run.updatedAt <= w.clock
    requires (op.Approve? || op.Execute?) && op.checked == w.clock && Next(op, run, w.clock).Some?
    ensures run' == Next(op, run, w.clock).value.run && Newest(w'.history, run') && Known(w'.history, run')
    ensures Apart(w, w', run.id) && w'.objects == w.objects
  {
    var read := Noting(w, run, ClockRead);
    assert IsEntry(read.trace, |w.trace|, run, ClockRead);
    w', run' := Saving(read, run, op);
    MovedThrough(w, read, w');
  }

  /** A run can always be requested, approved by another, and asked to execute. */
  lemma Readying(w: World, id: string, resource: Resource) returns (w': World, run: Run)
    requires Inv(w) && id !in w.history
    ensures Apart(w, w', id) && Newest(w'.history, run) && Known(w'.history, run)
    ensures w'.objects == w.objects
    ensures run.id == id && run.resource == resource && run.status == ExecutionRequested && run.injectionDeadline.None?
    ensures run.updatedAt == w.clock && run.duration == 60
  {
    var w1, first := Asking(w, id, resource);
    var w2, second := Deciding(w1, first, ChaosModel.Approve(User("b"), w.clock));
    var w3, third := Deciding(w2, second, ChaosModel.Execute(User("b"), w.clock));
    ApartThrough(w, w1, w2, id);
    ApartThrough(w, w2, w3, id);
    w', run := w3, third;
  }

  /** A Start begins, and is in flight. */
  lemma Beginning(w: World, run: Run) returns (w': World, k: nat)
    requires Inv(w) && Known(w.history, run) && MayStart(w.trace, run)
    ensures Inv(w') && Moved(w, w') && MayStart(w'.trace, run) && Began(w'.trace, k, run.id, run.resource)
    ensures w' == Noted(w, run, StartBegun) && k == |w.trace| && w'.flying == w.flying + {k}
  {
    k := |w.trace|;
    w' := Noting(w, run, StartBegun);
    LoggedStays(w.trace, w'.trace, run, Looked(false));
  }

  /** It lands, and its caller is told so. */
  lemma Landing(w: World, run: Run, k: nat) returns (w': World)
    requires Inv(w) && Known(w.history, run) && run.resource !in w.objects
    requires k in w.flying && Began(w.trace, k, run.id, run.resource)
    ensures Inv(w') && Moved(w, w') && w.trace <= w'.trace && w'.history == w.history && w'.clock == w.clock
    ensures w'.objects == w.objects[run.resource := OwnedBy(run.id)] && w'.flying == w.flying - {k}
    ensures Logged(w'.trace, run, StartEnded(true))
  {
    ActMoves(w, Land(k));
    var landed := Perform(w, Land(k));
    w' := Noting(landed, run, StartEnded(true));
    MovedThrough(w, landed, w');
  }

  /**
   * Two callers look, find nothing and begin to create; `k` is the Start that is still in flight when the first is
   * done.
   */
  lemma StartingTwice(w: World, run: Run) returns (w': World, k: nat)
    requires Inv(w) && Newest(w.history, run) && Known(w.history, run) && run.resource !in w.objects
    requires run.status == ExecutionRequested && run.injectionDeadline.None?
    ensures Inv(w') && Moved(w, w') && w'.history == w.history && w'.clock == w.clock
    ensures w'.objects == w.objects[run.resource := OwnedBy(run.id)]
    ensures k in w'.flying && Began(w'.trace, k, run.id, run.resource)
    ensures Logged(w'.trace, run, Looked(false)) && Logged(w'.trace, run, StartEnded(true))
  {
    var looked := Noting(w, run, Looked(false));
    var once, k0 := Beginning(looked, run);
    var twice;
    twice, k := Beginning(once, run);
    MovedThrough(w, looked, once);
    MovedThrough(w, once, twice);
    w' := Landing(twice, run, k0);
    LoggedStays(twice.trace, w'.trace, run, Looked(false));
    MovedThrough(w, twice, w');
  }

  /** The first caller stores that its creation was acknowledged. */
  lemma Acknowledging(w: World, run: Run) returns (w': World, run': Run, k: nat)
    requires Inv(w) && Newest(w.history, run) && Known(w.history, run) && run.resource !in w.objects
    requires run.status == ExecutionRequested && run.injectionDeadline.None? && run.updatedAt <= w.clock
    ensures Apart(w, w', run.id) && Newest(w'.history, run') && Known(w'.history, run')
    ensures w'.objects == w.objects[run.resource := OwnedBy(run.id)]
    ensures k in w'.flying && Began(w'.trace, k, run.id, run.resource)
    ensures run'.id == run.id && run'.resource == run.resource && run'.status == ExecutionRequested
    ensures run'.injectionDeadline.Some? && run'.updatedAt == w.clock && run'.duration == run.duration
  {
    var started;
    started, k := StartingTwice(w, run);
    w', run' := Saving(started, run, ChaosModel.Reconcile(NOTHING_SEEN.(created := true)));
    MovedThrough(w, started, w');
  }

  /** The resource is deleted by a third party, and the loss is noticed. */
  lemma Losing(w: World, run: Run) returns (w': World, run': Run)
    requires Inv(w) && Newest(w.history, run) && Known(w.history, run) && run.updatedAt <= w.clock
    requires run.status == ExecutionRequested && run.injectionDeadline.Some?
    ensures Inv(w') && Moved(w, w') && Newest(w'.history, run') && w.trace <= w'.trace && w'.flying == w.flying
    ensures w'.objects == w.objects - {run.resource} && run'.resource == run.resource && run'.id == run.id
    ensures run'.status == Verifying && run'.cleanupDeadline == run.cleanupDeadline
  {
    ActMoves(w, Remove(run.resource));
    var removed := Perform(w, Remove(run.resource));
    var looked := Noting(removed, run, Looked(false));
    w', run' := Saving(looked, run, ChaosModel.Reconcile(NOTHING_SEEN));
    MovedThrough(w, removed, looked);
    MovedThrough(w, looked, w');
  }

  /** Only then does the second Start land. */
  lemma LosingThenLanding(w: World, run: Run, k: nat) returns (w': World, run': Run)
    requires Inv(w) && Newest(w.history, run) && Known(w.history, run) && run.updatedAt <= w.clock
    requires run.status == ExecutionRequested && run.injectionDeadline.Some?
    requires k in w.flying && Began(w.trace, k, run.id, run.resource)
    ensures Moved(w, w') && Newest(w'.history, run') && Stalled(run', PresenceOf(w'.objects, run'))
  {
    KnownFacts(w, run);
    var noticed;
    noticed, run' := Losing(w, run);
    ActMoves(noticed, Land(k));
    w' := Perform(noticed, Land(k));
    MovedThrough(w, noticed, w');
  }

  /** So a run can come to stall, with its resource in place under a logged Start. */
  lemma StallIsReachable() returns (w: World, run: Run)
    ensures Reach(EMPTY, w) && Newest(w.history, run) && Stalled(run, PresenceOf(w.objects, run))
    ensures StuckForever(run, PresenceOf(w.objects, run))
    ensures exists k: nat :: Began(w.trace, k, run.id, run.resource)
  {
    EmptyFits();
    var w1, asked := Readying(EMPTY, "r", Resource("StressChaos", "n", "kubeathrix-cpu-stress"));
    var w2, acknowledged, k := Acknowledging(w1, asked);
    w, run := LosingThenLanding(w2, acknowledged, k);
    MovedThrough(EMPTY, w1, w2);
    MovedThrough(EMPTY, w2, w);
    ReachableWorlds(w);
    var at := |w.history[run.id]| - 1;
    assert RowLegal(w, run.id);
    RecordInvariants(w.history[run.id], at);
    RecordInvariants(w.history[run.id], 0);
    StuckIff(run, PresenceOf(w.objects, run));
    assert OwnerFits(w, run.resource);
  }

  // ---- A late stamp ----

  /**
   * The clock is read once to check the approval window and once to stamp the record, so an approval can carry a time
   * after its expiry.
   */
  lemma LateStampIsReachable() returns (w: World, run: Run)
    ensures Reach(EMPTY, w) && Newest(w.history, run) && run.status == Approved
    ensures Passed(run.approvalExpiresAt, run.updatedAt)
  {
    EmptyFits();
    var w1, asked := Asking(EMPTY, "r", Resource("StressChaos", "n", "kubeathrix-cpu-stress"));
    var read := Noting(w1, asked, ClockRead);
    assert IsEntry(read.trace, |w1.trace|, asked, ClockRead);
    ActMoves(read, Pass(1000));
    var late := Perform(read, Pass(1000));
    w, run := Saving(late, asked, ChaosModel.Approve(User("b"), w1.clock));
    MovedThrough(EMPTY, w1, read);
    MovedThrough(EMPTY, read, late);
    MovedThrough(EMPTY, late, w);
  }
}
