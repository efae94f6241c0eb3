/** What holds of Starts, labels and recovery checks in every world that any interleaving of acts can reach. */
module ChaosSafety {
  import opened Basics
  import opened ChaosModel
  import opened ChaosLaws
  import opened ChaosTrace
  import opened ChaosWorld

  /**
   * Every Start came from a stored execution request. Before it began, someone other than the requester had approved
   * the run and someone had asked for its execution, each after a look at the clock that found the approval window
   * still open.
   */
  lemma StartsAreApproved(w: World, k: nat) returns (approved: nat, executed: nat, a: nat, e: nat)
    requires Reach(EMPTY, w) && k < |w.trace| && w.trace[k].what == StartBegun
    ensures var run := w.trace[k].run;
            && Known(w.history, run) && run.status == ExecutionRequested && Logged(w.trace[..k], run, Looked(false))
            && (var history := w.history[run.id];
                && approved < executed < run.version && ApprovedAt(history, approved) && ExecutedAt(history, executed)
                && history[approved].run.approvedBy == run.approvedBy != run.requestedBy
                && a < k && w.trace[a].run == history[approved].run && w.trace[a].what == Saved
                && e < k && w.trace[e].run == history[executed].run && w.trace[e].what == Saved
                && ReadInWindow(w.trace[..a], history[approved - 1].run)
                && ReadInWindow(w.trace[..e], history[executed - 1].run))
  {
    ReachableWorlds(w);
    assert EntryFits(w, k);
    var run := w.trace[k].run;
    var history := w.history[run.id][..run.version];
    assert RowLegal(w, run.id);
    LegalPrefix(w.history[run.id], run.version);
    approved, executed, a, e := ApprovalsAreTimely(w.trace[..k], history, run.version - 1);
    RecordInvariants(history, run.version - 1);
    assert w.trace[..k][..a] == w.trace[..a] && w.trace[..k][..e] == w.trace[..e];
  }

  lemma LegalPrefix(history: seq<Commit>, n: nat)
    requires Legal(history) && 0 < n <= |history|
    ensures Legal(history[..n])
  {
    forall k | 0 < k < n ensures StepAt(history[..n], k) { assert StepAt(history, k); }
  }

  /**
   * An object with a run's label comes from a Start of that run under this very name, which had found nothing there.
   */
  lemma LabelsComeFromStarts(w: World, resource: Resource) returns (k: nat)
    requires Reach(EMPTY, w) && resource in w.objects && w.objects[resource].OwnedBy?
    ensures Began(w.trace, k, w.objects[resource].id, resource)
    ensures Known(w.history, w.trace[k].run) && w.trace[k].run.status == ExecutionRequested
    ensures Logged(w.trace[..k], w.trace[k].run, Looked(false))
  {
    ReachableWorlds(w);
    assert OwnerFits(w, resource);
    k :| Began(w.trace, k, w.objects[resource].id, resource);
    assert EntryFits(w, k);
  }

  lemma NoStartOf(w: World, run: Run, k: nat)
    requires Inv(w) && Newest(w.history, run) && NeverStarted(run) && k < |w.trace| && w.trace[k].what == StartBegun
    ensures w.trace[k].run.id != run.id
  {
    assert EntryFits(w, k);
    if w.trace[k].run.id == run.id {
      assert RowLegal(w, run.id);
      NeverStartedMeans(w.history[run.id], w.trace[k].run.version - 1);
    }
  }

  /** A run that was rejected, expired, or aborted without a recovery check was never started, and owns no object. */
  lemma NeverStartedOwnsNothing(w: World, run: Run)
    requires Reach(EMPTY, w) && Newest(w.history, run) && NeverStarted(run)
    ensures forall k :: 0 <= k < |w.trace| && w.trace[k].what == StartBegun ==> w.trace[k].run.id != run.id
    ensures forall resource :: resource in w.objects ==> w.objects[resource] != OwnedBy(run.id)
  {
    ReachableWorlds(w);
    forall k | 0 <= k < |w.trace| && w.trace[k].what == StartBegun ensures w.trace[k].run.id != run.id {
      NoStartOf(w, run, k);
    }
    forall resource | resource in w.objects ensures w.objects[resource] != OwnedBy(run.id) {
      if w.objects[resource] == OwnedBy(run.id) {
        var k := LabelsComeFromStarts(w, resource);
        NoStartOf(w, run, k);
      }
    }
  }

  /** An abort that ended after a recovery check deleted the resource, saw it gone, and saw the targets healthy. */
  lemma AbortMeans(trace: seq<Entry>, history: seq<Commit>) returns (e: nat)
    requires Legal(history) && Witnessed(trace, history)
    requires history[|history| - 1].run.status == Aborted && history[|history| - 1].run.recovery != NotChecked
    ensures |history| > 1 && history[|history| - 2].run.status == AbortRequested
    ensures IsEntry(trace, e, history[|history| - 1].run, Saved) && SawRecovery(trace[..e], history[|history| - 2].run)
    ensures Logged(trace[..e], history[|history| - 2].run, DeleteAccepted)
  {
    var last := |history| - 1;
    assert last > 0;
    RecordInvariants(history, last - 1);
    assert StepAt(history, last);
    AbortedStep(history[last - 1].run, history[last]);
    e := WitnessOf(trace, history, last);
    RecoveryEvidence(trace[..e], history[last - 1].run, history[last]);
  }

  lemma AbortedStep(before: Run, after: Commit)
    requires Follows(before, after) && before.recovery == NotChecked
    requires after.run.status == Aborted && after.run.recovery != NotChecked
    ensures before.status == AbortRequested && after.run.recovery == Healthy
  {
    var op, now :| StepBy(op, now, before, after);
  }
}
