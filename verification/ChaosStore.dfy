/** The versioned chaos run table: every commit is compare-and-swap on the version and writes one audit event. */
module ChaosStore {
  import opened Basics
  import opened ChaosModel

  datatype StoreError = Invalid | Conflict | NotFound | Unavailable

  datatype AuditEvent = AuditEvent(actor: Actor, event: Event, subject: string, message: Message, at: int)

  function AuditOf(c: Commit): AuditEvent {
    AuditEvent(c.actor, c.event, c.run.id, c.run.message, c.run.updatedAt)
  }

  /** The audit events about one run, in order. */
  function EventsFor(audit: seq<AuditEvent>, id: string): seq<AuditEvent> {
    if |audit| == 0 then []
    else
      var before, last := EventsFor(audit[..|audit| - 1], id), audit[|audit| - 1];
      if last.subject == id then before + [last] else before
  }

  function AuditTrail(history: seq<Commit>): (events: seq<AuditEvent>)
    ensures |events| == |history| && forall k :: 0 <= k < |history| ==> events[k] == AuditOf(history[k])
  {
    seq(|history|, k requires 0 <= k < |history| => AuditOf(history[k]))
  }

  lemma AuditAppends(audit: seq<AuditEvent>, e: AuditEvent, id: string)
    ensures EventsFor(audit + [e], id) == if e.subject == id then EventsFor(audit, id) + [e] else EventsFor(audit, id)
  {
    assert (audit + [e])[..|audit|] == audit;
  }

  predicate Numbered(history: seq<Commit>, id: string, k: nat)
    requires k < |history|
  {
    history[k].run.id == id && history[k].run.version == k + 1
  }

  /**
   * The stored record is the newest of all its versions, which are numbered from one, and the audit log holds exactly
   * one event per version.
   */
  ghost predicate RowFits(runs: map<string, Run>, history: map<string, seq<Commit>>, audit: seq<AuditEvent>,
                          id: string) {
    if id in runs then
      && id in history && |history[id]| > 0 && runs[id] == history[id][|history[id]| - 1].run
      && (forall k: nat :: k < |history[id]| ==> Numbered(history[id], id, k))
      && EventsFor(audit, id) == AuditTrail(history[id])
    else id !in history && EventsFor(audit, id) == []
  }

  ghost predicate ValidTable(runs: map<string, Run>, history: map<string, seq<Commit>>, audit: seq<AuditEvent>) {
    forall id :: RowFits(runs, history, audit, id)
  }

  function OldVersions(history: map<string, seq<Commit>>, id: string): seq<Commit> {
    if id in history then history[id] else []
  }

  /** Storing the next version of one record, with its audit event, keeps every row consistent. */
  lemma StoringKeepsTable(runs: map<string, Run>, history: map<string, seq<Commit>>, audit: seq<AuditEvent>, c: Commit)
    requires ValidTable(runs, history, audit) && c.run.version == |OldVersions(history, c.run.id)| + 1
    ensures ValidTable(runs[c.run.id := c.run], history[c.run.id := OldVersions(history, c.run.id) + [c]],
                       audit + [AuditOf(c)])
  {
    var runs', history' := runs[c.run.id := c.run], history[c.run.id := OldVersions(history, c.run.id) + [c]];
    forall id ensures RowFits(runs', history', audit + [AuditOf(c)], id) {
      assert RowFits(runs, history, audit, id);
      AuditAppends(audit, AuditOf(c), id);
      if id == c.run.id {
        assert AuditTrail(history'[id]) == AuditTrail(OldVersions(history, id)) + [AuditOf(c)];
        forall k: nat | k < |history'[id]| ensures Numbered(history'[id], id, k) {
          if k < |OldVersions(history, id)| { assert Numbered(history[id], id, k); }
        }
      }
    }
  }

  class Store {
    var runs: map<string, Run>
    var audit: seq<AuditEvent>
    /** Every version ever stored. The store itself keeps only the newest; this is the model's record of the past. */
    var history: map<string, seq<Commit>>

    ghost predicate Valid()
      reads this
    {
      ValidTable(runs, history, audit)
    }

    constructor ()
      ensures Valid() && runs == map[] && history == map[] && audit == []
    {
      runs, audit, history := map[], [], map[];
    }

    method CreateChaosRun(run: Run, actor: Actor, event: Event, reachable: bool) returns (r: Result<Run, StoreError>)
      requires Valid()
      modifies this
      ensures Valid()
      ensures r.Ok? <==> reachable && run.id != "" && run.version == 0 && run.id !in old(runs)
      ensures r == Err(Invalid) <==> reachable && (run.id == "" || run.version != 0)
      ensures r == Err(Conflict) <==> reachable && run.id != "" && run.version == 0 && run.id in old(runs)
      ensures r.Err? ==> runs == old(runs) && audit == old(audit) && history == old(history)
      ensures r.Ok? ==> r.value == run.(version := 1) && run.id !in old(history)
      ensures r.Ok? ==> runs == old(runs)[run.id := r.value]
      ensures r.Ok? ==> audit == old(audit) + [AuditOf(Commit(r.value, actor, event))]
      ensures r.Ok? ==> history == old(history)[run.id := [Commit(r.value, actor, event)]]
    {
      if !reachable { return Err(Unavailable); }
      if run.id == "" || run.version != 0 { return Err(Invalid); }
      if run.id in runs { return Err(Conflict); }
      var stored := run.(version := 1);
      assert RowFits(runs, history, audit, run.id);
      StoringKeepsTable(runs, history, audit, Commit(stored, actor, event));
      assert OldVersions(history, run.id) + [Commit(stored, actor, event)] == [Commit(stored, actor, event)];
      runs := runs[run.id := stored];
      history := history[run.id := [Commit(stored, actor, event)]];
      audit := audit + [AuditEvent(actor, event, run.id, stored.message, stored.updatedAt)];
      r := Ok(stored);
    }

    method GetChaosRun(id: string, reachable: bool) returns (r: Result<Run, StoreError>)
      requires Valid()
      ensures r.Ok? <==> reachable && id in runs
      ensures r.Ok? ==> r.value == runs[id] && r.value.id == id
      ensures r == Err(NotFound) <==> reachable && id !in runs
    {
      if !reachable { return Err(Unavailable); }
      if id !in runs { return Err(NotFound); }
      assert RowFits(runs, history, audit, id) && Numbered(history[id], id, |history[id]| - 1);
      r := Ok(runs[id]);
    }

    /** Compare-and-swap on the version. */
    method UpdateChaosRun(run: Run, expectedVersion: nat, actor: Actor, event: Event, reachable: bool)
      returns (r: Result<Run, StoreError>)
      requires Valid()
      modifies this
      ensures Valid()
      ensures r.Ok? <==> reachable && run.id in old(runs) && old(runs)[run.id].version == expectedVersion == run.version
      ensures r == Err(NotFound) <==> reachable && run.id !in old(runs)
      ensures r.Err? ==> runs == old(runs) && audit == old(audit) && history == old(history)
      ensures r.Ok? ==> r.value == run.(version := run.version + 1) && run.id in old(history)
      ensures r.Ok? ==> runs == old(runs)[run.id := r.value]
      ensures r.Ok? ==> audit == old(audit) + [AuditOf(Commit(r.value, actor, event))]
      ensures r.Ok? ==> history == old(history)[run.id := old(history)[run.id] + [Commit(r.value, actor, event)]]
    {
      if !reachable { return Err(Unavailable); }
      if run.id !in runs { return Err(NotFound); }
      if runs[run.id].version != expectedVersion || run.version != expectedVersion { return Err(Conflict); }
      var stored := run.(version := run.version + 1);
      assert RowFits(runs, history, audit, run.id) && Numbered(history[run.id], run.id, |history[run.id]| - 1);
      StoringKeepsTable(runs, history, audit, Commit(stored, actor, event));
      runs := runs[run.id := stored];
      history := history[run.id := history[run.id] + [Commit(stored, actor, event)]];
      audit := audit + [AuditEvent(actor, event, run.id, stored.message, stored.updatedAt)];
      r := Ok(stored);
    }
  }
}
