/**
 * The chaos manager over the shared store and cluster. Between any two of its calls anybody may act; with `alone` set
 * nobody does, and the cluster's API does not fail.
 */
module ChaosManager {
  import opened Basics
  import opened ChaosModel
  import opened ChaosLaws
  import opened ChaosTrace
  import opened ChaosWorld
  import opened ChaosStore
  import opened ChaosTurns

  /** The version that `run` replaced. */
  function Replaced(history: map<string, seq<Commit>>, run: Run): Run
    requires Known(history, run)
  {
    if run.version >= 2 then history[run.id][run.version - 2].run else run
  }

  lemma ReplacedStays(w: World, w': World, run: Run)
    requires Inv(w) && Moved(w, w') && Known(w.history, run)
    ensures Known(w'.history, run) && Replaced(w'.history, run) == Replaced(w.history, run)
  {
    if run.version >= 2 {
      assert RowLegal(w, run.id);
      RecordInvariants(w.history[run.id], run.version - 2);
      assert Known(w.history, Replaced(w.history, run));
    }
  }

  /** From entry `from` on, the clock was read for this copy, no earlier than `earliest`, inside its approval window. */
  predicate InTime(trace: seq<Entry>, from: nat, run: Run, earliest: int, latest: int) {
    exists k :: from <= k < |trace| && IsEntry(trace, k, run, ClockRead)
                && earliest <= trace[k].at <= latest && trace[k].at < run.createdAt + APPROVAL_TTL
  }

  lemma InTimeSince(trace: seq<Entry>, from: nat, run: Run, earliest: int, latest: int, from': nat, earliest': int)
    requires InTime(trace, from, run, earliest, latest) && from' <= from && earliest' <= earliest
    ensures InTime(trace, from', run, earliest', latest)
  {}

  class Manager {
    const store: Store
    const executionEnabled: bool
    const alone: bool
    var clock: int
    var objects: map<Resource, Owner>
    /** The program keeps neither of these: what happened so far, and the Starts that may still land. */
    var trace: seq<Entry>
    var flying: set<nat>

    function Here(): World
      reads this, store
    {
      World(store.history, trace, objects, flying, clock)
    }

    ghost predicate Valid()
      reads this, store
    {
      store.Valid() && Inv(Here())
    }

    /** Whatever happened, it was a run of acts that anybody may do. */
    twostate predicate Progressed()
      reads this, store
    {
      Valid() && Moved(old(Here()), Here())
    }

    /** Nothing but the clock and the log moved. */
    twostate predicate Still()
      reads this, store
    {
      && store.runs == old(store.runs) && store.history == old(store.history) && store.audit == old(store.audit)
      && objects == old(objects)
    }

    predicate Current(run: Run)
      reads store
    {
      run.id in store.runs && store.runs[run.id] == run
    }

    ghost predicate Holds(run: Run)
      reads this, store
    {
      Known(store.history, run)
    }

    constructor (store: Store, executionEnabled: bool, alone: bool)
      requires store.Valid() && store.history == map[]
      ensures Valid() && this.store == store && Here() == EMPTY
      ensures this.executionEnabled == executionEnabled && this.alone == alone
    {
      this.store, this.executionEnabled, this.alone, clock := store, executionEnabled, alone, 0;
      objects, trace, flying := map[], [], {};
      new;
      EmptyFits();
    }

    lemma HeldIsStored(run: Run)
      requires Valid() && Holds(run)
      ensures run.id in store.runs && WellFormed(run) && run.updatedAt <= clock
      ensures run.version <= store.runs[run.id].version
      ensures store.runs[run.id].version == run.version ==> store.runs[run.id] == run
    {
      KnownFacts(Here(), run);
      assert RowFits(store.runs, store.history, store.audit, run.id);
      assert Numbered(store.history[run.id], run.id, |store.history[run.id]| - 1);
    }

    lemma HeldIsPast(run: Run)
      requires Valid() && Holds(run)
      ensures run.updatedAt <= clock
      ensures Waiting(run.status) ==> run.approvalExpiresAt == Some(run.createdAt + APPROVAL_TTL)
      ensures run.status == Running ==> run.startedAt.Some?
    {
      KnownFacts(Here(), run);
    }

    lemma CurrentIsNewest(run: Run)
      requires Valid() && Current(run)
      ensures Newest(store.history, run)
    {
      assert RowFits(store.runs, store.history, store.audit, run.id);
    }

    lemma NewestIsHeld(run: Run)
      requires Valid() && Newest(store.history, run)
      ensures Holds(run)
    {
      assert RowFits(store.runs, store.history, store.audit, run.id);
      assert Numbered(store.history[run.id], run.id, |store.history[run.id]| - 1);
    }

    lemma StoredIsHeld(id: string)
      requires Valid() && id in store.runs
      ensures Holds(store.runs[id]) && store.runs[id].id == id
    {
      assert RowFits(store.runs, store.history, store.audit, id);
      assert Numbered(store.history[id], id, |store.history[id]| - 1);
    }

    // ---- Single acts ----

    /** Time passes, then the clock is read. */
    method Now() returns (now: int)
      requires Valid()
      modifies `clock
      ensures Progressed() && Still() && trace == old(trace) && old(clock) <= now == clock
    {
      var elapsed: int := *;
      if elapsed < 0 { elapsed := 0; }
      ActMoves(Here(), Pass(elapsed));
      ghost var moved := Perform(Here(), Pass(elapsed));
      clock := clock + elapsed;
      assert Here() == moved;
      now := clock;
    }

    /** A second passes. */
    method Tick()
      requires Valid()
      modifies `clock
      ensures Progressed() && Still() && trace == old(trace) && clock == old(clock) + 1
    {
      ActMoves(Here(), Pass(1));
      ghost var moved := Perform(Here(), Pass(1));
      clock := clock + 1;
      assert Here() == moved;
    }

    /** An entry in the log. */
    method Log(run: Run, what: What)
      requires Valid() && Holds(run) && Answers(Here(), run, what)
      modifies `trace, `flying
      ensures Progressed() && Here() == Noted(old(Here()), run, what) && Logged(trace, run, what)
    {
      ActMoves(Here(), Note(run, what));
      ghost var moved := Perform(Here(), Note(run, what));
      if what == StartBegun { flying := flying + {|trace|}; }
      trace := trace + [Entry(clock, run, what)];
      assert Here() == moved;
      assert IsEntry(trace, |trace| - 1, run, what);
    }

    method Landed(k: nat)
      requires Valid() && Allowed(Here(), ChaosWorld.Land(k))
      modifies `objects, `flying
      ensures Progressed() && Here() == Perform(old(Here()), ChaosWorld.Land(k))
    {
      ActMoves(Here(), ChaosWorld.Land(k));
      ghost var moved := Perform(Here(), ChaosWorld.Land(k));
      objects := objects[trace[k].run.resource := OwnedBy(trace[k].run.id)];
      flying := flying - {k};
      assert Here() == moved;
    }

    method Dropped(k: nat)
      requires Valid() && k in flying
      modifies `flying
      ensures Progressed() && Here() == old(Here()).(flying := old(flying) - {k})
    {
      ActMoves(Here(), ChaosWorld.Drop(k));
      ghost var moved := Perform(Here(), ChaosWorld.Drop(k));
      flying := flying - {k};
      assert Here() == moved;
    }

    method Removed(resource: Resource)
      requires Valid()
      modifies `objects
      ensures Progressed() && Here() == old(Here()).(objects := old(objects) - {resource})
    {
      ActMoves(Here(), ChaosWorld.Remove(resource));
      ghost var moved := Perform(Here(), ChaosWorld.Remove(resource));
      objects := objects - {resource};
      assert Here() == moved;
    }

    method Occupied(resource: Resource)
      requires Valid() && resource !in objects
      modifies `objects
      ensures Progressed()
    {
      ActMoves(Here(), ChaosWorld.Occupy(resource));
      ghost var moved := Perform(Here(), ChaosWorld.Occupy(resource));
      objects := objects[resource := Foreign];
      assert Here() == moved;
    }

    /** UpdateChaosRun, and the entry that says when it happened. */
    method Replace(run: Run, next: Run, actor: Actor, event: Event, reachable: bool)
      returns (r: Result<Run, StoreError>)
      requires Valid() && Holds(run) && next.version == run.version && next.id == run.id
      modifies `trace, store
      ensures store.Valid() && (r.Err? ==> Here() == old(Here()))
      ensures r.Ok? ==> old(Newest(store.history, run)) && r.value == next.(version := run.version + 1)
      ensures r.Ok? ==> Here() == Stored(old(Here()), Commit(r.value, actor, event))
      ensures r.Ok? ==> store.runs == old(store.runs)[run.id := r.value]
      ensures reachable && old(Current(run)) ==> r.Ok?
    {
      HeldIsStored(run);
      if store.runs[run.id].version == run.version { CurrentIsNewest(run); }
      r := store.UpdateChaosRun(next, run.version, actor, event, reachable);
      if r.Ok? { trace := trace + [Entry(clock, r.value, Saved)]; }
    }

    /** A replacement that the log justifies. */
    method Swap(run: Run, next: Run, actor: Actor, event: Event, reachable: bool) returns (r: Result<Run, StoreError>)
      requires Valid() && Holds(run) && next.version == run.version && next.id == run.id && next.updatedAt <= clock
      requires Justified(trace, run, Commit(next.(version := run.version + 1), actor, event))
      modifies `trace, store
      ensures Progressed() && objects == old(objects)
      ensures r.Ok? ==> r.value == next.(version := run.version + 1) && Holds(r.value)
      ensures r.Ok? ==> store.runs == old(store.runs)[run.id := r.value]
      ensures reachable && old(Current(run)) ==> r.Ok?
    {
      ghost var first := Here();
      r := Replace(run, next, actor, event, reachable);
      if r.Ok? { SaveMoves(first, run, Commit(r.value, actor, event)); } else { MovedSelf(first); }
    }

    /** CreateChaosRun for a request. */
    method Insert(c: Commit, enabled: bool, reachable: bool) returns (r: Result<Run, StoreError>)
      requires Valid() && c.run.duration <= MAX_DURATION
      requires c == Requested(c.run.id, c.run.resource, c.actor, c.run.duration, enabled, clock)
      modifies `trace, store
      ensures Progressed() && objects == old(objects)
      ensures r.Ok? ==> r.value == c.run && Holds(r.value) && store.runs == old(store.runs)[c.run.id := c.run]
      ensures reachable && c.run.id != "" && c.run.id !in old(store.runs) ==> r.Ok?
    {
      ghost var first := Here();
      r := store.CreateChaosRun(c.run.(version := 0), c.actor, c.event, reachable);
      if r.Ok? {
        AskMoves(first, c.run.id, c.run.resource, c.actor, c.run.duration, enabled);
        trace := trace + [Entry(clock, r.value, Saved)];
        assert [] + [c] == [c];
        assert Here() == Stored(first, c);
      } else {
        assert Here() == first;
        MovedSelf(first);
      }
    }

    // ---- Everybody else ----

    /** Any acts of anybody. */
    method Interfere()
      requires Valid()
      modifies this, store
      ensures Progressed() && (alone ==> Still() && trace == old(trace) && clock == old(clock))
    {
      ghost var first := Here();
      MovedSelf(first);
      if alone { return; }
      var rounds: int := *;
      while rounds > 0
        invariant Valid() && Moved(first, Here())
      {
        ghost var middle := Here();
        OtherCaller();
        MovedThrough(first, middle, Here());
        rounds := rounds - 1;
      }
    }

    method OtherCaller()
      requires Valid()
      modifies this, store
      ensures Progressed()
    {
      var act: Act := *;
      MovedSelf(Here());
      if Allowed(Here(), act) {
        match act {
          case Pass(_) =>
            var now := Now();
          case Ask(id, resource, actor, duration, enabled) =>
            var r := Insert(Requested(id, resource, actor, duration, enabled, clock), enabled, true);
          case Save(before, op, now) => OtherSave(before, op, now);
          case Note(run, what) => Log(run, what);
          case Land(k) => Landed(k);
          case Drop(k) => Dropped(k);
          case Remove(resource) => Removed(resource);
          case Occupy(resource) => Occupied(resource);
        }
      }
    }

    method OtherSave(before: Run, op: Op, now: int)
      requires Valid() && MaySave(Here(), before, op, now)
      modifies `trace, store
      ensures Progressed()
    {
      var c := Next(op, before, now).value;
      JustifiedByOp(trace, op, now, before, c);
      NewestIsHeld(before);
      var r := Swap(before, c.run.(version := before.version), c.actor, c.event, true);
    }

    // ---- The store and the cluster as this caller reaches them ----

    method Read(id: string) returns (r: Result<Run, StoreError>)
      requires Valid()
      modifies this, store
      ensures Progressed() && (alone ==> Still())
      ensures r.Ok? ==> Holds(r.value) && r.value.id == id
      ensures alone ==> (r.Ok? <==> id in store.runs) && (r.Ok? ==> r.value == store.runs[id])
    {
      Interfere();
      var reachable := *;
      r := store.GetChaosRun(id, alone || reachable);
      if r.Ok? { StoredIsHeld(id); }
    }

    ghost function Before(run: Run): Run
      requires Holds(run)
      reads this, store
    {
      Replaced(store.history, run)
    }

    /** UpdateChaosRun with what `op` makes of a copy that may be stale by now. */
    method Save(run: Run, ghost op: Op, ghost now: int, next: Run, actor: Actor, event: Event)
      returns (r: Result<Run, StoreError>)
      requires Valid() && Holds(run) && run.updatedAt <= now <= clock && next.version == run.version
      requires Next(op, run, now) == Some(Commit(next.(version := run.version + 1), actor, event))
      requires Evidence(trace, run, op)
      modifies this, store
      ensures Progressed() && (alone ==> objects == old(objects))
      ensures r.Ok? ==> r.value == next.(version := run.version + 1) && Holds(r.value) && Before(r.value) == run
      ensures alone && old(Current(run)) ==> r.Ok? && store.runs == old(store.runs)[run.id := r.value]
    {
      ghost var first := Here();
      Interfere();
      ghost var middle := Here();
      JustifiedLater(first.trace, trace, op, now, run, Commit(next.(version := run.version + 1), actor, event));
      var reachable := *;
      r := Swap(run, next, actor, event, alone || reachable);
      ReplacedStays(middle, Here(), run);
      MovedThrough(first, middle, Here());
    }

    /** Reads the clock, to compare it with the approval window of this copy. */
    method ReadClock(run: Run) returns (now: int)
      requires Valid() && Holds(run)
      modifies `clock, `trace, `flying
      ensures Progressed() && Still() && old(clock) <= now == clock && ReadAt(trace, run, now)
      ensures InTime(trace, |old(trace)|, run, old(clock), now) || run.createdAt + APPROVAL_TTL <= now
    {
      ghost var first := Here();
      now := Now();
      ghost var middle := Here();
      Log(run, ClockRead);
      assert IsEntry(trace, |first.trace|, run, ClockRead);
      MovedThrough(first, middle, Here());
    }

    /** An object under the run's name that carries another label is an error. */
    method Exists(run: Run) returns (r: Result<bool, StoreError>)
      requires Valid() && Holds(run)
      modifies this, store
      ensures Progressed() && (r.Ok? ==> Logged(trace, run, Looked(r.value)))
      ensures alone ==> Still() && (r.Ok? <==> PresenceOf(objects, run) != Other)
      ensures alone && r.Ok? ==> (r.value <==> PresenceOf(objects, run) == Own)
    {
      ghost var first := Here();
      Interfere();
      ghost var middle := Here();
      var reachable := *;
      if !alone && !reachable { return Err(Unavailable); }
      var presence := PresenceOf(objects, run);
      if presence == Other { return Err(Unavailable); }
      r := Ok(presence == Own);
      Log(run, Looked(r.value));
      MovedThrough(first, middle, Here());
    }

    /**
     * Creates the resource, or finds that this run's own already stands there. A creation that is reported as failed
     * may land all the same, even much later; alone it leaves nothing.
     */
    method Start(run: Run) returns (created: bool)
      requires Valid() && Holds(run) && MayStart(trace, run)
      modifies this, store
      ensures Progressed() && Logged(trace, run, StartBegun) && Logged(trace, run, StartEnded(created))
      ensures alone ==> store.runs == old(store.runs)
      ensures alone && run.resource !in old(objects) ==>
                objects == if created then old(objects)[run.resource := OwnedBy(run.id)] else old(objects)
    {
      ghost var first := Here();
      Interfere();
      ghost var second := Here();
      LoggedStays(first.trace, trace, run, Looked(false));
      Log(run, StartBegun);
      MovedThrough(first, second, Here());
      ghost var third := Here();
      created := Create(run, |trace| - 1);
      LoggedStays(third.trace, trace, run, StartBegun);
      MovedThrough(first, third, Here());
    }

    method Create(run: Run, k: nat) returns (created: bool)
      requires Valid() && Holds(run) && k in flying && k < |trace| && trace[k].run == run
      modifies `objects, `flying, `trace
      ensures Progressed() && Logged(trace, run, StartEnded(created))
      ensures alone && run.resource !in old(objects) ==>
                objects == if created then old(objects)[run.resource := OwnedBy(run.id)] else old(objects)
    {
      ghost var first := Here();
      var lands := *;
      MovedSelf(first);
      if lands && run.resource !in objects { Landed(k); } else if alone { Dropped(k); }
      ghost var second := Here();
      var answered := *;
      created := PresenceOf(objects, run) == Own && (answered || alone);
      Log(run, StartEnded(created));
      MovedThrough(first, second, Here());
    }

    method Observe(run: Run) returns (r: Result<Observation, StoreError>)
      requires Valid() && Holds(run)
      modifies this, store
      ensures Progressed() && (r.Ok? ==> Logged(trace, run, ObservedMesh(r.value)))
      ensures alone ==> Still() && (r.Ok? <==> PresenceOf(objects, run) == Own)
    {
      ghost var first := Here();
      Interfere();
      ghost var middle := Here();
      var reachable, observation := *, *;
      if PresenceOf(objects, run) != Own || (!alone && !reachable) { return Err(Unavailable); }
      r := Ok(observation);
      Log(run, ObservedMesh(observation));
      MovedThrough(first, middle, Here());
    }

    /** Deletes by name: whatever stands there goes, whoever owns it. */
    method Delete(run: Run) returns (ok: bool)
      requires Valid() && Holds(run)
      modifies this, store
      ensures Progressed() && (ok ==> Logged(trace, run, DeleteAccepted))
      ensures alone ==> ok && store.runs == old(store.runs) && objects == old(objects) - {run.resource}
    {
      ghost var first := Here();
      Interfere();
      ghost var second := Here();
      var accepted, gone := *, *;
      MovedSelf(second);
      if alone || gone { Removed(run.resource); }
      ghost var third := Here();
      MovedThrough(first, second, third);
      ok := alone || accepted;
      if ok {
        Log(run, DeleteAccepted);
        MovedThrough(first, third, Here());
      }
    }

    method VerifyRecovery(run: Run) returns (r: Result<bool, StoreError>)
      requires Valid() && Holds(run)
      modifies this, store
      ensures Progressed() && (r.Ok? ==> Logged(trace, run, CheckedPods(r.value)))
      ensures alone ==> Still() && r.Ok?
    {
      ghost var first := Here();
      Interfere();
      ghost var middle := Here();
      var reachable, healthy := *, *;
      if !alone && !reachable { return Err(Unavailable); }
      r := Ok(healthy);
      Log(run, CheckedPods(healthy));
      MovedThrough(first, middle, Here());
    }

    // ---- Callers' requests ----

    /** `preflight` is the resource and the bounded duration found by validating the manifest, or the refusal. */
    method Request(id: string, preflight: Option<(Resource, nat)>, actor: Actor) returns (r: Result<Run, StoreError>)
      requires Valid() && (preflight.Some? ==> preflight.value.1 <= MAX_DURATION)
      modifies this, store
      ensures Progressed() && (preflight.None? ==> r.Err?)
      ensures r.Ok? ==> Holds(r.value) && r.value.id == id && r.value.requestedBy == actor && r.value.version == 1
      ensures r.Ok? ==> (r.value.resource, r.value.duration) == preflight.value
      ensures r.Ok? ==> r.value.status == if executionEnabled then PendingApproval else PreflightValidated
      ensures alone && preflight.Some? && id != "" && id !in old(store.runs) ==> r.Ok? && Current(r.value)
    {
      ghost var first := Here();
      MovedSelf(first);
      if preflight.None? { return Err(Invalid); }
      Interfere();
      ghost var second := Here();
      var now := Now();
      ghost var third := Here();
      MovedThrough(first, second, third);
      var reachable := *;
      var c := Requested(id, preflight.value.0, actor, preflight.value.1, executionEnabled, now);
      r := Insert(c, executionEnabled, alone || reachable);
      MovedThrough(first, third, Here());
    }

    /** `checked` is the reading at which the approval window was found closed. */
    method ExpireRun(run: Run, checked: int) returns (r: Result<Run, StoreError>)
      requires Valid() && Holds(run) && Waiting(run.status)
      requires Passed(run.approvalExpiresAt, checked) && checked <= clock && ReadAt(trace, run, checked)
      modifies this, store
      ensures Progressed()
      ensures r.Ok? ==> Holds(r.value) && r.value.id == run.id && r.value.status == Expired
      ensures alone && old(Current(run)) ==> r.Ok? && store.runs == old(store.runs)[run.id := r.value]
    {
      ghost var first := Here();
      HeldIsPast(run);
      var now := Now();
      ghost var middle := Here();
      var next := run.(status := Expired, message := Fixed(ApprovalLapsed), updatedAt := now, finishedAt := Some(now));
      r := Save(run, ChaosModel.Expire(checked), now, next, System, ApprovalLapsed);
      MovedThrough(first, middle, Here());
    }

    predicate InStatus(id: string, status: Status)
      reads store
    {
      id in store.runs && store.runs[id].status == status
    }

    /**
     * How Approve, Reject and Execute begin: read, check the status, and expire the run if its approval window closed.
     */
    method OpenRun(id: string, wanted: Status) returns (r: Result<Run, StoreError>, checked: int)
      requires Valid() && Waiting(wanted)
      modifies this, store
      ensures Progressed() && checked <= clock
      ensures r.Ok? ==> Holds(r.value) && r.value.id == id && r.value.status == wanted && r.value.updatedAt <= clock
      ensures r.Ok? ==> ReadAt(trace, r.value, checked) && !Passed(r.value.approvalExpiresAt, checked)
      ensures r.Ok? ==> InTime(trace, |old(trace)|, r.value, old(clock), checked)
      ensures alone && old(InStatus(id, wanted)) ==> (r.Ok? <==> checked < old(store.runs)[id].createdAt + 900)
      ensures alone && old(InStatus(id, wanted)) ==> r == Ok(old(store.runs)[id]) || InStatus(id, Expired)
      ensures alone && !old(InStatus(id, wanted)) ==> r.Err? && Still()
      ensures alone && r.Ok? ==> Current(r.value)
    {
      ghost var first := Here();
      var got := Read(id);
      ghost var second := Here();
      checked := clock;
      if got.Err? { return got, checked; }
      var run := got.value;
      HeldIsPast(run);
      if run.status != wanted { return Err(Conflict), checked; }
      r, checked := CheckWindow(run);
      MovedThrough(first, second, Here());
      if r.Ok? { InTimeSince(trace, |second.trace|, run, second.clock, checked, |first.trace|, first.clock); }
    }

    /** Expires the run if its approval window closed. */
    method CheckWindow(run: Run) returns (r: Result<Run, StoreError>, checked: int)
      requires Valid() && Holds(run) && Waiting(run.status)
      modifies this, store
      ensures Progressed() && checked <= clock && (r.Ok? ==> r.value == run && Still())
      ensures r.Ok? ==> ReadAt(trace, run, checked) && !Passed(run.approvalExpiresAt, checked)
      ensures r.Ok? ==> InTime(trace, |old(trace)|, run, old(clock), checked)
      ensures r.Ok? <==> checked < run.createdAt + 900
      ensures alone && old(Current(run)) ==> r.Ok? || InStatus(run.id, Expired)
    {
      ghost var first := Here();
      HeldIsPast(run);
      checked := ReadClock(run);
      ghost var middle := Here();
      if Passed(run.approvalExpiresAt, checked) {
        var expired := ExpireRun(run, checked);
        MovedThrough(first, middle, Here());
        return Err(if expired.Err? then expired.error else Conflict), checked;
      }
      r := Ok(run);
    }

    /** The clock was read for the version that `run` replaced, after entry `from`, and its approval window was open. */
    ghost predicate DecidedInTime(run: Run, from: nat, earliest: int)
      reads this, store
    {
      Holds(run) && InTime(trace, from, Before(run), earliest, run.updatedAt)
    }

    method Approve(id: string, actor: Actor, reason: string) returns (r: Result<Run, StoreError>)
      requires Valid()
      modifies this, store
      ensures Progressed()
      ensures r.Ok? ==> Holds(r.value) && r.value.id == id && r.value.status == Approved
                        && r.value.approvedBy == actor != r.value.requestedBy
      ensures r.Ok? ==> DecidedInTime(r.value, |old(trace)|, old(clock)) && Before(r.value).status == PendingApproval
      ensures alone && reason != "" && old(InStatus(id, PendingApproval) && store.runs[id].requestedBy != actor)
              ==> (r.Ok? && Current(r.value)) || InStatus(id, Expired)
    {
      ghost var first := Here();
      MovedSelf(first);
      if reason == "" { return Err(Invalid); }
      var got, checked := OpenRun(id, PendingApproval);
      if got.Err? { return got; }
      ghost var second := Here();
      if actor == got.value.requestedBy { return Err(Invalid); }
      r := SaveApproval(got.value, actor, checked);
      MovedThrough(first, second, Here());
      if r.Ok? { ReadBefore(r.value, second.trace, |first.trace|, first.clock, checked); }
    }

    method SaveApproval(run: Run, actor: Actor, checked: int) returns (r: Result<Run, StoreError>)
      requires Valid() && Holds(run) && run.status == PendingApproval && actor != run.requestedBy
      requires checked <= clock && ReadAt(trace, run, checked) && !Passed(run.approvalExpiresAt, checked)
      modifies this, store
      ensures Progressed() && (alone && old(Current(run)) ==> r.Ok? && Current(r.value))
      ensures r.Ok? ==> Holds(r.value) && r.value.id == run.id && r.value.requestedBy == run.requestedBy
      ensures r.Ok? ==> r.value.status == Approved && r.value.approvedBy == actor
      ensures r.Ok? ==> Before(r.value) == run && checked <= r.value.updatedAt
    {
      ghost var first := Here();
      HeldIsPast(run);
      var now := Now();
      ghost var middle := Here();
      var next := run.(status := Approved, approvedBy := actor, message := Fixed(ApprovalGiven), updatedAt := now);
      r := Save(run, ChaosModel.Approve(actor, checked), now, next, actor, ApprovalGiven);
      MovedThrough(first, middle, Here());
    }

    method Reject(id: string, actor: Actor, reason: string) returns (r: Result<Run, StoreError>)
      requires Valid()
      modifies this, store
      ensures Progressed()
      ensures r.Ok? ==> Holds(r.value) && r.value.id == id && r.value.status == Rejected
                        && r.value.approvedBy == actor != r.value.requestedBy
      ensures r.Ok? ==> DecidedInTime(r.value, |old(trace)|, old(clock)) && Before(r.value).status == PendingApproval
      ensures alone && reason != "" && old(InStatus(id, PendingApproval) && store.runs[id].requestedBy != actor)
              ==> (r.Ok? && Current(r.value)) || InStatus(id, Expired)
    {
      ghost var first := Here();
      MovedSelf(first);
      if reason == "" { return Err(Invalid); }
      var got, checked := OpenRun(id, PendingApproval);
      if got.Err? { return got; }
      ghost var second := Here();
      if actor == got.value.requestedBy { return Err(Invalid); }
      r := SaveRejection(got.value, actor, checked);
      MovedThrough(first, second, Here());
      if r.Ok? { ReadBefore(r.value, second.trace, |first.trace|, first.clock, checked); }
    }

    method SaveRejection(run: Run, actor: Actor, checked: int) returns (r: Result<Run, StoreError>)
      requires Valid() && Holds(run) && run.status == PendingApproval && actor != run.requestedBy
      requires checked <= clock && ReadAt(trace, run, checked) && !Passed(run.approvalExpiresAt, checked)
      modifies this, store
      ensures Progressed() && (alone && old(Current(run)) ==> r.Ok? && Current(r.value))
      ensures r.Ok? ==> Holds(r.value) && r.value.id == run.id && r.value.requestedBy == run.requestedBy
      ensures r.Ok? ==> r.value.status == Rejected && r.value.approvedBy == actor
      ensures r.Ok? ==> Before(r.value) == run && checked <= r.value.updatedAt
    {
      ghost var first := Here();
      HeldIsPast(run);
      var now := Now();
      ghost var middle := Here();
      var next := run.(status := Rejected, approvedBy := actor, message := Fixed(ApprovalRefused), updatedAt := now,
                       finishedAt := Some(now));
      r := Save(run, ChaosModel.Reject(actor, checked), now, next, actor, ApprovalRefused);
      MovedThrough(first, middle, Here());
    }

    /** A reading in the window stays one, whatever is logged later. */
    lemma ReadBefore(run: Run, earlier: seq<Entry>, from: nat, earliest: int, checked: int)
      requires Holds(run) && earlier <= trace && checked <= run.updatedAt
      requires InTime(earlier, from, Before(run), earliest, checked)
      ensures DecidedInTime(run, from, earliest)
    {
      var k :| from <= k < |earlier| && IsEntry(earlier, k, Before(run), ClockRead)
               && earliest <= earlier[k].at <= checked && earlier[k].at < Before(run).createdAt + APPROVAL_TTL;
      assert IsEntry(trace, k, Before(run), ClockRead);
    }

    // ---- The reconciler ----

    /** Commits what a reconcile decided. */
    method Settle(run: Run, now: int, ghost seen: Seen, next: Run, actor: Actor, event: Event)
      returns (r: Result<Run, StoreError>)
      requires Valid() && Holds(run) && run.updatedAt <= now <= clock && next.version == run.version
      requires ReconcileEvidence(trace, run, seen)
      requires ReconcileCommit(run, now, seen) == Some(Commit(next.(version := run.version + 1), actor, event))
      modifies this, store
      ensures Progressed() && (alone ==> objects == old(objects))
      ensures r.Ok? ==> r.value == next.(version := run.version + 1) && Holds(r.value) && Backed(run, now, seen)
      ensures alone && old(Current(run)) ==> r.Ok? && Current(r.value) && AsCommitted(run, now, seen)
    {
      r := Save(run, ChaosModel.Reconcile(seen), now, next, actor, event);
      ReconcileEvidenceStays(old(trace), trace, run, seen);
    }

    /** What was seen is logged, and what it asks for is stored. */
    ghost predicate Backed(run: Run, now: int, seen: Seen)
      reads this, store
    {
      && ReconcileEvidence(trace, run, seen)
      && (ReconcileCommit(run, now, seen).Some? ==> Holds(ReconcileCommit(run, now, seen).value.run))
    }

    /** The one record that changed is the one that `seen` asks to change. */
    twostate predicate AsCommitted(run: Run, now: int, seen: Seen)
      reads this, store
    {
      store.runs == old(store.runs)[run.id := After(run, ReconcileCommit(run, now, seen))]
    }

    /** What reconciling `run` alone leaves behind: its atomic step, and every other run untouched. */
    twostate predicate Stepped(run: Run, now: int, seen: Seen)
      reads this, store
    {
      var (run', presence') := AtomicStep(run, PresenceOf(old(objects), run), now, seen);
      store.runs == old(store.runs)[run.id := run'] && objects == Placed(old(objects), run, presence')
    }

    /** Alone, a reconcile takes the atomic step, and errs only while another owner's object is in its way. */
    twostate predicate Reconciled(run: Run, now: int, ok: bool, seen: Seen)
      reads this, store
    {
      Stepped(run, now, seen) && (ok <==> !Blocked(run, PresenceOf(old(objects), run)))
    }

    /** The atomic step is what the table says. */
    twostate lemma TurnsOut(new run: Run, new now: int, new ok: bool, new seen: Seen)
      requires WellFormed(run) && run.updatedAt <= now && Active(run.status) && Reconciled(run, now, ok, seen)
      ensures Turned(old(store.runs), old(objects), store.runs, objects, run, now, ok, seen)
      ensures WaitsForRecovery(old(objects), store.runs, objects, run, now, seen)
    {
      StepsAreTurns(run, PresenceOf(old(objects), run), now, seen);
    }

    method ReconcileExecution(run: Run, now: int) returns (ok: bool, ghost seen: Seen)
      requires Valid() && Holds(run) && run.updatedAt <= now <= clock && run.status == ExecutionRequested
      modifies this, store
      ensures Progressed() && (ok ==> Backed(run, now, seen))
      ensures alone && old(Current(run)) ==> Reconciled(run, now, ok, seen)
    {
      ghost var first := Here();
      var found := Exists(run);
      if found.Err? { return false, NOTHING_SEEN; }
      ghost var middle := Here();
      ok, seen := ReconcileFound(run, now, found.value);
      if alone { ExecutionSteps(run, PresenceOf(first.objects, run), now, seen); }
      MovedThrough(first, middle, Here());
    }

    /** The look succeeded. */
    method ReconcileFound(run: Run, now: int, present: bool) returns (ok: bool, ghost seen: Seen)
      requires Valid() && Holds(run) && run.updatedAt <= now <= clock && run.status == ExecutionRequested
      requires Logged(trace, run, Looked(present))
      requires alone ==> PresenceOf(objects, run) == if present then Own else Absent
      modifies this, store
      ensures Progressed() && (ok ==> Backed(run, now, seen)) && seen.present == present
      ensures alone && old(Current(run)) ==> ok && AsCommitted(run, now, seen)
      ensures alone ==> objects == if !present && run.injectionDeadline.None? && seen.created
                                   then old(objects)[run.resource := OwnedBy(run.id)] else old(objects)
    {
      seen := NOTHING_SEEN.(present := present);
      var r;
      if !present && run.injectionDeadline.Some? {
        var next := run.(status := Verifying, failureReason := Some(VanishedBeforeInjection),
                         message := Fixed(RecoveryAsked),
                         recoveryDeadline := Some(now + RECOVERY_WINDOW), updatedAt := now);
        r := Settle(run, now, seen, next, System, RecoveryAsked);
        ok := r.Ok?;
      } else if !present {
        ok, seen := ReconcileStart(run, now);
      } else if run.injectionDeadline.None? {
        var next := run.(message := Fixed(ResourceRecovered), injectionDeadline := Some(now + INJECTION_WINDOW),
                         updatedAt := now);
        r := Settle(run, now, seen, next, System, ResourceRecovered);
        ok := r.Ok?;
      } else {
        ok, seen := ReconcileInjection(run, now);
      }
    }

    method ReconcileStart(run: Run, now: int) returns (ok: bool, ghost seen: Seen)
      requires Valid() && Holds(run) && run.updatedAt <= now <= clock && Logged(trace, run, Looked(false))
      requires run.status == ExecutionRequested && run.injectionDeadline.None?
      modifies this, store
      ensures Progressed() && (ok ==> Backed(run, now, seen)) && !seen.present
      ensures alone && old(Current(run)) ==> ok && AsCommitted(run, now, seen)
      ensures alone && run.resource !in old(objects) ==>
                objects == if seen.created then old(objects)[run.resource := OwnedBy(run.id)] else old(objects)
    {
      ghost var first := Here();
      var created := Start(run);
      ghost var middle := Here();
      LoggedStays(first.trace, trace, run, Looked(false));
      seen := NOTHING_SEEN.(created := created);
      if created {
        var next := run.(message := Fixed(ResourceCreated), injectionDeadline := Some(now + INJECTION_WINDOW),
                         updatedAt := now);
        var r := Settle(run, now, seen, next, System, ResourceCreated);
        ok := r.Ok?;
      } else {
        ok := SaveAttempt(run, now, seen);
      }
      MovedThrough(first, middle, Here());
    }

    /** A failed creation is one attempt more, and the last one ends the run. */
    method SaveAttempt(run: Run, now: int, ghost seen: Seen) returns (ok: bool)
      requires Valid() && Holds(run) && run.updatedAt <= now <= clock && ReconcileEvidence(trace, run, seen)
      requires run.status == ExecutionRequested && run.injectionDeadline.None? && !seen.present && !seen.created
      modifies this, store
      ensures Progressed() && (ok ==> Backed(run, now, seen)) && (alone ==> objects == old(objects))
      ensures alone && old(Current(run)) ==> ok && AsCommitted(run, now, seen)
    {
      var next := run.(attempts := run.attempts + 1, updatedAt := now);
      var event := ExecutionRetried;
      if next.attempts >= MAX_ATTEMPTS {
        next := next.(status := Failed, finishedAt := Some(now));
        event := RunFailed;
      }
      var r := Settle(run, now, seen, next.(message := Fixed(event)), System, event);
      ok := r.Ok?;
    }

    method ReconcileInjection(run: Run, now: int) returns (ok: bool, ghost seen: Seen)
      requires Valid() && Holds(run) && run.updatedAt <= now <= clock && Logged(trace, run, Looked(true))
      requires run.status == ExecutionRequested && run.injectionDeadline.Some?
      modifies this, store
      ensures Progressed() && (ok ==> Backed(run, now, seen)) && seen.present && (alone ==> objects == old(objects))
      ensures alone && old(Current(run)) && PresenceOf(old(objects), run) == Own ==> ok && AsCommitted(run, now, seen)
    {
      ghost var first := Here();
      seen := NOTHING_SEEN.(present := true);
      var observed := Observe(run);
      if observed.Err? { return false, seen; }
      ghost var middle := Here();
      LoggedStays(first.trace, trace, run, Looked(true));
      var observation := observed.value;
      seen := seen.(observation := observation);
      if observation.injected {
        ok := SaveStart(run, now, seen);
      } else if now >= run.injectionDeadline.value {
        ok := GiveUp(run, now, observation, seen);
      } else if observation.text != "" && Observed(observation.text) != run.message {
        var next := run.(message := Observed(observation.text), updatedAt := now);
        var r := Settle(run, now, seen, next, System, InjectionPending);
        ok := r.Ok?;
      } else {
        return true, seen;
      }
      MovedThrough(first, middle, Here());
    }

    /** Every target was reported injected. */
    method SaveStart(run: Run, now: int, ghost seen: Seen) returns (ok: bool)
      requires Valid() && Holds(run) && run.updatedAt <= now <= clock && ReconcileEvidence(trace, run, seen)
      requires run.status == ExecutionRequested && run.injectionDeadline.Some? && seen.present
      requires seen.observation.injected
      modifies this, store
      ensures Progressed() && (ok ==> Backed(run, now, seen)) && (alone ==> objects == old(objects))
      ensures alone && old(Current(run)) ==> ok && AsCommitted(run, now, seen)
    {
      var cleanup := now + run.duration + CLEANUP_GRACE;
      var next := run.(status := Running, message := Fixed(ExecutionStarted), startedAt := Some(now),
                       cleanupDeadline := Some(cleanup), recoveryDeadline := Some(cleanup + RECOVERY_WINDOW),
                       updatedAt := now);
      var r := Settle(run, now, seen, next, System, ExecutionStarted);
      ok := r.Ok?;
    }

    /** The injection deadline passed first. */
    method GiveUp(run: Run, now: int, observation: Observation, ghost seen: Seen) returns (ok: bool)
      requires Valid() && Holds(run) && run.updatedAt <= now <= clock && ReconcileEvidence(trace, run, seen)
      requires run.status == ExecutionRequested && Passed(run.injectionDeadline, now)
      requires seen.present && seen.observation == observation && !observation.injected
      modifies this, store
      ensures Progressed() && (ok ==> Backed(run, now, seen)) && (alone ==> objects == old(objects))
      ensures alone && old(Current(run)) ==> ok && AsCommitted(run, now, seen)
    {
      var cleanup := now + CLEANUP_GRACE;
      var reason := NeverInjected;
      if observation.failed && observation.text != "" { reason := MeshReported(observation.text); }
      var next := run.(status := CleanupRequested, failureReason := Some(reason), message := Fixed(CleanupAsked),
                       cleanupDeadline := Some(cleanup), recoveryDeadline := Some(cleanup + RECOVERY_WINDOW),
                       updatedAt := now);
      var r := Settle(run, now, seen, next, System, CleanupAsked);
      ok := r.Ok?;
    }

    method ReconcileCleanup(run: Run, now: int) returns (ok: bool, ghost seen: Seen)
      requires Valid() && Holds(run) && run.updatedAt <= now <= clock && run.status == CleanupRequested
      modifies this, store
      ensures Progressed() && (ok ==> Backed(run, now, seen))
      ensures alone ==> !seen.present && objects == old(objects) - {run.resource}
      ensures alone && old(Current(run)) ==> ok && AsCommitted(run, now, seen)
    {
      ghost var first := Here();
      seen := NOTHING_SEEN;
      var deleted := Delete(run);
      if !deleted { return false, seen; }
      ghost var second := Here();
      var found := Exists(run);
      ghost var third := Here();
      MovedThrough(first, second, third);
      if found.Err? { return false, seen; }
      seen := seen.(present := found.value);
      LoggedStays(second.trace, trace, run, DeleteAccepted);
      if found.value { return true, seen; }
      var next := run.(status := Verifying, message := Fixed(CleanupCompleted), updatedAt := now);
      var r := Settle(run, now, seen, next, System, CleanupCompleted);
      ok := r.Ok?;
      MovedThrough(first, third, Here());
    }

    method ReconcileRunning(run: Run, now: int) returns (ok: bool, ghost seen: Seen)
      requires Valid() && Holds(run) && run.updatedAt <= now <= clock && run.status == Running
      modifies this, store
      ensures Progressed() && (ok ==> Backed(run, now, seen))
      ensures alone && old(Current(run)) ==> Reconciled(run, now, ok, seen)
    {
      seen := NOTHING_SEEN;
      if run.startedAt.None? {
        ok := FailRunning(run, now, seen);
      } else {
        ok, seen := ReconcileStarted(run, now);
      }
    }

    method ReconcileStarted(run: Run, now: int) returns (ok: bool, ghost seen: Seen)
      requires Valid() && Holds(run) && run.updatedAt <= now <= clock && run.status == Running && run.startedAt.Some?
      modifies this, store
      ensures Progressed() && (ok ==> Backed(run, now, seen))
      ensures alone && old(Current(run)) ==> Reconciled(run, now, ok, seen)
    {
      ghost var first := Here();
      seen := NOTHING_SEEN;
      var found := Exists(run);
      if found.Err? { return false, seen; }
      ghost var middle := Here();
      seen := seen.(present := found.value);
      ok := RunningFound(run, now, found.value, seen);
      if alone { RunningSteps(run, PresenceOf(first.objects, run), now, seen); }
      MovedThrough(first, middle, Here());
    }

    /** The look succeeded. */
    method RunningFound(run: Run, now: int, present: bool, ghost seen: Seen) returns (ok: bool)
      requires Valid() && Holds(run) && run.updatedAt <= now <= clock && ReconcileEvidence(trace, run, seen)
      requires run.status == Running && run.startedAt.Some? && seen.present == present
      modifies this, store
      ensures Progressed() && (ok ==> Backed(run, now, seen))
      ensures alone && old(Current(run)) ==>
                if now < run.startedAt.value + run.duration
                then ok && AsCommitted(run, now, seen) && objects == old(objects)
                else ok && store.runs == old(store.runs)[run.id := Finished(run, now)]
                     && objects == old(objects) - {run.resource}
    {
      if now < run.startedAt.value + run.duration {
        ok := KeepRunning(run, now, present, seen);
      } else {
        ok := FinishRunning(run, now, seen);
      }
    }

    method FailRunning(run: Run, now: int, ghost seen: Seen) returns (ok: bool)
      requires Valid() && Holds(run) && run.updatedAt <= now <= clock && run.status == Running && run.startedAt.None?
      modifies this, store
      ensures Progressed() && (ok ==> Backed(run, now, seen))
      ensures alone && old(Current(run)) ==> Reconciled(run, now, ok, seen)
    {
      var next := run.(status := Failed, message := Fixed(RunFailed), updatedAt := now, finishedAt := Some(now));
      var r := Settle(run, now, seen, next, System, RunFailed);
      ok := r.Ok?;
    }

    /** The bounded duration is not over, so the resource must still be there. */
    method KeepRunning(run: Run, now: int, present: bool, ghost seen: Seen) returns (ok: bool)
      requires Valid() && Holds(run) && run.updatedAt <= now <= clock && ReconcileEvidence(trace, run, seen)
      requires run.status == Running && run.startedAt.Some? && now < run.startedAt.value + run.duration
      requires seen.present == present
      modifies this, store
      ensures Progressed() && (ok ==> Backed(run, now, seen)) && (alone ==> objects == old(objects))
      ensures alone && old(Current(run)) ==> ok && AsCommitted(run, now, seen)
    {
      MovedSelf(Here());
      if present { return true; }
      var next := run.(status := Verifying, failureReason := Some(VanishedEarly), message := Fixed(RecoveryAsked),
                       recoveryDeadline := Some(now + RECOVERY_WINDOW), updatedAt := now);
      var r := Settle(run, now, seen, next, System, RecoveryAsked);
      ok := r.Ok?;
    }

    /** The bounded duration is over: ask for clean-up, then fall through to it. */
    method FinishRunning(run: Run, now: int, ghost seen: Seen) returns (ok: bool)
      requires Valid() && Holds(run) && run.updatedAt <= now <= clock && ReconcileEvidence(trace, run, seen)
      requires run.status == Running && run.startedAt.Some? && run.startedAt.value + run.duration <= now
      modifies this, store
      ensures Progressed() && (ok ==> Backed(run, now, seen))
      ensures alone && old(Current(run)) ==> ok && objects == old(objects) - {run.resource}
      ensures alone && old(Current(run)) ==> store.runs == old(store.runs)[run.id := Finished(run, now)]
    {
      ghost var first := Here();
      var next := run.(status := CleanupRequested, message := Fixed(CleanupAsked), updatedAt := now);
      var r := Settle(run, now, seen, next, System, CleanupAsked);
      if r.Err? { return false; }
      ghost var middle := Here();
      ghost var cleaned;
      ok, cleaned := ReconcileCleanup(r.value, now);
      ReconcileEvidenceStays(middle.trace, trace, run, seen);
      MovedThrough(first, middle, Here());
    }

    method ReconcileAbort(run: Run, now: int) returns (ok: bool, ghost seen: Seen)
      requires Valid() && Holds(run) && run.updatedAt <= now <= clock && run.status == AbortRequested
      modifies this, store
      ensures Progressed() && (ok ==> Backed(run, now, seen))
      ensures alone ==> !seen.present && objects == old(objects) - {run.resource}
      ensures alone && old(Current(run)) ==> ok && AsCommitted(run, now, seen)
    {
      ghost var first := Here();
      seen := NOTHING_SEEN;
      var deleted := Delete(run);
      if !deleted { return false, seen; }
      ghost var second := Here();
      var found := Exists(run);
      ghost var third := Here();
      MovedThrough(first, second, third);
      if found.Err? { return false, seen; }
      seen := seen.(present := found.value);
      LoggedStays(second.trace, trace, run, DeleteAccepted);
      if found.value { return true, seen; }
      ok, seen := FinishAbort(run, now);
      MovedThrough(first, third, Here());
    }

    method FinishAbort(run: Run, now: int) returns (ok: bool, ghost seen: Seen)
      requires Valid() && Holds(run) && run.updatedAt <= now <= clock && run.status == AbortRequested
      requires Logged(trace, run, DeleteAccepted) && Logged(trace, run, Looked(false))
      modifies this, store
      ensures Progressed() && (ok ==> Backed(run, now, seen)) && !seen.present && (alone ==> objects == old(objects))
      ensures alone && old(Current(run)) ==> ok && AsCommitted(run, now, seen)
    {
      ghost var first := Here();
      seen := NOTHING_SEEN;
      var recovered := VerifyRecovery(run);
      if recovered.Err? { return false, seen; }
      ghost var middle := Here();
      LoggedStays(first.trace, trace, run, DeleteAccepted);
      LoggedStays(first.trace, trace, run, Looked(false));
      seen := seen.(healthy := recovered.value);
      if !recovered.value && !Passed(run.recoveryDeadline, now) { return true, seen; }
      var next := run.(status := Failed, recovery := Unhealthy, message := Fixed(RunFailed), updatedAt := now,
                       finishedAt := Some(now));
      var event := RunFailed;
      if recovered.value {
        next := run.(status := Aborted, recovery := Healthy, message := Fixed(AbortDone), updatedAt := now,
                     finishedAt := Some(now));
        event := AbortDone;
      }
      var r := Settle(run, now, seen, next, run.abortedBy, event);
      ok := r.Ok?;
      MovedThrough(first, middle, Here());
    }

    method ReconcileVerifying(run: Run, now: int) returns (ok: bool, ghost seen: Seen)
      requires Valid() && Holds(run) && run.updatedAt <= now <= clock && run.status == Verifying
      modifies this, store
      ensures Progressed() && (ok ==> Backed(run, now, seen))
      ensures alone && old(Current(run)) ==> Reconciled(run, now, ok, seen)
    {
      ghost var first := Here();
      seen := NOTHING_SEEN;
      var found := Exists(run);
      if found.Err? { return false, seen; }
      ghost var middle := Here();
      if found.value {
        ok, seen := StillThere(run, now);
      } else {
        ok, seen := FinishVerifying(run, now);
      }
      if alone { VerifyingSteps(run, PresenceOf(first.objects, run), now, seen); }
      MovedThrough(first, middle, Here());
    }

    /** The resource outlived its clean-up: it is deleted again once the clean-up deadline has passed. */
    method StillThere(run: Run, now: int) returns (ok: bool, ghost seen: Seen)
      requires Valid() && Holds(run) && run.updatedAt <= now <= clock && run.status == Verifying
      requires Logged(trace, run, Looked(true))
      modifies this, store
      ensures Progressed() && (ok ==> Backed(run, now, seen)) && seen.present
      ensures alone && old(Current(run)) ==> ok && AsCommitted(run, now, seen)
      ensures alone ==>
                objects == if Passed(run.cleanupDeadline, now) then old(objects) - {run.resource} else old(objects)
    {
      MovedSelf(Here());
      seen := NOTHING_SEEN.(present := true);
      ok := true;
      if Passed(run.cleanupDeadline, now) {
        ok := Delete(run);
        LoggedStays(old(trace), trace, run, Looked(true));
      }
    }

    method FinishVerifying(run: Run, now: int) returns (ok: bool, ghost seen: Seen)
      requires Valid() && Holds(run) && run.updatedAt <= now <= clock && run.status == Verifying
      requires Logged(trace, run, Looked(false))
      modifies this, store
      ensures Progressed() && (ok ==> Backed(run, now, seen)) && !seen.present && (alone ==> objects == old(objects))
      ensures alone && old(Current(run)) ==> ok && AsCommitted(run, now, seen)
    {
      ghost var first := Here();
      seen := NOTHING_SEEN;
      var recovered := VerifyRecovery(run);
      if recovered.Err? { return false, seen; }
      ghost var middle := Here();
      LoggedStays(first.trace, trace, run, Looked(false));
      seen := seen.(healthy := recovered.value);
      if !recovered.value && !Passed(run.recoveryDeadline, now) { return true, seen; }
      var next := run.(status := Failed, recovery := Unhealthy, updatedAt := now, finishedAt := Some(now));
      var event := RunFailed;
      if recovered.value {
        next := next.(recovery := Healthy);
        if run.failureReason.None? {
          next := next.(status := Succeeded);
          event := RunSucceeded;
        }
      }
      var r := Settle(run, now, seen, next.(message := Fixed(event)), System, event);
      ok := r.Ok?;
      MovedThrough(first, middle, Here());
    }

    /** reconcileOne: expire a pending approval, or move an active run one step on. */
    method ReconcileOne(run: Run) returns (ok: bool, ghost now: int, ghost seen: Seen)
      requires Valid() && Holds(run)
      modifies this, store
      ensures Progressed() && old(clock) <= now <= clock
      ensures ok && Active(run.status) ==> Backed(run, now, seen)
      ensures alone && old(Current(run)) && Active(run.status) ==> Reconciled(run, now, ok, seen)
      ensures alone && old(Current(run)) && Active(run.status) ==>
                Turned(old(store.runs), old(objects), store.runs, objects, run, now, ok, seen)
      ensures alone && old(Current(run)) && Active(run.status) ==>
                WaitsForRecovery(old(objects), store.runs, objects, run, now, seen)
      ensures alone && old(Current(run)) && run.status == PendingApproval ==>
                ok && if now < run.createdAt + 900 then store.runs == old(store.runs) else InStatus(run.id, Expired)
    {
      ghost var first := Here();
      HeldIsPast(run);
      HeldIsStored(run);
      seen := NOTHING_SEEN;
      if run.status == PendingApproval {
        var at := ReadClock(run);
        now := at;
        ghost var middle := Here();
        ok := true;
        if Passed(run.approvalExpiresAt, at) {
          var r := ExpireRun(run, at);
          ok := r.Ok?;
          MovedThrough(first, middle, Here());
        }
      } else {
        var at := Now();
        now := at;
        ghost var middle := Here();
        ok, seen := ReconcileActive(run, at);
        MovedThrough(first, middle, Here());
      }
    }

    method ReconcileActive(run: Run, now: int) returns (ok: bool, ghost seen: Seen)
      requires Valid() && Holds(run) && run.updatedAt <= now <= clock
      modifies this, store
      ensures Progressed() && (ok && Active(run.status) ==> Backed(run, now, seen))
      ensures alone && old(Current(run)) && Active(run.status) ==> Reconciled(run, now, ok, seen)
      ensures alone && old(Current(run)) && Active(run.status) ==>
                Turned(old(store.runs), old(objects), store.runs, objects, run, now, ok, seen)
      ensures alone && old(Current(run)) && Active(run.status) ==>
                WaitsForRecovery(old(objects), store.runs, objects, run, now, seen)
    {
      HeldIsStored(run);
      ok, seen := ReconcileStatus(run, now);
      if alone && old(Current(run)) && Active(run.status) { TurnsOut(run, now, ok, seen); }
    }

    method ReconcileStatus(run: Run, now: int) returns (ok: bool, ghost seen: Seen)
      requires Valid() && Holds(run) && run.updatedAt <= now <= clock
      modifies this, store
      ensures Progressed() && (ok && Active(run.status) ==> Backed(run, now, seen))
      ensures alone && old(Current(run)) && Active(run.status) ==> Reconciled(run, now, ok, seen)
    {
      ghost var first := Here();
      MovedSelf(first);
      match run.status
      case ExecutionRequested => ok, seen := ReconcileExecution(run, now);
      case Running => ok, seen := ReconcileRunning(run, now);
      case CleanupRequested =>
        ok, seen := ReconcileCleanup(run, now);
        if alone { DeletingSteps(run, PresenceOf(first.objects, run), now, seen); }
      case AbortRequested =>
        ok, seen := ReconcileAbort(run, now);
        if alone { DeletingSteps(run, PresenceOf(first.objects, run), now, seen); }
      case Verifying => ok, seen := ReconcileVerifying(run, now);
      case _ => ok, seen := true, NOTHING_SEEN;
    }

    method ReconcileAndRead(run: Run) returns (r: Result<Run, StoreError>, ghost now: int, ghost seen: Seen)
      requires Valid() && Holds(run)
      modifies this, store
      ensures Progressed() && old(clock) <= now <= clock
      ensures r.Ok? ==> Holds(r.value) && r.value.id == run.id
      ensures r.Ok? && Active(run.status) ==> Backed(run, now, seen)
      ensures alone && old(Current(run)) && Active(run.status) ==> Reconciled(run, now, r.Ok?, seen)
      ensures alone && old(Current(run)) && Active(run.status) ==>
                Turned(old(store.runs), old(objects), store.runs, objects, run, now, r.Ok?, seen)
      ensures alone && old(Current(run)) && Active(run.status) ==>
                WaitsForRecovery(old(objects), store.runs, objects, run, now, seen)
      ensures alone && r.Ok? ==> Current(r.value)
    {
      ghost var first := Here();
      var ok;
      ok, now, seen := ReconcileOne(run);
      ghost var middle := Here();
      if !ok { return Err(Unavailable), now, seen; }
      r := Read(run.id);
      MovedThrough(first, middle, Here());
      if Active(run.status) { ReconcileEvidenceStays(middle.trace, trace, run, seen); }
    }

    /** `requested` is the record whose commit asked for execution; it is reconciled at once. */
    method Execute(id: string, actor: Actor)
      returns (r: Result<Run, StoreError>, ghost requested: Option<Run>, ghost now: int, ghost seen: Seen)
      requires Valid()
      modifies this, store
      ensures Progressed() && (r.Ok? ==> requested.Some? && Holds(r.value) && r.value.id == id)
      ensures requested.Some? ==>
                executionEnabled && requested.value.id == id && requested.value.status == ExecutionRequested
      ensures requested.Some? ==> DecidedInTime(requested.value, |old(trace)|, old(clock))
                                  && Before(requested.value).status == Approved
      ensures r.Ok? ==> Backed(requested.value, now, seen)
      ensures alone && executionEnabled && old(InStatus(id, Approved)) ==> requested.Some? || InStatus(id, Expired)
    {
      ghost var first := Here();
      MovedSelf(first);
      requested, now, seen := None, clock, NOTHING_SEEN;
      if !executionEnabled { return Err(Invalid), requested, now, seen; }
      var saved;
      saved := SaveRequest(id, actor);
      if saved.Err? { return saved, requested, now, seen; }
      ghost var middle := Here();
      requested := Some(saved.value);
      r, now, seen := ReconcileAndRead(saved.value);
      MovedThrough(first, middle, Here());
      ReplacedStays(middle, Here(), saved.value);
      ReadBefore(saved.value, middle.trace, |first.trace|, first.clock, saved.value.updatedAt);
    }

    method SaveRequest(id: string, actor: Actor) returns (r: Result<Run, StoreError>)
      requires Valid()
      modifies this, store
      ensures Progressed()
      ensures r.Ok? ==> Holds(r.value) && r.value.id == id && r.value.status == ExecutionRequested
      ensures r.Ok? ==> DecidedInTime(r.value, |old(trace)|, old(clock)) && Before(r.value).status == Approved
      ensures alone && old(InStatus(id, Approved)) ==> (r.Ok? && Current(r.value)) || InStatus(id, Expired)
    {
      ghost var first := Here();
      var got, checked := OpenRun(id, Approved);
      if got.Err? { return got; }
      ghost var second := Here();
      r := RequestExecution(got.value, actor, checked);
      MovedThrough(first, second, Here());
      if r.Ok? { ReadBefore(r.value, second.trace, |first.trace|, first.clock, checked); }
    }

    method RequestExecution(run: Run, actor: Actor, checked: int) returns (r: Result<Run, StoreError>)
      requires Valid() && Holds(run) && run.status == Approved
      requires checked <= clock && ReadAt(trace, run, checked) && !Passed(run.approvalExpiresAt, checked)
      modifies this, store
      ensures Progressed() && (alone && old(Current(run)) ==> r.Ok? && Current(r.value))
      ensures r.Ok? ==> Holds(r.value) && r.value.id == run.id && r.value.status == ExecutionRequested
      ensures r.Ok? ==> Before(r.value) == run && checked <= r.value.updatedAt
    {
      ghost var first := Here();
      HeldIsPast(run);
      var now := Now();
      ghost var middle := Here();
      var next := run.(status := ExecutionRequested, message := Fixed(ExecutionAsked), updatedAt := now);
      r := Save(run, ChaosModel.Execute(actor, checked), now, next, actor, ExecutionAsked);
      MovedThrough(first, middle, Here());
    }

    /** Before creation an abort is final at once; afterwards it is a request that the reconciler carries out. */
    method Abort(id: string, actor: Actor, reason: string)
      returns (r: Result<Run, StoreError>, ghost aborted: Option<Run>)
      requires Valid()
      modifies this, store
      ensures Progressed() && (r.Ok? ==> aborted.Some? && Holds(r.value) && r.value.id == id)
      ensures aborted.Some? ==> reason != "" && Holds(aborted.value) && aborted.value.id == id
      ensures aborted.Some? ==> aborted.value.abortedBy == actor && Abortable(Before(aborted.value).status)
      ensures aborted.Some? ==>
                aborted.value.status == if Waiting(Before(aborted.value).status) then Aborted else AbortRequested
      ensures alone && reason != "" && old(id in store.runs && Abortable(store.runs[id].status)) ==> aborted.Some?
    {
      ghost var first := Here();
      MovedSelf(first);
      aborted := None;
      if reason == "" { return Err(Invalid), aborted; }
      var got := Read(id);
      if got.Err? { return got, aborted; }
      ghost var second := Here();
      var run := got.value;
      if !Abortable(run.status) { return Err(Conflict), aborted; }
      r := SaveAbort(run, actor);
      ghost var third := Here();
      MovedThrough(first, second, third);
      if r.Err? { return r, aborted; }
      aborted := Some(r.value);
      if Waiting(run.status) { return r, aborted; }
      r := CarryOut(r.value);
      ReplacedStays(third, Here(), aborted.value);
      MovedThrough(first, third, Here());
    }

    method CarryOut(run: Run) returns (r: Result<Run, StoreError>)
      requires Valid() && Holds(run)
      modifies this, store
      ensures Progressed() && (r.Ok? ==> Holds(r.value) && r.value.id == run.id)
    {
      ghost var now, seen;
      r, now, seen := ReconcileAndRead(run);
    }

    method SaveAbort(run: Run, actor: Actor) returns (r: Result<Run, StoreError>)
      requires Valid() && Holds(run) && Abortable(run.status)
      modifies this, store
      ensures Progressed() && (alone && old(Current(run)) ==> r.Ok? && Current(r.value))
      ensures r.Ok? ==> Holds(r.value) && r.value.id == run.id && r.value.abortedBy == actor && Before(r.value) == run
      ensures r.Ok? ==> r.value.status == if Waiting(run.status) then Aborted else AbortRequested
    {
      ghost var first := Here();
      HeldIsPast(run);
      var now := Now();
      ghost var middle := Here();
      if Waiting(run.status) { r := AbortNow(run, actor, now); } else { r := AskForAbort(run, actor, now); }
      MovedThrough(first, middle, Here());
    }

    /** Nothing was created yet, so the run ends here. */
    method AbortNow(run: Run, actor: Actor, now: int) returns (r: Result<Run, StoreError>)
      requires Valid() && Holds(run) && Waiting(run.status) && run.updatedAt <= now <= clock
      modifies this, store
      ensures Progressed() && (alone && old(Current(run)) ==> r.Ok? && Current(r.value))
      ensures r.Ok? ==> Holds(r.value) && r.value.id == run.id && r.value.abortedBy == actor && Before(r.value) == run
      ensures r.Ok? ==> r.value.status == Aborted
    {
      var next := run.(status := Aborted, abortedBy := actor, message := Fixed(AbortDone), updatedAt := now,
                       finishedAt := Some(now));
      r := Save(run, ChaosModel.Abort(actor), now, next, actor, AbortDone);
    }

    /** The resource may exist, so its deletion is left to the reconciler. */
    method AskForAbort(run: Run, actor: Actor, now: int) returns (r: Result<Run, StoreError>)
      requires Valid() && Holds(run) && Abortable(run.status) && !Waiting(run.status) && run.updatedAt <= now <= clock
      modifies this, store
      ensures Progressed() && (alone && old(Current(run)) ==> r.Ok? && Current(r.value))
      ensures r.Ok? ==> Holds(r.value) && r.value.id == run.id && r.value.abortedBy == actor && Before(r.value) == run
      ensures r.Ok? ==> r.value.status == AbortRequested
    {
      var next := run.(status := AbortRequested, abortedBy := actor, message := Fixed(AbortAsked), updatedAt := now,
                       recoveryDeadline := Some(now + CLEANUP_GRACE + RECOVERY_WINDOW));
      r := Save(run, ChaosModel.Abort(actor), now, next, actor, AbortAsked);
    }

    /** `read` is the copy that was read first, and `seen` what reconciling it saw. */
    method Fetch(id: string)
      returns (r: Result<Run, StoreError>, ghost read: Option<Run>, ghost now: int, ghost seen: Seen)
      requires Valid()
      modifies this, store
      ensures Progressed() && (read.Some? ==> Holds(read.value) && read.value.id == id)
      ensures r.Ok? ==> read.Some? && Holds(r.value) && r.value.id == id
      ensures r.Ok? && Active(read.value.status) ==> Backed(read.value, now, seen)
      ensures r.Ok? && !Active(read.value.status) && read.value.status != PendingApproval ==> r.value == read.value
      ensures alone ==> (read.Some? <==> id in old(store.runs)) && (read.Some? ==> read.value == old(store.runs)[id])
      ensures alone && read.Some? && Active(read.value.status) ==>
                Reconciled(read.value, now, r.Ok?, seen) && (r.Ok? ==> Current(r.value))
      ensures alone && read.Some? && Active(read.value.status) ==>
                Turned(old(store.runs), old(objects), store.runs, objects, read.value, now, r.Ok?, seen)
      ensures alone && read.Some? && Active(read.value.status) ==>
                WaitsForRecovery(old(objects), store.runs, objects, read.value, now, seen)
    {
      ghost var first := Here();
      read, now, seen := None, clock, NOTHING_SEEN;
      r := Read(id);
      if r.Err? { return; }
      read := Some(r.value);
      if Active(r.value.status) || r.value.status == PendingApproval {
        ghost var middle := Here();
        r, now, seen := ReconcileAndRead(r.value);
        MovedThrough(first, middle, Here());
      }
    }

    /**
     * reconcileAll: the listed copies grow stale while earlier ones are reconciled; a failure leaves that run for
     * later.
     */
    method ReconcileAll()
      requires Valid()
      modifies this, store
      ensures Progressed()
    {
      ghost var first := Here();
      Interfere();
      var listed := store.runs;
      var todo := listed.Keys;
      forall id | id in listed ensures Holds(listed[id]) { StoredIsHeld(id); }
      while todo != {}
        invariant Valid() && Moved(first, Here())
        invariant todo <= listed.Keys && forall id :: id in listed ==> Holds(listed[id])
        decreases todo
      {
        var id :| id in todo;
        ghost var middle := Here();
        if Active(listed[id].status) || listed[id].status == PendingApproval {
          var ok;
          ghost var now, seen;
          ok, now, seen := ReconcileOne(listed[id]);
          MovedThrough(first, middle, Here());
        }
        todo := todo - {id};
      }
    }
  }
}
