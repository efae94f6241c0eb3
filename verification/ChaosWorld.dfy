/**
 * The store, the cluster and the log as one state, and everything that anybody may do to it, one act at a time: the
 * manager's callers in any interleaving, Starts that land late, and third parties that delete or create objects.
 */
module ChaosWorld {
  import opened Basics
  import opened ChaosModel
  import opened ChaosLaws
  import opened ChaosTrace

  /** The run id in an object's label. Only a Start writes one, so objects of third parties are foreign to every run. */
  datatype Owner = Foreign | OwnedBy(id: string)

  /** What stands under a run's resource: nothing, its own object, or an object of another run or a third party. */
  datatype Presence = Absent | Own | Other

  /** `flying` holds the log positions of Starts whose creation may still land. */
  datatype World = World(
    history: map<string, seq<Commit>>, trace: seq<Entry>, objects: map<Resource, Owner>, flying: set<nat>, clock: int)

  const EMPTY := World(map[], [], map[], {}, 0)

  function PresenceOf(objects: map<Resource, Owner>, run: Run): Presence {
    if run.resource !in objects then Absent else if objects[run.resource] == OwnedBy(run.id) then Own else Other
  }

  /** `run` was committed at some time as this version, and still stands in its history. */
  predicate Known(history: map<string, seq<Commit>>, run: Run) {
    run.id in history && 1 <= run.version <= |history[run.id]| && history[run.id][run.version - 1].run == run
  }

  datatype Act =
    | Pass(elapsed: nat)
    | Ask(id: string, resource: Resource, actor: Actor, duration: nat, enabled: bool)
    | Save(before: Run, op: Op, now: int)
    | Note(run: Run, what: What)
    | Land(k: nat)
    | Drop(k: nat)
    | Remove(resource: Resource)
    | Occupy(resource: Resource)

  /** Start is only issued on a copy that asks for execution, has no acknowledged resource, and saw none. */
  predicate MayStart(trace: seq<Entry>, run: Run) {
    run.status == ExecutionRequested && run.injectionDeadline.None? && Logged(trace, run, Looked(false))
  }

  /** The answers the cluster gives are true; a look at another's object is refused and leaves no entry. */
  predicate Answers(w: World, run: Run, what: What) {
    match what
    case Looked(present) => PresenceOf(w.objects, run) == if present then Own else Absent
    case StartBegun => MayStart(w.trace, run)
    case StartEnded(created) => created ==> PresenceOf(w.objects, run) == Own
    case ObservedMesh(_) => PresenceOf(w.objects, run) == Own
    case Saved => false
    case _ => true
  }

  /** Only the newest version can be replaced, by what `op` makes of it, on the strength of the log. */
  predicate MaySave(w: World, before: Run, op: Op, now: int) {
    && before.id in w.history && |w.history[before.id]| > 0
      && w.history[before.id][|w.history[before.id]| - 1].run == before
    && before.updatedAt <= now <= w.clock && Next(op, before, now).Some? && Evidence(w.trace, before, op)
  }

  predicate Allowed(w: World, act: Act) {
    match act
    case Pass(_) => true
    case Ask(id, _, _, duration, _) => id !in w.history && duration <= MAX_DURATION
    case Save(before, op, now) => MaySave(w, before, op, now)
    case Note(run, what) => Known(w.history, run) && Answers(w, run, what)
    case Land(k) => k in w.flying && k < |w.trace| && w.trace[k].run.resource !in w.objects
    case Drop(k) => k in w.flying
    case Remove(_) => true
    case Occupy(resource) => resource !in w.objects
  }

  function Stored(w: World, c: Commit): World {
    w.(history := w.history[c.run.id := (if c.run.id in w.history then w.history[c.run.id] else []) + [c]],
       trace := w.trace + [Entry(w.clock, c.run, Saved)])
  }

  function Noted(w: World, run: Run, what: What): World {
    w.(trace := w.trace + [Entry(w.clock, run, what)],
       flying := if what == StartBegun then w.flying + {|w.trace|} else w.flying)
  }

  function Perform(w: World, act: Act): World
    requires Allowed(w, act)
  {
    match act
    case Pass(elapsed) => w.(clock := w.clock + elapsed)
    case Ask(id, resource, actor, duration, enabled) =>
      Stored(w, Requested(id, resource, actor, duration, enabled, w.clock))
    case Save(before, op, now) => Stored(w, Next(op, before, now).value)
    case Note(run, what) => Noted(w, run, what)
    case Land(k) =>
      w.(objects := w.objects[w.trace[k].run.resource := OwnedBy(w.trace[k].run.id)], flying := w.flying - {k})
    case Drop(k) => w.(flying := w.flying - {k})
    case Remove(resource) => w.(objects := w.objects - {resource})
    case Occupy(resource) => w.(objects := w.objects[resource := Foreign])
  }

  // ---- The invariant ----

  ghost predicate RowLegal(w: World, id: string) {
    id in w.history ==>
      && Legal(w.history[id]) && Witnessed(w.trace, w.history[id]) && w.history[id][0].run.id == id
      && forall k :: 0 <= k < |w.history[id]| ==> w.history[id][k].run.updatedAt <= w.clock
  }

  /** The versions up to this one were stored, and justified, before `k`. */
  ghost predicate StoredBefore(w: World, run: Run, k: nat)
    requires Known(w.history, run) && k <= |w.trace|
  {
    Witnessed(w.trace[..k], w.history[run.id][..run.version])
  }

  /**
   * Entries are about versions stored before, in the order of their times, and every Start was permitted when it began.
   */
  ghost predicate EntryFits(w: World, k: nat) {
    k < |w.trace| ==>
      && Known(w.history, w.trace[k].run) && w.trace[k].run.updatedAt <= w.trace[k].at <= w.clock
      && (k > 0 ==> w.trace[k - 1].at <= w.trace[k].at)
      && (w.trace[k].what != Saved ==> StoredBefore(w, w.trace[k].run, k))
      && (w.trace[k].what == StartBegun ==> MayStart(w.trace[..k], w.trace[k].run))
  }

  predicate FlightFits(w: World, k: nat) {
    k in w.flying ==> k < |w.trace| && w.trace[k].what == StartBegun
  }

  /** At `k`, a Start of this run began for this resource. */
  predicate Began(trace: seq<Entry>, k: nat, id: string, resource: Resource) {
    k < |trace| && trace[k].what == StartBegun && trace[k].run.id == id && trace[k].run.resource == resource
  }

  /** An object that carries a run's label comes from a logged Start of that run. */
  ghost predicate OwnerFits(w: World, resource: Resource) {
    resource in w.objects && w.objects[resource].OwnedBy? ==>
      exists k: nat :: Began(w.trace, k, w.objects[resource].id, resource)
  }

  ghost predicate Inv(w: World) {
    && (forall id :: RowLegal(w, id)) && (forall k: nat :: EntryFits(w, k)) && (forall k: nat :: FlightFits(w, k))
    && (forall resource :: OwnerFits(w, resource))
  }

  lemma KnownFacts(w: World, run: Run)
    requires Inv(w) && Known(w.history, run)
    ensures WellFormed(run) && run.updatedAt <= w.clock
    ensures w.history[run.id][0].run.id == run.id && w.history[run.id][0].run.resource == run.resource
  {
    assert RowLegal(w, run.id);
    RecordInvariants(w.history[run.id], run.version - 1);
  }

  lemma StoredKeepsKnown(w: World, c: Commit, run: Run)
    requires Known(w.history, run)
    ensures Known(Stored(w, c).history, run)
  {}

  lemma StoredIsKnown(w: World, c: Commit)
    requires c.run.version == if c.run.id in w.history then |w.history[c.run.id]| + 1 else 1
    ensures Known(Stored(w, c).history, c.run)
  {}

  /** What a stored version must bring along. */
  ghost predicate Storable(w: World, c: Commit) {
    && c.run.updatedAt <= w.clock
    && if c.run.id in w.history
       then |w.history[c.run.id]| > 0
            && (var last := w.history[c.run.id][|w.history[c.run.id]| - 1].run;
                Follows(last, c) && Justified(w.trace, last, c) && c.run.version == |w.history[c.run.id]| + 1)
       else IsRequest(c) && c.run.duration <= MAX_DURATION && c.run.version == 1
  }

  lemma StoredKeepsRow(w: World, c: Commit, id: string)
    requires RowLegal(w, id) && Storable(w, c)
    ensures RowLegal(Stored(w, c), id)
  {
    if id in w.history {
      if id == c.run.id {
        LegalExtends(w.history[id], c);
        WitnessExtends(w.trace, w.history[id], c, w.clock);
      } else {
        WitnessStays(w.trace, Stored(w, c).trace, w.history[id]);
      }
    }
  }

  lemma StoredKeepsEntry(w: World, c: Commit, k: nat)
    requires Inv(w) && Storable(w, c)
    ensures EntryFits(Stored(w, c), k)
  {
    assert EntryFits(w, k);
    if k < |w.trace| {
      var run := w.trace[k].run;
      StoredKeepsKnown(w, c, run);
      assert Stored(w, c).trace[..k] == w.trace[..k];
      assert Stored(w, c).history[run.id][..run.version] == w.history[run.id][..run.version];
    } else if k == |w.trace| {
      StoredIsKnown(w, c);
      if k > 0 { assert EntryFits(w, k - 1); }
    }
  }

  lemma MoreTraceKeepsOwner(w: World, more: seq<Entry>, resource: Resource)
    requires OwnerFits(w, resource) && w.trace <= more
    ensures OwnerFits(w.(trace := more), resource)
  {
    if resource in w.objects && w.objects[resource].OwnedBy? {
      var k: nat :| Began(w.trace, k, w.objects[resource].id, resource);
      assert Began(more, k, w.objects[resource].id, resource);
    }
  }

  lemma StoredKeepsInv(w: World, c: Commit)
    requires Inv(w) && Storable(w, c)
    ensures Inv(Stored(w, c))
  {
    var w' := Stored(w, c);
    forall id ensures RowLegal(w', id) {
      assert RowLegal(w, id);
      StoredKeepsRow(w, c, id);
    }
    forall k: nat ensures EntryFits(w', k) { StoredKeepsEntry(w, c, k); }
    forall k: nat ensures FlightFits(w', k) { assert FlightFits(w, k); }
    forall resource ensures OwnerFits(w', resource) {
      assert OwnerFits(w, resource);
      MoreTraceKeepsOwner(w, w'.trace, resource);
    }
  }

  lemma NotedKeepsEntry(w: World, run: Run, what: What, k: nat)
    requires Inv(w) && Known(w.history, run) && (what == StartBegun ==> MayStart(w.trace, run))
    ensures EntryFits(Noted(w, run, what), k)
  {
    assert EntryFits(w, k);
    if k < |w.trace| {
      assert Noted(w, run, what).trace[..k] == w.trace[..k];
    } else if k == |w.trace| {
      KnownFacts(w, run);
      assert Noted(w, run, what).trace[..k] == w.trace;
      assert RowLegal(w, run.id);
      WitnessedPrefix(w.trace, w.history[run.id], run.version);
      if k > 0 { assert EntryFits(w, k - 1); }
    }
  }

  lemma NotedKeepsInv(w: World, run: Run, what: What)
    requires Inv(w) && Known(w.history, run) && (what == StartBegun ==> MayStart(w.trace, run))
    ensures Inv(Noted(w, run, what))
  {
    var w' := Noted(w, run, what);
    forall id ensures RowLegal(w', id) {
      assert RowLegal(w, id);
      if id in w.history { WitnessStays(w.trace, w'.trace, w.history[id]); }
    }
    forall k: nat ensures EntryFits(w', k) { NotedKeepsEntry(w, run, what, k); }
    forall k: nat ensures FlightFits(w', k) { assert FlightFits(w, k); }
    forall resource ensures OwnerFits(w', resource) {
      assert OwnerFits(w, resource);
      MoreTraceKeepsOwner(w, w'.trace, resource);
    }
  }

  /** Acts on the cluster alone: the log and the records stay, and new labels come from flying Starts. */
  lemma ClusterActKeepsInv(w: World, act: Act)
    requires Inv(w) && Allowed(w, act) && (act.Land? || act.Drop? || act.Remove? || act.Occupy?)
    ensures Inv(Perform(w, act))
  {
    var w' := Perform(w, act);
    forall id ensures RowLegal(w', id) { assert RowLegal(w, id); }
    forall k: nat ensures EntryFits(w', k) { assert EntryFits(w, k); }
    forall k: nat ensures FlightFits(w', k) { assert FlightFits(w, k); }
    forall resource ensures OwnerFits(w', resource) {
      assert OwnerFits(w, resource);
      if act.Land? && resource == w.trace[act.k].run.resource {
        assert FlightFits(w, act.k);
        assert Began(w'.trace, act.k, w'.objects[resource].id, resource);
      }
    }
  }

  lemma PassKeepsInv(w: World, elapsed: nat)
    requires Inv(w)
    ensures Inv(w.(clock := w.clock + elapsed))
  {
    var w' := w.(clock := w.clock + elapsed);
    forall id ensures RowLegal(w', id) { assert RowLegal(w, id); }
    forall k: nat ensures EntryFits(w', k) { assert EntryFits(w, k); }
    forall k: nat ensures FlightFits(w', k) { assert FlightFits(w, k); }
    forall resource ensures OwnerFits(w', resource) { assert OwnerFits(w, resource); }
  }

  lemma SaveIsStorable(w: World, before: Run, op: Op, now: int)
    requires Inv(w) && MaySave(w, before, op, now)
    ensures Storable(w, Next(op, before, now).value) && Next(op, before, now).value.run.id == before.id
  {
    var c := Next(op, before, now).value;
    assert StepBy(op, now, before, c);
    StepFollows(op, now, before, c);
    JustifiedByOp(w.trace, op, now, before, c);
    assert RowLegal(w, before.id);
    RecordInvariants(w.history[before.id], |w.history[before.id]| - 1);
  }

  lemma RequestIsStorable(w: World, id: string, resource: Resource, actor: Actor, duration: nat, enabled: bool)
    requires id !in w.history && duration <= MAX_DURATION
    ensures Storable(w, Requested(id, resource, actor, duration, enabled, w.clock))
  {
    var c := Requested(id, resource, actor, duration, enabled, w.clock);
    assert c == Requested(c.run.id, c.run.resource, c.actor, c.run.duration, enabled, c.run.createdAt);
  }

  lemma ActKeepsInv(w: World, act: Act)
    requires Inv(w) && Allowed(w, act)
    ensures Inv(Perform(w, act))
  {
    match act
    case Pass(elapsed) => PassKeepsInv(w, elapsed);
    case Ask(id, resource, actor, duration, enabled) =>
      RequestIsStorable(w, id, resource, actor, duration, enabled);
      StoredKeepsInv(w, Requested(id, resource, actor, duration, enabled, w.clock));
    case Save(before, op, now) =>
      SaveIsStorable(w, before, op, now);
      StoredKeepsInv(w, Next(op, before, now).value);
    case Note(run, what) => NotedKeepsInv(w, run, what);
    case _ => ClusterActKeepsInv(w, act);
  }

  lemma EmptyFits()
    ensures Inv(EMPTY)
  {}

  // ---- Runs ----

  ghost predicate ActsTo(w: World, act: Act, w': World) {
    Allowed(w, act) && w' == Perform(w, act)
  }

  ghost predicate ActAt(run: seq<World>, acts: seq<Act>, k: nat) {
    k < |acts| && k + 1 < |run| && ActsTo(run[k], acts[k], run[k + 1])
  }

  /** `acts` lead from `w` to `w'` through the worlds of `run`. */
  ghost predicate Leads(w: World, run: seq<World>, acts: seq<Act>, w': World) {
    && |run| == |acts| + 1 && run[0] == w && run[|acts|] == w'
    && forall k: nat :: k < |acts| ==> ActAt(run, acts, k)
  }

  ghost predicate Reach(w: World, w': World) {
    exists run, acts :: Leads(w, run, acts, w')
  }

  lemma ReachSelf(w: World)
    ensures Reach(w, w)
  {
    assert Leads(w, [w], [], w);
  }

  lemma ReachAct(w: World, act: Act)
    requires Allowed(w, act)
    ensures Reach(w, Perform(w, act))
  {
    var run, acts := [w, Perform(w, act)], [act];
    assert ActAt(run, acts, 0);
    assert Leads(w, run, acts, Perform(w, act));
  }

  lemma LeadsThrough(a: World, run: seq<World>, acts: seq<Act>, b: World, run': seq<World>, acts': seq<Act>, c: World)
    requires Leads(a, run, acts, b) && Leads(b, run', acts', c)
    ensures Leads(a, run + run'[1..], acts + acts', c)
  {
    var all, more := run + run'[1..], acts + acts';
    forall k: nat | k < |more| ensures ActAt(all, more, k) {
      if k < |acts| {
        assert ActAt(run, acts, k);
      } else {
        assert ActAt(run', acts', k - |acts|);
      }
    }
  }

  /** Nothing stored or logged is lost, and what is logged anew carries times from then on. */
  ghost predicate Later(w: World, w': World) {
    && (forall run :: Known(w.history, run) ==> Known(w'.history, run))
    && w.trace <= w'.trace && w.clock <= w'.clock
    && forall k :: |w.trace| <= k < |w'.trace| ==> w'.trace[k].at >= w.clock
  }

  lemma ActIsLater(w: World, act: Act)
    requires Allowed(w, act)
    ensures Later(w, Perform(w, act))
  {
    match act
    case Ask(id, resource, actor, duration, enabled) =>
      var c := Requested(id, resource, actor, duration, enabled, w.clock);
      forall run | Known(w.history, run) ensures Known(Perform(w, act).history, run) { StoredKeepsKnown(w, c, run); }
    case Save(before, op, now) =>
      var c := Next(op, before, now).value;
      forall run | Known(w.history, run) ensures Known(Perform(w, act).history, run) { StoredKeepsKnown(w, c, run); }
    case _ =>
  }

  /** `w'` follows from `w` by any acts of anybody. */
  ghost predicate Moved(w: World, w': World) {
    Reach(w, w') && Later(w, w')
  }

  lemma MovedSelf(w: World)
    ensures Moved(w, w)
  {
    ReachSelf(w);
  }

  lemma MovedThrough(a: World, b: World, c: World)
    requires Moved(a, b) && Moved(b, c)
    ensures Moved(a, c)
  {
    var run, acts :| Leads(a, run, acts, b);
    var run', acts' :| Leads(b, run', acts', c);
    LeadsThrough(a, run, acts, b, run', acts', c);
  }

  lemma ActMoves(w: World, act: Act)
    requires Inv(w) && Allowed(w, act)
    ensures Inv(Perform(w, act)) && Moved(w, Perform(w, act))
  {
    ActKeepsInv(w, act);
    ActIsLater(w, act);
    ReachAct(w, act);
  }

  ghost predicate Newest(history: map<string, seq<Commit>>, run: Run) {
    run.id in history && |history[run.id]| > 0 && history[run.id][|history[run.id]| - 1].run == run
  }

  lemma SaveMoves(w: World, before: Run, c: Commit)
    requires Inv(w) && Newest(w.history, before) && Justified(w.trace, before, c) && c.run.updatedAt <= w.clock
    ensures Inv(Stored(w, c)) && Moved(w, Stored(w, c)) && Known(Stored(w, c).history, c.run)
  {
    var op, now :| StepBy(op, now, before, c) && Evidence(w.trace, before, op);
    assert c.run.updatedAt == now;
    SaveIsStorable(w, before, op, now);
    StoredIsKnown(w, c);
    ActMoves(w, Save(before, op, now));
  }

  lemma AskMoves(w: World, id: string, resource: Resource, actor: Actor, duration: nat, enabled: bool)
    requires Inv(w) && id !in w.history && duration <= MAX_DURATION
    ensures var c := Requested(id, resource, actor, duration, enabled, w.clock);
            Inv(Stored(w, c)) && Moved(w, Stored(w, c)) && Known(Stored(w, c).history, c.run)
  {
    StoredIsKnown(w, Requested(id, resource, actor, duration, enabled, w.clock));
    ActMoves(w, Ask(id, resource, actor, duration, enabled));
  }

  lemma {:induction false} RunKeepsInv(w: World, run: seq<World>, acts: seq<Act>, w': World, k: nat)
    requires Inv(w) && Leads(w, run, acts, w') && k <= |acts|
    ensures Inv(run[k])
  {
    if k > 0 {
      RunKeepsInv(w, run, acts, w', k - 1);
      assert ActAt(run, acts, k - 1);
      ActKeepsInv(run[k - 1], acts[k - 1]);
    }
  }

  /** Whatever anybody does, in any interleaving, from nothing: the invariant holds. */
  lemma ReachableWorlds(w: World)
    requires Reach(EMPTY, w)
    ensures Inv(w)
  {
    EmptyFits();
    var run, acts :| Leads(EMPTY, run, acts, w);
    RunKeepsInv(EMPTY, run, acts, w, |acts|);
  }
}
