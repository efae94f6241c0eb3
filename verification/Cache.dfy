/**
 * The single-flight, stale-serving cache in front of managed-resource discovery, with any number of concurrent callers.
 */
module Cache {
  import opened Basics

  datatype Warning = StaleSnapshot | SourceWarning(text: string)

  /** `body` stands for the resources, relationships and findings. */
  datatype Snapshot = Snapshot(body: string, warnings: seq<Warning>)

  datatype CacheError = SourceFailed | ContextDone

  type Caller = nat

  type Channel = nat

  /** Where a caller is between two critical sections. */
  datatype Phase = Idle | Waiting(channel: Channel) | Leading

  datatype Entered = Serve(snapshot: Snapshot) | Wait(channel: Channel) | Lead

  /**
   * The source calls as they begin, and as they end: Filled with what the source returned, or with None when it failed
   * and the cached snapshot was aged instead; LeftEmpty when it failed with nothing to fall back on.
   */
  datatype Event = Began(at: int) | Filled(at: int, fetched: Option<Snapshot>) | LeftEmpty(at: int)

  function PhaseOf(phases: map<Caller, Phase>, caller: Caller): Phase {
    if caller in phases then phases[caller] else Idle
  }

  function Stale(n: nat): (warnings: seq<Warning>)
    ensures |warnings| == n && forall k :: 0 <= k < n ==> warnings[k] == StaleSnapshot
  {
    seq(n, _ => StaleSnapshot)
  }

  /** The last success with one stale marker per failed refresh since. */
  function Aged(success: Snapshot, failures: nat): Snapshot {
    success.(warnings := success.warnings + Stale(failures))
  }

  lemma AgedOnce(success: Snapshot, failures: nat)
    ensures Aged(success, failures).(warnings := Aged(success, failures).warnings + [StaleSnapshot])
            == Aged(success, failures + 1)
  {
    assert Stale(failures) + [StaleSnapshot] == Stale(failures + 1);
    assert success.warnings + Stale(failures) + [StaleSnapshot] == success.warnings + Stale(failures + 1);
  }

  // ---- The log of source calls ----

  /** Calls never overlap: beginnings and outcomes alternate. */
  predicate Alternates(log: seq<Event>) {
    forall k :: 0 <= k < |log| ==> (log[k].Began? <==> k % 2 == 0)
  }

  predicate PairSpaced(log: seq<Event>, ttl: int, i: nat, j: nat)
    requires i < j < |log|
  {
    && log[i].at <= log[j].at
    && (log[i].Filled? && log[j].Began? ==> log[j].at - log[i].at >= ttl)
  }

  /** No call begins within the time-to-live of any fill before it. */
  predicate Spaced(log: seq<Event>, ttl: int) {
    forall i: nat, j: nat :: i < j < |log| ==> PairSpaced(log, ttl, i, j)
  }

  /** The time of the newest fill. */
  function LastFill(log: seq<Event>): Option<int> {
    if |log| == 0 then None
    else if log[|log| - 1].Filled? then Some(log[|log| - 1].at)
    else LastFill(log[..|log| - 1])
  }

  /** What the source returned when it last succeeded. */
  function LastSuccess(log: seq<Event>): Option<Snapshot> {
    if |log| == 0 then None
    else
      var last := log[|log| - 1];
      if last.Filled? && last.fetched.Some? then last.fetched else LastSuccess(log[..|log| - 1])
  }

  /** How many refreshes failed since. */
  function FailuresSince(log: seq<Event>): nat {
    if |log| == 0 then 0
    else
      var last, before := log[|log| - 1], FailuresSince(log[..|log| - 1]);
      if !last.Filled? then before else if last.fetched.Some? then 0 else before + 1
  }

  predicate FillAt(log: seq<Event>, k: int) {
    0 <= k < |log| && log[k].Filled?
  }

  /**
   * The newest successful fill is what LastSuccess names, and all fills since, which it counts, are of failed
   * refreshes.
   */
  lemma {:induction false} LastSuccessMeans(log: seq<Event>) returns (i: nat)
    requires LastSuccess(log).Some?
    ensures FillAt(log, i) && log[i].fetched == LastSuccess(log)
    ensures forall k :: i < k < |log| && FillAt(log, k) ==> log[k].fetched.None?
    ensures FailuresSince(log) == |set k | i < k < |log| && FillAt(log, k)|
  {
    var last := |log| - 1;
    if FillAt(log, last) && log[last].fetched.Some? {
      i := last;
      assert (set k | i < k < |log| && FillAt(log, k)) == {};
    } else {
      i := LastSuccessMeans(log[..last]);
      var before, now := set k | i < k < last && FillAt(log[..last], k), set k | i < k < |log| && FillAt(log, k);
      assert now == if FillAt(log, last) then before + {last} else before;
    }
  }

  /** What the log says is cached. */
  predicate IsCached(log: seq<Event>, snapshot: Snapshot) {
    LastSuccess(log).Some? && snapshot == Aged(LastSuccess(log).value, FailuresSince(log))
  }

  /**
   * The cached snapshot itself: the body and the warnings of the newest successful fill, followed by one stale marker
   * for every fill since.
   */
  lemma CachedMeans(log: seq<Event>, snapshot: Snapshot) returns (i: nat)
    requires IsCached(log, snapshot)
    ensures FillAt(log, i) && log[i].fetched.Some?
    ensures forall k :: i < k < |log| && FillAt(log, k) ==> log[k].fetched.None?
    ensures var fetched, later := log[i].fetched.value, set k | i < k < |log| && FillAt(log, k);
            && snapshot.body == fetched.body && fetched.warnings <= snapshot.warnings
            && |snapshot.warnings| == |fetched.warnings| + |later|
            && forall k :: |fetched.warnings| <= k < |snapshot.warnings| ==> snapshot.warnings[k] == StaleSnapshot
  {
    i := LastSuccessMeans(log);
  }

  lemma {:induction false} FillsAreEarlier(log: seq<Event>, ttl: int, i: nat)
    requires Spaced(log, ttl) && i < |log| && log[i].Filled?
    ensures LastFill(log).Some? && log[i].at <= LastFill(log).value
  {
    var last := |log| - 1;
    if log[last].Filled? {
      if i < last { assert PairSpaced(log, ttl, i, last); }
    } else {
      var init := log[..last];
      forall a: nat, b: nat | a < b < |init| ensures PairSpaced(init, ttl, a, b) { assert PairSpaced(log, ttl, a, b); }
      FillsAreEarlier(init, ttl, i);
    }
  }

  lemma LogGrows(log: seq<Event>, ttl: int, e: Event, clock: int)
    requires Spaced(log, ttl) && Alternates(log) && (e.Began? <==> |log| % 2 == 0)
    requires clock <= e.at && forall k :: 0 <= k < |log| ==> log[k].at <= clock
    requires e.Began? && LastFill(log).Some? ==> e.at - LastFill(log).value >= ttl
    ensures Spaced(log + [e], ttl) && Alternates(log + [e])
    ensures LastFill(log + [e]) == if e.Filled? then Some(e.at) else LastFill(log)
    ensures LastSuccess(log + [e]) == if e.Filled? && e.fetched.Some? then e.fetched else LastSuccess(log)
    ensures FailuresSince(log + [e])
         == if !e.Filled? then FailuresSince(log) else if e.fetched.Some? then 0 else FailuresSince(log) + 1
  {
    var longer := log + [e];
    assert longer[..|log|] == log;
    forall i: nat, j: nat | i < j < |longer| ensures PairSpaced(longer, ttl, i, j) {
      if j < |log| {
        assert PairSpaced(log, ttl, i, j);
      } else if log[i].Filled? {
        FillsAreEarlier(log, ttl, i);
      }
    }
  }

  class ManagedResourceCache {
    const ttl: int
    var snapshot: Snapshot
    var cachedAt: Option<int>
    var inflight: Option<Channel>
    /** The channels closed so far, and the next one to make. */
    var closed: set<Channel>
    var next: Channel
    var phases: map<Caller, Phase>
    var clock: int
    ghost var leader: Caller
    ghost var log: seq<Event>

    /** At most one caller is inside the source, and it is the one whose channel is in flight. */
    ghost predicate SingleFlight()
      reads `phases, `inflight, `leader, `closed, `next
    {
      && (forall caller :: PhaseOf(phases, caller) == Leading <==> inflight.Some? && caller == leader)
      && (inflight.Some? ==> inflight.value < next && inflight.value !in closed)
    }

    /** Nobody waits on a channel that will not be closed. */
    ghost predicate WaitersAreServed()
      reads `phases, `inflight, `closed, `next
    {
      && (forall caller :: PhaseOf(phases, caller).Waiting? ==>
            PhaseOf(phases, caller).channel in closed || inflight == Some(PhaseOf(phases, caller).channel))
      && (forall channel :: channel in closed ==> channel < next)
    }

    /**
     * The cached snapshot is the last success, aged once per failed refresh since; calls are spaced and never overlap.
     */
    ghost predicate CacheFits()
      reads `log, `clock, `cachedAt, `snapshot
    {
      && ttl > 0 && Alternates(log) && Spaced(log, ttl) && (forall k :: 0 <= k < |log| ==> log[k].at <= clock)
      && cachedAt == LastFill(log) && (cachedAt.Some? ==> IsCached(log, snapshot))
    }

    ghost predicate Valid()
      reads this
    {
      SingleFlight() && WaitersAreServed() && CacheFits() && (inflight.Some? <==> |log| % 2 == 1)
    }

    constructor (ttl: int, clock: int)
      requires ttl > 0
      ensures Valid() && phases == map[] && log == [] && this.ttl == ttl
    {
      this.ttl, this.clock := ttl, clock;
      snapshot, cachedAt, inflight, closed, next, phases := Snapshot("", []), None, None, {}, 0, map[];
      leader, log := 0, [];
    }

    /** A clock reading, taken under the lock. */
    method Now() returns (now: int)
      requires Valid()
      modifies `clock
      ensures Valid() && now == clock >= old(clock)
    {
      var elapsed: int := *;
      if elapsed > 0 { clock := clock + elapsed; }
      now := clock;
    }

    method SetPhase(caller: Caller, phase: Phase)
      modifies `phases
      ensures PhaseOf(phases, caller) == phase
      ensures forall other :: other != caller ==> PhaseOf(phases, other) == PhaseOf(old(phases), other)
    {
      phases := phases[caller := phase];
    }

    /** Makes the channel of a new flight, led by this caller. */
    method TakeOff(caller: Caller)
      requires SingleFlight() && WaitersAreServed() && inflight.None?
      requires PhaseOf(phases, caller).Waiting? ==> PhaseOf(phases, caller).channel in closed
      modifies `phases, `inflight, `next, `leader
      ensures SingleFlight() && WaitersAreServed() && inflight.Some? && PhaseOf(phases, caller) == Leading
      ensures forall other :: other != caller ==> PhaseOf(phases, other) == PhaseOf(old(phases), other)
    {
      inflight, next := Some(next), next + 1;
      leader := caller;
      SetPhase(caller, Leading);
    }

    /** Closes the channel in flight, which wakes every waiter. */
    method Land(caller: Caller)
      requires SingleFlight() && WaitersAreServed() && PhaseOf(phases, caller) == Leading
      modifies `phases, `inflight, `closed
      ensures SingleFlight() && WaitersAreServed() && PhaseOf(phases, caller) == Idle
      ensures old(inflight).Some? && inflight.None? && closed == old(closed) + {old(inflight).value}
      ensures forall other :: PhaseOf(phases, other).Waiting? ==> PhaseOf(phases, other).channel in closed
      ensures forall other :: other != caller ==> PhaseOf(phases, other) == PhaseOf(old(phases), other)
    {
      closed := closed + {inflight.value};
      inflight := None;
      SetPhase(caller, Idle);
    }

    ghost method Record(e: Event)
      requires CacheFits() && (e.Began? <==> |log| % 2 == 0) && e.at == clock && !e.Filled?
      requires e.Began? ==> cachedAt.None? || clock - cachedAt.value >= ttl
      modifies `log
      ensures CacheFits() && log == old(log) + [e]
    {
      LogGrows(log, ttl, e, clock);
      log := log + [e];
    }

    /** Stores what the source returned, or ages what is stored; `fetched` is None when the source failed. */
    method Refill(fetched: Option<Snapshot>, now: int) returns (r: Result<Snapshot, CacheError>)
      requires CacheFits() && |log| % 2 == 1 && now == clock
      modifies `snapshot, `cachedAt, `log
      ensures CacheFits() && log == old(log) + [if r.Ok? then Filled(clock, fetched) else LeftEmpty(clock)]
      ensures r.Err? <==> fetched.None? && old(cachedAt).None?
      ensures r.Ok? ==> cachedAt == Some(clock) && IsCached(log, r.value)
      ensures r.Err? ==> r == Err(SourceFailed) && cachedAt.None?
      ensures fetched.Some? ==> r == Ok(fetched.value)
    {
      if fetched.None? && cachedAt.None? {
        Record(LeftEmpty(now));
        return Err(SourceFailed);
      }
      LogGrows(log, ttl, Filled(now, fetched), clock);
      if fetched.Some? {
        snapshot := fetched.value;
        assert Stale(0) == [] && fetched.value.warnings + [] == fetched.value.warnings;
      } else {
        AgedOnce(LastSuccess(log).value, FailuresSince(log));
        snapshot := snapshot.(warnings := snapshot.warnings + [StaleSnapshot]);
      }
      cachedAt := Some(now);
      log := log + [Filled(now, fetched)];
      r := Ok(snapshot);
    }

    /** The critical section at the head of Discover's loop. */
    method Enter(caller: Caller) returns (r: Entered)
      requires Valid()
      requires PhaseOf(phases, caller).Idle?
               || (PhaseOf(phases, caller).Waiting? && PhaseOf(phases, caller).channel in closed)
      modifies `phases, `inflight, `next, `leader, `log, `clock
      ensures Valid()
      ensures forall other :: other != caller ==> PhaseOf(phases, other) == PhaseOf(old(phases), other)
      ensures r.Serve? <==> cachedAt.Some? && clock - cachedAt.value < ttl
      ensures r.Lead? <==> !r.Serve? && old(inflight).None?
      ensures r.Serve? ==> IsCached(log, r.snapshot) && PhaseOf(phases, caller) == Idle && log == old(log)
      ensures r.Wait? ==> old(inflight) == inflight == Some(r.channel)
      ensures r.Wait? ==> PhaseOf(phases, caller) == Waiting(r.channel) && log == old(log)
      ensures r.Lead? ==> old(inflight).None? && PhaseOf(phases, caller) == Leading && log == old(log) + [Began(clock)]
    {
      var now := Now();
      if cachedAt.Some? && now - cachedAt.value < ttl {
        SetPhase(caller, Idle);
        return Serve(snapshot);
      }
      if inflight.Some? {
        SetPhase(caller, Waiting(inflight.value));
        return Wait(inflight.value);
      }
      Record(Began(now));
      TakeOff(caller);
      r := Lead;
    }

    /** The critical section after the source call: fill or age the cache, then wake every waiter. */
    method Finish(caller: Caller, fetched: Option<Snapshot>) returns (r: Result<Snapshot, CacheError>)
      requires Valid() && PhaseOf(phases, caller) == Leading
      modifies this
      ensures Valid() && PhaseOf(phases, caller) == Idle
      ensures forall other :: other != caller ==> PhaseOf(phases, other) == PhaseOf(old(phases), other)
      ensures old(inflight).Some? && inflight.None? && closed == old(closed) + {old(inflight).value}
      ensures forall other :: PhaseOf(phases, other).Waiting? ==> PhaseOf(phases, other).channel in closed
      ensures r.Err? <==> fetched.None? && old(cachedAt).None?
      ensures r.Ok? ==> cachedAt == Some(clock) && IsCached(log, r.value)
      ensures r.Err? ==> r == Err(SourceFailed) && cachedAt.None?
      ensures fetched.Some? ==> r == Ok(fetched.value)
      ensures log == old(log) + [if r.Ok? then Filled(clock, fetched) else LeftEmpty(clock)]
    {
      var now := Now();
      r := Refill(fetched, now);
      Land(caller);
    }

    /** A waiter whose context ends just leaves. */
    method Leave(caller: Caller)
      requires Valid() && PhaseOf(phases, caller).Waiting?
      modifies `phases
      ensures Valid() && PhaseOf(phases, caller) == Idle
      ensures forall other :: other != caller ==> PhaseOf(phases, other) == PhaseOf(old(phases), other)
    {
      SetPhase(caller, Idle);
    }

    /** Any number of critical sections of other callers. */
    method Interfere(caller: Caller)
      requires Valid()
      modifies this
      ensures Valid() && PhaseOf(phases, caller) == PhaseOf(old(phases), caller) && old(log) <= log
    {
      var rounds: int := *;
      while rounds > 0
        invariant old(log) <= log
        invariant Valid() && PhaseOf(phases, caller) == PhaseOf(old(phases), caller)
      {
        var other: Caller := *;
        if other >= 0 && other != caller { Act(other); }
        rounds := rounds - 1;
      }
    }

    method Act(other: Caller)
      requires Valid()
      modifies this
      ensures Valid() && old(log) <= log
      ensures forall caller :: caller != other ==> PhaseOf(phases, caller) == PhaseOf(old(phases), caller)
    {
      var phase := PhaseOf(phases, other);
      var leaves := *;
      if phase.Leading? {
        var fetched: Option<Snapshot> := *;
        var r := Finish(other, fetched);
      } else if phase.Waiting? && leaves {
        Leave(other);
      } else if phase.Idle? || phase.channel in closed {
        var r := Enter(other);
      }
    }

    /**
     * Discover. A caller waits on the channel in flight until it is closed or its own context ends, which `patience`
     * bounds; whatever it returns is the last success on the log, aged once per failed refresh logged since.
     */
    method Discover(caller: Caller, patience: nat) returns (r: Result<Snapshot, CacheError>)
      requires Valid() && PhaseOf(phases, caller).Idle?
      modifies this
      ensures Valid() && PhaseOf(phases, caller).Idle? && old(log) <= log
      ensures r.Ok? ==> IsCached(log, r.value)
      ensures r == Err(SourceFailed) ==> cachedAt.None?
    {
      var left := patience;
      while true
        invariant Valid() && old(log) <= log
        invariant PhaseOf(phases, caller).Idle?
                  || (PhaseOf(phases, caller).Waiting? && PhaseOf(phases, caller).channel in closed)
        decreases left
      {
        var entered := Enter(caller);
        match entered {
          case Serve(served) => return Ok(served);
          case Lead => break;
          case Wait(channel) =>
            Interfere(caller);
            while channel !in closed && left > 0
              invariant Valid() && PhaseOf(phases, caller) == Waiting(channel) && old(log) <= log
              decreases left
            {
              Interfere(caller);
              left := left - 1;
            }
            if channel !in closed || left == 0 {
              Leave(caller);
              return Err(ContextDone);
            }
            left := left - 1;
        }
      }
      Interfere(caller);
      var fetched: Option<Snapshot> := *;
      r := Finish(caller, fetched);
    }
  }
}
