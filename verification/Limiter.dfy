/** The request limiter: fixed windows per key, with old keys pruned once there are many. */
module Limiter {
  import opened Basics

  datatype Window = Window(started: int, count: nat, seen: int)

  /** One answered request: the window it fell into, and whether it was let through. */
  datatype Entry = Entry(key: string, at: int, started: int, admitted: bool)

  const PRUNE_ABOVE := 4096

  /** The window a request at `now` falls into, counting it. */
  function Counted(windows: map<string, Window>, key: string, now: int, interval: int): Window {
    if key in windows && now - windows[key].started < interval
    then Window(windows[key].started, windows[key].count + 1, now)
    else Window(now, 1, now)
  }

  // ---- Counting log entries ----

  function Count(log: seq<Entry>, p: Entry -> bool): nat {
    if |log| == 0 then 0 else Count(log[..|log| - 1], p) + if p(log[|log| - 1]) then 1 else 0
  }

  lemma CountAppend(log: seq<Entry>, e: Entry, p: Entry -> bool)
    ensures Count(log + [e], p) == Count(log, p) + if p(e) then 1 else 0
  {
    assert (log + [e])[..|log|] == log;
  }

  lemma {:induction false} CountEither(log: seq<Entry>, p: Entry -> bool, q: Entry -> bool, r: Entry -> bool)
    requires forall k :: 0 <= k < |log| && p(log[k]) ==> q(log[k]) || r(log[k])
    ensures Count(log, p) <= Count(log, q) + Count(log, r)
  {
    if |log| > 0 { CountEither(log[..|log| - 1], p, q, r); }
  }

  lemma {:induction false} CountWithin(log: seq<Entry>, p: Entry -> bool, q: Entry -> bool)
    requires forall k :: 0 <= k < |log| && p(log[k]) ==> q(log[k])
    ensures Count(log, p) <= Count(log, q)
  {
    if |log| > 0 { CountWithin(log[..|log| - 1], p, q); }
  }

  /** An entry that only `q` accepts makes the difference at least one. */
  lemma {:induction false} CountBelow(log: seq<Entry>, p: Entry -> bool, q: Entry -> bool, at: nat)
    requires forall k :: 0 <= k < |log| && p(log[k]) ==> q(log[k])
    requires at < |log| && q(log[at]) && !p(log[at])
    ensures Count(log, p) + 1 <= Count(log, q)
  {
    if at < |log| - 1 {
      CountBelow(log[..|log| - 1], p, q, at);
    } else {
      CountWithin(log[..|log| - 1], p, q);
    }
  }

  lemma {:induction false} CountNone(log: seq<Entry>, p: Entry -> bool)
    requires forall k :: 0 <= k < |log| ==> !p(log[k])
    ensures Count(log, p) == 0
  {
    if |log| > 0 { CountNone(log[..|log| - 1], p); }
  }

  /** Admitted in the window of `key` that started at `started`. */
  function InWindow(key: string, started: int): Entry -> bool {
    (e: Entry) => e.key == key && e.started == started && e.admitted
  }

  /** Admitted for `key` in the half-open span of one interval from `from`. */
  function InSpan(key: string, from: int, interval: int): Entry -> bool {
    (e: Entry) => e.key == key && e.admitted && from <= e.at < from + interval
  }

  // ---- What the log of a limiter that never deletes looks like ----

  predicate EntryFits(log: seq<Entry>, full: map<string, Window>, interval: int, now: int, k: nat)
    requires k < |log|
  {
    var e := log[k];
    && e.started <= e.at < e.started + interval && e.at <= now && e.key in full
    && (e.started == full[e.key].started || e.started + interval <= full[e.key].started)
    && exists j: nat :: j <= k && Opens(log, j, e.key, e.started)
  }

  /** The first request of a window is admitted, at the moment the window starts. */
  predicate Opens(log: seq<Entry>, j: nat, key: string, started: int) {
    j < |log| && log[j] == Entry(key, started, started, true)
  }

  predicate PairFits(log: seq<Entry>, interval: int, i: nat, j: nat)
    requires i < j < |log|
  {
    log[i].key == log[j].key ==>
      log[i].at <= log[j].at && (log[i].started == log[j].started || log[i].started + interval <= log[j].started)
  }

  predicate WindowFits(log: seq<Entry>, full: map<string, Window>, limit: nat, key: string, started: int) {
    Count(log, InWindow(key, started)) <= (if key in full && full[key].started == started
                                           then Min(limit, full[key].count) else limit)
  }

  /** A window that counts requests was opened by one of them. */
  ghost predicate WindowOpened(log: seq<Entry>, full: map<string, Window>, now: int, key: string) {
    key in full ==>
      && full[key].started <= full[key].seen <= now && full[key].count > 0
      && exists j: nat :: Opens(log, j, key, full[key].started)
  }

  ghost predicate LogFits(log: seq<Entry>, full: map<string, Window>, limit: nat, interval: int, now: int) {
    && (forall k: nat :: k < |log| ==> EntryFits(log, full, interval, now, k))
    && (forall i: nat, j: nat :: i < j < |log| ==> PairFits(log, interval, i, j))
    && (forall key, started :: WindowFits(log, full, limit, key, started))
    && (forall key :: WindowOpened(log, full, now, key))
  }

  /** How a request is answered by a limiter that never deletes. */
  function Answered(full: map<string, Window>, key: string, now: int, limit: nat, interval: int): Entry {
    var w := Counted(full, key, now, interval);
    Entry(key, now, w.started, w.count <= limit)
  }

  lemma OpenedStays(log: seq<Entry>, full: map<string, Window>, limit: nat, interval: int, before: int, key: string,
                    now: int, other: string)
    requires 0 < limit && before <= now && WindowOpened(log, full, before, key)
    requires WindowOpened(log, full, before, other)
    ensures WindowOpened(log + [Answered(full, key, now, limit, interval)],
                         full[key := Counted(full, key, now, interval)], now, other)
  {
    var w, e := Counted(full, key, now, interval), Answered(full, key, now, limit, interval);
    if other in full && !(other == key && w.count == 1) {
      var j: nat :| Opens(log, j, other, full[other].started);
      assert Opens(log + [e], j, other, full[other].started);
    } else if other == key {
      assert Opens(log + [e], |log|, key, now);
    }
  }

  lemma EntryStays(log: seq<Entry>, full: map<string, Window>, limit: nat, interval: int, before: int, key: string,
                   now: int, k: nat)
    requires 0 < limit && 0 < interval && before <= now && LogFits(log, full, limit, interval, before) && k <= |log|
    ensures EntryFits(log + [Answered(full, key, now, limit, interval)],
                      full[key := Counted(full, key, now, interval)], interval, now, k)
  {
    var e := Answered(full, key, now, limit, interval);
    if k < |log| {
      assert EntryFits(log, full, interval, before, k);
      var j: nat :| j <= k && Opens(log, j, log[k].key, log[k].started);
      assert Opens(log + [e], j, log[k].key, log[k].started);
    } else {
      assert WindowOpened(log, full, before, key);
      OpenedStays(log, full, limit, interval, before, key, now, key);
    }
  }

  lemma PairStays(log: seq<Entry>, full: map<string, Window>, limit: nat, interval: int, before: int, key: string,
                  now: int, i: nat, j: nat)
    requires 0 < interval && before <= now && LogFits(log, full, limit, interval, before) && i < j <= |log|
    ensures PairFits(log + [Answered(full, key, now, limit, interval)], interval, i, j)
  {
    if j < |log| {
      assert PairFits(log, interval, i, j);
    } else {
      assert EntryFits(log, full, interval, before, i);
    }
  }

  lemma WindowStays(log: seq<Entry>, full: map<string, Window>, limit: nat, interval: int, before: int, key: string,
                    now: int,
                    other: string, started: int)
    requires 0 < limit && 0 < interval && before <= now && LogFits(log, full, limit, interval, before)
    ensures WindowFits(log + [Answered(full, key, now, limit, interval)],
                       full[key := Counted(full, key, now, interval)], limit, other, started)
  {
    var w, e := Counted(full, key, now, interval), Answered(full, key, now, limit, interval);
    assert WindowFits(log, full, limit, other, started);
    CountAppend(log, e, InWindow(other, started));
    if w.count == 1 && other == key && started == now {
      NothingYet(log, full, limit, interval, before, key, now);
    }
  }

  /** A window that starts now has admitted nothing before. */
  lemma NothingYet(log: seq<Entry>, full: map<string, Window>, limit: nat, interval: int, before: int, key: string,
                   now: int)
    requires 0 < interval && before <= now && LogFits(log, full, limit, interval, before)
    requires Counted(full, key, now, interval).count == 1
    ensures Count(log, InWindow(key, now)) == 0
  {
    assert WindowOpened(log, full, before, key);
    forall k | 0 <= k < |log| ensures !InWindow(key, now)(log[k]) { assert EntryFits(log, full, interval, before, k); }
    CountNone(log, InWindow(key, now));
  }

  lemma AnswerKeepsLog(log: seq<Entry>, full: map<string, Window>, limit: nat, interval: int, before: int,
                       key: string, now: int)
    requires 0 < limit && 0 < interval && before <= now && LogFits(log, full, limit, interval, before)
    ensures LogFits(log + [Answered(full, key, now, limit, interval)],
                    full[key := Counted(full, key, now, interval)], limit, interval, now)
  {
    var full', log' := full[key := Counted(full, key, now, interval)],
      log + [Answered(full, key, now, limit, interval)];
    forall k: nat | k < |log'| ensures EntryFits(log', full', interval, now, k) {
      EntryStays(log, full, limit, interval, before, key, now, k);
    }
    forall i: nat, j: nat | i < j < |log'| ensures PairFits(log', interval, i, j) {
      PairStays(log, full, limit, interval, before, key, now, i, j);
    }
    forall other, started ensures WindowFits(log', full', limit, other, started) {
      WindowStays(log, full, limit, interval, before, key, now, other, started);
    }
    forall other ensures WindowOpened(log', full', now, other) {
      assert WindowOpened(log, full, before, key) && WindowOpened(log, full, before, other);
      OpenedStays(log, full, limit, interval, before, key, now, other);
    }
  }

  // ---- How much any span of one interval lets through ----

  lemma {:induction false} EndsOf(log: seq<Entry>, p: Entry -> bool) returns (a: nat, b: nat)
    requires Count(log, p) > 0
    ensures a <= b < |log| && p(log[a]) && p(log[b])
    ensures forall k :: 0 <= k < |log| && p(log[k]) ==> a <= k <= b
  {
    var init := log[..|log| - 1];
    if Count(init, p) == 0 {
      a, b := |log| - 1, |log| - 1;
      OnlyTheLast(log, p);
    } else {
      a, b := EndsOf(init, p);
      if p(log[|log| - 1]) { b := |log| - 1; }
    }
  }

  lemma {:induction false} OnlyTheLast(log: seq<Entry>, p: Entry -> bool)
    requires |log| > 0 && Count(log[..|log| - 1], p) == 0
    ensures forall k :: 0 <= k < |log| - 1 ==> !p(log[k])
  {
    var init := log[..|log| - 1];
    if |init| > 0 {
      OnlyTheLast(init, p);
      assert forall k :: 0 <= k < |init| - 1 ==> log[k] == init[k];
    }
  }

  /** A span of one interval touches at most two windows of a key, the first of which opened before it did. */
  lemma TwoWindowsAtMost(log: seq<Entry>, full: map<string, Window>, limit: nat, interval: int, now: int, key: string,
                         from: int,
                         a: nat, b: nat, k: nat)
    requires 0 < interval && LogFits(log, full, limit, interval, now) && a <= k <= b < |log|
    requires InSpan(key, from, interval)(log[a]) && InSpan(key, from, interval)(log[b])
    requires InSpan(key, from, interval)(log[k])
    ensures log[k].started == log[a].started || log[k].started == log[b].started
    ensures log[a].started != log[b].started ==> log[a].started < from
  {
    assert EntryFits(log, full, interval, now, a) && EntryFits(log, full, interval, now, k)
           && EntryFits(log, full, interval, now, b);
    if a < k { assert PairFits(log, interval, a, k); }
    if k < b { assert PairFits(log, interval, k, b); }
    if a < b { assert PairFits(log, interval, a, b); }
  }

  /** Any half-open span of one interval admits fewer than twice the limit for each key. */
  lemma SpansAreBounded(log: seq<Entry>, full: map<string, Window>, limit: nat, interval: int, now: int, key: string,
                        from: int)
    requires 0 < limit && 0 < interval && LogFits(log, full, limit, interval, now)
    ensures Count(log, InSpan(key, from, interval)) <= 2 * limit - 1
  {
    var span := InSpan(key, from, interval);
    if Count(log, span) > 0 {
      var a, b := EndsOf(log, span);
      var first, last := InWindow(key, log[a].started), InWindow(key, log[b].started);
      forall k | 0 <= k < |log| && span(log[k]) ensures first(log[k]) || last(log[k]) {
        TwoWindowsAtMost(log, full, limit, interval, now, key, from, a, b, k);
      }
      assert WindowFits(log, full, limit, key, log[a].started) && WindowFits(log, full, limit, key, log[b].started);
      if log[a].started == log[b].started {
        CountWithin(log, span, first);
      } else {
        OpenerIsOutside(log, full, limit, interval, now, key, from, a, b);
      }
    }
  }

  lemma OpenerIsOutside(log: seq<Entry>, full: map<string, Window>, limit: nat, interval: int, now: int, key: string,
                        from: int, a: nat, b: nat)
    requires 0 < limit && 0 < interval && LogFits(log, full, limit, interval, now) && a <= b < |log|
    requires InSpan(key, from, interval)(log[a]) && InSpan(key, from, interval)(log[b])
    requires log[a].started != log[b].started
    requires forall k :: 0 <= k < |log| && InSpan(key, from, interval)(log[k]) ==> a <= k <= b
    ensures Count(log, InSpan(key, from, interval)) <= 2 * limit - 1
  {
    var span, first, last := InSpan(key, from, interval), InWindow(key, log[a].started), InWindow(key, log[b].started);
    var inside: Entry -> bool := (e: Entry) => first(e) && from <= e.at;
    forall k | 0 <= k < |log| && span(log[k]) ensures inside(log[k]) || last(log[k]) {
      TwoWindowsAtMost(log, full, limit, interval, now, key, from, a, b, k);
    }
    CountEither(log, span, inside, last);
    TwoWindowsAtMost(log, full, limit, interval, now, key, from, a, b, a);
    assert EntryFits(log, full, interval, now, a);
    var j: nat :| j <= a && Opens(log, j, key, log[a].started);
    CountBelow(log, inside, first, j);
    assert WindowFits(log, full, limit, key, log[a].started) && WindowFits(log, full, limit, key, log[b].started);
  }

  // ---- The limiter ----

  /** What deleting old keys may lose: windows that are over by now, whatever they counted. */
  ghost predicate Pruned(windows: map<string, Window>, full: map<string, Window>, interval: int, now: int) {
    forall key :: KeyPruned(windows, full, interval, now, key)
  }

  predicate KeyPruned(windows: map<string, Window>, full: map<string, Window>, interval: int, now: int, key: string) {
    if key in windows then key in full && windows[key] == full[key]
    else key in full ==> now - full[key].started >= interval
  }

  class RequestLimiter {
    var windows: map<string, Window>
    const limit: nat
    const interval: int
    /** The windows of a limiter that never deletes, the requests answered so far, and the latest clock reading. */
    ghost var full: map<string, Window>
    ghost var log: seq<Entry>
    ghost var last: int

    ghost predicate Valid()
      reads this
    {
      && limit > 0 && interval > 0
      && Pruned(windows, full, interval, last) && LogFits(log, full, limit, interval, last)
    }

    constructor (requested: int, interval: int, now: int)
      requires interval > 0
      ensures Valid() && windows == map[] && full == map[] && log == [] && last == now && this.interval == interval
      ensures limit == if requested <= 0 then 120 else requested
    {
      limit := if requested <= 0 then 120 else requested;
      this.interval, windows, full, log, last := interval, map[], map[], [], now;
    }

    /** With the new key at most 4096 are kept; above that, those unseen for more than five intervals are gone. */
    ghost predicate Remembered(before: map<string, Window>, key: string, now: int)
      reads this
      requires key in full
    {
      var all := before[key := full[key]];
      && (forall k :: k in windows ==> k in all && windows[k] == all[k])
      && (forall k :: k in all ==> (k !in windows <==> |all| > 4096 && now - all[k].seen > 5 * interval))
    }

    /**
     * Answers a request exactly as a limiter that never deletes would, at any clock reading that is not in the past.
     */
    method Allow(key: string, now: int) returns (ok: bool, retryAfter: int)
      requires Valid() && last <= now
      modifies this
      ensures Valid() && last == now
      ensures log == old(log) + [Answered(old(full), key, now, limit, interval)]
      ensures full == old(full)[key := Counted(old(full), key, now, interval)]
      ensures ok == log[|log| - 1].admitted
      ensures retryAfter == if ok then 0 else Max(interval - (now - full[key].started), 1)
      ensures full[key].seen == now && Remembered(old(windows), key, now)
    {
      var window := if key in windows && now - windows[key].started < interval then windows[key]
        else Window(now, 0, now);
      window := window.(count := window.count + 1, seen := now);
      assert KeyPruned(windows, full, interval, last, key);
      assert window == Counted(full, key, now, interval);
      AnswerKeepsLog(log, full, limit, interval, last, key, now);
      AnswerKeepsPruned(windows, full, interval, last, now, key, window);
      log := log + [Answered(full, key, now, limit, interval)];
      full := full[key := window];
      last := now;
      windows := windows[key := window];
      if |windows| > PRUNE_ABOVE { Prune(now); }
      if window.count > limit { return false, Max(interval - (now - window.started), 1); }
      return true, 0;
    }

    /** Deletes every key unseen for five intervals, in whatever order the map is visited. */
    method Prune(now: int)
      requires Valid() && now == last
      modifies this`windows
      ensures Valid()
      ensures forall key :: key in windows <==> key in old(windows) && now - old(windows)[key].seen <= 5 * interval
      ensures forall key :: key in windows ==> windows[key] == old(windows)[key]
    {
      var todo := windows.Keys;
      while todo != {}
        invariant Valid() && todo <= windows.Keys
        invariant forall key :: key in windows ==> key in old(windows) && windows[key] == old(windows)[key]
        invariant forall key :: key in old(windows) && key !in windows ==> now - old(windows)[key].seen > 5 * interval
        invariant forall key :: key in windows && key !in todo ==> now - windows[key].seen <= 5 * interval
        decreases todo
      {
        var key :| key in todo;
        todo := todo - {key};
        if now - windows[key].seen > 5 * interval {
          assert KeyPruned(windows, full, interval, last, key) && WindowOpened(log, full, last, key);
          DeleteKeepsPruned(windows, full, interval, now, key);
          windows := windows - {key};
        }
      }
    }
  }

  lemma AnswerKeepsPruned(windows: map<string, Window>, full: map<string, Window>, interval: int, before: int,
                          now: int, key: string, w: Window)
    requires Pruned(windows, full, interval, before) && before <= now
    ensures Pruned(windows[key := w], full[key := w], interval, now)
  {
    var windows', full' := windows[key := w], full[key := w];
    forall other ensures KeyPruned(windows', full', interval, now, other) {
      assert KeyPruned(windows, full, interval, before, other);
    }
  }

  lemma DeleteKeepsPruned(windows: map<string, Window>, full: map<string, Window>, interval: int, now: int, key: string)
    requires Pruned(windows, full, interval, now) && key in full && now - full[key].started >= interval
    ensures Pruned(windows - {key}, full, interval, now)
  {
    var windows' := windows - {key};
    forall other ensures KeyPruned(windows', full, interval, now, other) {
      assert KeyPruned(windows, full, interval, now, other);
    }
  }

  /** Whatever was asked of a limiter so far: no key got twice the limit through in one interval. */
  lemma LimiterHolds(limiter: RequestLimiter, key: string, from: int)
    requires limiter.Valid()
    ensures Count(limiter.log, InSpan(key, from, limiter.interval)) <= 2 * limiter.limit - 1
  {
    SpansAreBounded(limiter.log, limiter.full, limiter.limit, limiter.interval, limiter.last, key, from);
  }

  // ---- The bound is attained ----

  /** More requests at one moment in a window that still has room for them: all are let through. */
  method Repeat(limiter: RequestLimiter, key: string, now: int, times: nat, ghost from: int)
    requires limiter.Valid() && limiter.last <= now && from <= now < from + limiter.interval && key in limiter.full
    requires now - limiter.full[key].started < limiter.interval && limiter.full[key].count + times <= limiter.limit
    modifies limiter
    ensures limiter.Valid() && limiter.last <= now && key in limiter.full
    ensures limiter.full[key].started == old(limiter.full)[key].started
    ensures limiter.full[key].count == old(limiter.full)[key].count + times
    ensures Count(limiter.log, InSpan(key, from, limiter.interval))
         == Count(old(limiter.log), InSpan(key, from, limiter.interval)) + times
  {
    ghost var span := InSpan(key, from, limiter.interval);
    for i := 0 to times
      invariant limiter.Valid() && limiter.last <= now && key in limiter.full
      invariant limiter.full[key].started == old(limiter.full)[key].started
      invariant limiter.full[key].count == old(limiter.full)[key].count + i
      invariant Count(limiter.log, span) == Count(old(limiter.log), span) + i
    {
      ghost var log, full := limiter.log, limiter.full;
      var ok, wait := limiter.Allow(key, now);
      CountAppend(log, Answered(full, key, now, limiter.limit, limiter.interval), span);
    }
  }

  /**
   * One request opens a window, the rest of its limit follows at its last moment, and the whole limit of the next
   * window right after: the span from that last moment admits exactly one less than twice the limit.
   */
  method AttainBound(limit: nat, interval: int, key: string) returns (limiter: RequestLimiter, from: int)
    requires limit > 0 && interval > 1
    ensures limiter.Valid() && limiter.limit == limit && limiter.interval == interval
    ensures Count(limiter.log, InSpan(key, from, interval)) == 2 * limit - 1
  {
    limiter := new RequestLimiter(limit, interval, 0);
    from := interval - 1;
    ghost var span := InSpan(key, from, interval);
    var ok, wait := limiter.Allow(key, 0);
    assert limiter.log == [Entry(key, 0, 0, true)];
    assert Count(limiter.log, span) == 0 by { CountNone(limiter.log, span); }
    Repeat(limiter, key, interval - 1, limit - 1, from);
    ghost var log, full := limiter.log, limiter.full;
    ok, wait := limiter.Allow(key, interval);
    CountAppend(log, Answered(full, key, interval, limit, interval), span);
    Repeat(limiter, key, interval, limit - 1, from);
  }
}
