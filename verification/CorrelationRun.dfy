/** CorrelateWithConfig: in-place edits, an array union-find and greedy window loops. */
module CorrelationRun {
  import opened Basics
  import opened Graph
  import opened UnionFind
  import opened Correlation

  ghost predicate Bucket(fs: seq<Finding>, rule: Rule, key: string, indexes: seq<nat>) {
    && Within(indexes, |fs|)
    && (forall k :: 0 <= k < |indexes| ==> RuleKey(rule, fs[indexes[k]]) == key)
    && (forall i: nat :: i < |fs| && RuleKey(rule, fs[i]) == key ==> i in indexes)
  }

  ghost predicate SortedByTime(fs: seq<Finding>, indexes: seq<nat>)
    requires Within(indexes, |fs|)
  {
    forall a, b :: 0 <= a < b < |indexes| ==> fs[indexes[a]].updatedAt <= fs[indexes[b]].updatedAt
  }

  /** Every merge made so far is explained by a chain of links. */
  ghost predicate Sound(p: seq<nat>, edges: Edges)
    requires Forest(p)
  {
    forall i: nat, j: nat :: i < |p| && j < |p| && SameRoot(p, i, j) ==> Connected(edges, i, j)
  }

  /** Roots only merge: whatever shared a root still does. */
  ghost predicate Coarser(p: seq<nat>, q: seq<nat>)
    requires Forest(p) && Forest(q)
  {
    |p| == |q| && forall i: nat, j: nat :: i < |p| && j < |p| && SameRoot(p, i, j) ==> SameRoot(q, i, j)
  }

  ghost predicate RuleDone(p: seq<nat>, fs: seq<Finding>, config: Config, rule: Rule)
    requires Forest(p) && |p| == |fs|
  {
    forall i: nat, j: nat :: i < |fs| && j < |fs| && SameWindow(fs, config, rule, i, j) ==> SameRoot(p, i, j)
  }

  ghost predicate KeyDone(p: seq<nat>, fs: seq<Finding>, config: Config, rule: Rule, key: string)
    requires Forest(p) && |p| == |fs|
  {
    forall i: nat, j: nat :: i < |fs| && j < |fs| && RuleKey(rule, fs[i]) == key && SameWindow(fs, config, rule, i, j)
      ==> SameRoot(p, i, j)
  }

  lemma MergedIsCoarser(p: seq<nat>, q: seq<nat>, keep: nat, drop: nat)
    requires Forest(p) && Forest(q) && Merged(p, q, keep, drop)
    ensures Coarser(p, q)
  {}

  lemma MergedIsSound(p: seq<nat>, q: seq<nat>, edges: Edges, left: nat, right: nat)
    requires Forest(p) && Forest(q) && left < |p| && right < |p|
    requires Merged(p, q, RootOf(p, left), RootOf(p, right))
    requires Sound(p, edges) && Symmetric(edges) && Connected(edges, left, right)
    ensures Sound(q, edges)
  {
    ConnectedIsSymmetric(edges, left, right);
    forall i: nat, j: nat | i < |q| && j < |q| && SameRoot(q, i, j) ensures Connected(edges, i, j) {
      if !SameRoot(p, i, j) {
        if SameRoot(p, i, right) {
          assert SameRoot(p, left, j);
          Transitive(edges, i, right, left);
          Transitive(edges, i, left, j);
        } else {
          assert SameRoot(p, i, left) && SameRoot(p, right, j);
          Transitive(edges, i, left, right);
          Transitive(edges, i, right, j);
        }
      }
    }
  }

  // ---- Windows inside one bucket ----

  /** Positions below `start` lie in earlier windows than position `start`, and equal openings share a root. */
  ghost predicate PrefixDone(p: seq<nat>, fs: seq<Finding>, rule: Rule, width: nat, indexes: seq<nat>, start: nat)
    requires Forest(p) && |p| == |fs| && Within(indexes, |fs|)
  {
    forall a, b :: 0 <= a < start && 0 <= b < start && a < |indexes| && b < |indexes|
      && Opening(fs, rule, width, indexes[a]) == Opening(fs, rule, width, indexes[b])
      ==> SameRoot(p, indexes[a], indexes[b])
  }

  ghost predicate OpensHere(fs: seq<Finding>, rule: Rule, width: nat, indexes: seq<nat>, start: nat)
    requires Within(indexes, |fs|)
  {
    start < |indexes| ==>
      && Opening(fs, rule, width, indexes[start]) == fs[indexes[start]].updatedAt
      && forall a :: 0 <= a < start ==> Opening(fs, rule, width, indexes[a]) < fs[indexes[start]].updatedAt
  }

  /** Positions start..end-1 are in the window that opens at `start` and already share its root. */
  ghost predicate WindowSoFar(p: seq<nat>, fs: seq<Finding>, rule: Rule, width: nat, indexes: seq<nat>, start: nat,
                              end: nat)
    requires Forest(p) && |p| == |fs| && Within(indexes, |fs|)
  {
    start < end <= |indexes| && forall k :: start <= k < end ==>
      Opening(fs, rule, width, indexes[k]) == fs[indexes[start]].updatedAt && SameRoot(p, indexes[start], indexes[k])
  }

  lemma OpeningInBucket(fs: seq<Finding>, rule: Rule, key: string, width: nat, indexes: seq<nat>, s: nat, e: nat)
    requires Bucket(fs, rule, key, indexes) && SortedByTime(fs, indexes) && s <= e < |indexes|
    requires Opening(fs, rule, width, indexes[s]) == fs[indexes[s]].updatedAt
    ensures fs[indexes[e]].updatedAt - fs[indexes[s]].updatedAt <= width
            ==> Opening(fs, rule, width, indexes[e]) == fs[indexes[s]].updatedAt
  {
    var times := BucketTimes(fs, rule, key);
    assert fs[indexes[s]].updatedAt in times && fs[indexes[e]].updatedAt in times;
    WindowContains(times, width, LeastOf(times), fs[indexes[s]].updatedAt, fs[indexes[e]].updatedAt);
  }

  lemma FirstOpens(fs: seq<Finding>, rule: Rule, key: string, width: nat, indexes: seq<nat>)
    requires Bucket(fs, rule, key, indexes) && SortedByTime(fs, indexes)
    ensures OpensHere(fs, rule, width, indexes, 0)
  {
    if |indexes| > 0 {
      var times := BucketTimes(fs, rule, key);
      var t := fs[indexes[0]].updatedAt;
      assert t in times;
      forall x | x in times ensures t <= x {
        var i: nat :| i < |fs| && RuleKey(rule, fs[i]) == key && fs[i].updatedAt == x;
        assert i in indexes;
        var k :| 0 <= k < |indexes| && indexes[k] == i;
      }
      assert LeastOf(times) == t;
    }
  }

  lemma NextTimeIsNextOpening(fs: seq<Finding>, rule: Rule, key: string, width: nat, indexes: seq<nat>, s: nat, e: nat)
    requires Bucket(fs, rule, key, indexes) && SortedByTime(fs, indexes) && s < e < |indexes|
    requires forall k :: s <= k < e ==> fs[indexes[k]].updatedAt <= fs[indexes[s]].updatedAt + width
    requires fs[indexes[e]].updatedAt > fs[indexes[s]].updatedAt + width
    ensures fs[indexes[e]].updatedAt in BucketTimes(fs, rule, key)
    ensures NextAfter(BucketTimes(fs, rule, key), fs[indexes[s]].updatedAt + width) == fs[indexes[e]].updatedAt
  {
    var times := BucketTimes(fs, rule, key);
    var open, t := fs[indexes[s]].updatedAt, fs[indexes[e]].updatedAt;
    assert t in times;
    var next := NextAfter(times, open + width);
    var i: nat :| i < |fs| && RuleKey(rule, fs[i]) == key && fs[i].updatedAt == next;
    assert i in indexes;
    var k :| 0 <= k < |indexes| && indexes[k] == i;
    assert k >= e;
  }

  lemma NextWindowOpens(p: seq<nat>, fs: seq<Finding>, rule: Rule, key: string, width: nat, indexes: seq<nat>, s: nat,
                        e: nat)
    requires Forest(p) && |p| == |fs| && Bucket(fs, rule, key, indexes) && SortedByTime(fs, indexes)
    requires OpensHere(fs, rule, width, indexes, s) && WindowSoFar(p, fs, rule, width, indexes, s, e)
    requires e < |indexes| ==> fs[indexes[e]].updatedAt - fs[indexes[s]].updatedAt > width
    ensures OpensHere(fs, rule, width, indexes, e)
  {
    if e < |indexes| {
      var times := BucketTimes(fs, rule, key);
      var open := fs[indexes[s]].updatedAt;
      assert open in times;
      forall k | s <= k < e ensures fs[indexes[k]].updatedAt <= open + width {
        assert Opening(fs, rule, width, indexes[k]) == open;
      }
      NextTimeIsNextOpening(fs, rule, key, width, indexes, s, e);
      WindowContains(times, width, LeastOf(times), open, fs[indexes[e]].updatedAt);
    }
  }

  lemma PrefixGrows(p: seq<nat>, q: seq<nat>, fs: seq<Finding>, rule: Rule, width: nat, indexes: seq<nat>, s: nat,
                    e: nat)
    requires Forest(p) && Forest(q) && |p| == |q| == |fs|
    requires Within(indexes, |fs|)
    requires PrefixDone(p, fs, rule, width, indexes, s) && Coarser(p, q)
    requires OpensHere(fs, rule, width, indexes, s) && WindowSoFar(q, fs, rule, width, indexes, s, e)
    ensures PrefixDone(q, fs, rule, width, indexes, e)
  {
    forall a, b | 0 <= a < e && 0 <= b < e
                  && Opening(fs, rule, width, indexes[a]) == Opening(fs, rule, width, indexes[b])
      ensures SameRoot(q, indexes[a], indexes[b])
    {
      if a < s && b < s { assert SameRoot(p, indexes[a], indexes[b]); }
    }
  }

  lemma LinkedPair(fs: seq<Finding>, config: Config, rule: Rule, i: nat, j: nat)
    requires i < |fs| && j < |fs| && SameWindow(fs, config, rule, i, j)
    ensures (i, j) in Links(fs, config) && Connected(Links(fs, config), i, j)
  {
    assert Linked(fs, config, i, j);
    EdgeConnects(Links(fs, config), i, j);
  }

  lemma PrefixFinishesKey(p: seq<nat>, fs: seq<Finding>, config: Config, rule: Rule, key: string, indexes: seq<nat>)
    requires Forest(p) && |p| == |fs| && Bucket(fs, rule, key, indexes)
    requires RuleWindow(config, rule) >= 0
    requires PrefixDone(p, fs, rule, RuleWindow(config, rule), indexes, |indexes|)
    ensures KeyDone(p, fs, config, rule, key)
  {
    forall i: nat, j: nat | i < |fs| && j < |fs| && RuleKey(rule, fs[i]) == key && SameWindow(fs, config, rule, i, j)
      ensures SameRoot(p, i, j)
    {
      assert i in indexes && j in indexes;
      var a :| 0 <= a < |indexes| && indexes[a] == i;
      var b :| 0 <= b < |indexes| && indexes[b] == j;
      assert SameRoot(p, indexes[a], indexes[b]);
    }
  }

  lemma WindowExtends(p: seq<nat>, q: seq<nat>, fs: seq<Finding>, rule: Rule, width: nat, indexes: seq<nat>, s: nat,
                      e: nat)
    requires Forest(p) && Forest(q) && |p| == |q| == |fs|
    requires Within(indexes, |fs|)
    requires WindowSoFar(p, fs, rule, width, indexes, s, e) && Coarser(p, q) && e < |indexes|
    requires Opening(fs, rule, width, indexes[e]) == fs[indexes[s]].updatedAt && SameRoot(q, indexes[s], indexes[e])
    ensures WindowSoFar(q, fs, rule, width, indexes, s, e + 1)
  {
    forall k | s <= k < e + 1
      ensures Opening(fs, rule, width, indexes[k]) == fs[indexes[s]].updatedAt && SameRoot(q, indexes[s], indexes[k])
    {
      if k < e { assert SameRoot(p, indexes[s], indexes[k]); }
    }
  }

  lemma CoarserTransitive(p: seq<nat>, q: seq<nat>, r: seq<nat>)
    requires Forest(p) && Forest(q) && Forest(r) && Coarser(p, q) && Coarser(q, r)
    ensures Coarser(p, r)
  {
    forall i: nat, j: nat | i < |p| && j < |p| && SameRoot(p, i, j) ensures SameRoot(r, i, j) {
      assert SameRoot(q, i, j);
    }
  }

  /** `union` applied to a linked pair keeps the array sound and merges their roots. */
  method UnionLinked(ghost edges: Edges, left: nat, right: nat, parents: array<nat>)
    requires Forest(parents[..]) && left < parents.Length && right < parents.Length
    requires Sound(parents[..], edges) && Symmetric(edges) && Connected(edges, left, right)
    modifies parents
    ensures Forest(parents[..]) && Sound(parents[..], edges) && Coarser(old(parents[..]), parents[..])
    ensures SameRoot(parents[..], left, right)
  {
    ghost var before := parents[..];
    Union(parents, left, right);
    MergedIsSound(before, parents[..], edges, left, right);
    MergedIsCoarser(before, parents[..], RootOf(before, left), RootOf(before, right));
  }

  lemma NextInWindow(fs: seq<Finding>, config: Config, rule: Rule, key: string, indexes: seq<nat>, s: nat, e: nat)
    requires key != "" && Bucket(fs, rule, key, indexes) && SortedByTime(fs, indexes) && RuleWindow(config, rule) >= 0
    requires s <= e < |indexes| && OpensHere(fs, rule, RuleWindow(config, rule), indexes, s)
    requires fs[indexes[e]].updatedAt - fs[indexes[s]].updatedAt <= RuleWindow(config, rule)
    ensures Opening(fs, rule, RuleWindow(config, rule), indexes[e]) == fs[indexes[s]].updatedAt
    ensures Connected(Links(fs, config), indexes[s], indexes[e])
  {
    OpeningInBucket(fs, rule, key, RuleWindow(config, rule), indexes, s, e);
    LinkedPair(fs, config, rule, indexes[s], indexes[e]);
  }

  /** The body of the inner loop: the next element is within the window, so it is merged with the opening one. */
  method UnionNext(fs: seq<Finding>, config: Config, rule: Rule, key: string, indexes: seq<nat>, start: nat, end: nat,
                   parents: array<nat>, ghost edges: Edges)
    requires key != "" && Bucket(fs, rule, key, indexes) && SortedByTime(fs, indexes) && RuleWindow(config, rule) >= 0
    requires parents.Length == |fs| && start <= end < |indexes|
    requires OpensHere(fs, rule, RuleWindow(config, rule), indexes, start)
    requires fs[indexes[end]].updatedAt - fs[indexes[start]].updatedAt <= RuleWindow(config, rule)
    requires Forest(parents[..]) && edges == Links(fs, config) && Symmetric(edges) && Sound(parents[..], edges)
    requires WindowSoFar(parents[..], fs, rule, RuleWindow(config, rule), indexes, start, end)
    modifies parents
    ensures Forest(parents[..]) && Sound(parents[..], edges) && Coarser(old(parents[..]), parents[..])
    ensures WindowSoFar(parents[..], fs, rule, RuleWindow(config, rule), indexes, start, end + 1)
  {
    ghost var before := parents[..];
    NextInWindow(fs, config, rule, key, indexes, start, end);
    UnionLinked(edges, indexes[start], indexes[end], parents);
    WindowExtends(before, parents[..], fs, rule, RuleWindow(config, rule), indexes, start, end);
  }

  lemma WindowStarts(p: seq<nat>, fs: seq<Finding>, rule: Rule, width: nat, indexes: seq<nat>, s: nat)
    requires Forest(p) && |p| == |fs| && Within(indexes, |fs|)
    requires s < |indexes| && OpensHere(fs, rule, width, indexes, s)
    ensures WindowSoFar(p, fs, rule, width, indexes, s, s + 1)
  {
    forall k | s <= k < s + 1
      ensures Opening(fs, rule, width, indexes[k]) == fs[indexes[s]].updatedAt && SameRoot(p, indexes[s], indexes[k])
    {
      assert k == s;
    }
  }

  /** One greedy window: unions everything within `width` of the opening element and reports where it stopped. */
  method UnionWindow(fs: seq<Finding>, config: Config, rule: Rule, key: string, indexes: seq<nat>, start: nat,
                     parents: array<nat>, ghost edges: Edges) returns (end: nat)
    requires Forest(parents[..]) && parents.Length == |fs| && key != "" && start < |indexes|
    requires Bucket(fs, rule, key, indexes) && SortedByTime(fs, indexes) && RuleWindow(config, rule) >= 0
    requires OpensHere(fs, rule, RuleWindow(config, rule), indexes, start)
    requires edges == Links(fs, config) && Sound(parents[..], edges)
    modifies parents
    ensures Forest(parents[..]) && Sound(parents[..], edges) && Coarser(old(parents[..]), parents[..])
    ensures WindowSoFar(parents[..], fs, rule, RuleWindow(config, rule), indexes, start, end)
    ensures end < |indexes| ==> fs[indexes[end]].updatedAt - fs[indexes[start]].updatedAt > RuleWindow(config, rule)
  {
    ghost var first := parents[..];
    LinksAreSymmetric(fs, config);
    WindowStarts(first, fs, rule, RuleWindow(config, rule), indexes, start);
    end := start + 1;
    while end < |indexes| && fs[indexes[end]].updatedAt - fs[indexes[start]].updatedAt <= RuleWindow(config, rule)
      invariant start < end <= |indexes|
      invariant Forest(parents[..]) && Sound(parents[..], edges) && Coarser(first, parents[..])
      invariant WindowSoFar(parents[..], fs, rule, RuleWindow(config, rule), indexes, start, end)
    {
      ghost var before := parents[..];
      UnionNext(fs, config, rule, key, indexes, start, end, parents, edges);
      CoarserTransitive(first, before, parents[..]);
      end := end + 1;
    }
  }

  /** All windows of one bucket. */
  method UnionBucket(fs: seq<Finding>, config: Config, rule: Rule, key: string, indexes: seq<nat>,
                     parents: array<nat>, ghost edges: Edges)
    requires Forest(parents[..]) && parents.Length == |fs| && key != ""
    requires Bucket(fs, rule, key, indexes) && SortedByTime(fs, indexes)
    requires edges == Links(fs, config) && Sound(parents[..], edges)
    modifies parents
    ensures Forest(parents[..]) && Sound(parents[..], edges) && Coarser(old(parents[..]), parents[..])
    ensures KeyDone(parents[..], fs, config, rule, key)
  {
    if RuleWindow(config, rule) < 0 {
      // Sorted times never lie a negative distance apart, so every window would hold one element.
      return;
    }
    var start := 0;
    ghost var first := parents[..];
    ghost var width := RuleWindow(config, rule);
    FirstOpens(fs, rule, key, width, indexes);
    while start < |indexes|
      invariant start <= |indexes|
      invariant Forest(parents[..]) && Sound(parents[..], edges) && Coarser(first, parents[..])
      invariant OpensHere(fs, rule, width, indexes, start)
      invariant PrefixDone(parents[..], fs, rule, width, indexes, start)
    {
      ghost var before := parents[..];
      var end := UnionWindow(fs, config, rule, key, indexes, start, parents, edges);
      CoarserTransitive(first, before, parents[..]);
      PrefixGrows(before, parents[..], fs, rule, width, indexes, start, end);
      NextWindowOpens(parents[..], fs, rule, key, width, indexes, start, end);
      start := end;
    }
    PrefixFinishesKey(parents[..], fs, config, rule, key, indexes);
  }

  // ---- Buckets and rules ----

  /** `byKey` for one rule: findings without the key are skipped. */
  method BuildBuckets(findings: array<Finding>, rule: Rule) returns (byKey: map<string, seq<nat>>)
    ensures "" !in byKey
    ensures forall key :: key in byKey ==> Bucket(findings[..], rule, key, byKey[key])
    ensures forall i: nat :: i < findings.Length && RuleKey(rule, findings[i]) != "" ==>
              RuleKey(rule, findings[i]) in byKey
  {
    byKey := map[];
    for index := 0 to findings.Length
      invariant "" !in byKey
      invariant forall key :: key in byKey ==> forall k :: 0 <= k < |byKey[key]| ==>
        byKey[key][k] < index && RuleKey(rule, findings[byKey[key][k]]) == key
      invariant forall i: nat :: i < index && RuleKey(rule, findings[i]) != "" ==>
        RuleKey(rule, findings[i]) in byKey && i in byKey[RuleKey(rule, findings[i])]
    {
      var key := RuleKey(rule, findings[index]);
      if key != "" {
        var soFar := if key in byKey then byKey[key] else [];
        byKey := byKey[key := soFar + [index]];
      }
    }
  }

  lemma InsertKeepsElements(x: nat, indexes: seq<nat>, at: nat)
    requires at <= |indexes|
    ensures multiset(indexes[..at] + [x] + indexes[at..]) == multiset(indexes) + multiset{x}
  {
    assert indexes == indexes[..at] + indexes[at..];
  }

  lemma InsertKeepsOrder(fs: seq<Finding>, x: nat, indexes: seq<nat>, at: nat, sorted: seq<nat>)
    requires x < |fs| && at <= |indexes| && sorted == indexes[..at] + [x] + indexes[at..]
    requires Within(indexes, |fs|) && SortedByTime(fs, indexes)
    requires at > 0 ==> fs[indexes[at - 1]].updatedAt <= fs[x].updatedAt
    requires at < |indexes| ==> fs[x].updatedAt <= fs[indexes[at]].updatedAt
    ensures Within(sorted, |fs|) && SortedByTime(fs, sorted)
  {
    forall a, b | 0 <= a < b < |sorted| ensures fs[sorted[a]].updatedAt <= fs[sorted[b]].updatedAt {
      assert a < at ==> sorted[a] == indexes[a];
      assert a > at ==> sorted[a] == indexes[a - 1];
      assert b < at ==> sorted[b] == indexes[b];
      assert b > at ==> sorted[b] == indexes[b - 1];
    }
  }

  method InsertByTime(fs: seq<Finding>, x: nat, indexes: seq<nat>) returns (sorted: seq<nat>)
    requires x < |fs| && Within(indexes, |fs|) && SortedByTime(fs, indexes)
    ensures multiset(sorted) == multiset(indexes) + multiset{x}
    ensures Within(sorted, |fs|) && SortedByTime(fs, sorted)
  {
    var at := 0;
    while at < |indexes| && fs[indexes[at]].updatedAt <= fs[x].updatedAt
      invariant at <= |indexes|
      invariant at > 0 ==> fs[indexes[at - 1]].updatedAt <= fs[x].updatedAt
    {
      at := at + 1;
    }
    sorted := indexes[..at] + [x] + indexes[at..];
    InsertKeepsElements(x, indexes, at);
    InsertKeepsOrder(fs, x, indexes, at, sorted);
  }

  /** `sort.Slice` by timestamp; callers learn only that the result is a time-sorted rearrangement, so ties are free. */
  method SortByTime(fs: seq<Finding>, indexes: seq<nat>) returns (sorted: seq<nat>)
    requires Within(indexes, |fs|)
    ensures multiset(sorted) == multiset(indexes)
    ensures Within(sorted, |fs|) && SortedByTime(fs, sorted)
  {
    sorted := [];
    for at := 0 to |indexes|
      invariant multiset(sorted) == multiset(indexes[..at])
      invariant Within(sorted, |fs|) && SortedByTime(fs, sorted)
    {
      assert indexes[..at + 1] == indexes[..at] + [indexes[at]];
      sorted := InsertByTime(fs, indexes[at], sorted);
    }
    assert indexes[..|indexes|] == indexes;
  }

  lemma SortKeepsBucket(fs: seq<Finding>, rule: Rule, key: string, indexes: seq<nat>, sorted: seq<nat>)
    requires Bucket(fs, rule, key, indexes) && multiset(sorted) == multiset(indexes)
    ensures Bucket(fs, rule, key, sorted)
  {
    forall i: nat | i in indexes ensures i in sorted {
      assert i in multiset(sorted);
    }
    forall k | 0 <= k < |sorted| ensures sorted[k] < |fs| && RuleKey(rule, fs[sorted[k]]) == key {
      assert sorted[k] in multiset(indexes);
      assert sorted[k] in indexes;
    }
  }

  lemma CoarserKeepsKey(p: seq<nat>, q: seq<nat>, fs: seq<Finding>, config: Config, rule: Rule, key: string)
    requires Forest(p) && Forest(q) && |p| == |fs| && Coarser(p, q) && KeyDone(p, fs, config, rule, key)
    ensures KeyDone(q, fs, config, rule, key)
  {
    forall i: nat, j: nat | i < |fs| && j < |fs| && RuleKey(rule, fs[i]) == key && SameWindow(fs, config, rule, i, j)
      ensures SameRoot(q, i, j)
    {
      assert SameRoot(p, i, j);
    }
  }

  lemma KeysFinishRule(p: seq<nat>, fs: seq<Finding>, config: Config, rule: Rule, keys: set<string>)
    requires Forest(p) && |p| == |fs|
    requires forall key :: key in keys ==> KeyDone(p, fs, config, rule, key)
    requires forall i: nat :: i < |fs| && RuleKey(rule, fs[i]) != "" ==> RuleKey(rule, fs[i]) in keys
    ensures RuleDone(p, fs, config, rule)
  {
    forall i: nat, j: nat | i < |fs| && j < |fs| && SameWindow(fs, config, rule, i, j) ensures SameRoot(p, i, j) {
      assert KeyDone(p, fs, config, rule, RuleKey(rule, fs[i]));
    }
  }

  /** One rule; Go visits the buckets in an arbitrary order and so does this loop. */
  method UnionRule(findings: array<Finding>, config: Config, rule: Rule, parents: array<nat>, ghost edges: Edges)
    requires parents.Length == findings.Length && Forest(parents[..])
    requires edges == Links(findings[..], config) && Sound(parents[..], edges)
    modifies parents
    ensures Forest(parents[..]) && Sound(parents[..], edges) && Coarser(old(parents[..]), parents[..])
    ensures RuleDone(parents[..], findings[..], config, rule)
  {
    var byKey := BuildBuckets(findings, rule);
    var fs := findings[..];
    var todo := byKey.Keys;
    ghost var first := parents[..];
    while todo != {}
      invariant todo <= byKey.Keys
      invariant Forest(parents[..]) && Sound(parents[..], edges) && Coarser(first, parents[..])
      invariant forall key :: key in byKey && key !in todo ==> KeyDone(parents[..], fs, config, rule, key)
      decreases todo
    {
      var key :| key in todo;
      ghost var before := parents[..];
      var sorted := SortByTime(fs, byKey[key]);
      SortKeepsBucket(fs, rule, key, byKey[key], sorted);
      UnionBucket(fs, config, rule, key, sorted, parents, edges);
      CoarserTransitive(first, before, parents[..]);
      forall other | other in byKey && other !in todo ensures KeyDone(parents[..], fs, config, rule, other) {
        CoarserKeepsKey(before, parents[..], fs, config, rule, other);
      }
      todo := todo - {key};
    }
    KeysFinishRule(parents[..], fs, config, rule, byKey.Keys);
  }

  // ---- The forest is the component partition ----

  ghost predicate IsPartition(p: seq<nat>, edges: Edges)
    requires Forest(p)
  {
    forall i: nat, j: nat :: i < |p| && j < |p| ==> (SameRoot(p, i, j) <==> Connected(edges, i, j))
  }

  lemma {:induction false} PathSharesRoot(p: seq<nat>, fs: seq<Finding>, config: Config, path: seq<nat>)
    requires Forest(p) && |p| == |fs| && IsPath(Links(fs, config), path) && path[0] < |fs|
    requires forall rule :: RuleDone(p, fs, config, rule)
    ensures path[|path| - 1] < |fs| && SameRoot(p, path[0], path[|path| - 1])
  {
    if |path| > 1 {
      var e := (path[0], path[0 + 1]);
      assert e in Links(fs, config);
      assert Linked(fs, config, e.0, e.1);
      var rule :| SameWindow(fs, config, rule, e.0, e.1);
      assert RuleDone(p, fs, config, rule);
      var rest := path[1..];
      forall k | 0 <= k < |rest| - 1 ensures (rest[k], rest[k + 1]) in Links(fs, config) {
        assert (path[k + 1], path[k + 1 + 1]) in Links(fs, config);
      }
      PathSharesRoot(p, fs, config, rest);
    }
  }

  lemma RulesFinishPartition(p: seq<nat>, fs: seq<Finding>, config: Config)
    requires Forest(p) && |p| == |fs| && Sound(p, Links(fs, config))
    requires forall rule :: RuleDone(p, fs, config, rule)
    ensures IsPartition(p, Links(fs, config))
  {
    forall i: nat, j: nat | i < |p| && j < |p| && Connected(Links(fs, config), i, j) ensures SameRoot(p, i, j) {
      var path :| Joins(Links(fs, config), path, i, j);
      PathSharesRoot(p, fs, config, path);
    }
  }

  lemma CoarserKeepsRule(p: seq<nat>, q: seq<nat>, fs: seq<Finding>, config: Config, rule: Rule)
    requires Forest(p) && Forest(q) && |p| == |fs| && Coarser(p, q) && RuleDone(p, fs, config, rule)
    ensures RuleDone(q, fs, config, rule)
  {
    forall i: nat, j: nat | i < |fs| && j < |fs| && SameWindow(fs, config, rule, i, j) ensures SameRoot(q, i, j) {
      assert SameRoot(p, i, j);
    }
  }

  lemma IdentityIsSound(p: seq<nat>, edges: Edges)
    requires Forest(p) && forall i :: 0 <= i < |p| ==> RootOf(p, i) == i
    ensures Sound(p, edges)
  {
    forall i: nat, j: nat | i < |p| && j < |p| && SameRoot(p, i, j) ensures Connected(edges, i, j) {
      Reflexive(edges, i);
    }
  }

  lemma RulesStayDone(p: seq<nat>, q: seq<nat>, fs: seq<Finding>, config: Config, at: nat)
    requires Forest(p) && Forest(q) && |p| == |fs| && Coarser(p, q) && at <= |RULES|
    requires forall k :: 0 <= k < at ==> RuleDone(p, fs, config, RULES[k])
    ensures forall k :: 0 <= k < at ==> RuleDone(q, fs, config, RULES[k])
  {
    forall k | 0 <= k < at ensures RuleDone(q, fs, config, RULES[k]) {
      CoarserKeepsRule(p, q, fs, config, RULES[k]);
    }
  }

  method UnionRules(findings: array<Finding>, config: Config, parents: array<nat>, ghost edges: Edges)
    requires parents.Length == findings.Length && Forest(parents[..])
    requires edges == Links(findings[..], config) && Sound(parents[..], edges)
    modifies parents
    ensures Forest(parents[..]) && Sound(parents[..], edges)
    ensures forall k :: 0 <= k < |RULES| ==> RuleDone(parents[..], findings[..], config, RULES[k])
  {
    ghost var fs := findings[..];
    for at := 0 to |RULES|
      invariant Forest(parents[..]) && Sound(parents[..], edges)
      invariant forall k :: 0 <= k < at ==> RuleDone(parents[..], fs, config, RULES[k])
    {
      ghost var before := parents[..];
      UnionRule(findings, config, RULES[at], parents, edges);
      RulesStayDone(before, parents[..], fs, config, at);
    }
  }

  /** All four rules: two findings share a root exactly when a chain of links joins them. */
  method UnionAll(findings: array<Finding>, config: Config) returns (parents: array<nat>)
    ensures fresh(parents) && parents.Length == findings.Length
    ensures Forest(parents[..]) && IsPartition(parents[..], Links(findings[..], config))
  {
    parents := new nat[findings.Length](i => i);
    IdentityIsForest(parents[..]);
    IdentityIsSound(parents[..], Links(findings[..], config));
    UnionRules(findings, config, parents, Links(findings[..], config));
    EveryRuleListed(parents[..], findings[..], config);
    RulesFinishPartition(parents[..], findings[..], config);
  }

  lemma EveryRuleListed(p: seq<nat>, fs: seq<Finding>, config: Config)
    requires Forest(p) && |p| == |fs|
    requires forall k :: 0 <= k < |RULES| ==> RuleDone(p, fs, config, RULES[k])
    ensures forall rule :: RuleDone(p, fs, config, rule)
  {
    forall rule ensures RuleDone(p, fs, config, rule) {
      var k := match rule {
        case SameWorkload => 0
        case SameImage => 1
        case SameIdentity => 2
        case SameNetworkExposure => 3
      };
      assert RULES[k] == rule;
    }
  }

  // ---- Groups ----

  ghost function RootMembers(p: seq<nat>, n: nat, root: nat): seq<nat>
    requires Forest(p) && n <= |p|
  {
    if n == 0 then []
    else if RootOf(p, n - 1) == root then RootMembers(p, n - 1, root) + [n - 1]
    else RootMembers(p, n - 1, root)
  }

  lemma {:induction false} RootMembersAreMembers(p: seq<nat>, edges: Edges, n: nat, i: nat)
    requires Forest(p) && n <= |p| && i < |p| && IsPartition(p, edges)
    ensures RootMembers(p, n, RootOf(p, i)) == Members(n, edges, i)
  {
    if n > 0 {
      RootMembersAreMembers(p, edges, n - 1, i);
      assert SameRoot(p, i, n - 1) <==> Connected(edges, i, n - 1);
    }
  }

  /** `groups`: the indexes under each root, in ascending order. Compression inside `find` leaves the roots alone. */
  method GroupByRoot(parents: array<nat>) returns (groups: map<nat, seq<nat>>)
    requires Forest(parents[..])
    modifies parents
    ensures Forest(parents[..]) && SameRoots(old(parents[..]), parents[..])
    ensures forall root: nat :: root in groups <==> RootMembers(old(parents[..]), parents.Length, root) != []
    ensures forall root: nat :: root in groups ==> groups[root] == RootMembers(old(parents[..]), parents.Length, root)
  {
    ghost var p := parents[..];
    groups := map[];
    for index := 0 to parents.Length
      invariant Forest(parents[..]) && SameRoots(p, parents[..])
      invariant forall root: nat :: root in groups <==> RootMembers(p, index, root) != []
      invariant forall root: nat :: root in groups ==> groups[root] == RootMembers(p, index, root)
    {
      var root := Find(parents, index);
      var soFar := if root in groups then groups[root] else [];
      groups := groups[root := soFar + [index]];
    }
  }

  method SumPoints(factors: seq<Factor>, base: int) returns (final: int)
    ensures final == base + Total(factors)
  {
    final := base;
    for at := 0 to |factors|
      invariant final == base + Total(factors[..at])
    {
      assert factors[..at + 1][..at] == factors[..at];
      final := final + factors[at].points;
    }
    assert factors[..|factors|] == factors;
  }

  method ComputeScore(f: Finding, sourceCount: nat, groupSize: nat, config: Config) returns (explanation: Explanation)
    ensures explanation == Score(f, sourceCount, groupSize, config)
  {
    var base := BaseScore(f.severity, config);
    var factors := Factors(f, sourceCount, groupSize, config);
    var final := SumPoints(factors, base);
    if final > 100 { final := 100; }
    explanation := Explanation(base, factors, final);
  }

  method CollectGroup(fs: seq<Finding>, indexes: seq<nat>) returns (ids: seq<string>, sources: set<string>)
    requires Within(indexes, |fs|)
    ensures ids == IdsOf(fs, indexes) && sources == SourcesOf(fs, indexes)
  {
    ids, sources := [], {};
    for at := 0 to |indexes|
      invariant |ids| == at && forall k :: 0 <= k < at ==> ids[k] == fs[indexes[k]].id
      invariant sources == set k | 0 <= k < at :: fs[indexes[k]].source
    {
      ids := ids + [fs[indexes[at]].id];
      sources := sources + {fs[indexes[at]].source};
    }
  }

  predicate Ascending(indexes: seq<nat>) {
    forall a, b :: 0 <= a < b < |indexes| ==> indexes[a] < indexes[b]
  }

  /** The first `at` members carry their note; every other element is as it was. */
  ghost predicate NotedUpTo(findings: seq<Finding>, fs: seq<Finding>, notes: seq<Finding>, indexes: seq<nat>, at: nat)
    requires |findings| == |notes| == |fs| && at <= |indexes|
  {
    forall i: nat :: i < |fs| ==> findings[i] == if i in indexes[..at] then notes[i] else fs[i]
  }

  lemma NoteStep(before: seq<Finding>, fs: seq<Finding>, notes: seq<Finding>, indexes: seq<nat>, at: nat)
    requires |before| == |notes| == |fs| && at < |indexes| && indexes[at] < |fs|
    requires NotedUpTo(before, fs, notes, indexes, at)
    ensures NotedUpTo(before[indexes[at] := notes[indexes[at]]], fs, notes, indexes, at + 1)
  {
    assert indexes[..at + 1] == indexes[..at] + [indexes[at]];
  }

  lemma NotYetNoted(indexes: seq<nat>, at: nat)
    requires Ascending(indexes) && at < |indexes|
    ensures indexes[at] !in indexes[..at]
  {}

  ghost function Notes(fs: seq<Finding>, indexes: seq<nat>, config: Config): (notes: seq<Finding>)
    requires Within(indexes, |fs|)
    ensures |notes| == |fs| && forall i :: 0 <= i < |fs| ==> notes[i] == Annotate(fs, indexes, i, config)
  {
    seq(|fs|, i requires 0 <= i < |fs| => Annotate(fs, indexes, i, config))
  }

  /** Writes the group name, explanation and score into every member, in place. */
  method AnnotateGroup(findings: array<Finding>, indexes: seq<nat>, config: Config)
    requires Within(indexes, findings.Length) && Ascending(indexes)
    modifies findings
    ensures forall i: nat :: i < findings.Length ==>
      findings[i] == if i in indexes then Annotate(old(findings[..]), indexes, i, config) else old(findings[i])
  {
    ghost var fs := findings[..];
    ghost var notes := Notes(fs, indexes, config);
    var ids, sources := CollectGroup(findings[..], indexes);
    var group := Corr(SortStrings(ids));
    for at := 0 to |indexes|
      invariant NotedUpTo(findings[..], fs, notes, indexes, at)
    {
      var index := indexes[at];
      NotYetNoted(indexes, at);
      NoteStep(findings[..], fs, notes, indexes, at);
      var explanation := ComputeScore(findings[index], |sources|, |indexes|, config);
      ghost var before := findings[..];
      findings[index] := findings[index].(group := group, explanation := explanation,
                                          riskScore := explanation.finalScore);
      assert findings[..] == before[index := notes[index]];
    }
    assert indexes[..|indexes|] == indexes;
  }

  // ---- The whole of CorrelateWithConfig ----

  ghost predicate GroupDone(findings: seq<Finding>, fs: seq<Finding>, p: seq<nat>, config: Config, todo: set<nat>)
    requires Forest(p) && |p| == |fs| == |findings|
  {
    forall i: nat :: i < |fs| ==> findings[i] == if RootOf(p, i) in todo then fs[i] else Annotated(fs, config, i)
  }

  lemma GroupIsComponent(fs: seq<Finding>, config: Config, p: seq<nat>, root: nat)
    requires Forest(p) && |p| == |fs| && IsPartition(p, Links(fs, config))
    requires RootMembers(p, |fs|, root) != []
    ensures Within(RootMembers(p, |fs|, root), |fs|) && Ascending(RootMembers(p, |fs|, root))
    ensures forall i: nat :: i < |fs| ==> (i in RootMembers(p, |fs|, root) <==> RootOf(p, i) == root)
    ensures forall i: nat :: i < |fs| && RootOf(p, i) == root ==>
      RootMembers(p, |fs|, root) == Members(|fs|, Links(fs, config), i)
  {
    var edges := Links(fs, config);
    RootMembersExact(p, |fs|, root);
    var first := RootMembers(p, |fs|, root)[0];
    assert first in RootMembers(p, |fs|, root);
    RootMembersAreMembers(p, edges, |fs|, first);
    MembersAscend(|fs|, edges, first);
    forall i: nat | i < |fs| && RootOf(p, i) == root
      ensures RootMembers(p, |fs|, root) == Members(|fs|, Links(fs, config), i)
    {
      RootMembersAreMembers(p, edges, |fs|, i);
    }
  }

  lemma {:induction false} RootMembersExact(p: seq<nat>, n: nat, root: nat)
    requires Forest(p) && n <= |p|
    ensures forall m: nat :: m in RootMembers(p, n, root) <==> m < n && RootOf(p, m) == root
  {
    if n > 0 { RootMembersExact(p, n - 1, root); }
  }

  lemma GroupStep(before: seq<Finding>, after: seq<Finding>, fs: seq<Finding>, p: seq<nat>, config: Config,
                  todo: set<nat>, root: nat)
    requires Forest(p) && |p| == |fs| == |before| == |after| && IsPartition(p, Links(fs, config))
    requires root in todo && RootMembers(p, |fs|, root) != []
    requires GroupDone(before, fs, p, config, todo)
    requires Within(RootMembers(p, |fs|, root), |fs|)
    requires forall i: nat :: i < |fs| ==>
      after[i] == if i in RootMembers(p, |fs|, root) then Annotate(before, RootMembers(p, |fs|, root), i, config)
        else before[i]
    ensures GroupDone(after, fs, p, config, todo - {root})
  {
    GroupIsComponent(fs, config, p, root);
    var members := RootMembers(p, |fs|, root);
    forall k | 0 <= k < |members| ensures before[members[k]] == fs[members[k]] {
      assert members[k] in members;
    }
    assert IdsOf(before, members) == IdsOf(fs, members);
    assert SourcesOf(before, members) == SourcesOf(fs, members);
  }

  method EnsureEvery(input: seq<Finding>) returns (findings: array<Finding>)
    ensures fresh(findings) && findings[..] == EnsureAll(input)
  {
    findings := new Finding[|input|](i requires 0 <= i < |input| => input[i]);
    for index := 0 to findings.Length
      invariant forall i :: 0 <= i < findings.Length ==>
                  findings[i] == if i < index then EnsureKeys(input[i]) else input[i]
    {
      findings[index] := EnsureKeys(findings[index]);
    }
  }

  method CorrelateWithConfig(input: seq<Finding>, config: Config) returns (result: seq<Finding>)
    ensures result == CorrelateSpec(input, config)
  {
    var findings := EnsureEvery(input);
    ghost var fs := findings[..];
    var parents := UnionAll(findings, config);
    ghost var p := parents[..];
    var groups := GroupByRoot(parents);
    var todo := groups.Keys;
    forall i: nat | i < |fs| ensures RootOf(p, i) in todo {
      RootMembersExact(p, |fs|, RootOf(p, i));
      assert i in RootMembers(p, |fs|, RootOf(p, i));
    }
    while todo != {}
      invariant todo <= groups.Keys
      invariant GroupDone(findings[..], fs, p, config, todo)
      decreases todo
    {
      var root :| root in todo;
      ghost var before := findings[..];
      GroupIsComponent(fs, config, p, root);
      AnnotateGroup(findings, groups[root], config);
      GroupStep(before, findings[..], fs, p, config, todo, root);
      todo := todo - {root};
    }
    result := findings[..];
  }
}
