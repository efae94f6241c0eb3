/** Laws of the correlation result that do not mention how it is computed. */
module CorrelationLaws {
  import opened Basics
  import opened Graph
  import opened Correlation

  // ---- Configuration and score bounds ----

  predicate Between(v: int, low: int, high: int) { low <= v <= high }

  predicate SafeConfig(c: Config) {
    && 100 >= c.criticalBase >= c.highBase >= c.mediumBase >= c.lowBase >= c.infoBase >= 0
    && Between(c.multiSourcePoints, 0, 20) && Between(c.correlatedPointsCap, 0, 20) && Between(c.networkPoints, 0, 20)
    && Between(c.identityPoints, 0, 20) && Between(c.imagePoints, 0, 20) && Between(c.multiResourcePointsCap, 0, 20)
    && Between(c.workloadWindowMinutes, 1, 10080) && Between(c.imageWindowMinutes, 1, 10080)
    && Between(c.identityWindowMinutes, 1, 10080) && Between(c.networkWindowMinutes, 1, 10080)
  }

  lemma AcceptedConfigs(c: Config)
    ensures CheckConfig(c).Ok? <==> SafeConfig(c)
    ensures CheckConfig(c).Ok? ==> CheckConfig(c).value == c
    ensures CheckConfig(DefaultConfig()).Ok?
  {
    var points := [c.multiSourcePoints, c.correlatedPointsCap, c.networkPoints, c.identityPoints, c.imagePoints,
                   c.multiResourcePointsCap];
    var windows := [c.workloadWindowMinutes, c.imageWindowMinutes, c.identityWindowMinutes, c.networkWindowMinutes];
    assert points[0] in points && points[1] in points && points[2] in points && points[3] in points
           && points[4] in points && points[5] in points;
    assert windows[0] in windows && windows[1] in windows && windows[2] in windows && windows[3] in windows;
  }

  predicate NonNegative(factors: seq<Factor>) {
    forall k :: 0 <= k < |factors| ==> factors[k].points >= 0
  }

  lemma {:induction false} TotalIsNonNegative(factors: seq<Factor>)
    requires NonNegative(factors)
    ensures Total(factors) >= 0
  {
    if |factors| > 0 { TotalIsNonNegative(factors[..|factors| - 1]); }
  }

  lemma JoinNonNegative(a: seq<Factor>, b: seq<Factor>)
    requires NonNegative(a) && NonNegative(b)
    ensures NonNegative(a + b)
  {}

  lemma FactorsAreNonNegative(f: Finding, sourceCount: nat, groupSize: nat, config: Config)
    requires SafeConfig(config)
    ensures NonNegative(Factors(f, sourceCount, groupSize, config))
  {
    var a := When(sourceCount > 1, Factor("multi-source-corroboration", config.multiSourcePoints));
    var b := When(groupSize > 1, Factor("correlated-findings", Min(config.correlatedPointsCap, groupSize - 1)));
    var c := When(f.keys.networkExposure != "", Factor("network-exposure", config.networkPoints));
    var d := When(f.keys.identity != "", Factor("identity-impact", config.identityPoints));
    var e := When(f.keys.image != "", Factor("image-reuse", config.imagePoints));
    var g := When(|f.resources| > 1,
                  Factor("multi-resource-blast-radius", Min(config.multiResourcePointsCap, |f.resources|)));
    JoinNonNegative(a, b);
    JoinNonNegative(a + b, c);
    JoinNonNegative(a + b + c, d);
    JoinNonNegative(a + b + c + d, e);
    JoinNonNegative(a + b + c + d + e, g);
  }

  lemma ScoreIsBounded(f: Finding, sourceCount: nat, groupSize: nat, config: Config)
    requires CheckConfig(config).Ok?
    ensures var e := Score(f, sourceCount, groupSize, config);
            0 <= e.baseScore <= e.finalScore <= 100 && e.finalScore == Min(100, e.baseScore + Total(e.factors))
  {
    AcceptedConfigs(config);
    FactorsAreNonNegative(f, sourceCount, groupSize, config);
    TotalIsNonNegative(Factors(f, sourceCount, groupSize, config));
  }

  lemma AnnotationIsBounded(fs: seq<Finding>, members: seq<nat>, i: nat, config: Config)
    requires CheckConfig(config).Ok? && i < |fs| && Within(members, |fs|)
    ensures var f := Annotate(fs, members, i, config);
            && f.explanation.Explanation? && f.riskScore == f.explanation.finalScore
            && 0 <= f.explanation.baseScore <= f.explanation.finalScore <= 100
            && f.explanation.finalScore == Min(100, f.explanation.baseScore + Total(f.explanation.factors))
  {
    ScoreIsBounded(fs[i], |SourcesOf(fs, members)|, |members|, config);
  }

  /** Every score produced under an accepted configuration adds bounded points to its base, capped at 100. */
  lemma ScoresAreBounded(input: seq<Finding>, config: Config, i: nat)
    requires CheckConfig(config).Ok? && i < |input|
    ensures var e := CorrelateSpec(input, config)[i].explanation;
            && e.Explanation?
            && 0 <= e.baseScore <= e.finalScore <= 100
            && e.finalScore == Min(100, e.baseScore + Total(e.factors))
            && CorrelateSpec(input, config)[i].riskScore == e.finalScore
  {
    var fs := EnsureAll(input);
    MembersAscend(|fs|, Links(fs, config), i);
    AnnotationIsBounded(fs, Members(|fs|, Links(fs, config), i), i, config);
  }

  // ---- Windows ----

  /** Two findings in one window lie within the rule's window of each other, so no greedy window is too long. */
  lemma WindowSpan(fs: seq<Finding>, config: Config, rule: Rule, i: nat, j: nat)
    requires i < |fs| && j < |fs| && SameWindow(fs, config, rule, i, j)
    ensures -RuleWindow(config, rule) <= fs[i].updatedAt - fs[j].updatedAt <= RuleWindow(config, rule)
  {}

  // ---- The result depends on neither order nor earlier annotations ----

  /** A finding with everything that correlation writes erased. */
  function Core(f: Finding): Finding {
    f.(group := Ungrouped, explanation := NotScored, riskScore := 0)
  }

  predicate Inverse(pi: seq<nat>, inv: seq<nat>) {
    && |pi| == |inv|
    && (forall k :: 0 <= k < |pi| ==> pi[k] < |inv| && inv[pi[k]] == k)
    && (forall i :: 0 <= i < |inv| ==> inv[i] < |pi| && pi[inv[i]] == i)
  }

  /** `gs` lists the findings of `fs` in the order `pi`, up to earlier annotations. */
  predicate Relisted(fs: seq<Finding>, gs: seq<Finding>, pi: seq<nat>, inv: seq<nat>) {
    && |fs| == |gs| == |pi| && Inverse(pi, inv)
    && forall k :: 0 <= k < |gs| ==> Core(gs[k]) == Core(fs[pi[k]])
  }

  lemma RelistedBack(fs: seq<Finding>, gs: seq<Finding>, pi: seq<nat>, inv: seq<nat>)
    requires Relisted(fs, gs, pi, inv)
    ensures Relisted(gs, fs, inv, pi)
  {
    forall i | 0 <= i < |fs| ensures Core(fs[i]) == Core(gs[inv[i]]) {
      assert Core(gs[inv[i]]) == Core(fs[pi[inv[i]]]);
    }
  }

  lemma SameTimes(fs: seq<Finding>, gs: seq<Finding>, pi: seq<nat>, inv: seq<nat>, rule: Rule, key: string)
    requires Relisted(fs, gs, pi, inv)
    ensures BucketTimes(fs, rule, key) == BucketTimes(gs, rule, key)
  {
    forall t | t in BucketTimes(gs, rule, key) ensures t in BucketTimes(fs, rule, key) {
      var k :| 0 <= k < |gs| && RuleKey(rule, gs[k]) == key && gs[k].updatedAt == t;
      assert Core(gs[k]) == Core(fs[pi[k]]);
      assert RuleKey(rule, fs[pi[k]]) == key && fs[pi[k]].updatedAt == t;
    }
    forall t | t in BucketTimes(fs, rule, key) ensures t in BucketTimes(gs, rule, key) {
      var i :| 0 <= i < |fs| && RuleKey(rule, fs[i]) == key && fs[i].updatedAt == t;
      assert Core(gs[inv[i]]) == Core(fs[pi[inv[i]]]);
      assert RuleKey(rule, gs[inv[i]]) == key && gs[inv[i]].updatedAt == t;
    }
  }

  lemma SameOpening(fs: seq<Finding>, gs: seq<Finding>, pi: seq<nat>, inv: seq<nat>, rule: Rule, width: nat, k: nat)
    requires Relisted(fs, gs, pi, inv) && k < |gs|
    ensures RuleKey(rule, gs[k]) == RuleKey(rule, fs[pi[k]])
    ensures Opening(gs, rule, width, k) == Opening(fs, rule, width, pi[k])
  {
    SameTimes(fs, gs, pi, inv, rule, RuleKey(rule, gs[k]));
    assert Core(gs[k]) == Core(fs[pi[k]]);
    assert gs[k].keys == fs[pi[k]].keys && gs[k].updatedAt == fs[pi[k]].updatedAt;
  }

  lemma SameLinks(fs: seq<Finding>, gs: seq<Finding>, pi: seq<nat>, inv: seq<nat>, config: Config, k: nat, l: nat)
    requires Relisted(fs, gs, pi, inv) && (k, l) in Links(gs, config)
    ensures k < |gs| && l < |gs| && (pi[k], pi[l]) in Links(fs, config)
  {
    var rule :| SameWindow(gs, config, rule, k, l);
    SameOpening(fs, gs, pi, inv, rule, RuleWindow(config, rule), k);
    SameOpening(fs, gs, pi, inv, rule, RuleWindow(config, rule), l);
    assert SameWindow(fs, config, rule, pi[k], pi[l]);
    assert Linked(fs, config, pi[k], pi[l]);
  }

  lemma SameConnections(fs: seq<Finding>, gs: seq<Finding>, pi: seq<nat>, inv: seq<nat>, config: Config, k: nat, l: nat)
    requires Relisted(fs, gs, pi, inv) && k < |gs| && l < |gs| && Connected(Links(gs, config), k, l)
    ensures Connected(Links(fs, config), pi[k], pi[l])
  {
    var path :| Joins(Links(gs, config), path, k, l);
    forall m | 0 <= m < |path| ensures path[m] < |gs| {
      if m + 1 < |path| {
        SameLinks(fs, gs, pi, inv, config, path[m], path[m + 1]);
      }
    }
    var mapped := seq(|path|, m requires 0 <= m < |path| => pi[path[m]]);
    forall m | 0 <= m < |mapped| - 1 ensures (mapped[m], mapped[m + 1]) in Links(fs, config) {
      SameLinks(fs, gs, pi, inv, config, path[m], path[m + 1]);
    }
    assert Joins(Links(fs, config), mapped, pi[k], pi[l]);
  }

  // ---- Group contents as multisets ----

  predicate NoRepeats(s: seq<nat>) {
    forall a, b :: 0 <= a < b < |s| ==> s[a] != s[b]
  }

  lemma {:induction false} NoRepeatsCount(s: seq<nat>, x: nat)
    requires NoRepeats(s)
    ensures multiset(s)[x] == if x in s then 1 else 0
  {
    if |s| > 0 {
      NoRepeatsCount(s[1..], x);
      assert s == [s[0]] + s[1..];
    }
  }

  lemma SameElements(a: seq<nat>, b: seq<nat>)
    requires NoRepeats(a) && NoRepeats(b)
    requires forall x :: x in a <==> x in b
    ensures multiset(a) == multiset(b)
  {
    forall x ensures multiset(a)[x] == multiset(b)[x] {
      NoRepeatsCount(a, x);
      NoRepeatsCount(b, x);
    }
  }

  function Without(s: seq<nat>, j: nat): (r: seq<nat>)
    requires j < |s|
    ensures |r| == |s| - 1 && multiset(r) == multiset(s) - multiset{s[j]}
  {
    assert s == s[..j] + [s[j]] + s[j + 1..];
    s[..j] + s[j + 1..]
  }

  lemma IdsOfJoin(fs: seq<Finding>, a: seq<nat>, b: seq<nat>)
    requires Within(a, |fs|) && Within(b, |fs|)
    ensures Within(a + b, |fs|) && IdsOf(fs, a + b) == IdsOf(fs, a) + IdsOf(fs, b)
  {}

  lemma IdsOfSplit(fs: seq<Finding>, s: seq<nat>, j: nat)
    requires Within(s, |fs|) && j < |s|
    ensures Within(Without(s, j), |fs|)
    ensures multiset(IdsOf(fs, s)) == multiset(IdsOf(fs, Without(s, j))) + multiset{fs[s[j]].id}
  {
    IdsOfJoin(fs, s[..j], s[j + 1..]);
    IdsOfJoin(fs, s[..j], [s[j]]);
    IdsOfJoin(fs, s[..j] + [s[j]], s[j + 1..]);
    assert s == s[..j] + [s[j]] + s[j + 1..];
    assert IdsOf(fs, [s[j]]) == [fs[s[j]].id];
  }

  lemma {:induction false} IdsRespectMultisets(fs: seq<Finding>, a: seq<nat>, b: seq<nat>)
    requires Within(a, |fs|) && Within(b, |fs|) && multiset(a) == multiset(b)
    ensures multiset(IdsOf(fs, a)) == multiset(IdsOf(fs, b)) && |a| == |b|
    decreases |a|
  {
    assert |multiset(a)| == |multiset(b)|;
    if |a| > 0 {
      assert a[0] in multiset(b);
      var j :| 0 <= j < |b| && b[j] == a[0];
      var a', b' := Without(a, 0), Without(b, j);
      IdsOfSplit(fs, a, 0);
      IdsOfSplit(fs, b, j);
      IdsRespectMultisets(fs, a', b');
    }
  }

  ghost function GroupOf(fs: seq<Finding>, config: Config, i: nat): (members: seq<nat>)
    requires i < |fs|
    ensures Within(members, |fs|) && NoRepeats(members)
    ensures forall m: nat :: m in members <==> m < |fs| && Connected(Links(fs, config), i, m)
  {
    MembersAscend(|fs|, Links(fs, config), i);
    MembersAreConnected(|fs|, Links(fs, config), i);
    Members(|fs|, Links(fs, config), i)
  }

  function Through(pi: seq<nat>, members: seq<nat>): (r: seq<nat>)
    requires Within(members, |pi|)
    ensures |r| == |members| && forall k :: 0 <= k < |r| ==> r[k] == pi[members[k]]
  {
    seq(|members|, k requires 0 <= k < |members| => pi[members[k]])
  }

  /** The relisted group is the original group, seen through the new positions. */
  lemma SameGroup(fs: seq<Finding>, gs: seq<Finding>, pi: seq<nat>, inv: seq<nat>, config: Config, k: nat)
    requires Relisted(fs, gs, pi, inv) && k < |gs|
    ensures multiset(Through(pi, GroupOf(gs, config, k))) == multiset(GroupOf(fs, config, pi[k]))
  {
    var now, was := GroupOf(gs, config, k), GroupOf(fs, config, pi[k]);
    var seen := Through(pi, now);
    forall x: nat | x in seen ensures x in was {
      var m :| 0 <= m < |seen| && seen[m] == x;
      assert now[m] in now;
      SameConnections(fs, gs, pi, inv, config, k, now[m]);
    }
    RelistedBack(fs, gs, pi, inv);
    forall x: nat | x in was ensures x in seen {
      SameConnections(gs, fs, inv, pi, config, pi[k], x);
      assert inv[x] in now;
      var m :| 0 <= m < |now| && now[m] == inv[x];
      assert seen[m] == x;
    }
    forall a, b | 0 <= a < b < |seen| ensures seen[a] != seen[b] {
      assert inv[seen[a]] == now[a] && inv[seen[b]] == now[b];
    }
    SameElements(seen, was);
  }

  lemma SourcesRespectElements(fs: seq<Finding>, a: seq<nat>, b: seq<nat>)
    requires Within(a, |fs|) && Within(b, |fs|) && multiset(a) == multiset(b)
    ensures SourcesOf(fs, a) == SourcesOf(fs, b)
  {
    forall k | 0 <= k < |a| ensures exists l :: 0 <= l < |b| && b[l] == a[k] {
      assert a[k] in multiset(b);
      assert a[k] in b;
    }
    forall k | 0 <= k < |b| ensures exists l :: 0 <= l < |a| && a[l] == b[k] {
      assert b[k] in multiset(a);
      assert b[k] in a;
    }
  }

  lemma SameSources(fs: seq<Finding>, gs: seq<Finding>, pi: seq<nat>, inv: seq<nat>, members: seq<nat>)
    requires Relisted(fs, gs, pi, inv) && Within(members, |gs|)
    ensures SourcesOf(gs, members) == SourcesOf(fs, Through(pi, members))
    ensures IdsOf(gs, members) == IdsOf(fs, Through(pi, members))
  {
    forall k | 0 <= k < |members|
      ensures gs[members[k]].source == fs[Through(pi, members)[k]].source
              && gs[members[k]].id == fs[Through(pi, members)[k]].id
    {
      assert Core(gs[members[k]]) == Core(fs[pi[members[k]]]);
    }
  }

  lemma SameNames(fs: seq<Finding>, a: seq<nat>, b: seq<nat>)
    requires Within(a, |fs|) && Within(b, |fs|) && multiset(a) == multiset(b)
    ensures SortStrings(IdsOf(fs, a)) == SortStrings(IdsOf(fs, b))
    ensures SourcesOf(fs, a) == SourcesOf(fs, b) && |a| == |b|
  {
    SourcesRespectElements(fs, a, b);
    IdsRespectMultisets(fs, a, b);
    SortStringsSorts(IdsOf(fs, a));
    SortStringsSorts(IdsOf(fs, b));
    SortIsUnique(SortStrings(IdsOf(fs, a)), SortStrings(IdsOf(fs, b)));
  }

  lemma SameScore(f: Finding, g: Finding, sourceCount: nat, groupSize: nat, config: Config)
    requires Core(f) == Core(g)
    ensures Score(f, sourceCount, groupSize, config) == Score(g, sourceCount, groupSize, config)
  {
    assert f.keys == g.keys && f.resources == g.resources && f.severity == g.severity;
  }

  lemma SameAnnotation(fs: seq<Finding>, gs: seq<Finding>, pi: seq<nat>, inv: seq<nat>, config: Config, k: nat)
    requires Relisted(fs, gs, pi, inv) && k < |gs|
    ensures Annotated(gs, config, k) == Annotated(fs, config, pi[k])
  {
    var now, was := GroupOf(gs, config, k), GroupOf(fs, config, pi[k]);
    SameGroup(fs, gs, pi, inv, config, k);
    SameSources(fs, gs, pi, inv, now);
    SameNames(fs, Through(pi, now), was);
    assert Core(gs[k]) == Core(fs[pi[k]]);
    SameScore(gs[k], fs[pi[k]], |SourcesOf(fs, was)|, |was|, config);
  }

  lemma EnsureRespectsCore(f: Finding, g: Finding)
    requires Core(f) == Core(g)
    ensures Core(EnsureKeys(f)) == Core(EnsureKeys(g))
  {
    assert f.resources == g.resources && f.keys == g.keys;
  }

  /** Reordering the input, or feeding in findings that carry old annotations, reorders the output and nothing else. */
  lemma OrderDoesNotMatter(input: seq<Finding>, other: seq<Finding>, pi: seq<nat>, inv: seq<nat>, config: Config)
    requires Relisted(input, other, pi, inv)
    ensures forall k :: 0 <= k < |other| ==> CorrelateSpec(other, config)[k] == CorrelateSpec(input, config)[pi[k]]
  {
    var fs, gs := EnsureAll(input), EnsureAll(other);
    forall k | 0 <= k < |gs| ensures Core(gs[k]) == Core(fs[pi[k]]) {
      EnsureRespectsCore(other[k], input[pi[k]]);
    }
    forall k | 0 <= k < |other| ensures CorrelateSpec(other, config)[k] == CorrelateSpec(input, config)[pi[k]] {
      SameAnnotation(fs, gs, pi, inv, config, k);
    }
  }

  lemma EnsureTwice(f: Finding)
    ensures EnsureKeys(EnsureKeys(f)) == EnsureKeys(f)
  {
    if |f.resources| > 0 {
      var r := f.resources[0];
      assert |r.namespace + "/" + r.kind + "/" + r.name| >= 2;
    }
  }

  /** Correlating a correlated list changes nothing. */
  lemma CorrelationIsIdempotent(input: seq<Finding>, config: Config)
    ensures CorrelateSpec(CorrelateSpec(input, config), config) == CorrelateSpec(input, config)
  {
    var once := CorrelateSpec(input, config);
    var fs, gs := EnsureAll(input), EnsureAll(once);
    var identity := seq(|fs|, (i: nat) => i);
    forall k | 0 <= k < |gs| ensures Core(gs[k]) == Core(fs[identity[k]]) {
      EnsureTwice(input[k]);
      EnsureRespectsCore(once[k], fs[k]);
    }
    forall k | 0 <= k < |once| ensures CorrelateSpec(once, config)[k] == once[k] {
      SameAnnotation(fs, gs, identity, identity, config, k);
    }
  }

  // ---- Group names ----

  predicate DistinctIds(fs: seq<Finding>) {
    forall i, j :: 0 <= i < j < |fs| ==> fs[i].id != fs[j].id
  }

  lemma IdInGroup(fs: seq<Finding>, config: Config, i: nat, j: nat)
    requires i < |fs| && j < |fs|
    ensures Connected(Links(fs, config), i, j) ==> fs[j].id in SortStrings(IdsOf(fs, GroupOf(fs, config, i)))
    ensures DistinctIds(fs) && fs[j].id in SortStrings(IdsOf(fs, GroupOf(fs, config, i)))
            ==> Connected(Links(fs, config), i, j)
  {
    var members := GroupOf(fs, config, i);
    var ids := IdsOf(fs, members);
    SortStringsSorts(ids);
    if Connected(Links(fs, config), i, j) {
      assert j in members;
      var k :| 0 <= k < |members| && members[k] == j;
      assert ids[k] in multiset(ids);
      assert ids[k] in multiset(SortStrings(ids));
    }
    if fs[j].id in SortStrings(ids) {
      assert fs[j].id in multiset(SortStrings(ids));
      assert fs[j].id in ids;
      var k :| 0 <= k < |ids| && ids[k] == fs[j].id;
      assert members[k] in members;
    }
  }

  /** With distinct identifiers, two findings get one group name exactly when a chain of links joins them. */
  lemma GroupNamesAreComponents(input: seq<Finding>, config: Config, i: nat, j: nat)
    requires i < |input| && j < |input| && DistinctIds(input)
    ensures var out := CorrelateSpec(input, config);
            out[i].group == out[j].group <==> Connected(Links(EnsureAll(input), config), i, j)
  {
    var fs := EnsureAll(input);
    var edges := Links(fs, config);
    assert DistinctIds(fs);
    Reflexive(edges, j);
    LinksAreSymmetric(fs, config);
    IdInGroup(fs, config, i, j);
    IdInGroup(fs, config, j, j);
    if Connected(edges, i, j) {
      ConnectedIsSymmetric(edges, i, j);
      forall m: nat ensures m in GroupOf(fs, config, i) <==> m in GroupOf(fs, config, j) {
        if Connected(edges, i, m) { Transitive(edges, j, i, m); }
        if Connected(edges, j, m) { Transitive(edges, i, j, m); }
      }
      SameElements(GroupOf(fs, config, i), GroupOf(fs, config, j));
      SameNames(fs, GroupOf(fs, config, i), GroupOf(fs, config, j));
    }
  }
}
