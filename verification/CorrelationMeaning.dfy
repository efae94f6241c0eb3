/** What a group name and a score say about the findings, told from the findings and the configuration alone. */
module CorrelationMeaning {
  import opened Basics
  import opened Graph
  import opened Correlation
  import opened CorrelationLaws

  // ---- Keys ----

  /** The first resource of a finding names its workload when it has no workload key and the kind is one of five. */
  function WorkloadKey(f: Finding): string {
    if f.keys.workload != "" || |f.resources| == 0 then f.keys.workload
    else
      var r := f.resources[0];
      if r.kind in {"Pod", "ReplicaSet", "DaemonSet", "StatefulSet", "Deployment"}
      then r.namespace + "/" + r.kind + "/" + r.name else ""
  }

  function NamespaceKey(f: Finding): string {
    if f.keys.namespace != "" || |f.resources| == 0 then f.keys.namespace
    else if f.resources[0].kind == "Namespace" then f.resources[0].name else f.resources[0].namespace
  }

  /** Correlation completes two keys and writes the name, the explanation and the score; all else stays. */
  lemma OnlyKeysAndScores(input: seq<Finding>, config: Config, i: nat)
    requires i < |input|
    ensures var f, out := input[i], CorrelateSpec(input, config)[i];
            && out.keys == f.keys.(namespace := NamespaceKey(f), workload := WorkloadKey(f))
            && out == f.(keys := out.keys, group := out.group, explanation := out.explanation,
                         riskScore := out.riskScore)
            && out.group.Corr? && out.explanation.Explanation? && out.riskScore == out.explanation.finalScore
  {
    EnsureCompletes(input[i]);
  }

  lemma EnsureCompletes(f: Finding)
    ensures EnsureKeys(f) == f.(keys := f.keys.(namespace := NamespaceKey(f), workload := WorkloadKey(f)))
  {}

  // ---- Sharing a name ----

  /** The same nonempty key, at most so many minutes apart on the nanosecond clock. */
  predicate SameAndNear(a: string, b: string, s: int, t: int, minutes: int) {
    a == b && a != "" && -(minutes * 60_000_000_000) <= s - t <= minutes * 60_000_000_000
  }

  /** Two findings that share a workload, an image, an identity or a network exposure, each within its own window. */
  predicate Shares(config: Config, f: Finding, g: Finding) {
    var s, t := f.updatedAt, g.updatedAt;
    || SameAndNear(WorkloadKey(f), WorkloadKey(g), s, t, config.workloadWindowMinutes)
    || SameAndNear(f.keys.image, g.keys.image, s, t, config.imageWindowMinutes)
    || SameAndNear(f.keys.identity, g.keys.identity, s, t, config.identityWindowMinutes)
    || SameAndNear(f.keys.networkExposure, g.keys.networkExposure, s, t, config.networkWindowMinutes)
  }

  ghost predicate SharedAt(input: seq<Finding>, config: Config, path: seq<nat>, k: nat) {
    && k + 1 < |path| && path[k] < |input| && path[k + 1] < |input|
    && Shares(config, input[path[k]], input[path[k + 1]])
  }

  /** Neighbours on the path share something. */
  ghost predicate Chain(input: seq<Finding>, config: Config, path: seq<nat>, i: nat, j: nat) {
    && |path| > 0 && path[0] == i && path[|path| - 1] == j
    && forall k :: 0 <= k < |path| - 1 ==> SharedAt(input, config, path, k)
  }

  lemma WindowIsShared(f: Finding, g: Finding, config: Config, rule: Rule)
    requires RuleKey(rule, EnsureKeys(f)) == RuleKey(rule, EnsureKeys(g)) != ""
    requires -RuleWindow(config, rule) <= f.updatedAt - g.updatedAt <= RuleWindow(config, rule)
    ensures Shares(config, f, g)
  {
    EnsureCompletes(f);
    EnsureCompletes(g);
  }

  lemma LinkIsShared(input: seq<Finding>, config: Config, i: nat, j: nat)
    requires (i, j) in Links(EnsureAll(input), config)
    ensures i < |input| && j < |input| && Shares(config, input[i], input[j])
  {
    var fs := EnsureAll(input);
    var rule :| SameWindow(fs, config, rule, i, j);
    WindowSpan(fs, config, rule, i, j);
    assert fs[i] == EnsureKeys(input[i]) && fs[j] == EnsureKeys(input[j]);
    WindowIsShared(input[i], input[j], config, rule);
  }

  /** Findings of one group name are joined by a chain of findings, each sharing something with the next. */
  lemma SameNameMeans(input: seq<Finding>, config: Config, i: nat, j: nat) returns (path: seq<nat>)
    requires i < |input| && j < |input| && DistinctIds(input)
    requires CorrelateSpec(input, config)[i].group == CorrelateSpec(input, config)[j].group
    ensures Chain(input, config, path, i, j)
  {
    GroupNamesAreComponents(input, config, i, j);
    path :| Joins(Links(EnsureAll(input), config), path, i, j);
    forall k | 0 <= k < |path| - 1 ensures SharedAt(input, config, path, k) {
      assert (path[k], path[k + 1]) in Links(EnsureAll(input), config);
      LinkIsShared(input, config, path[k], path[k + 1]);
    }
  }

  /** `j` shares this key with `i` and follows within the window, and nobody with the key came in the window before. */
  predicate FollowsBy(input: seq<Finding>, key: Finding -> string, minutes: int, i: nat, j: nat)
    requires i < |input| && j < |input|
  {
    var width := minutes * 60_000_000_000;
    && key(input[i]) == key(input[j]) != ""
    && input[i].updatedAt <= input[j].updatedAt <= input[i].updatedAt + width
    && forall m :: 0 <= m < |input| && key(input[m]) == key(input[i]) ==>
         !(input[i].updatedAt - width <= input[m].updatedAt < input[i].updatedAt)
  }

  predicate FollowsInWindow(input: seq<Finding>, config: Config, i: nat, j: nat)
    requires i < |input| && j < |input|
  {
    || FollowsBy(input, (f: Finding) => WorkloadKey(f), config.workloadWindowMinutes, i, j)
    || FollowsBy(input, (f: Finding) => f.keys.image, config.imageWindowMinutes, i, j)
    || FollowsBy(input, (f: Finding) => f.keys.identity, config.identityWindowMinutes, i, j)
    || FollowsBy(input, (f: Finding) => f.keys.networkExposure, config.networkWindowMinutes, i, j)
  }

  lemma OpensOwnWindow(fs: seq<Finding>, config: Config, rule: Rule, i: nat, j: nat)
    requires i < |fs| && j < |fs| && RuleKey(rule, fs[i]) == RuleKey(rule, fs[j]) != "" && RuleWindow(config, rule) >= 0
    requires fs[i].updatedAt <= fs[j].updatedAt <= fs[i].updatedAt + RuleWindow(config, rule)
    requires forall m :: 0 <= m < |fs| && RuleKey(rule, fs[m]) == RuleKey(rule, fs[i]) ==>
               !(fs[i].updatedAt - RuleWindow(config, rule) <= fs[m].updatedAt < fs[i].updatedAt)
    ensures (i, j) in Links(fs, config)
  {
    var times, width := BucketTimes(fs, rule, RuleKey(rule, fs[i])), RuleWindow(config, rule);
    assert fs[i].updatedAt in times && fs[j].updatedAt in times;
    var open := WindowOpening(times, width, LeastOf(times), fs[i].updatedAt);
    var m: nat :| m < |fs| && RuleKey(rule, fs[m]) == RuleKey(rule, fs[i]) && fs[m].updatedAt == open;
    assert open == fs[i].updatedAt;
    WindowContains(times, width, LeastOf(times), fs[i].updatedAt, fs[j].updatedAt);
    assert SameWindow(fs, config, rule, i, j);
    assert Linked(fs, config, i, j);
  }

  lemma FollowerIsLinked(input: seq<Finding>, config: Config, rule: Rule, key: Finding -> string, minutes: int, i: nat,
                         j: nat)
    requires i < |input| && j < |input| && FollowsBy(input, key, minutes, i, j)
    requires RuleWindow(config, rule) == minutes * 60_000_000_000
    requires forall m :: 0 <= m < |input| ==> RuleKey(rule, EnsureKeys(input[m])) == key(input[m])
    ensures (i, j) in Links(EnsureAll(input), config)
  {
    var fs := EnsureAll(input);
    assert fs[i].updatedAt == input[i].updatedAt && fs[j].updatedAt == input[j].updatedAt;
    forall m | 0 <= m < |fs| && RuleKey(rule, fs[m]) == RuleKey(rule, fs[i])
      ensures !(fs[i].updatedAt - RuleWindow(config, rule) <= fs[m].updatedAt < fs[i].updatedAt)
    {
      assert key(input[m]) == key(input[i]);
    }
    OpensOwnWindow(fs, config, rule, i, j);
  }

  /** Whoever follows a finding that opened a window gets its group name. */
  lemma FollowersShareNames(input: seq<Finding>, config: Config, i: nat, j: nat)
    requires i < |input| && j < |input| && DistinctIds(input) && FollowsInWindow(input, config, i, j)
    ensures CorrelateSpec(input, config)[i].group == CorrelateSpec(input, config)[j].group
  {
    forall m | 0 <= m < |input|
      ensures EnsureKeys(input[m]) == input[m].(keys := input[m].keys.(namespace := NamespaceKey(input[m]),
                                                                      workload := WorkloadKey(input[m])))
    {
      EnsureCompletes(input[m]);
    }
    if FollowsBy(input, (f: Finding) => WorkloadKey(f), config.workloadWindowMinutes, i, j) {
      FollowerIsLinked(input, config, SameWorkload, (f: Finding) => WorkloadKey(f), config.workloadWindowMinutes, i, j);
    } else if FollowsBy(input, (f: Finding) => f.keys.image, config.imageWindowMinutes, i, j) {
      FollowerIsLinked(input, config, SameImage, (f: Finding) => f.keys.image, config.imageWindowMinutes, i, j);
    } else if FollowsBy(input, (f: Finding) => f.keys.identity, config.identityWindowMinutes, i, j) {
      FollowerIsLinked(input, config, SameIdentity, (f: Finding) => f.keys.identity, config.identityWindowMinutes, i,
                       j);
    } else {
      FollowerIsLinked(input, config, SameNetworkExposure, (f: Finding) => f.keys.networkExposure,
                       config.networkWindowMinutes, i, j);
    }
    EdgeConnects(Links(EnsureAll(input), config), i, j);
    GroupNamesAreComponents(input, config, i, j);
  }

  lemma FirstOfTwoOpens(input: seq<Finding>, config: Config, i: nat, j: nat)
    requires |input| == 2 && i < 2 && j == 1 - i && input[i].updatedAt <= input[j].updatedAt
    requires Shares(config, input[i], input[j])
    ensures FollowsInWindow(input, config, i, j)
  {}

  lemma {:induction false} ChainOfTwo(input: seq<Finding>, config: Config, path: seq<nat>)
    requires |input| == 2 && Chain(input, config, path, 0, 1)
    ensures Shares(config, input[0], input[1])
    decreases |path|
  {
    assert SharedAt(input, config, path, 0);
    if path[1] == 0 {
      var rest := path[1..];
      forall k | 0 <= k < |rest| - 1 ensures SharedAt(input, config, rest, k) {
        assert SharedAt(input, config, path, k + 1);
      }
      ChainOfTwo(input, config, rest);
    }
  }

  lemma TwoWhoShare(input: seq<Finding>, config: Config, i: nat, j: nat)
    requires |input| == 2 && DistinctIds(input) && i < 2 && j == 1 - i && input[i].updatedAt <= input[j].updatedAt
    requires Shares(config, input[i], input[j])
    ensures CorrelateSpec(input, config)[i].group == CorrelateSpec(input, config)[j].group
  {
    FirstOfTwoOpens(input, config, i, j);
    FollowersShareNames(input, config, i, j);
  }

  lemma SharingIsSymmetric(config: Config, f: Finding, g: Finding)
    requires Shares(config, f, g)
    ensures Shares(config, g, f)
  {}

  /** Two findings alone get one group name exactly when they share one of the four keys within its window. */
  lemma TwoShareNamesIff(input: seq<Finding>, config: Config)
    requires |input| == 2 && DistinctIds(input)
    ensures CorrelateSpec(input, config)[0].group == CorrelateSpec(input, config)[1].group
       <==> Shares(config, input[0], input[1])
  {
    if CorrelateSpec(input, config)[0].group == CorrelateSpec(input, config)[1].group {
      var path := SameNameMeans(input, config, 0, 1);
      ChainOfTwo(input, config, path);
    } else if Shares(config, input[0], input[1]) {
      if input[0].updatedAt <= input[1].updatedAt {
        TwoWhoShare(input, config, 0, 1);
      } else {
        SharingIsSymmetric(config, input[0], input[1]);
        TwoWhoShare(input, config, 1, 0);
      }
    }
  }

  // ---- Scores ----

  predicate BaseIs(severity: Severity, config: Config, base: int) {
    match severity
    case Critical => base == config.criticalBase
    case High => base == config.highBase
    case Medium => base == config.mediumBase
    case Low => base == config.lowBase
    case Info => base == config.infoBase
    case Unrecognized(_) => base == 0
  }

  function Rank(severity: Severity): nat {
    match severity
    case Critical => 5
    case High => 4
    case Medium => 3
    case Low => 2
    case Info => 1
    case Unrecognized(_) => 0
  }

  predicate Named(factors: seq<Factor>, name: string) {
    exists k :: 0 <= k < |factors| && factors[k].name == name
  }

  /** The factor is listed exactly on this condition, and with these points. */
  predicate Listed(factors: seq<Factor>, name: string, condition: bool, points: int) {
    && (Named(factors, name) <==> condition)
    && forall k :: 0 <= k < |factors| && factors[k].name == name ==> factors[k].points == points
  }

  function Points(condition: bool, points: int): int {
    if condition then points else 0
  }

  lemma TotalWhen(list: seq<Factor>, condition: bool, factor: Factor)
    ensures Total(list + When(condition, factor)) == Total(list) + Points(condition, factor.points)
  {
    if condition { assert (list + [factor])[..|list|] == list; } else { assert list + [] == list; }
  }

  lemma NamedWhen(list: seq<Factor>, condition: bool, factor: Factor, name: string)
    ensures Named(list + When(condition, factor), name) <==> Named(list, name) || (condition && factor.name == name)
  {
    if k :| 0 <= k < |list| && list[k].name == name { assert (list + When(condition, factor))[k].name == name; }
    if condition { assert (list + When(condition, factor))[|list|] == factor; }
  }

  /** Another factor at the end leaves what is listed under this name. */
  lemma ListedBefore(list: seq<Factor>, condition: bool, factor: Factor, name: string, listed: bool, points: int)
    requires Listed(list, name, listed, points) && factor.name != name
    ensures Listed(list + When(condition, factor), name, listed, points)
  {
    NamedWhen(list, condition, factor, name);
  }

  lemma ListedHere(list: seq<Factor>, condition: bool, factor: Factor)
    requires !Named(list, factor.name)
    ensures Listed(list + When(condition, factor), factor.name, condition, factor.points)
  {
    NamedWhen(list, condition, factor, factor.name);
    forall k | 0 <= k < |list| ensures list[k].name != factor.name {}
  }

  // The six factors, in the order in which they are listed.
  const MULTI_SOURCE := "multi-source-corroboration"
  const CORRELATED := "correlated-findings"
  const NETWORK := "network-exposure"
  const IDENTITY := "identity-impact"
  const IMAGE := "image-reuse"
  const MULTI_RESOURCE := "multi-resource-blast-radius"

  lemma NamesDiffer()
    ensures |MULTI_SOURCE| == 26 && |CORRELATED| == 19 && |NETWORK| == 16 && |IDENTITY| == 15 && |IMAGE| == 11
    ensures |MULTI_RESOURCE| == 27
  {}

  /** The points of each factor, when it is listed, and their sum. */
  predicate FactorsFit(f: Finding, sources: bool, size: nat, config: Config, factors: seq<Factor>) {
    && Listed(factors, MULTI_SOURCE, sources, config.multiSourcePoints)
    && Listed(factors, CORRELATED, size > 1, Min(config.correlatedPointsCap, size - 1))
    && Listed(factors, NETWORK, f.keys.networkExposure != "", config.networkPoints)
    && Listed(factors, IDENTITY, f.keys.identity != "", config.identityPoints)
    && Listed(factors, IMAGE, f.keys.image != "", config.imagePoints)
    && Listed(factors, MULTI_RESOURCE, |f.resources| > 1, Min(config.multiResourcePointsCap, |f.resources|))
  }

  function PointsFor(f: Finding, sources: bool, size: nat, config: Config): int {
    Points(sources, config.multiSourcePoints)
    + Points(size > 1, Min(config.correlatedPointsCap, size - 1))
    + Points(f.keys.networkExposure != "", config.networkPoints)
    + Points(f.keys.identity != "", config.identityPoints)
    + Points(f.keys.image != "", config.imagePoints)
    + Points(|f.resources| > 1, Min(config.multiResourcePointsCap, |f.resources|))
  }

  /** One factor after another: what is listed so far, and where it comes to. */
  function Offers(f: Finding, sourceCount: nat, size: nat, config: Config): (offers: seq<(bool, Factor)>)
    ensures |offers| == 6
  {
    [(sourceCount > 1, Factor(MULTI_SOURCE, config.multiSourcePoints)),
     (size > 1, Factor(CORRELATED, Min(config.correlatedPointsCap, size - 1))),
     (f.keys.networkExposure != "", Factor(NETWORK, config.networkPoints)),
     (f.keys.identity != "", Factor(IDENTITY, config.identityPoints)),
     (f.keys.image != "", Factor(IMAGE, config.imagePoints)),
     (|f.resources| > 1, Factor(MULTI_RESOURCE, Min(config.multiResourcePointsCap, |f.resources|)))]
  }

  function Made(offers: seq<(bool, Factor)>, n: nat): seq<Factor>
    requires n <= |offers|
  {
    if n == 0 then [] else Made(offers, n - 1) + When(offers[n - 1].0, offers[n - 1].1)
  }

  function Sum(offers: seq<(bool, Factor)>, n: nat): int
    requires n <= |offers|
  {
    if n == 0 then 0 else Sum(offers, n - 1) + Points(offers[n - 1].0, offers[n - 1].1.points)
  }

  predicate NamesApart(offers: seq<(bool, Factor)>) {
    forall a, b :: 0 <= a < b < |offers| ==> offers[a].1.name != offers[b].1.name
  }

  lemma {:induction false} MadeAddsUp(offers: seq<(bool, Factor)>, n: nat)
    requires n <= |offers|
    ensures Total(Made(offers, n)) == Sum(offers, n)
  {
    if n > 0 {
      MadeAddsUp(offers, n - 1);
      TotalWhen(Made(offers, n - 1), offers[n - 1].0, offers[n - 1].1);
    }
  }

  lemma {:induction false} MadeIsListed(offers: seq<(bool, Factor)>, n: nat, k: nat)
    requires n <= |offers| && k < |offers| && NamesApart(offers)
    ensures if k < n then Listed(Made(offers, n), offers[k].1.name, offers[k].0, offers[k].1.points)
            else !Named(Made(offers, n), offers[k].1.name)
  {
    if n > 0 {
      MadeIsListed(offers, n - 1, k);
      var list, last := Made(offers, n - 1), offers[n - 1];
      NamedWhen(list, last.0, last.1, offers[k].1.name);
      if k == n - 1 {
        ListedHere(list, last.0, last.1);
      } else if k < n - 1 {
        ListedBefore(list, last.0, last.1, offers[k].1.name, offers[k].0, offers[k].1.points);
      }
    }
  }

  lemma FactorsAreMade(f: Finding, sourceCount: nat, size: nat, config: Config)
    ensures Factors(f, sourceCount, size, config) == Made(Offers(f, sourceCount, size, config), 6)
  {
    var offers := Offers(f, sourceCount, size, config);
    assert Made(offers, 1) == When(offers[0].0, offers[0].1);
    assert Made(offers, 2) == Made(offers, 1) + When(offers[1].0, offers[1].1);
    assert Made(offers, 3) == Made(offers, 2) + When(offers[2].0, offers[2].1);
    assert Made(offers, 4) == Made(offers, 3) + When(offers[3].0, offers[3].1);
    assert Made(offers, 5) == Made(offers, 4) + When(offers[4].0, offers[4].1);
  }

  lemma OffersAddUp(f: Finding, sourceCount: nat, size: nat, config: Config)
    ensures Sum(Offers(f, sourceCount, size, config), 6) == PointsFor(f, sourceCount > 1, size, config)
    ensures NamesApart(Offers(f, sourceCount, size, config))
  {
    var offers := Offers(f, sourceCount, size, config);
    NamesDiffer();
    assert Sum(offers, 1) == Points(offers[0].0, offers[0].1.points);
    assert Sum(offers, 2) == Sum(offers, 1) + Points(offers[1].0, offers[1].1.points);
    assert Sum(offers, 3) == Sum(offers, 2) + Points(offers[2].0, offers[2].1.points);
    assert Sum(offers, 4) == Sum(offers, 3) + Points(offers[3].0, offers[3].1.points);
    assert Sum(offers, 5) == Sum(offers, 4) + Points(offers[4].0, offers[4].1.points);
  }

  lemma FactorsAreFit(f: Finding, sourceCount: nat, size: nat, config: Config)
    ensures FactorsFit(f, sourceCount > 1, size, config, Factors(f, sourceCount, size, config))
    ensures Total(Factors(f, sourceCount, size, config)) == PointsFor(f, sourceCount > 1, size, config)
  {
    var offers := Offers(f, sourceCount, size, config);
    FactorsAreMade(f, sourceCount, size, config);
    OffersAddUp(f, sourceCount, size, config);
    MadeAddsUp(offers, 6);
    MadeIsListed(offers, 6, 0);
    MadeIsListed(offers, 6, 1);
    MadeIsListed(offers, 6, 2);
    MadeIsListed(offers, 6, 3);
    MadeIsListed(offers, 6, 4);
    MadeIsListed(offers, 6, 5);
  }

  // ---- Groups, as the result shows them ----

  /** Everyone with the same group name. */
  ghost function Mates(out: seq<Finding>, i: nat): set<nat>
    requires i < |out|
  {
    set j: nat | j < |out| && out[j].group == out[i].group
  }

  function Elements(s: seq<nat>): set<nat> {
    set x | x in s
  }

  lemma {:induction false} SizeOfList(s: seq<nat>)
    requires NoRepeats(s)
    ensures |Elements(s)| == |s|
  {
    if |s| == 0 {
      assert Elements(s) == {};
    } else {
      var rest, x := s[..|s| - 1], s[|s| - 1];
      SizeOfList(rest);
      assert s == rest + [x];
      assert x !in Elements(rest);
      assert Elements(s) == Elements(rest) + {x};
    }
  }

  lemma MatesAreTheGroup(input: seq<Finding>, config: Config, i: nat)
    requires i < |input| && DistinctIds(input)
    ensures |Mates(CorrelateSpec(input, config), i)| == |GroupOf(EnsureAll(input), config, i)|
    ensures forall j: nat :: j in Mates(CorrelateSpec(input, config), i) <==> j in GroupOf(EnsureAll(input), config, i)
  {
    var out, group := CorrelateSpec(input, config), GroupOf(EnsureAll(input), config, i);
    forall j: nat ensures j in Mates(out, i) <==> j in group {
      if j < |input| {
        GroupNamesAreComponents(input, config, i, j);
      }
    }
    assert Mates(out, i) == Elements(group);
    SizeOfList(group);
  }

  ghost predicate OtherSource(out: seq<Finding>, i: nat)
    requires i < |out|
  {
    exists j :: 0 <= j < |out| && out[j].group == out[i].group && out[j].source != out[i].source
  }

  lemma ManySources(fs: seq<Finding>, members: seq<nat>, i: nat)
    requires Within(members, |fs|) && i < |fs| && i in members
    ensures |SourcesOf(fs, members)| > 1 <==> exists j :: j in members && fs[j].source != fs[i].source
  {
    var sources := SourcesOf(fs, members);
    assert fs[i].source in sources;
    if |sources| > 1 {
      assert sources != {fs[i].source};
      var x :| x in sources && x != fs[i].source;
      var k :| 0 <= k < |members| && fs[members[k]].source == x;
      assert members[k] in members;
    }
    if j :| j in members && fs[j].source != fs[i].source {
      var k :| 0 <= k < |members| && members[k] == j;
      assert fs[j].source in sources;
      assert {fs[i].source, fs[j].source} <= sources;
      assert |{fs[i].source, fs[j].source}| == 2;
      SubsetSize({fs[i].source, fs[j].source}, sources);
    }
  }

  lemma {:induction false} SubsetSize(a: set<string>, b: set<string>)
    requires a <= b
    ensures |a| <= |b|
  {
    if a != {} {
      var x :| x in a;
      SubsetSize(a - {x}, b - {x});
    }
  }

  /**
   * The score, read off the result alone: the configured base of the severity, points for another source and for each
   * further finding under the same group name, and points for the finding's own keys and resources, capped at 100.
   */
  lemma ScoresMean(input: seq<Finding>, config: Config, i: nat)
    requires i < |input| && DistinctIds(input)
    ensures var out := CorrelateSpec(input, config);
            && out[i].explanation.Explanation?
            && var e, sources, size := out[i].explanation, OtherSource(out, i), |Mates(out, i)|;
               && BaseIs(input[i].severity, config, e.baseScore)
               && FactorsFit(input[i], sources, size, config, e.factors)
               && out[i].riskScore == e.finalScore
               && e.finalScore == Min(100, e.baseScore + PointsFor(input[i], sources, size, config))
  {
    var out, fs := CorrelateSpec(input, config), EnsureAll(input);
    var group := GroupOf(fs, config, i);
    MatesAreTheGroup(input, config, i);
    Reflexive(Links(fs, config), i);
    ManySources(fs, group, i);
    SourcesShow(input, config, i);
    assert fs[i] == EnsureKeys(input[i]);
    EnsureCompletes(input[i]);
    FactorsAreFit(fs[i], |SourcesOf(fs, group)|, |group|, config);
  }

  lemma SourceIsKept(input: seq<Finding>, config: Config, j: nat)
    requires j < |input|
    ensures CorrelateSpec(input, config)[j].source == EnsureAll(input)[j].source == input[j].source
  {
    OnlyKeysAndScores(input, config, j);
    EnsureCompletes(input[j]);
  }

  lemma OthersShow(out: seq<Finding>, fs: seq<Finding>, group: seq<nat>, i: nat)
    requires |out| == |fs| && i < |out| && Within(group, |out|)
    requires forall j :: 0 <= j < |out| ==> out[j].source == fs[j].source
    requires forall j: nat :: j in Mates(out, i) <==> j in group
    ensures OtherSource(out, i) <==> exists j :: j in group && fs[j].source != fs[i].source
  {
    if j: nat :| j < |out| && out[j].group == out[i].group && out[j].source != out[i].source {
      assert j in Mates(out, i);
    }
    if j: nat :| j in group && fs[j].source != fs[i].source {
      assert j in Mates(out, i);
    }
  }

  lemma SourcesShow(input: seq<Finding>, config: Config, i: nat)
    requires i < |input| && DistinctIds(input)
    ensures var group, fs := GroupOf(EnsureAll(input), config, i), EnsureAll(input);
            OtherSource(CorrelateSpec(input, config), i) <==> exists j :: j in group && fs[j].source != fs[i].source
  {
    var out, fs, group := CorrelateSpec(input, config), EnsureAll(input), GroupOf(EnsureAll(input), config, i);
    MatesAreTheGroup(input, config, i);
    forall j | 0 <= j < |out| ensures out[j].source == fs[j].source { SourceIsKept(input, config, j); }
    OthersShow(out, fs, group, i);
  }

  /** A graver severity never starts lower. */
  lemma BasesDescend(config: Config, grave: Severity, light: Severity, high: int, low: int)
    requires CheckConfig(config).Ok? && Rank(light) <= Rank(grave)
    requires BaseIs(grave, config, high) && BaseIs(light, config, low)
    ensures 0 <= low <= high <= 100
  {
    AcceptedConfigs(config);
  }
}
