/** What correlation.go computes, stated declaratively: rule windows, links, groups and bounded scores. */
module Correlation {
  import opened Basics
  import opened Graph

  datatype Severity = Critical | High | Medium | Low | Info | Unrecognized(text: string)

  datatype ResourceRef = ResourceRef(apiVersion: string, kind: string, namespace: string, name: string)

  datatype Keys = Keys(namespace: string, workload: string, image: string, identity: string, networkExposure: string)

  datatype Factor = Factor(name: string, points: int)

  datatype Explanation = NotScored | Explanation(baseScore: int, factors: seq<Factor>, finalScore: int)

  /** A group name is a hash of the sorted member identifiers; the hash is taken to be injective. */
  datatype Group = Ungrouped | Corr(sortedIds: seq<string>)

  /** `rest` stands for the fields that correlation neither reads nor writes. */
  datatype Finding = Finding(
    id: string, source: string, severity: Severity, resources: seq<ResourceRef>, keys: Keys, updatedAt: int,
    group: Group, explanation: Explanation, riskScore: int, rest: string)

  datatype Config = Config(
    criticalBase: int, highBase: int, mediumBase: int, lowBase: int, infoBase: int,
    multiSourcePoints: int, correlatedPointsCap: int, networkPoints: int, identityPoints: int,
    imagePoints: int, multiResourcePointsCap: int,
    workloadWindowMinutes: int, imageWindowMinutes: int, identityWindowMinutes: int, networkWindowMinutes: int)

  datatype ConfigError = BasesNotDescending | PointsOutOfRange | WindowOutOfRange

  datatype Rule = SameWorkload | SameImage | SameIdentity | SameNetworkExposure

  /** Go durations count nanoseconds. */
  const MINUTE: int := 60_000_000_000

  const RULES: seq<Rule> := [SameWorkload, SameImage, SameIdentity, SameNetworkExposure]

  function DefaultConfig(): Config {
    Config(90, 72, 50, 28, 10, 6, 6, 5, 5, 3, 5, 120, 1440, 60, 120)
  }

  /** The range checks that ParseConfig applies after decoding. */
  function CheckConfig(c: Config): Result<Config, ConfigError> {
    if !(c.criticalBase >= c.highBase && c.highBase >= c.mediumBase && c.mediumBase >= c.lowBase
         && c.lowBase >= c.infoBase && c.infoBase >= 0 && c.criticalBase <= 100) then Err(BasesNotDescending)
    else if exists v :: v in [c.multiSourcePoints, c.correlatedPointsCap, c.networkPoints, c.identityPoints,
                              c.imagePoints, c.multiResourcePointsCap] && (v < 0 || v > 20) then Err(PointsOutOfRange)
    else if exists v :: v in [c.workloadWindowMinutes, c.imageWindowMinutes, c.identityWindowMinutes,
                              c.networkWindowMinutes] && (v < 1 || v > 10080) then Err(WindowOutOfRange)
    else Ok(c)
  }

  function RuleKey(rule: Rule, f: Finding): string {
    match rule
    case SameWorkload => f.keys.workload
    case SameImage => f.keys.image
    case SameIdentity => f.keys.identity
    case SameNetworkExposure => f.keys.networkExposure
  }

  function RuleWindow(config: Config, rule: Rule): int {
    match rule
    case SameWorkload => config.workloadWindowMinutes * MINUTE
    case SameImage => config.imageWindowMinutes * MINUTE
    case SameIdentity => config.identityWindowMinutes * MINUTE
    case SameNetworkExposure => config.networkWindowMinutes * MINUTE
  }

  function EnsureKeys(f: Finding): Finding {
    if |f.resources| == 0 then f
    else
      var r := f.resources[0];
      var ns := if f.keys.namespace != "" then f.keys.namespace
                else if r.kind == "Namespace" then r.name else r.namespace;
      var workload := if f.keys.workload == ""
        && r.kind in ["Deployment", "StatefulSet", "DaemonSet", "ReplicaSet", "Pod"]
                      then r.namespace + "/" + r.kind + "/" + r.name else f.keys.workload;
      f.(keys := f.keys.(namespace := ns, workload := workload))
  }

  function EnsureAll(input: seq<Finding>): (fs: seq<Finding>)
    ensures |fs| == |input| && forall i :: 0 <= i < |fs| ==> fs[i] == EnsureKeys(input[i])
  {
    seq(|input|, i requires 0 <= i < |input| => EnsureKeys(input[i]))
  }

  // ---- Time windows ----

  ghost function LeastOf(times: set<int>): (least: int)
    requires exists t :: t in times
    ensures least in times && forall t :: t in times ==> least <= t
    decreases |times|
  {
    var x :| x in times;
    if forall t :: t in times ==> t == x then x
    else
      var rest := times - {x};
      assert exists t :: t in rest by { var y :| y in times && y != x; assert y in rest; }
      assert forall t :: t in times ==> t == x || t in rest;
      Min(x, LeastOf(rest))
  }

  /** The least time beyond `limit`. */
  ghost function NextAfter(times: set<int>, limit: int): (next: int)
    requires exists t :: t in times && t > limit
    ensures next in times && next > limit && forall t :: t in times && t > limit ==> next <= t
  {
    var later := set t | t in times && t > limit;
    assert exists t :: t in later by { var t :| t in times && t > limit; assert t in later; }
    var next := LeastOf(later);
    assert forall t :: t in times && t > limit ==> t in later;
    next
  }

  /**
   * Where the window containing `t` opens: the first window opens at `open`, and each later one at the
   * first time that is more than `width` past the opening of the one before.
   */
  ghost function WindowOpening(times: set<int>, width: nat, open: int, t: int): (a: int)
    requires t in times && open in times && open <= t
    ensures a in times && open <= a <= t && t - a <= width
    decreases t - open
  {
    if t - open <= width then open else WindowOpening(times, width, NextAfter(times, open + width), t)
  }

  lemma {:induction false} WindowContains(times: set<int>, width: nat, first: int, s: int, t: int)
    requires s in times && t in times && first in times && first <= s <= t
    requires WindowOpening(times, width, first, s) == s
    ensures WindowOpening(times, width, first, t) >= s
    ensures t <= s + width ==> WindowOpening(times, width, first, t) == s
    ensures t > s + width && NextAfter(times, s + width) == t ==> WindowOpening(times, width, first, t) == t
    decreases s - first
  {
    if s - first > width {
      WindowContains(times, width, NextAfter(times, first + width), s, t);
    } else {
      assert s == first;
    }
  }

  ghost function BucketTimes(fs: seq<Finding>, rule: Rule, key: string): set<int> {
    set i | 0 <= i < |fs| && RuleKey(rule, fs[i]) == key :: fs[i].updatedAt
  }

  ghost function Opening(fs: seq<Finding>, rule: Rule, width: nat, i: nat): (a: int)
    requires i < |fs|
    ensures a <= fs[i].updatedAt <= a + width
  {
    var times := BucketTimes(fs, rule, RuleKey(rule, fs[i]));
    assert fs[i].updatedAt in times;
    WindowOpening(times, width, LeastOf(times), fs[i].updatedAt)
  }

  ghost predicate SameWindow(fs: seq<Finding>, config: Config, rule: Rule, i: nat, j: nat)
    requires i < |fs| && j < |fs|
  {
    var width := RuleWindow(config, rule);
    && RuleKey(rule, fs[i]) == RuleKey(rule, fs[j]) != ""
    && width >= 0
    && Opening(fs, rule, width, i) == Opening(fs, rule, width, j)
  }

  ghost predicate Linked(fs: seq<Finding>, config: Config, i: nat, j: nat)
    requires i < |fs| && j < |fs|
  {
    exists rule :: SameWindow(fs, config, rule, i, j)
  }

  ghost function Links(fs: seq<Finding>, config: Config): Edges {
    set i: nat, j: nat | 0 <= i < |fs| && 0 <= j < |fs| && Linked(fs, config, i, j) :: (i, j)
  }

  lemma LinksAreSymmetric(fs: seq<Finding>, config: Config)
    ensures Symmetric(Links(fs, config))
  {
    forall e | e in Links(fs, config) ensures (e.1, e.0) in Links(fs, config) {
      var rule :| SameWindow(fs, config, rule, e.0, e.1);
      assert SameWindow(fs, config, rule, e.1, e.0);
    }
  }

  // ---- Groups and scores ----

  ghost function Members(n: nat, edges: Edges, i: nat): seq<nat> {
    if n == 0 then []
    else if Connected(edges, i, n - 1) then Members(n - 1, edges, i) + [n - 1]
    else Members(n - 1, edges, i)
  }

  predicate Within(indexes: seq<nat>, n: nat) {
    forall k :: 0 <= k < |indexes| ==> indexes[k] < n
  }

  function IdsOf(fs: seq<Finding>, members: seq<nat>): (ids: seq<string>)
    requires Within(members, |fs|)
    ensures |ids| == |members|
  {
    seq(|members|, k requires 0 <= k < |members| => fs[members[k]].id)
  }

  function SourcesOf(fs: seq<Finding>, members: seq<nat>): set<string>
    requires Within(members, |fs|)
  {
    set k | 0 <= k < |members| :: fs[members[k]].source
  }

  function BaseScore(severity: Severity, config: Config): int {
    match severity
    case Critical => config.criticalBase
    case High => config.highBase
    case Medium => config.mediumBase
    case Low => config.lowBase
    case Info => config.infoBase
    case Unrecognized(_) => 0
  }

  function When(condition: bool, factor: Factor): seq<Factor> {
    if condition then [factor] else []
  }

  function Factors(f: Finding, sourceCount: nat, groupSize: nat, config: Config): seq<Factor> {
    When(sourceCount > 1, Factor("multi-source-corroboration", config.multiSourcePoints))
    + When(groupSize > 1, Factor("correlated-findings", Min(config.correlatedPointsCap, groupSize - 1)))
    + When(f.keys.networkExposure != "", Factor("network-exposure", config.networkPoints))
    + When(f.keys.identity != "", Factor("identity-impact", config.identityPoints))
    + When(f.keys.image != "", Factor("image-reuse", config.imagePoints))
    + When(|f.resources| > 1,
           Factor("multi-resource-blast-radius", Min(config.multiResourcePointsCap, |f.resources|)))
  }

  function Total(factors: seq<Factor>): int {
    if |factors| == 0 then 0 else Total(factors[..|factors| - 1]) + factors[|factors| - 1].points
  }

  function Score(f: Finding, sourceCount: nat, groupSize: nat, config: Config): Explanation {
    var base := BaseScore(f.severity, config);
    var factors := Factors(f, sourceCount, groupSize, config);
    Explanation(base, factors, Min(100, base + Total(factors)))
  }

  function Annotate(fs: seq<Finding>, members: seq<nat>, i: nat, config: Config): Finding
    requires i < |fs| && Within(members, |fs|)
  {
    var explanation := Score(fs[i], |SourcesOf(fs, members)|, |members|, config);
    fs[i].(group := Corr(SortStrings(IdsOf(fs, members))), explanation := explanation,
           riskScore := explanation.finalScore)
  }

  lemma {:induction false} MembersAreConnected(n: nat, edges: Edges, i: nat)
    ensures forall m: nat :: m in Members(n, edges, i) <==> m < n && Connected(edges, i, m)
  {
    if n > 0 { MembersAreConnected(n - 1, edges, i); }
  }

  lemma {:induction false} MembersAscend(n: nat, edges: Edges, i: nat)
    ensures Within(Members(n, edges, i), n)
    ensures forall a, b :: 0 <= a < b < |Members(n, edges, i)| ==> Members(n, edges, i)[a] < Members(n, edges, i)[b]
  {
    if n > 0 { MembersAscend(n - 1, edges, i); }
  }

  ghost function Annotated(fs: seq<Finding>, config: Config, i: nat): Finding
    requires i < |fs|
  {
    MembersAscend(|fs|, Links(fs, config), i);
    Annotate(fs, Members(|fs|, Links(fs, config), i), i, config)
  }

  /** The specification of CorrelateWithConfig: no arrays, no order of rules, buckets or windows. */
  ghost function CorrelateSpec(input: seq<Finding>, config: Config): (result: seq<Finding>)
    ensures |result| == |input|
    ensures forall i :: 0 <= i < |input| ==> result[i] == Annotated(EnsureAll(input), config, i)
  {
    var fs := EnsureAll(input);
    seq(|fs|, i requires 0 <= i < |fs| => Annotated(fs, config, i))
  }
}
