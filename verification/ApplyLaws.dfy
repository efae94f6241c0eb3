/**
 * What the writes of a plan add up to when every call succeeds: actions with disjoint writes do not disturb each other,
 * and applying a plan again changes nothing.
 */
module ApplyLaws {
  import opened Basics
  import opened Catalog
  import opened Workload
  import opened ClusterModel

  /** No two executable actions may write the same object. */
  ghost predicate DisjointWrites(actions: seq<Action>) {
    forall i, j :: 0 <= i < j < |actions| && Executable(actions[i]) && Executable(actions[j])
      ==> WriteRefs(actions[i]) !! WriteRefs(actions[j])
  }

  lemma AchievedFrame(action: Action, before: Cluster, after: Cluster)
    requires Achieved(action, before)
    requires forall ref :: ref in WriteRefs(action) ==> StateOf(before, ref) == StateOf(after, ref)
    ensures Achieved(action, after)
  {
    match action.kind
    case ApplyResourceGovernance =>
      var ns := TargetNamespace(action).value;
      assert StateOf(before, QuotaRef(ns)) == StateOf(after, QuotaRef(ns));
      assert StateOf(before, LimitsRef(ns)) == StateOf(after, LimitsRef(ns));
    case PatchPodSecurityLabels =>
      var ref := NamespaceRef(TargetNamespace(action).value);
      assert StateOf(before, ref) == StateOf(after, ref);
    case PatchWorkloadResources => assert StateOf(before, WorkloadRef(action)) == StateOf(after, WorkloadRef(action));
    case PatchWorkloadProbes => assert StateOf(before, WorkloadRef(action)) == StateOf(after, WorkloadRef(action));
    case CreatePdb => assert StateOf(before, PdbRef(action)) == StateOf(after, PdbRef(action));
    case _ =>
  }

  // ---- What an action looks at ----

  /** The pod selector of the workload that a disruption budget is for. */
  function SelectorOf(action: Action, cluster: Cluster): Option<map<string, string>> {
    match WorkloadSpecOf(action, cluster) case None => None case Some(spec) => Some(spec.selector)
  }

  /** The clusters agree on everything that this action reads before it writes. */
  ghost predicate Alike(action: Action, c: Cluster, c': Cluster) {
    && (forall ref :: ref in WriteRefs(action) ==> StateOf(c, ref) == StateOf(c', ref))
    && (action.kind.CreatePdb? ==> SelectorOf(action, c) == SelectorOf(action, c'))
  }

  lemma IntendedAlike(action: Action, ref: Ref, c: Cluster, c': Cluster, parse: QuantityParser)
    requires Alike(action, c, c') && ref in WriteRefs(action)
    ensures Intended(action, ref, c, parse) == Intended(action, ref, c', parse)
  {
    assert StateOf(c, ref) == StateOf(c', ref);
  }

  lemma AppliedFrame(action: Action, c: Cluster, parse: QuantityParser, ref: Ref)
    requires ref !in WriteRefs(action)
    ensures StateOf(AppliedTo(action, c, parse), ref) == StateOf(c, ref)
  {}

  lemma WrittenAlike(action: Action, at: Ref, c: Cluster, c': Cluster, parse: QuantityParser)
    requires Alike(action, c, c') && at in WriteRefs(action) && !action.kind.CreatePdb?
    ensures Alike(action, WrittenAt(action, at, c, parse), WrittenAt(action, at, c', parse))
  {
    IntendedAlike(action, at, c, c', parse);
  }

  /** Where two clusters look alike to an action, it leaves the same under the names it writes. */
  lemma AppliedAlike(action: Action, c: Cluster, c': Cluster, parse: QuantityParser, ref: Ref)
    requires Alike(action, c, c') && ref in WriteRefs(action)
    ensures StateOf(AppliedTo(action, c, parse), ref) == StateOf(AppliedTo(action, c', parse), ref)
  {
    match action.kind
    case ApplyResourceGovernance =>
      var quota, limits := QuotaRef(TargetNamespace(action).value), LimitsRef(TargetNamespace(action).value);
      IntendedAlike(action, quota, c, c', parse);
      WrittenAlike(action, quota, c, c', parse);
      WrittenAlike(action, limits, WrittenAt(action, quota, c, parse), WrittenAt(action, quota, c', parse), parse);
    case _ => IntendedAlike(action, ref, c, c', parse);
  }

  // ---- One action twice ----

  lemma FillSettles(cs: seq<Container>, q: Quantities)
    ensures FillAll(FillAll(cs, q), q) == FillAll(cs, q)
  {
    if |cs| > 0 { FillPreservesAndSettles(cs, q, 0); }
  }

  lemma {:induction false} FirstNamedStays(cs: seq<Container>, name: string, k: nat, c: Container)
    requires FirstNamed(cs, name) == Some(k) && c.name == name
    ensures FirstNamed(cs[k := c], name) == Some(k)
  {
    if k > 0 {
      FirstNamedStays(cs[1..], name, k - 1, c);
      assert cs[k := c][1..] == cs[1..][k - 1 := c];
    }
  }

  lemma ProbesSettle(cs: seq<Container>, action: Action)
    requires WithProbes(cs, action).Some?
    ensures WithProbes(WithProbes(cs, action).value, action) == WithProbes(cs, action)
  {
    var k := FirstNamed(cs, ParamOf(action, ContainerName)).value;
    FirstNamedStays(cs, ParamOf(action, ContainerName), k, WithProbes(cs, action).value[k]);
    var once := WithProbes(cs, action).value;
    assert once[k := once[k]] == once;
  }

  /** What was written is what would be written again. */
  lemma IntendedSettles(action: Action, ref: Ref, c: Cluster, parse: QuantityParser)
    requires Intended(action, ref, c, parse).Some?
    ensures var obj := Intended(action, ref, c, parse); Intended(action, ref, c[ref := obj.value], parse) == obj
  {
    var obj := Intended(action, ref, c, parse).value;
    match action.kind
    case PatchWorkloadResources =>
      var q := Parsed(QuantitiesOf(action), parse);
      FillSettles(c[ref].spec.initContainers, q);
      FillSettles(c[ref].spec.containers, q);
    case PatchWorkloadProbes => ProbesSettle(c[ref].spec.containers, action);
    case PatchPodSecurityLabels =>
      assert obj.labels + PodSecurityLabels(action) == obj.labels;
    case CreatePdb => assert WorkloadRef(action) != ref;
    case _ =>
  }

  lemma WrittenTwice(action: Action, ref: Ref, c: Cluster, parse: QuantityParser)
    ensures WrittenAt(action, ref, WrittenAt(action, ref, c, parse), parse) == WrittenAt(action, ref, c, parse)
  {
    if Intended(action, ref, c, parse).Some? {
      var obj := Intended(action, ref, c, parse).value;
      IntendedSettles(action, ref, c, parse);
      assert c[ref := obj][ref := obj] == c[ref := obj];
    }
  }

  /** Applying an action twice is applying it once, whatever it meets. */
  lemma AppliedTwice(action: Action, c: Cluster, parse: QuantityParser)
    ensures AppliedTo(action, AppliedTo(action, c, parse), parse) == AppliedTo(action, c, parse)
  {
    match action.kind
    case ApplyResourceGovernance =>
      if TargetNamespace(action).Some? { GovernanceTwice(action, c, parse); }
    case PatchPodSecurityLabels =>
      if TargetNamespace(action).Some? {
        WrittenTwice(action, NamespaceRef(TargetNamespace(action).value), c, parse);
      }
    case PatchWorkloadResources => WrittenTwice(action, WorkloadRef(action), c, parse);
    case PatchWorkloadProbes => WrittenTwice(action, WorkloadRef(action), c, parse);
    case CreatePdb => WrittenTwice(action, PdbRef(action), c, parse);
    case _ =>
  }

  lemma GovernanceTwice(action: Action, c: Cluster, parse: QuantityParser)
    requires action.kind.ApplyResourceGovernance? && TargetNamespace(action).Some?
    ensures AppliedTo(action, AppliedTo(action, c, parse), parse) == AppliedTo(action, c, parse)
  {
    var quota, limits := QuotaRef(TargetNamespace(action).value), LimitsRef(TargetNamespace(action).value);
    if Intended(action, quota, c, parse).Some? {
      var c1 := WrittenAt(action, quota, c, parse);
      var c2 := WrittenAt(action, limits, c1, parse);
      IntendedSettles(action, quota, c, parse);
      assert WrittenAt(action, quota, c2, parse) == c2 by { assert c2[quota] == c1[quota]; }
      WrittenTwice(action, limits, c1, parse);
    }
  }

  lemma WritableAfter(action: Action, c: Cluster, parse: QuantityParser)
    requires Writable(action, c, parse)
    ensures Writable(action, AppliedTo(action, c, parse), parse)
  {
    forall ref | ref in WriteRefs(action) ensures Intended(action, ref, AppliedTo(action, c, parse), parse).Some? {
      assert Intended(action, ref, c, parse).Some?;
      IntendedSettles(action, ref, c, parse);
    }
  }

  // ---- Two actions ----

  lemma WriteKeepsSelector(a: Action, b: Action, c: Cluster, parse: QuantityParser)
    requires Executable(a) && Executable(b) && a.kind.CreatePdb?
    ensures SelectorOf(a, AppliedTo(b, c, parse)) == SelectorOf(a, c)
  {
    ExecutableTargets(a);
    ExecutableTargets(b);
    if WorkloadRef(a) !in WriteRefs(b) { AppliedFrame(b, c, parse, WorkloadRef(a)); }
  }

  /** An action with disjoint writes leaves everything alike. */
  lemma OthersAlike(a: Action, b: Action, c: Cluster, parse: QuantityParser)
    requires Executable(a) && Executable(b) && WriteRefs(a) !! WriteRefs(b)
    ensures Alike(a, c, AppliedTo(b, c, parse))
  {
    forall ref | ref in WriteRefs(a) ensures StateOf(c, ref) == StateOf(AppliedTo(b, c, parse), ref) {
      AppliedFrame(b, c, parse, ref);
    }
    if a.kind.CreatePdb? { WriteKeepsSelector(a, b, c, parse); }
  }

  /** What an action needs to get through: a valid proposal, and if it is executable, writes that are read back. */
  predicate Goes(action: Action, c: Cluster, parse: QuantityParser) {
    && ValidateProposal(action).Ok?
    && (Executable(action) ==>
          Writable(action, c, parse) && SnapshotRefs(action).Some? && Achieved(action, AppliedTo(action, c, parse)))
  }

  /** Apart from probes, which keep whatever is there, an accepted write of a named target reads back as intended. */
  lemma WritableGoes(action: Action, c: Cluster, parse: QuantityParser)
    requires Executable(action) && action.target.name != "" && Writable(action, c, parse)
    requires !action.kind.PatchWorkloadProbes?
    ensures Goes(action, c, parse)
  {
    ExecutableTargets(action);
    match action.kind
    case ApplyResourceGovernance =>
      var quota := QuotaRef(TargetNamespace(action).value);
      assert Intended(action, quota, c, parse).Some?;
      assert Intended(action, LimitsRef(TargetNamespace(action).value), c, parse).Some?;
    case PatchPodSecurityLabels =>
      assert Intended(action, NamespaceRef(TargetNamespace(action).value), c, parse).Some?;
    case PatchWorkloadResources =>
      var q := Parsed(QuantitiesOf(action), parse);
      AllFilled(c[WorkloadRef(action)].spec.initContainers, q);
      AllFilled(c[WorkloadRef(action)].spec.containers, q);
    case CreatePdb => assert Intended(action, PdbRef(action), c, parse).Some?;
  }

  lemma AllFilled(cs: seq<Container>, q: Quantities)
    ensures AllComplete(FillAll(cs, q))
  {
    forall k | 0 <= k < |cs| ensures HasAllResources(FillAll(cs, q)[k]) { FillKeepsComplete(cs[k], q); }
  }

  lemma GoesAlike(action: Action, c: Cluster, c': Cluster, parse: QuantityParser)
    requires Alike(action, c, c')
    ensures Goes(action, c, parse) <==> Goes(action, c', parse)
  {
    forall ref | ref in WriteRefs(action)
      ensures Intended(action, ref, c, parse) == Intended(action, ref, c', parse)
      ensures StateOf(AppliedTo(action, c, parse), ref) == StateOf(AppliedTo(action, c', parse), ref)
    {
      IntendedAlike(action, ref, c, c', parse);
      AppliedAlike(action, c, c', parse, ref);
    }
    if Achieved(action, AppliedTo(action, c, parse)) {
      AchievedFrame(action, AppliedTo(action, c, parse), AppliedTo(action, c', parse));
    }
    if Achieved(action, AppliedTo(action, c', parse)) {
      AchievedFrame(action, AppliedTo(action, c', parse), AppliedTo(action, c, parse));
    }
  }

  lemma GoesAgain(action: Action, c: Cluster, parse: QuantityParser)
    requires Goes(action, c, parse) && Executable(action)
    ensures Goes(action, AppliedTo(action, c, parse), parse)
  {
    WritableAfter(action, c, parse);
    AppliedTwice(action, c, parse);
  }

  /** Nothing left to do. */
  predicate Settled(action: Action, c: Cluster, parse: QuantityParser) {
    AppliedTo(action, c, parse) == c
  }

  lemma SettledAlike(action: Action, c: Cluster, c': Cluster, parse: QuantityParser)
    requires Settled(action, c, parse) && Alike(action, c, c')
    ensures Settled(action, c', parse)
  {
    var after := AppliedTo(action, c', parse);
    forall ref ensures StateOf(after, ref) == StateOf(c', ref) {
      if ref in WriteRefs(action) {
        AppliedAlike(action, c, c', parse, ref);
      } else {
        AppliedFrame(action, c', parse, ref);
      }
    }
    SameStatesSameCluster(after, c');
  }

  // ---- A whole plan ----

  /** The cluster after every executable action, in the order of the plan. */
  function ApplyAll(actions: seq<Action>, c: Cluster, parse: QuantityParser): Cluster {
    if |actions| == 0 then c
    else
      var before, last := ApplyAll(actions[..|actions| - 1], c, parse), actions[|actions| - 1];
      if Executable(last) then AppliedTo(last, before, parse) else before
  }

  ghost predicate AllGo(actions: seq<Action>, c: Cluster, parse: QuantityParser) {
    forall k :: 0 <= k < |actions| ==> Goes(actions[k], c, parse)
  }

  lemma ApplyNext(actions: seq<Action>, c: Cluster, parse: QuantityParser, k: nat)
    requires k < |actions|
    ensures ApplyAll(actions[..k + 1], c, parse)
         == if Executable(actions[k]) then AppliedTo(actions[k], ApplyAll(actions[..k], c, parse), parse)
            else ApplyAll(actions[..k], c, parse)
  {
    assert actions[..k + 1][..k] == actions[..k];
  }

  /** From one turn to a later one, everything stays alike to an action that has no turn in between. */
  lemma {:induction false} StaysAlike(actions: seq<Action>, c: Cluster, parse: QuantityParser, at: nat, i: nat, j: nat)
    requires DisjointWrites(actions) && at < |actions| && Executable(actions[at])
    requires i <= j <= |actions| && !(i <= at < j)
    ensures Alike(actions[at], ApplyAll(actions[..i], c, parse), ApplyAll(actions[..j], c, parse))
    decreases j
  {
    if i < j {
      var k := j - 1;
      StaysAlike(actions, c, parse, at, i, k);
      ApplyNext(actions, c, parse, k);
      if Executable(actions[k]) {
        var first, second := if at < k then at else k, if at < k then k else at;
        assert WriteRefs(actions[first]) !! WriteRefs(actions[second]);
        OthersAlike(actions[at], actions[k], ApplyAll(actions[..k], c, parse), parse);
      }
    }
  }

  /** An action gets through at its turn iff it would get through at the start. */
  lemma GoesAtItsTurn(actions: seq<Action>, c: Cluster, parse: QuantityParser, at: nat)
    requires DisjointWrites(actions) && at < |actions|
    ensures Goes(actions[at], ApplyAll(actions[..at], c, parse), parse) <==> Goes(actions[at], c, parse)
  {
    if Executable(actions[at]) {
      StaysAlike(actions, c, parse, at, 0, at);
      assert actions[..0] == [];
      GoesAlike(actions[at], c, ApplyAll(actions[..at], c, parse), parse);
    }
  }

  /** Once a plan was applied, no action has anything left to do, and each would get through again. */
  lemma SettledAtTheEnd(actions: seq<Action>, c: Cluster, parse: QuantityParser, at: nat)
    requires DisjointWrites(actions) && at < |actions| && Executable(actions[at])
    ensures Settled(actions[at], ApplyAll(actions, c, parse), parse)
    ensures Goes(actions[at], c, parse) ==> Goes(actions[at], ApplyAll(actions, c, parse), parse)
  {
    var turn, after := ApplyAll(actions[..at], c, parse), ApplyAll(actions[..at + 1], c, parse);
    ApplyNext(actions, c, parse, at);
    AppliedTwice(actions[at], turn, parse);
    StaysAlike(actions, c, parse, at, at + 1, |actions|);
    assert actions[..|actions|] == actions;
    SettledAlike(actions[at], after, ApplyAll(actions, c, parse), parse);
    if Goes(actions[at], c, parse) {
      GoesAtItsTurn(actions, c, parse, at);
      GoesAgain(actions[at], turn, parse);
      GoesAlike(actions[at], after, ApplyAll(actions, c, parse), parse);
    }
  }

  lemma {:induction false} ApplySettled(actions: seq<Action>, c: Cluster, parse: QuantityParser)
    requires forall k :: 0 <= k < |actions| && Executable(actions[k]) ==> Settled(actions[k], c, parse)
    ensures ApplyAll(actions, c, parse) == c
  {
    if |actions| > 0 { ApplySettled(actions[..|actions| - 1], c, parse); }
  }

  /** Applying a plan with disjoint writes again changes nothing, and if all of it got through, all of it does again. */
  lemma ApplyAllTwice(actions: seq<Action>, c: Cluster, parse: QuantityParser)
    requires DisjointWrites(actions)
    ensures ApplyAll(actions, ApplyAll(actions, c, parse), parse) == ApplyAll(actions, c, parse)
    ensures AllGo(actions, c, parse) ==> AllGo(actions, ApplyAll(actions, c, parse), parse)
  {
    var final := ApplyAll(actions, c, parse);
    forall k | 0 <= k < |actions|
      ensures Executable(actions[k]) ==> Settled(actions[k], final, parse)
      ensures Goes(actions[k], c, parse) ==> Goes(actions[k], final, parse)
    {
      if Executable(actions[k]) { SettledAtTheEnd(actions, c, parse, k); }
    }
    ApplySettled(actions, final, parse);
  }
}
