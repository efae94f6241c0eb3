/** What the provider can learn: redacted texts only, each from its own field, cut at its cap and nowhere else. */
module AdvisorMeaning {
  import opened Basics
  import opened Catalog
  import opened PlanBuilder
  import opened Projection
  import opened Advisor

  // ---- Nothing but redacted texts ----

  predicate SameText(redact: Redaction, a: string, b: string) {
    redact(a) == redact(b)
  }

  predicate SameResource(redact: Redaction, a: Resource, b: Resource) {
    && SameText(redact, a.apiVersion, b.apiVersion) && SameText(redact, a.kind, b.kind)
    && SameText(redact, a.namespace, b.namespace) && SameText(redact, a.name, b.name)
  }

  predicate SameResources(redact: Redaction, a: seq<Resource>, b: seq<Resource>) {
    |a| == |b| && forall k :: 0 <= k < |a| ==> SameResource(redact, a[k], b[k])
  }

  predicate SameProof(redact: Redaction, a: Evidence, b: Evidence) {
    && SameText(redact, a.summary, b.summary) && SameText(redact, a.details, b.details)
    && SameText(redact, a.sourceId, b.sourceId) && a.observedAt == b.observedAt
  }

  predicate SameEvidence(redact: Redaction, a: seq<Evidence>, b: seq<Evidence>) {
    |a| == |b| && forall k :: 0 <= k < |a| ==> SameProof(redact, a[k], b[k])
  }

  predicate SameAction(redact: Redaction, a: SentAction, b: SentAction) {
    && SameText(redact, a.actionType, b.actionType) && SameText(redact, a.description, b.description)
    && (a.target.Some? <==> b.target.Some?) && (a.target.Some? ==> SameResource(redact, a.target.value, b.target.value))
  }

  predicate SameActions(redact: Redaction, a: seq<SentAction>, b: seq<SentAction>) {
    |a| == |b| && forall k :: 0 <= k < |a| ==> SameAction(redact, a[k], b[k])
  }

  predicate SameTexts(redact: Redaction, a: seq<string>, b: seq<string>) {
    |a| == |b| && forall k :: 0 <= k < |a| ==> SameText(redact, a[k], b[k])
  }

  predicate SameFinding(redact: Redaction, a: SentFinding, b: SentFinding) {
    && SameText(redact, a.id, b.id) && SameText(redact, a.source, b.source) && SameText(redact, a.title, b.title)
    && SameText(redact, a.severity, b.severity) && SameText(redact, a.blastRadius, b.blastRadius)
    && SameText(redact, a.fixability, b.fixability) && SameText(redact, a.recommendedAction, b.recommendedAction)
    && a.riskScore == b.riskScore
    && SameEvidence(redact, a.evidence, b.evidence) && SameResources(redact, a.resources, b.resources)
  }

  predicate SamePlan(redact: Redaction, a: SentPlan, b: SentPlan) {
    && SameText(redact, a.id, b.id) && SameText(redact, a.findingId, b.findingId)
    && SameText(redact, a.rootCause, b.rootCause) && SameText(redact, a.riskTier, b.riskTier)
    && a.required == b.required && SameActions(redact, a.actions, b.actions)
    && SameTexts(redact, a.categories, b.categories)
    && SameTexts(redact, a.verificationSteps, b.verificationSteps)
    && SameTexts(redact, a.rollbackSteps, b.rollbackSteps)
  }

  /** Two inputs that differ only in what redaction removes. */
  predicate LookAlike(redact: Redaction, a: Input, b: Input) {
    SameFinding(redact, a.finding, b.finding) && SamePlan(redact, a.plan, b.plan)
  }

  lemma EvidenceLooksAlike(redact: Redaction, a: seq<Evidence>, b: seq<Evidence>)
    requires SameEvidence(redact, a, b)
    ensures SentProofs(a, redact) == SentProofs(b, redact)
  {
    forall k | 0 <= k < |a| ensures SentProof(a[k], redact) == SentProof(b[k], redact) {
      assert SameProof(redact, a[k], b[k]);
    }
  }

  lemma TextsLookAlike(redact: Redaction, a: seq<string>, b: seq<string>, limit: nat, cap: int)
    requires SameTexts(redact, a, b)
    ensures BoundedSanitizedStrings(a, redact, limit, cap) == BoundedSanitizedStrings(b, redact, limit, cap)
  {
    var n := Min(|a|, limit);
    forall k | 0 <= k < n ensures Sanitize(redact, a[..n][k], cap) == Sanitize(redact, b[..n][k], cap) {
      assert SameText(redact, a[k], b[k]);
    }
    assert SanitizeAll(a[..n], redact, cap) == SanitizeAll(b[..n], redact, cap);
  }

  lemma FindingsLookAlike(redact: Redaction, a: SentFinding, b: SentFinding)
    requires SameFinding(redact, a, b)
    ensures SentFindingOf(a, redact) == SentFindingOf(b, redact)
  {
    EvidenceLooksAlike(redact, a.evidence, b.evidence);
    assert SentResources(a.resources, redact) == SentResources(b.resources, redact) by {
      forall k | 0 <= k < |a.resources|
        ensures SentResource(a.resources[k], redact) == SentResource(b.resources[k], redact)
      {
        assert SameResource(redact, a.resources[k], b.resources[k]);
      }
    }
  }

  lemma PlansLookAlike(redact: Redaction, a: SentPlan, b: SentPlan)
    requires SamePlan(redact, a, b)
    ensures SentPlanOf(a, redact) == SentPlanOf(b, redact)
  {
    TextsLookAlike(redact, a.categories, b.categories, MAX_STEPS, 200);
    TextsLookAlike(redact, a.verificationSteps, b.verificationSteps, MAX_STEPS, 500);
    TextsLookAlike(redact, a.rollbackSteps, b.rollbackSteps, MAX_STEPS, 500);
    assert SentActions(a.actions, redact) == SentActions(b.actions, redact) by {
      forall k | 0 <= k < |a.actions| ensures SentActionOf(a.actions[k], redact) == SentActionOf(b.actions[k], redact) {
        assert SameAction(redact, a.actions[k], b.actions[k]);
      }
    }
  }

  lemma FitsAreUnique(chain: seq<Input>, size: Input -> int, maxBytes: int, r: Option<Input>, s: Option<Input>)
    requires FirstFit(chain, size, maxBytes, r) && FirstFit(chain, size, maxBytes, s)
    ensures r == s
  {
    if r.Some? {
      var k: nat :| FitsAt(chain, size, maxBytes, k) && chain[k] == r.value && NoneBefore(chain, size, maxBytes, k);
      if s.Some? {
        var j: nat :| FitsAt(chain, size, maxBytes, j) && chain[j] == s.value && NoneBefore(chain, size, maxBytes, j);
        assert !(k < j) && !(j < k);
      }
    }
  }

  /** The provider cannot tell look-alikes apart: whatever redaction removes has no effect on what is sent. */
  method SendLookAlikes(a: Input, b: Input, redact: Redaction, size: Input -> int, maxBytes: int)
    returns (first: Option<Request>, second: Option<Request>)
    requires LookAlike(redact, a, b)
    ensures first.Some? <==> second.Some?
    ensures first.Some? ==> first.value.sent == second.value.sent && first.value.evidenceIds == second.value.evidenceIds
  {
    first := BuildRequestBody(a, redact, size, maxBytes);
    second := BuildRequestBody(b, redact, size, maxBytes);
    FindingsLookAlike(redact, a.finding, b.finding);
    PlansLookAlike(redact, a.plan, b.plan);
    FitsAreUnique(Chain(Projected(a, redact)), size, maxBytes,
                  if first.Some? then Some(first.value.sent) else None,
                  if second.Some? then Some(second.value.sent) else None);
  }

  // ---- Every text from its own field ----

  /** `t` is `s` without the white space around it. */
  ghost predicate Trimmed(s: string, t: string) {
    exists i: nat, j: nat :: TrimmedAt(s, t, i, j)
  }

  predicate TrimmedAt(s: string, t: string, i: nat, j: nat) {
    && i <= j <= |s| && t == s[i..j] && Blank(s[..i]) && Blank(s[j..])
    && (t != "" ==> !IsSpace(t[0]) && !IsSpace(t[|t| - 1]))
  }

  /** What is sent is the start of the trimmed redacted text: all of it, or the trimmed first `cap` characters. */
  ghost predicate TextOf(redact: Redaction, raw: string, cap: nat, sent: string) {
    exists t: string :: TextFrom(redact, raw, cap, sent, t)
  }

  ghost predicate TextFrom(redact: Redaction, raw: string, cap: nat, sent: string, t: string) {
    Trimmed(redact(raw), t) && sent <= t && if |t| <= cap then sent == t else Trimmed(t[..cap], sent)
  }

  lemma {:induction false} TrimLeftCuts(s: string) returns (i: nat)
    ensures i <= |s| && TrimLeft(s) == s[i..] && Blank(s[..i])
  {
    if s != "" && IsSpace(s[0]) {
      i := TrimLeftCuts(s[1..]);
      assert s[1..][i..] == s[i + 1..];
      forall k | 0 <= k < i + 1 ensures IsSpace(s[k]) {
        if k > 0 { assert s[1..][..i][k - 1] == s[k]; }
      }
      i := i + 1;
    } else {
      i := 0;
    }
  }

  lemma {:induction false} TrimRightCuts(s: string) returns (j: nat)
    ensures j <= |s| && TrimRight(s) == s[..j] && Blank(s[j..])
  {
    j := |s|;
    if s != "" && IsSpace(s[|s| - 1]) {
      var init := s[..|s| - 1];
      j := TrimRightCuts(init);
      assert init[..j] == s[..j];
      forall k | 0 <= k < |s[j..]| ensures IsSpace(s[j..][k]) {
        if k < |init[j..]| { assert init[j..][k] == s[j..][k]; }
      }
    } else {
      assert s[..|s|] == s;
    }
  }

  lemma TrimIsTrimmed(s: string)
    ensures Trimmed(s, Trim(s))
  {
    var i := TrimLeftCuts(s);
    var left := TrimLeft(s);
    var j := TrimRightCuts(left);
    assert s[i..][..j] == s[i..i + j] && s[i..][j..] == s[i + j..];
    var t := Trim(s);
    if t != "" { assert t[0] == left[0]; }
    assert TrimmedAt(s, t, i, i + j);
  }

  lemma TrimKeepsStart(t: string)
    requires t == "" || !IsSpace(t[0])
    ensures Trim(t) <= t
  {}

  lemma TrimStarts(s: string)
    ensures Trim(s) == "" || !IsSpace(Trim(s)[0])
  {
    var left := TrimLeft(s);
    if Trim(s) != "" { assert Trim(s)[0] == left[0]; }
  }

  lemma SanitizedIsText(redact: Redaction, raw: string, cap: nat)
    requires cap > 0
    ensures TextOf(redact, raw, cap, Sanitize(redact, raw, cap))
  {
    var t := Trim(redact(raw));
    TrimIsTrimmed(redact(raw));
    TrimStarts(redact(raw));
    if |t| > cap {
      TrimIsTrimmed(t[..cap]);
      TrimKeepsStart(t[..cap]);
    }
    assert TextFrom(redact, raw, cap, Sanitize(redact, raw, cap), t);
  }

  lemma {:induction false} BlankTrims(s: string)
    ensures Trim(s) == "" <==> Blank(s)
  {
    var i := TrimLeftCuts(s);
    var j := TrimRightCuts(TrimLeft(s));
    assert s == s[..i] + s[i..] && s[i..] == s[i..][..j] + s[i..][j..];
    if Trim(s) == "" {
      assert TrimLeft(s)[j..] == TrimLeft(s);
      forall k | 0 <= k < |s| ensures IsSpace(s[k]) {
        assert s[k] == (s[..i] + s[i..])[k];
      }
    } else {
      assert !IsSpace(TrimLeft(s)[0]) && TrimLeft(s)[0] == s[i];
    }
  }

  /** A text is sent as nothing exactly when redaction leaves nothing but white space of it. */
  lemma EmptyIffBlank(redact: Redaction, raw: string, cap: nat)
    requires cap > 0
    ensures Sanitize(redact, raw, cap) == "" <==> Blank(redact(raw))
  {
    BlankTrims(redact(raw));
    TrimStarts(redact(raw));
    var t := Trim(redact(raw));
    if |t| > cap {
      BlankTrims(t[..cap]);
      assert t[..cap][0] == t[0];
    }
  }

  // ---- The uncut projection, field by field ----

  ghost predicate ResourceOf(redact: Redaction, raw: Resource, sent: Resource) {
    && TextOf(redact, raw.apiVersion, 120, sent.apiVersion) && TextOf(redact, raw.kind, 120, sent.kind)
    && TextOf(redact, raw.namespace, 253, sent.namespace) && TextOf(redact, raw.name, 253, sent.name)
  }

  ghost predicate ActionOf(redact: Redaction, raw: SentAction, sent: SentAction) {
    && TextOf(redact, raw.actionType, 160, sent.actionType) && TextOf(redact, raw.description, 700, sent.description)
    && (raw.target.Some? <==> sent.target.Some?)
    && (raw.target.Some? ==> ResourceOf(redact, raw.target.value, sent.target.value))
  }

  ghost predicate ProofOf(redact: Redaction, raw: Evidence, sent: Evidence) {
    && TextOf(redact, raw.summary, 500, sent.summary) && TextOf(redact, raw.details, 1200, sent.details)
    && TextOf(redact, raw.sourceId, 200, sent.sourceId) && sent.observedAt == raw.observedAt
  }

  predicate Within(at: seq<nat>, n: nat) {
    forall k :: 0 <= k < |at| ==> at[k] < n
  }

  predicate Ascend(at: seq<nat>, n: nat) {
    Within(at, n) && forall i, j :: 0 <= i < j < |at| ==> at[i] < at[j]
  }

  /** No room is left, and everything taken comes before `j`. */
  predicate Full(at: seq<nat>, room: nat, j: nat) {
    |at| == room && forall k :: 0 <= k < |at| ==> at[k] < j
  }

  /** The first `room` pieces of evidence whose source id survives redaction, in order. */
  ghost predicate EvidenceOf(redact: Redaction, raw: seq<Evidence>, room: nat, sent: seq<Evidence>) {
    exists at: seq<nat> :: EvidenceAt(redact, raw, room, sent, at)
  }

  ghost predicate EvidenceAt(redact: Redaction, raw: seq<Evidence>, room: nat, sent: seq<Evidence>, at: seq<nat>) {
    && |at| == |sent| <= room && Ascend(at, |raw|)
    && (forall k :: 0 <= k < |at| ==> !Blank(redact(raw[at[k]].sourceId)) && ProofOf(redact, raw[at[k]], sent[k]))
    && (forall j: nat :: j < |raw| && !Blank(redact(raw[j].sourceId)) && j !in at ==>
          Full(at, room, j))
  }

  /** Of the first `limit` texts, those of which redaction leaves something, in order. */
  ghost predicate TextsOf(redact: Redaction, raw: seq<string>, limit: nat, cap: nat, sent: seq<string>) {
    exists at: seq<nat> :: TextsAt(redact, raw, limit, cap, sent, at)
  }

  ghost predicate TextsAt(redact: Redaction, raw: seq<string>, limit: nat, cap: nat, sent: seq<string>, at: seq<nat>) {
    && |at| == |sent| && Ascend(at, |raw|)
    && (forall j: nat :: j < |raw| ==> (j in at <==> j < limit && !Blank(redact(raw[j]))))
    && forall k :: 0 <= k < |at| ==> TextOf(redact, raw[at[k]], cap, sent[k])
  }

  ghost predicate FindingOf(redact: Redaction, raw: SentFinding, sent: SentFinding) {
    && TextOf(redact, raw.id, 200, sent.id) && TextOf(redact, raw.source, 120, sent.source)
    && TextOf(redact, raw.title, 500, sent.title) && TextOf(redact, raw.severity, 30, sent.severity)
    && TextOf(redact, raw.blastRadius, 700, sent.blastRadius) && TextOf(redact, raw.fixability, 60, sent.fixability)
    && TextOf(redact, raw.recommendedAction, 700, sent.recommendedAction) && sent.riskScore == raw.riskScore
    && EvidenceOf(redact, raw.evidence, 10, sent.evidence)
    && |sent.resources| == Min(|raw.resources|, 20)
    && forall k :: 0 <= k < |sent.resources| ==> ResourceOf(redact, raw.resources[k], sent.resources[k])
  }

  ghost predicate PlanOf(redact: Redaction, raw: SentPlan, sent: SentPlan) {
    && TextOf(redact, raw.id, 200, sent.id) && TextOf(redact, raw.findingId, 200, sent.findingId)
    && TextOf(redact, raw.rootCause, 900, sent.rootCause) && TextOf(redact, raw.riskTier, 20, sent.riskTier)
    && sent.required == raw.required
    && TextsOf(redact, raw.categories, 10, 200, sent.categories)
    && TextsOf(redact, raw.verificationSteps, 10, 500, sent.verificationSteps)
    && TextsOf(redact, raw.rollbackSteps, 10, 500, sent.rollbackSteps)
    && |sent.actions| == Min(|raw.actions|, 12)
    && forall k :: 0 <= k < |sent.actions| ==> ActionOf(redact, raw.actions[k], sent.actions[k])
  }

  lemma ResourceIsOf(redact: Redaction, raw: Resource)
    ensures ResourceOf(redact, raw, SentResource(raw, redact))
  {
    SanitizedIsText(redact, raw.apiVersion, 120);
    SanitizedIsText(redact, raw.kind, 120);
    SanitizedIsText(redact, raw.namespace, 253);
    SanitizedIsText(redact, raw.name, 253);
  }

  lemma ActionIsOf(redact: Redaction, raw: SentAction)
    ensures ActionOf(redact, raw, SentActionOf(raw, redact))
  {
    SanitizedIsText(redact, raw.actionType, 160);
    SanitizedIsText(redact, raw.description, 700);
    if raw.target.Some? { ResourceIsOf(redact, raw.target.value); }
  }

  lemma ProofIsOf(redact: Redaction, raw: Evidence)
    ensures ProofOf(redact, raw, SentProof(raw, redact))
    ensures SentProof(raw, redact).sourceId == "" <==> Blank(redact(raw.sourceId))
  {
    SanitizedIsText(redact, raw.summary, 500);
    SanitizedIsText(redact, raw.details, 1200);
    SanitizedIsText(redact, raw.sourceId, 200);
    EmptyIffBlank(redact, raw.sourceId, 200);
  }

  lemma AscendAfter(head: seq<nat>, at: seq<nat>, n: nat)
    requires (head == [] || head == [0]) && Ascend(at, n)
    ensures Ascend(head + Shift(at), n + 1)
  {}

  /** The first `room` positions that are kept. */
  function Positions(keep: seq<bool>, room: nat): (at: seq<nat>)
    ensures |at| <= room
  {
    if |keep| == 0 || room == 0 then []
    else if keep[0] then [0] + Shift(Positions(keep[1..], room - 1))
    else [] + Shift(Positions(keep[1..], room))
  }

  /** What the first kept positions mean for one position. */
  predicate Means(keep: seq<bool>, room: nat, at: seq<nat>, j: nat) {
    && (j in at ==> j < |keep| && keep[j])
    && (j < |keep| && keep[j] && j !in at ==> Full(at, room, j))
  }

  lemma MeansAfter(keep: seq<bool>, room: nat, rest: seq<nat>, j: nat)
    requires |keep| > 0 && room > 0
    requires j > 0 ==> Means(keep[1..], if keep[0] then room - 1 else room, rest, j - 1)
    ensures Means(keep, room, (if keep[0] then [0] else []) + Shift(rest), j)
  {
    ShiftedMember(if keep[0] then [0] else [], rest, j);
  }

  lemma {:induction false} PositionsAscend(keep: seq<bool>, room: nat)
    ensures Ascend(Positions(keep, room), |keep|)
  {
    if |keep| > 0 && room > 0 {
      var left := if keep[0] then room - 1 else room;
      PositionsAscend(keep[1..], left);
      AscendAfter(if keep[0] then [0] else [], Positions(keep[1..], left), |keep[1..]|);
    }
  }

  lemma {:induction false} PositionsMean(keep: seq<bool>, room: nat, j: nat)
    ensures Means(keep, room, Positions(keep, room), j)
  {
    if |keep| > 0 && room > 0 {
      var left := if keep[0] then room - 1 else room;
      if j > 0 { PositionsMean(keep[1..], left, j - 1); }
      MeansAfter(keep, room, Positions(keep[1..], left), j);
    }
  }

  function Picked<T>(all: seq<T>, at: seq<nat>): (r: seq<T>)
    requires Within(at, |all|)
    ensures |r| == |at| && forall k :: 0 <= k < |at| ==> r[k] == all[at[k]]
  {
    seq(|at|, k requires 0 <= k < |at| => all[at[k]])
  }

  lemma PickedAfter<T>(all: seq<T>, at: seq<nat>)
    requires |all| > 0 && Within(at, |all| - 1)
    ensures Picked(all, [0] + Shift(at)) == [all[0]] + Picked(all[1..], at)
    ensures Picked(all, [] + Shift(at)) == Picked(all[1..], at)
  {}

  function Named(proofs: seq<Evidence>): (keep: seq<bool>)
    ensures |keep| == |proofs| && forall k :: 0 <= k < |keep| ==> keep[k] == (proofs[k].sourceId != "")
  {
    seq(|proofs|, k requires 0 <= k < |proofs| => proofs[k].sourceId != "")
  }

  lemma {:induction false} NamedAtPositions(proofs: seq<Evidence>, room: nat)
    ensures Within(Positions(Named(proofs), room), |proofs|)
    ensures FirstNamed(proofs, room) == Picked(proofs, Positions(Named(proofs), room))
  {
    if |proofs| > 0 && room > 0 {
      assert Named(proofs[1..]) == Named(proofs)[1..];
      var left := if proofs[0].sourceId == "" then room else room - 1;
      NamedAtPositions(proofs[1..], left);
      PickedAfter(proofs, Positions(Named(proofs[1..]), left));
    }
  }

  lemma EvidenceIsOf(redact: Redaction, raw: seq<Evidence>, room: nat)
    ensures EvidenceOf(redact, raw, room, SentEvidence(raw, redact, room))
  {
    var proofs := SentProofs(raw, redact);
    var at, sent := Positions(Named(proofs), room), SentEvidence(raw, redact, room);
    NamedAtPositions(proofs, room);
    PositionsAscend(Named(proofs), room);
    forall k | 0 <= k < |at| ensures !Blank(redact(raw[at[k]].sourceId)) && ProofOf(redact, raw[at[k]], sent[k]) {
      PositionsMean(Named(proofs), room, at[k]);
      ProofIsOf(redact, raw[at[k]]);
    }
    forall j: nat | j < |raw| && !Blank(redact(raw[j].sourceId)) && j !in at ensures Full(at, room, j) {
      PositionsMean(Named(proofs), room, j);
      ProofIsOf(redact, raw[j]);
    }
    assert EvidenceAt(redact, raw, room, sent, at);
  }

  function Filled(values: seq<string>): (keep: seq<bool>)
    ensures |keep| == |values| && forall k :: 0 <= k < |keep| ==> keep[k] == (values[k] != "")
  {
    seq(|values|, k requires 0 <= k < |values| => values[k] != "")
  }

  /** All positions that are kept. */
  function AllPositions(keep: seq<bool>): seq<nat> {
    if |keep| == 0 then [] else (if keep[0] then [0] else []) + Shift(AllPositions(keep[1..]))
  }

  lemma {:induction false} AllPositionsMean(keep: seq<bool>, j: nat)
    ensures var at := AllPositions(keep); Ascend(at, |keep|) && (j in at <==> j < |keep| && keep[j])
  {
    if |keep| > 0 {
      var head, rest := if keep[0] then [0] else [], AllPositions(keep[1..]);
      AllPositionsMean(keep[1..], if j > 0 then j - 1 else 0);
      AscendAfter(head, rest, |keep[1..]|);
      ShiftedMember(head, rest, j);
    }
  }

  lemma {:induction false} FilledAtPositions(values: seq<string>)
    ensures Within(AllPositions(Filled(values)), |values|)
    ensures NonEmpty(values) == Picked(values, AllPositions(Filled(values)))
  {
    if |values| > 0 {
      assert Filled(values[1..]) == Filled(values)[1..];
      FilledAtPositions(values[1..]);
      PickedAfter(values, AllPositions(Filled(values[1..])));
    }
  }

  lemma TextsAreOf(redact: Redaction, raw: seq<string>, limit: nat, cap: nat)
    requires cap > 0
    ensures TextsOf(redact, raw, limit, cap, BoundedSanitizedStrings(raw, redact, limit, cap))
  {
    var n := Min(|raw|, limit);
    var clean := SanitizeAll(raw[..n], redact, cap);
    var at, sent := AllPositions(Filled(clean)), BoundedSanitizedStrings(raw, redact, limit, cap);
    FilledAtPositions(clean);
    AllPositionsMean(Filled(clean), 0);
    forall k | 0 <= k < |at| ensures TextOf(redact, raw[at[k]], cap, sent[k]) {
      SanitizedIsText(redact, raw[at[k]], cap);
    }
    forall j: nat | j < |raw| ensures j in at <==> j < limit && !Blank(redact(raw[j])) {
      AllPositionsMean(Filled(clean), j);
      EmptyIffBlank(redact, raw[j], cap);
    }
    assert TextsAt(redact, raw, limit, cap, sent, at);
  }

  lemma NamesAreOf(redact: Redaction, raw: SentFinding)
    ensures var sent := SentFindingOf(raw, redact);
            && TextOf(redact, raw.id, 200, sent.id) && TextOf(redact, raw.source, 120, sent.source)
            && TextOf(redact, raw.title, 500, sent.title) && TextOf(redact, raw.severity, 30, sent.severity)
            && TextOf(redact, raw.blastRadius, 700, sent.blastRadius)
            && TextOf(redact, raw.fixability, 60, sent.fixability)
            && TextOf(redact, raw.recommendedAction, 700, sent.recommendedAction)
  {
    SanitizedIsText(redact, raw.id, 200);
    SanitizedIsText(redact, raw.source, 120);
    SanitizedIsText(redact, raw.title, 500);
    SanitizedIsText(redact, raw.severity, 30);
    SanitizedIsText(redact, raw.blastRadius, 700);
    SanitizedIsText(redact, raw.fixability, 60);
    SanitizedIsText(redact, raw.recommendedAction, 700);
  }

  lemma FindingIsOf(redact: Redaction, raw: SentFinding)
    ensures FindingOf(redact, raw, SentFindingOf(raw, redact))
  {
    var sent := SentFindingOf(raw, redact);
    NamesAreOf(redact, raw);
    EvidenceIsOf(redact, raw.evidence, 10);
    forall k | 0 <= k < |sent.resources| ensures ResourceOf(redact, raw.resources[k], sent.resources[k]) {
      ResourceIsOf(redact, raw.resources[k]);
    }
  }

  lemma PlanIsOf(redact: Redaction, raw: SentPlan)
    ensures PlanOf(redact, raw, SentPlanOf(raw, redact))
  {
    var sent := SentPlanOf(raw, redact);
    SanitizedIsText(redact, raw.id, 200);
    SanitizedIsText(redact, raw.findingId, 200);
    SanitizedIsText(redact, raw.rootCause, 900);
    SanitizedIsText(redact, raw.riskTier, 20);
    TextsAreOf(redact, raw.categories, 10, 200);
    TextsAreOf(redact, raw.verificationSteps, 10, 500);
    TextsAreOf(redact, raw.rollbackSteps, 10, 500);
    forall k | 0 <= k < |sent.actions| ensures ActionOf(redact, raw.actions[k], sent.actions[k]) {
      ActionIsOf(redact, raw.actions[k]);
    }
  }

  /**
   * The projection before any cut: every text is the start of the trimmed redacted text of the same raw field, all of
   * it when it fits that field's cap; lists keep their first elements, in order.
   */
  lemma ProjectionShows(raw: Input, redact: Redaction)
    ensures FindingOf(redact, raw.finding, Projected(raw, redact).finding)
    ensures PlanOf(redact, raw.plan, Projected(raw, redact).plan)
  {
    FindingIsOf(redact, raw.finding);
    PlanIsOf(redact, raw.plan);
  }
}
