/** Pod templates and the "fill only what is missing" resource edit: as executed by the operator, and as previewed. */
module Workload {
  import opened Basics

  datatype ResourceName = Cpu | Memory | OtherResource(text: string)

  datatype Probe = HttpGet(path: string, port: string, initialDelay: int, period: int, timeout: int, failures: int)

  /** `rest` stands for the container fields that no action reads or writes. */
  datatype Container = Container(
    name: string, requests: map<ResourceName, string>, limits: map<ResourceName, string>,
    readiness: Option<Probe>, liveness: Option<Probe>, rest: string)

  datatype Quantities = Quantities(cpuRequest: string, memoryRequest: string, cpuLimit: string, memoryLimit: string)

  /** Parses a positive resource quantity, and gives the canonical text of the value that is stored for it. */
  type QuantityParser = string -> Option<string>

  predicate GoodQuantities(q: Quantities, parse: QuantityParser) {
    parse(q.cpuRequest).Some? && parse(q.memoryRequest).Some? && parse(q.cpuLimit).Some? && parse(q.memoryLimit).Some?
  }

  /** What the executor fills in. */
  function Parsed(q: Quantities, parse: QuantityParser): Quantities
    requires GoodQuantities(q, parse)
  {
    Quantities(parse(q.cpuRequest).value, parse(q.memoryRequest).value, parse(q.cpuLimit).value,
               parse(q.memoryLimit).value)
  }

  function SetIfMissing(values: map<ResourceName, string>, name: ResourceName,
                        quantity: string): map<ResourceName, string> {
    if name in values then values else values[name := quantity]
  }

  function FillContainer(c: Container, q: Quantities): Container {
    c.(requests := SetIfMissing(SetIfMissing(c.requests, Cpu, q.cpuRequest), Memory, q.memoryRequest),
       limits := SetIfMissing(SetIfMissing(c.limits, Cpu, q.cpuLimit), Memory, q.memoryLimit))
  }

  function FillAll(cs: seq<Container>, q: Quantities): (r: seq<Container>)
    ensures |r| == |cs| && forall k :: 0 <= k < |cs| ==> r[k] == FillContainer(cs[k], q)
  {
    seq(|cs|, k requires 0 <= k < |cs| => FillContainer(cs[k], q))
  }

  predicate HasAllResources(c: Container) {
    Cpu in c.requests && Memory in c.requests && Cpu in c.limits && Memory in c.limits
  }

  method CopyOf(cs: seq<Container>) returns (items: array<Container>)
    ensures fresh(items) && items[..] == cs
  {
    items := new Container[|cs|](k requires 0 <= k < |cs| => cs[k]);
  }

  method FillOne(all: array<Container>, index: nat, q: Quantities)
    requires index < all.Length
    modifies all
    ensures all[..] == old(all[..])[index := FillContainer(old(all[index]), q)]
  {
    var c := all[index];
    c := c.(requests := SetIfMissing(c.requests, Cpu, q.cpuRequest));
    c := c.(requests := SetIfMissing(c.requests, Memory, q.memoryRequest));
    c := c.(limits := SetIfMissing(c.limits, Cpu, q.cpuLimit));
    c := c.(limits := SetIfMissing(c.limits, Memory, q.memoryLimit));
    all[index] := c;
  }

  /** The executor's edit: concatenate both lists, fill every entry, copy the two parts back. */
  method MutateResources(initContainers: array<Container>, containers: array<Container>, q: Quantities)
    requires initContainers != containers
    modifies initContainers, containers
    ensures initContainers[..] == FillAll(old(initContainers[..]), q)
    ensures containers[..] == FillAll(old(containers[..]), q)
  {
    var n := initContainers.Length;
    var joined := initContainers[..] + containers[..];
    var all := CopyOf(joined);
    for index := 0 to all.Length
      invariant forall k :: 0 <= k < index ==> all[k] == FillContainer(joined[k], q)
      invariant forall k :: index <= k < all.Length ==> all[k] == joined[k]
      invariant initContainers[..] == old(initContainers[..]) && containers[..] == old(containers[..])
    {
      FillOne(all, index, q);
    }
    assert all[..] == FillAll(joined, q);
    CopyBack(initContainers, all, 0);
    CopyBack(containers, all, n);
  }

  method CopyBack(target: array<Container>, all: array<Container>, offset: nat)
    requires target != all && offset + target.Length <= all.Length
    modifies target
    ensures target[..] == all[offset..offset + target.Length]
  {
    for k := 0 to target.Length
      invariant forall i :: 0 <= i < k ==> target[i] == all[offset + i]
    {
      target[k] := all[offset + k];
    }
  }

  // ---- The preview ----

  datatype Field = InitContainers | Containers

  datatype Section = Requests | Limits

  /** One rendered line: this container's section gains this value. */
  datatype Change = Change(field: Field, container: string, section: Section, key: ResourceName, desired: string)

  method AddMissing(changes: seq<Change>, values: map<ResourceName, string>, line: Change)
    returns (changes': seq<Change>, values': map<ResourceName, string>)
    ensures values' == SetIfMissing(values, line.key, line.desired)
    ensures changes' == changes + (if line.key in values then [] else [line])
  {
    if line.key in values { return changes, values; }
    values' := values[line.key := line.desired];
    changes' := changes + [line];
  }

  function LineIf(missing: bool, line: Change): seq<Change> {
    if missing then [line] else []
  }

  function ContainerChanges(field: Field, c: Container, q: Quantities): seq<Change> {
    LineIf(Cpu !in c.requests, Change(field, c.name, Requests, Cpu, q.cpuRequest))
    + LineIf(Memory !in c.requests, Change(field, c.name, Requests, Memory, q.memoryRequest))
    + LineIf(Cpu !in c.limits, Change(field, c.name, Limits, Cpu, q.cpuLimit))
    + LineIf(Memory !in c.limits, Change(field, c.name, Limits, Memory, q.memoryLimit))
  }

  function ListChanges(field: Field, cs: seq<Container>, q: Quantities): seq<Change> {
    if |cs| == 0 then []
    else ListChanges(field, cs[..|cs| - 1], q) + ContainerChanges(field, cs[|cs| - 1], q)
  }

  method RenderContainer(changes: seq<Change>, field: Field, c: Container, q: Quantities)
    returns (changes': seq<Change>, rendered: Container)
    ensures rendered == FillContainer(c, q)
    ensures changes' == changes + ContainerChanges(field, c, q)
  {
    var requests, limits := c.requests, c.limits;
    changes' := changes;
    changes', requests := AddMissing(changes', requests, Change(field, c.name, Requests, Cpu, q.cpuRequest));
    changes', requests := AddMissing(changes', requests, Change(field, c.name, Requests, Memory, q.memoryRequest));
    changes', limits := AddMissing(changes', limits, Change(field, c.name, Limits, Cpu, q.cpuLimit));
    changes', limits := AddMissing(changes', limits, Change(field, c.name, Limits, Memory, q.memoryLimit));
    rendered := c.(requests := requests, limits := limits);
  }

  lemma ListChangesStep(field: Field, cs: seq<Container>, q: Quantities, index: nat, before: seq<Change>)
    requires index < |cs|
    ensures before + ListChanges(field, cs[..index + 1], q)
         == (before + ListChanges(field, cs[..index], q)) + ContainerChanges(field, cs[index], q)
  {
    assert cs[..index + 1][..index] == cs[..index];
  }

  method RenderAt(changes: seq<Change>, field: Field, items: array<Container>, index: nat, q: Quantities)
    returns (changes': seq<Change>)
    requires index < items.Length
    modifies items
    ensures items[..] == old(items[..])[index := FillContainer(old(items[index]), q)]
    ensures changes' == changes + ContainerChanges(field, old(items[index]), q)
  {
    var rendered;
    changes', rendered := RenderContainer(changes, field, items[index], q);
    items[index] := rendered;
  }

  /** The first `index` entries are filled and the others are as they were. */
  predicate FilledUpTo(items: seq<Container>, cs: seq<Container>, q: Quantities, index: nat) {
    && |items| == |cs| && index <= |cs|
    && (forall k :: 0 <= k < index ==> items[k] == FillContainer(cs[k], q))
    && (forall k :: index <= k < |cs| ==> items[k] == cs[k])
  }

  method RenderField(changes: seq<Change>, field: Field, items: array<Container>, q: Quantities)
    returns (changes': seq<Change>)
    modifies items
    ensures items[..] == FillAll(old(items[..]), q)
    ensures changes' == changes + ListChanges(field, old(items[..]), q)
  {
    ghost var cs := items[..];
    changes' := changes;
    for index := 0 to items.Length
      invariant FilledUpTo(items[..], cs, q, index)
      invariant changes' == changes + ListChanges(field, cs[..index], q)
    {
      assert items[..][index] == cs[index];
      changes' := RenderAt(changes', field, items, index, q);
      ListChangesStep(field, cs, q, index, changes);
    }
    assert cs[..items.Length] == cs;
  }

  /** renderWorkloadResourcesDiff over the two container lists of a template. */
  method RenderWorkloadResources(initContainers: seq<Container>, containers: seq<Container>, q: Quantities)
    returns (changes: seq<Change>, renderedInit: seq<Container>, rendered: seq<Container>)
    ensures renderedInit == FillAll(initContainers, q) && rendered == FillAll(containers, q)
    ensures changes == ListChanges(InitContainers, initContainers, q) + ListChanges(Containers, containers, q)
  {
    var first := CopyOf(initContainers);
    var second := CopyOf(containers);
    changes := RenderField([], InitContainers, first, q);
    assert changes == ListChanges(InitContainers, initContainers, q);
    renderedInit := first[..];
    changes := RenderField(changes, Containers, second, q);
    rendered := second[..];
  }

  /** The executor applied to the two lists of a template. */
  method ExecuteWorkloadResources(initContainers: seq<Container>, containers: seq<Container>, q: Quantities)
    returns (newInit: seq<Container>, newContainers: seq<Container>)
    ensures newInit == FillAll(initContainers, q) && newContainers == FillAll(containers, q)
  {
    var first := CopyOf(initContainers);
    var second := CopyOf(containers);
    MutateResources(first, second, q);
    newInit, newContainers := first[..], second[..];
  }

  // ---- The preview tells the truth ----

  /** Both have the same keys; values that were there stay, and a new one is written as its shown text parses. */
  predicate ValuesMatch(was: map<ResourceName, string>, shown: map<ResourceName, string>,
                        written: map<ResourceName, string>, parse: QuantityParser) {
    && shown.Keys == written.Keys && was.Keys <= shown.Keys
    && forall r :: r in shown ==>
         if r in was then shown[r] == written[r] == was[r] else parse(shown[r]) == Some(written[r])
  }

  predicate ShownAs(was: Container, shown: Container, written: Container, parse: QuantityParser) {
    && written == shown.(requests := written.requests, limits := written.limits)
    && ValuesMatch(was.requests, shown.requests, written.requests, parse)
    && ValuesMatch(was.limits, shown.limits, written.limits, parse)
  }

  lemma FillsAreShown(c: Container, q: Quantities, parse: QuantityParser)
    requires GoodQuantities(q, parse)
    ensures ShownAs(c, FillContainer(c, q), FillContainer(c, Parsed(q, parse)), parse)
  {}

  /** Every text this list of lines shows is canonical. */
  predicate Canonical(lines: seq<Change>, parse: QuantityParser) {
    forall k :: 0 <= k < |lines| ==> parse(lines[k].desired) == Some(lines[k].desired)
  }

  lemma CanonicalAppends(a: seq<Change>, b: seq<Change>, parse: QuantityParser)
    ensures Canonical(a + b, parse) <==> Canonical(a, parse) && Canonical(b, parse)
  {
    forall k | 0 <= k < |a| ensures (a + b)[k] == a[k] {}
    forall k | 0 <= k < |b| ensures (a + b)[|a| + k] == b[k] {}
  }

  lemma CanonicalIf(missing: bool, line: Change, parse: QuantityParser)
    ensures Canonical(LineIf(missing, line), parse) <==> !missing || parse(line.desired) == Some(line.desired)
  {
    if missing { assert LineIf(missing, line)[0] == line; }
  }

  /** The gaps of this container have canonical texts. */
  predicate CanonicalGaps(c: Container, q: Quantities, parse: QuantityParser) {
    && (Cpu in c.requests || parse(q.cpuRequest) == Some(q.cpuRequest))
    && (Memory in c.requests || parse(q.memoryRequest) == Some(q.memoryRequest))
    && (Cpu in c.limits || parse(q.cpuLimit) == Some(q.cpuLimit))
    && (Memory in c.limits || parse(q.memoryLimit) == Some(q.memoryLimit))
  }

  lemma CanonicalLines(field: Field, c: Container, q: Quantities, parse: QuantityParser)
    ensures Canonical(ContainerChanges(field, c, q), parse) <==> CanonicalGaps(c, q, parse)
  {
    var a := LineIf(Cpu !in c.requests, Change(field, c.name, Requests, Cpu, q.cpuRequest));
    var b := LineIf(Memory !in c.requests, Change(field, c.name, Requests, Memory, q.memoryRequest));
    var d := LineIf(Cpu !in c.limits, Change(field, c.name, Limits, Cpu, q.cpuLimit));
    var e := LineIf(Memory !in c.limits, Change(field, c.name, Limits, Memory, q.memoryLimit));
    CanonicalIf(Cpu !in c.requests, Change(field, c.name, Requests, Cpu, q.cpuRequest), parse);
    CanonicalIf(Memory !in c.requests, Change(field, c.name, Requests, Memory, q.memoryRequest), parse);
    CanonicalIf(Cpu !in c.limits, Change(field, c.name, Limits, Cpu, q.cpuLimit), parse);
    CanonicalIf(Memory !in c.limits, Change(field, c.name, Limits, Memory, q.memoryLimit), parse);
    CanonicalAppends(a, b, parse);
    CanonicalAppends(a + b, d, parse);
    CanonicalAppends(a + b + d, e, parse);
  }

  lemma SameFillIff(values: map<ResourceName, string>, cpu: string, memory: string, cpu': string, memory': string)
    ensures SetIfMissing(SetIfMissing(values, Cpu, cpu), Memory, memory)
         == SetIfMissing(SetIfMissing(values, Cpu, cpu'), Memory, memory')
       <==> (Cpu in values || cpu == cpu') && (Memory in values || memory == memory')
  {
    var one := SetIfMissing(SetIfMissing(values, Cpu, cpu), Memory, memory);
    var two := SetIfMissing(SetIfMissing(values, Cpu, cpu'), Memory, memory');
    assert Cpu in one && Memory in one && Cpu in two && Memory in two;
    if one == two { assert one[Cpu] == two[Cpu] && one[Memory] == two[Memory]; }
  }

  lemma SameTextIff(c: Container, q: Quantities, parse: QuantityParser)
    requires GoodQuantities(q, parse)
    ensures FillContainer(c, q) == FillContainer(c, Parsed(q, parse)) <==> CanonicalGaps(c, q, parse)
  {
    var p := Parsed(q, parse);
    SameFillIff(c.requests, q.cpuRequest, q.memoryRequest, p.cpuRequest, p.memoryRequest);
    SameFillIff(c.limits, q.cpuLimit, q.memoryLimit, p.cpuLimit, p.memoryLimit);
  }

  /** A list reads the same in the preview and after execution iff every text that its lines show is canonical. */
  lemma {:induction false} SameTextsIff(field: Field, cs: seq<Container>, q: Quantities, parse: QuantityParser)
    requires GoodQuantities(q, parse)
    ensures FillAll(cs, q) == FillAll(cs, Parsed(q, parse)) <==> Canonical(ListChanges(field, cs, q), parse)
  {
    if |cs| > 0 {
      var init, last := cs[..|cs| - 1], cs[|cs| - 1];
      SameTextsIff(field, init, q, parse);
      SameTextIff(last, q, parse);
      CanonicalLines(field, last, q, parse);
      CanonicalAppends(ListChanges(field, init, q), ContainerChanges(field, last, q), parse);
      SplitFill(cs, q);
      SplitFill(cs, Parsed(q, parse));
    }
  }

  lemma SplitFill(cs: seq<Container>, q: Quantities)
    requires |cs| > 0
    ensures FillAll(cs, q) == FillAll(cs[..|cs| - 1], q) + [FillContainer(cs[|cs| - 1], q)]
  {}

  lemma FillKeepsComplete(c: Container, q: Quantities)
    ensures FillContainer(c, q) == c <==> HasAllResources(c)
    ensures HasAllResources(FillContainer(c, q))
  {
    var f := FillContainer(c, q);
    assert Cpu in f.requests && Memory in f.requests && Cpu in f.limits && Memory in f.limits;
  }

  predicate AllComplete(cs: seq<Container>) {
    forall k :: 0 <= k < |cs| ==> HasAllResources(cs[k])
  }

  lemma NoChangeIffComplete(cs: seq<Container>, q: Quantities)
    ensures FillAll(cs, q) == cs <==> AllComplete(cs)
  {
    forall k | 0 <= k < |cs| ensures FillAll(cs, q)[k] == cs[k] <==> HasAllResources(cs[k]) {
      FillKeepsComplete(cs[k], q);
    }
    if AllComplete(cs) { assert forall k :: 0 <= k < |cs| ==> FillAll(cs, q)[k] == cs[k]; }
  }

  lemma {:induction false} NoLinesIffComplete(field: Field, cs: seq<Container>, q: Quantities)
    ensures ListChanges(field, cs, q) == [] <==> AllComplete(cs)
  {
    if |cs| > 0 {
      var last := cs[|cs| - 1];
      NoLinesIffComplete(field, cs[..|cs| - 1], q);
      assert ContainerChanges(field, last, q) == [] <==> HasAllResources(last);
      assert AllComplete(cs) <==> AllComplete(cs[..|cs| - 1]) && HasAllResources(last);
    }
  }

  lemma NoLinesIffNoChange(field: Field, cs: seq<Container>, q: Quantities)
    ensures ListChanges(field, cs, q) == [] <==> FillAll(cs, q) == cs
  {
    NoLinesIffComplete(field, cs, q);
    NoChangeIffComplete(cs, q);
  }

  /** Values that were present survive, nothing but the four named entries appears, and a second run is a no-op. */
  lemma FillPreservesAndSettles(cs: seq<Container>, q: Quantities, k: nat)
    requires k < |cs|
    ensures var was, now := cs[k], FillAll(cs, q)[k];
            && now.name == was.name && now.rest == was.rest
            && now.readiness == was.readiness && now.liveness == was.liveness
            && (forall r :: r in was.requests ==> r in now.requests && now.requests[r] == was.requests[r])
            && (forall r :: r in was.limits ==> r in now.limits && now.limits[r] == was.limits[r])
            && now.requests.Keys == was.requests.Keys + {Cpu, Memory}
            && now.limits.Keys == was.limits.Keys + {Cpu, Memory}
    ensures FillAll(FillAll(cs, q), q) == FillAll(cs, q)
  {
    forall j | 0 <= j < |cs| ensures FillContainer(FillContainer(cs[j], q), q) == FillContainer(cs[j], q) {
      FillKeepsComplete(cs[j], q);
      FillKeepsComplete(FillContainer(cs[j], q), q);
    }
  }

  /** This line says that the container lacks this value, and which value execution will give it. */
  predicate TellsGap(field: Field, c: Container, q: Quantities, line: Change) {
    && line.field == field && line.container == c.name && line.key in {Cpu, Memory}
    && line.key !in (if line.section.Requests? then c.requests else c.limits)
    && line.desired
       == (if line.section.Requests? then FillContainer(c, q).requests else FillContainer(c, q).limits)[line.key]
  }

  lemma LineMeaning(field: Field, c: Container, q: Quantities, line: Change)
    ensures line in ContainerChanges(field, c, q) <==> TellsGap(field, c, q, line)
  {}

  predicate IsGap(field: Field, cs: seq<Container>, q: Quantities, line: Change, k: nat) {
    k < |cs| && TellsGap(field, cs[k], q, line)
  }

  lemma {:induction false} LineHasContainer(field: Field, cs: seq<Container>, q: Quantities, line: Change)
    returns (k: nat)
    requires line in ListChanges(field, cs, q)
    ensures k < |cs| && line in ContainerChanges(field, cs[k], q)
  {
    if line in ContainerChanges(field, cs[|cs| - 1], q) {
      k := |cs| - 1;
    } else {
      k := LineHasContainer(field, cs[..|cs| - 1], q, line);
    }
  }

  lemma {:induction false} ContainerHasLine(field: Field, cs: seq<Container>, q: Quantities, line: Change, k: nat)
    requires k < |cs| && line in ContainerChanges(field, cs[k], q)
    ensures line in ListChanges(field, cs, q)
  {
    if k < |cs| - 1 { ContainerHasLine(field, cs[..|cs| - 1], q, line, k); }
  }

  /**
   * Every line names a value that is really absent, as execution will fill it in, and every absent value has its line.
   */
  lemma LinesAreExactlyTheGaps(field: Field, cs: seq<Container>, q: Quantities, line: Change)
    ensures line in ListChanges(field, cs, q) <==> exists k: nat :: IsGap(field, cs, q, line, k)
  {
    if line in ListChanges(field, cs, q) {
      var k := LineHasContainer(field, cs, q, line);
      LineMeaning(field, cs[k], q, line);
      assert IsGap(field, cs, q, line, k);
    } else if k: nat :| IsGap(field, cs, q, line, k) {
      LineMeaning(field, cs[k], q, line);
      ContainerHasLine(field, cs, q, line, k);
    }
  }
}
