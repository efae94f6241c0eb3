/** Connected components, stated by paths and independent of any data structure. */
module Graph {
  type Edges = set<(nat, nat)>

  predicate IsPath(edges: Edges, path: seq<nat>) {
    |path| > 0 && forall k :: 0 <= k < |path| - 1 ==> (path[k], path[k + 1]) in edges
  }

  ghost predicate Joins(edges: Edges, path: seq<nat>, i: nat, j: nat) {
    IsPath(edges, path) && path[0] == i && path[|path| - 1] == j
  }

  /** The reflexive and transitive closure of the edge relation. */
  ghost predicate Connected(edges: Edges, i: nat, j: nat) {
    exists path :: Joins(edges, path, i, j)
  }

  predicate Symmetric(edges: Edges) {
    forall e :: e in edges ==> (e.1, e.0) in edges
  }

  lemma Reflexive(edges: Edges, i: nat)
    ensures Connected(edges, i, i)
  {
    assert Joins(edges, [i], i, i);
  }

  lemma EdgeConnects(edges: Edges, i: nat, j: nat)
    requires (i, j) in edges
    ensures Connected(edges, i, j)
  {
    assert Joins(edges, [i, j], i, j);
  }

  lemma Transitive(edges: Edges, i: nat, j: nat, k: nat)
    requires Connected(edges, i, j) && Connected(edges, j, k)
    ensures Connected(edges, i, k)
  {
    var first :| Joins(edges, first, i, j);
    var second :| Joins(edges, second, j, k);
    assert Joins(edges, first + second[1..], i, k);
  }

  function Reverse(path: seq<nat>): (r: seq<nat>)
    ensures |r| == |path|
    ensures forall k :: 0 <= k < |r| ==> r[k] == path[|path| - 1 - k]
  {
    seq(|path|, k requires 0 <= k < |path| => path[|path| - 1 - k])
  }

  lemma ConnectedIsSymmetric(edges: Edges, i: nat, j: nat)
    requires Symmetric(edges) && Connected(edges, i, j)
    ensures Connected(edges, j, i)
  {
    var path :| Joins(edges, path, i, j);
    var back := Reverse(path);
    forall k | 0 <= k < |back| - 1 ensures (back[k], back[k + 1]) in edges {
      var e := (path[|path| - 2 - k], path[|path| - 1 - k]);
      assert path[|path| - 2 - k + 1] == path[|path| - 1 - k];
      assert e in edges;
    }
    assert Joins(edges, back, j, i);
  }
}
