/** The parent-array forest of correlation.go: what a root is, and that `find` and `union` keep or merge roots. */
module UnionFind {

  ghost predicate InRange(p: seq<nat>) {
    forall i :: 0 <= i < |p| ==> p[i] < |p|
  }

  /** A rank that strictly falls along every parent link rules out cycles. */
  ghost predicate Ranked(p: seq<nat>, rank: seq<nat>) {
    && InRange(p)
    && |rank| == |p|
    && forall i :: 0 <= i < |p| && p[i] != i ==> rank[p[i]] < rank[i]
  }

  ghost predicate Forest(p: seq<nat>) {
    exists rank :: Ranked(p, rank)
  }

  ghost function RankOf(p: seq<nat>): (rank: seq<nat>)
    requires Forest(p)
    ensures Ranked(p, rank)
  {
    var rank :| Ranked(p, rank); rank
  }

  /** The node where following parent links from `i` stops. */
  ghost function RootOf(p: seq<nat>, i: nat): (r: nat)
    requires Forest(p) && i < |p|
    ensures r < |p| && p[r] == r
    decreases RankOf(p)[i]
  {
    if p[i] == i then i else RootOf(p, p[i])
  }

  ghost predicate SameRoot(p: seq<nat>, i: nat, j: nat)
    requires Forest(p) && i < |p| && j < |p|
  {
    RootOf(p, i) == RootOf(p, j)
  }

  ghost predicate SameRoots(p: seq<nat>, q: seq<nat>)
    requires Forest(p) && Forest(q)
  {
    |p| == |q| && forall i :: 0 <= i < |p| ==> RootOf(p, i) == RootOf(q, i)
  }

  lemma {:induction false} RootRank(p: seq<nat>, rank: seq<nat>, i: nat)
    requires Forest(p) && Ranked(p, rank) && i < |p|
    ensures rank[RootOf(p, i)] <= rank[i]
    ensures RootOf(p, i) != i ==> rank[RootOf(p, i)] < rank[i]
    decreases rank[i]
  {
    if p[i] != i { RootRank(p, rank, p[i]); }
  }

  /** Path compression: re-pointing a node at its own root keeps the array acyclic and moves no root. */
  lemma CompressionKeepsRoots(p: seq<nat>, i: nat)
    requires Forest(p) && i < |p|
    ensures var q := p[i := RootOf(p, i)]; Forest(q) && SameRoots(p, q)
  {
    var rank := RankOf(p);
    var q := p[i := RootOf(p, i)];
    RootRank(p, rank, i);
    assert Ranked(q, rank);
    forall j | 0 <= j < |p| ensures RootOf(p, j) == RootOf(q, j) {
      CompressedRoot(p, q, rank, i, j);
    }
  }

  lemma {:induction false} CompressedRoot(p: seq<nat>, q: seq<nat>, rank: seq<nat>, i: nat, j: nat)
    requires Forest(p) && i < |p| && j < |p| && q == p[i := RootOf(p, i)]
    requires Ranked(p, rank) && Forest(q)
    ensures RootOf(p, j) == RootOf(q, j)
    decreases rank[j]
  {
    if j == i {
      var r := RootOf(p, i);
      if r != i { assert q[r] == r; assert RootOf(q, r) == r; }
    } else if p[j] != j {
      CompressedRoot(p, q, rank, i, p[j]);
    }
  }

  ghost predicate Merged(p: seq<nat>, q: seq<nat>, keep: nat, drop: nat)
    requires Forest(p) && Forest(q)
  {
    |p| == |q| && forall j :: 0 <= j < |p| ==>
      RootOf(q, j) == if RootOf(p, j) == drop then keep else RootOf(p, j)
  }

  /** Linking one root under another merges exactly their two trees. */
  lemma LinkMergesTrees(p: seq<nat>, keep: nat, drop: nat)
    requires Forest(p) && keep < |p| && drop < |p| && keep != drop
    requires p[keep] == keep && p[drop] == drop
    ensures var q := p[drop := keep]; Forest(q) && Merged(p, q, keep, drop)
  {
    var rank := RankOf(p);
    var q := p[drop := keep];
    var lifted := seq(|p|, j requires 0 <= j < |p| =>
                        if RootOf(p, j) == drop then rank[j] + rank[keep] + 1 else rank[j]);
    forall j | 0 <= j < |q| && q[j] != j ensures lifted[q[j]] < lifted[j] {
      if j != drop { assert RootOf(p, j) == RootOf(p, p[j]); }
    }
    assert Ranked(q, lifted);
    forall j | 0 <= j < |p|
      ensures RootOf(q, j) == if RootOf(p, j) == drop then keep else RootOf(p, j)
    {
      LinkedRoot(p, q, rank, keep, drop, j);
    }
  }

  lemma {:induction false} LinkedRoot(p: seq<nat>, q: seq<nat>, rank: seq<nat>, keep: nat, drop: nat, j: nat)
    requires Forest(p) && Forest(q) && keep < |p| && drop < |p| && keep != drop && j < |p|
    requires p[keep] == keep && p[drop] == drop && q == p[drop := keep] && Ranked(p, rank)
    ensures RootOf(q, j) == if RootOf(p, j) == drop then keep else RootOf(p, j)
    decreases rank[j]
  {
    if j == drop {
      assert RootOf(q, keep) == keep;
    } else if p[j] != j {
      LinkedRoot(p, q, rank, keep, drop, p[j]);
    }
  }

  /** The initial array: everyone is their own parent. */
  lemma IdentityIsForest(p: seq<nat>)
    requires forall i :: 0 <= i < |p| ==> p[i] == i
    ensures Forest(p)
    ensures forall i :: 0 <= i < |p| ==> RootOf(p, i) == i
  {
    assert Ranked(p, p);
  }

  /** `find`: returns the root and compresses the path. */
  method Find(parents: array<nat>, value: nat) returns (root: nat)
    requires Forest(parents[..]) && value < parents.Length
    modifies parents
    ensures Forest(parents[..]) && SameRoots(old(parents[..]), parents[..])
    ensures root == RootOf(old(parents[..]), value) == RootOf(parents[..], value)
    ensures root < parents.Length && parents[root] == root && parents[value] == root
    decreases RankOf(parents[..])[value]
  {
    if parents[value] != value {
      ghost var before := parents[..];
      var r := Find(parents, parents[value]);
      ghost var middle := parents[..];
      assert r == RootOf(before, before[value]) == RootOf(before, value) == RootOf(middle, value);
      CompressionKeepsRoots(middle, value);
      parents[value] := r;
      assert parents[..] == middle[value := r];
    }
    root := parents[value];
  }

  /** `union`: afterwards the left root also stands for everything the right root stood for. */
  method Union(parents: array<nat>, left: nat, right: nat)
    requires Forest(parents[..]) && left < parents.Length && right < parents.Length
    modifies parents
    ensures Forest(parents[..])
    ensures Merged(old(parents[..]), parents[..], RootOf(old(parents[..]), left), RootOf(old(parents[..]), right))
  {
    var leftRoot := Find(parents, left);
    ghost var middle := parents[..];
    var rightRoot := Find(parents, right);
    if leftRoot != rightRoot {
      ghost var compressed := parents[..];
      assert RootOf(compressed, left) == leftRoot;
      LinkMergesTrees(compressed, leftRoot, rightRoot);
      parents[rightRoot] := leftRoot;
      assert parents[..] == compressed[rightRoot := leftRoot];
    }
  }
}
