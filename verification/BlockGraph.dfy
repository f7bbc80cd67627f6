/**
 * The union of all ledgers as a directed graph, and longest paths in it defined by paths.
 */
module BlockGraph {
  import opened BlockTree

  type Links = map<Hash, set<Hash>>

  /** `parents` lists each known block's parents; `children` may mention unknown blocks. */
  datatype Graph = Graph(parents: map<Hash, seq<Hash>>, children: Links)

  /** The known children of a block. */
  function Succ(g: Graph, x: Hash): set<Hash> {
    if x in g.children then g.children[x] * g.parents.Keys else {}
  }

  predicate IsPath(g: Graph, path: seq<Hash>) {
    path != [] && forall i :: 0 < i < |path| ==> path[i] in Succ(g, path[i - 1])
  }

  ghost predicate Joins(g: Graph, x: Hash, y: Hash, path: seq<Hash>) {
    IsPath(g, path) && path[0] == x && path[|path| - 1] == y
  }

  ghost predicate Reaches(g: Graph, x: Hash, y: Hash, k: nat) {
    exists path :: Joins(g, x, y, path) && |path| == k + 1
  }

  /** No path of one step or more leads back to where it started. */
  ghost predicate NoCycles(g: Graph) {
    forall x, k: nat :: k > 0 ==> !Reaches(g, x, x, k)
  }

  /** `k` is the length of the longest path from GENESIS to `x`. */
  ghost predicate LongestTo(g: Graph, x: Hash, k: nat) {
    Reaches(g, GENESIS, x, k) && forall j: nat :: Reaches(g, GENESIS, x, j) ==> j <= k
  }

  /** `k` is the length of the longest path that starts at `x`. */
  ghost predicate LongestFrom(g: Graph, x: Hash, k: nat) {
    (exists y :: Reaches(g, x, y, k)) && forall y, j: nat :: Reaches(g, x, y, j) ==> j <= k
  }

  // ---------------------------------------------------------------- paths

  lemma NoStep(g: Graph, x: Hash)
    ensures Reaches(g, x, x, 0)
  {
    assert Joins(g, x, x, [x]);
  }

  lemma StaysPut(g: Graph, x: Hash, y: Hash)
    requires Reaches(g, x, y, 0)
    ensures x == y
  {
    var path :| Joins(g, x, y, path) && |path| == 1;
  }

  lemma StepAfter(g: Graph, x: Hash, y: Hash, k: nat, z: Hash)
    requires Reaches(g, x, y, k) && z in Succ(g, y)
    ensures Reaches(g, x, z, k + 1)
  {
    var path :| Joins(g, x, y, path) && |path| == k + 1;
    assert Joins(g, x, z, path + [z]);
  }

  lemma StepBefore(g: Graph, x: Hash, y: Hash, k: nat, w: Hash)
    requires Reaches(g, x, y, k) && x in Succ(g, w)
    ensures Reaches(g, w, y, k + 1)
  {
    var path :| Joins(g, x, y, path) && |path| == k + 1;
    assert Joins(g, w, y, [w] + path);
  }

  lemma LastStep(g: Graph, x: Hash, z: Hash, k: nat) returns (y: Hash)
    requires Reaches(g, x, z, k) && k > 0
    ensures Reaches(g, x, y, k - 1) && z in Succ(g, y)
  {
    var path :| Joins(g, x, z, path) && |path| == k + 1;
    y := path[k - 1];
    assert Joins(g, x, y, path[..k]);
  }

  lemma FirstStep(g: Graph, x: Hash, z: Hash, k: nat) returns (y: Hash)
    requires Reaches(g, x, z, k) && k > 0
    ensures y in Succ(g, x) && Reaches(g, y, z, k - 1)
  {
    var path :| Joins(g, x, z, path) && |path| == k + 1;
    y := path[1];
    assert Joins(g, y, z, path[1..]);
  }

  // ---------------------------------------------------------------- ranks

  /** Every edge goes up in rank. */
  predicate EdgesRise(g: Graph, rank: map<Hash, nat>) {
    forall x :: x in g.children ==> x in rank && forall y :: y in Succ(g, x) ==> y in rank && rank[x] < rank[y]
  }

  ghost function Nodes(g: Graph): set<Hash> {
    g.children.Keys + g.parents.Keys
  }

  ghost function Ancestors(g: Graph, x: Hash): set<Hash> {
    set y | y in Nodes(g) && exists k: nat :: k > 0 && Reaches(g, y, x, k)
  }

  lemma AncestorsGrow(g: Graph, x: Hash, y: Hash)
    requires NoCycles(g) && y in Succ(g, x)
    ensures |Ancestors(g, x)| < |Ancestors(g, y)|
  {
    var a, b := Ancestors(g, x), Ancestors(g, y);
    forall w | w in a ensures w in b {
      var k: nat :| k > 0 && Reaches(g, w, x, k);
      StepAfter(g, w, x, k, y);
    }
    NoStep(g, x);
    StepAfter(g, x, x, 0, y);
    assert x in b && x !in a;
    assert b == a + (b - a) && x in b - a;
  }

  /** An acyclic graph can be ranked: by the number of ancestors. */
  lemma AcyclicIsRanked(g: Graph) returns (rank: map<Hash, nat>)
    requires NoCycles(g)
    ensures EdgesRise(g, rank)
  {
    rank := map x | x in Nodes(g) :: |Ancestors(g, x)|;
    forall x, y | x in g.children && y in Succ(g, x) ensures y in rank && rank[x] < rank[y] {
      AncestorsGrow(g, x, y);
    }
  }

  lemma {:induction false} PathRises(g: Graph, rank: map<Hash, nat>, x: Hash, y: Hash, k: nat)
    requires EdgesRise(g, rank) && Reaches(g, x, y, k) && x in rank
    ensures y in rank && rank[x] + k <= rank[y]
    decreases k
  {
    if k > 0 {
      var w := LastStep(g, x, y, k);
      PathRises(g, rank, x, w, k - 1);
    } else {
      StaysPut(g, x, y);
    }
  }

  lemma {:induction false} MaxRank(rank: map<Hash, nat>) returns (bound: nat)
    ensures forall x :: x in rank ==> rank[x] <= bound
    decreases rank.Keys
  {
    if rank.Keys == {} {
      bound := 0;
    } else {
      var x :| x in rank;
      var rest := map y | y in rank && y != x :: rank[y];
      assert x in rank.Keys && x !in rest.Keys;
      bound := MaxRank(rest);
      assert forall y :: y in rank ==> y == x || (y in rest && rest[y] == rank[y]);
      bound := if bound < rank[x] then rank[x] else bound;
    }
  }
}
