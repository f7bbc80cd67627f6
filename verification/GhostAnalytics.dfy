/**
 * The end-of-round analysis of the Ethereum peers: memoised subtree weights and the chain
 * that follows the heaviest subtree at every fork.
 */
module GhostAnalytics {
  import opened BlockTree
  import opened BlockGraph

  /** A tree: no cycles and at most one parent per known block. */
  ghost predicate IsTree(g: Graph) {
    NoCycles(g) && forall p, q, c :: c in Succ(g, p) && c in Succ(g, q) ==> p == q
  }

  ghost predicate Descends(g: Graph, x: Hash, y: Hash) {
    exists k: nat :: Reaches(g, x, y, k)
  }

  ghost function Subtree(g: Graph, x: Hash): set<Hash> {
    set y | y in Nodes(g) + {x} && Descends(g, x, y)
  }

  // ---------------------------------------------------------------- subtrees of siblings are disjoint

  lemma {:induction false} OneOnTheWay(g: Graph, c: Hash, d: Hash, y: Hash, j: nat, k: nat)
    requires IsTree(g) && j <= k && Reaches(g, c, y, j) && Reaches(g, d, y, k)
    ensures Reaches(g, d, c, k - j)
    decreases j
  {
    if j == 0 {
      StaysPut(g, c, y);
    } else {
      var a := LastStep(g, c, y, j);
      var b := LastStep(g, d, y, k);
      OneOnTheWay(g, c, d, a, j - 1, k - 1);
    }
  }

  lemma NoWayRound(g: Graph, x: Hash, c: Hash, d: Hash, k: nat)
    requires IsTree(g) && c in Succ(g, x) && d in Succ(g, x) && Reaches(g, d, c, k)
    ensures c == d
  {
    if k == 0 {
      StaysPut(g, d, c);
    } else {
      var p := LastStep(g, d, c, k);
      StepBefore(g, d, x, k - 1, x);
    }
  }

  lemma SiblingsAreDisjoint(g: Graph, x: Hash, c: Hash, d: Hash)
    requires IsTree(g) && c in Succ(g, x) && d in Succ(g, x) && c != d
    ensures Subtree(g, c) !! Subtree(g, d)
  {
    forall y | y in Subtree(g, c) && y in Subtree(g, d) ensures false {
      var j: nat :| Reaches(g, c, y, j);
      var k: nat :| Reaches(g, d, y, k);
      if j <= k {
        OneOnTheWay(g, c, d, y, j, k);
        NoWayRound(g, x, c, d, k - j);
      } else {
        OneOnTheWay(g, d, c, y, k, j);
        NoWayRound(g, x, d, c, j - k);
      }
    }
  }

  lemma NotBelowItself(g: Graph, x: Hash, c: Hash)
    requires IsTree(g) && c in Succ(g, x)
    ensures x !in Subtree(g, c)
  {
    if x in Subtree(g, c) {
      var k: nat :| Reaches(g, c, x, k);
      StepBefore(g, c, x, k, x);
    }
  }

  /** The block itself and the subtrees of the children handled so far. */
  ghost function Gathered(g: Graph, x: Hash, done: set<Hash>): set<Hash> {
    set y | y in Nodes(g) + {x} && (y == x || exists c :: c in done && y in Subtree(g, c))
  }

  lemma GatherOne(g: Graph, x: Hash, done: set<Hash>, c: Hash)
    requires IsTree(g) && done <= Succ(g, x) && c in Succ(g, x) && c !in done
    ensures |Gathered(g, x, done + {c})| == |Gathered(g, x, done)| + |Subtree(g, c)|
  {
    var a, b := Gathered(g, x, done), Subtree(g, c);
    forall d | d in done ensures Subtree(g, d) !! b {
      SiblingsAreDisjoint(g, x, d, c);
    }
    NotBelowItself(g, x, c);
    assert a !! b;
    assert b <= Nodes(g);
    assert Gathered(g, x, done + {c}) == a + b;
  }

  lemma GatheredAll(g: Graph, x: Hash)
    ensures Gathered(g, x, Succ(g, x)) == Subtree(g, x)
  {
    forall y | y in Subtree(g, x) ensures y in Gathered(g, x, Succ(g, x)) {
      var k: nat :| Reaches(g, x, y, k);
      if k > 0 {
        var c := FirstStep(g, x, y, k);
        assert Descends(g, c, y) && y in Subtree(g, c);
      } else {
        StaysPut(g, x, y);
      }
    }
    forall y | y in Gathered(g, x, Succ(g, x)) ensures y in Subtree(g, x) {
      if y == x {
        NoStep(g, x);
      } else {
        var c :| c in Succ(g, x) && y in Subtree(g, c);
        var k: nat :| Reaches(g, c, y, k);
        StepBefore(g, c, y, k, x);
      }
    }
  }

  // ---------------------------------------------------------------- memoised weights

  /** The number of blocks in the subtree under a block, itself included. */
  ghost function Weight(g: Graph, x: Hash): nat {
    |Subtree(g, x)|
  }

  /** The weight found once only the children in `todo` are left. */
  ghost function PartWeight(g: Graph, x: Hash, todo: set<Hash>): nat {
    |Gathered(g, x, Succ(g, x) - todo)|
  }

  lemma GatheredNone(g: Graph, x: Hash)
    ensures Gathered(g, x, {}) == {x}
  {
  }

  lemma PartWeightStarts(g: Graph, x: Hash, todo: set<Hash>)
    requires Succ(g, x) <= todo
    ensures PartWeight(g, x, todo) == 1
  {
    assert Succ(g, x) - todo == {};
    GatheredNone(g, x);
  }

  lemma PartWeightEnds(g: Graph, x: Hash)
    ensures PartWeight(g, x, {}) == Weight(g, x)
  {
    assert Succ(g, x) - {} == Succ(g, x);
    GatheredAll(g, x);
  }

  lemma PartWeightGrows(g: Graph, x: Hash, todo: set<Hash>, c: Hash)
    requires IsTree(g) && x in g.children && todo <= g.children[x] && c in todo
    ensures PartWeight(g, x, todo - {c}) == PartWeight(g, x, todo) + if c in g.parents then Weight(g, c) else 0
  {
    var done := Succ(g, x) - todo;
    if c in g.parents {
      assert Succ(g, x) - (todo - {c}) == done + {c};
      GatherOne(g, x, done, c);
    } else {
      assert Succ(g, x) - (todo - {c}) == done;
    }
  }

  ghost predicate MemoOk(g: Graph, memo: map<Hash, nat>) {
    forall x {:trigger memo[x]} :: x in memo ==> memo[x] == Weight(g, x)
  }

  predicate ActiveAbove(rank: map<Hash, nat>, active: set<Hash>, hash: Hash) {
    hash in rank && forall a :: a in active ==> a in rank && rank[a] < rank[hash]
  }

  lemma ChildIsHigher(g: Graph, rank: map<Hash, nat>, active: set<Hash>, x: Hash, c: Hash)
    requires EdgesRise(g, rank) && ActiveAbove(rank, active, x) && c in Succ(g, x)
    ensures ActiveAbove(rank, active + {x}, c) && c !in active + {x} && rank[x] < rank[c]
  {
  }

  /** The number of blocks in a subtree, whatever the memo already holds. */
  method SubtreeWeight(g: Graph, hash: Hash, memo0: map<Hash, nat>, active: set<Hash>,
                       ghost rank: map<Hash, nat>, ghost bound: nat)
    returns (weight: nat, memo: map<Hash, nat>)
    requires IsTree(g) && EdgesRise(g, rank) && (forall x :: x in rank ==> rank[x] <= bound)
    requires hash in rank && (hash in active || ActiveAbove(rank, active, hash))
    requires MemoOk(g, memo0)
    ensures MemoOk(g, memo)
    ensures weight == if hash in active then 0 else Weight(g, hash)
    decreases bound - rank[hash]
  {
    memo := memo0;
    if hash in active {
      return 0, memo;
    }
    if hash in memo {
      return memo[hash], memo;
    }
    weight := 1;
    var todo := if hash in g.children then g.children[hash] else {};
    PartWeightStarts(g, hash, todo);
    while todo != {}
      invariant todo == {} || (hash in g.children && todo <= g.children[hash])
      invariant MemoOk(g, memo) && weight == PartWeight(g, hash, todo)
      decreases |todo|
    {
      var child :| child in todo;
      PartWeightGrows(g, hash, todo, child);
      todo := todo - {child};
      if child in g.parents {
        ChildIsHigher(g, rank, active, hash, child);
        var w;
        w, memo := SubtreeWeight(g, child, memo, active + {hash}, rank, bound);
        weight := weight + w;
      }
    }
    PartWeightEnds(g, hash);
    memo := memo[hash := weight];
  }

  // ---------------------------------------------------------------- the GHOST path

  function HeightIn(h: map<Hash, nat>, x: Hash): nat {
    if x in h then h[x] else 0
  }

  /** `a` wins the fork against `b`: heavier, then taller, then smaller by name. */
  ghost predicate Wins(g: Graph, h: map<Hash, nat>, a: Hash, b: Hash) {
    var wa, wb := Weight(g, a), Weight(g, b);
    wa > wb || (wa == wb && Beats(a, HeightIn(h, a), b, HeightIn(h, b)))
  }

  lemma WinsIsStrictOrder(g: Graph, h: map<Hash, nat>, a: Hash, b: Hash, c: Hash)
    ensures a != b ==> Wins(g, h, a, b) || Wins(g, h, b, a)
    ensures Wins(g, h, a, b) && Wins(g, h, b, c) ==> Wins(g, h, a, c)
  {
    BeatsIsStrictOrder(a, HeightIn(h, a), b, HeightIn(h, b), c, HeightIn(h, c));
  }

  /** `best` wins over every other block of `done`. */
  ghost predicate Leads(g: Graph, h: map<Hash, nat>, best: Hash, done: set<Hash>) {
    forall c :: c in done ==> c == best || Wins(g, h, best, c)
  }

  predicate Overtakes(c: Hash, weight: int, height: int, best: Hash, bestWeight: int, bestHeight: int) {
    || weight > bestWeight
    || (weight == bestWeight && height > bestHeight)
    || (weight == bestWeight && height == bestHeight && Less(c, best))
  }

  lemma LeadsOneMore(g: Graph, h: map<Hash, nat>, best: Hash, done: set<Hash>, c: Hash)
    requires Leads(g, h, best, done) && best in done
    ensures if Overtakes(c, Weight(g, c), HeightIn(h, c), best, Weight(g, best), HeightIn(h, best))
            then Leads(g, h, c, done + {c})
            else Leads(g, h, best, done + {c})
  {
    WinsIsStrictOrder(g, h, c, best, c);
    forall d | d in done && Wins(g, h, c, best) && d != c ensures Wins(g, h, c, d) {
      WinsIsStrictOrder(g, h, c, best, d);
    }
  }

  /** The winner among the known children of `cursor`, examined in any order. */
  method BestChild(g: Graph, h: map<Hash, nat>, cursor: Hash, memo0: map<Hash, nat>,
                   ghost rank: map<Hash, nat>, ghost bound: nat)
    returns (found: bool, best: Hash, memo: map<Hash, nat>)
    requires IsTree(g) && EdgesRise(g, rank) && (forall x :: x in rank ==> rank[x] <= bound)
    requires MemoOk(g, memo0)
    ensures MemoOk(g, memo)
    ensures found <==> Succ(g, cursor) != {}
    ensures found ==> best in Succ(g, cursor) && Leads(g, h, best, Succ(g, cursor))
  {
    memo, found, best := memo0, false, "";
    if cursor !in g.children {
      return;
    }
    var bestWeight: int, bestHeight: int := -1, -1;
    var todo := g.children[cursor];
    ghost var done: set<Hash> := {};
    while todo != {}
      invariant todo <= g.children[cursor] && MemoOk(g, memo) && done == Succ(g, cursor) - todo
      invariant !found ==> bestWeight == -1 && bestHeight == -1 && done == {}
      invariant found ==> bestWeight == Weight(g, best) && bestHeight == HeightIn(h, best)
      invariant found ==> best in done && Leads(g, h, best, done)
      decreases |todo|
    {
      var child :| child in todo;
      todo := todo - {child};
      if child in g.parents {
        var weight;
        weight, memo := SubtreeWeight(g, child, memo, {}, rank, bound);
        var height := HeightIn(h, child);
        if found {
          LeadsOneMore(g, h, best, done, child);
        }
        done := done + {child};
        if Overtakes(child, weight, height, best, bestWeight, bestHeight) {
          found, best, bestWeight, bestHeight := true, child, weight, height;
        }
      }
    }
  }

  /** From GENESIS to a leaf, taking the winner of every fork on the way. */
  ghost predicate IsGhostPath(g: Graph, h: map<Hash, nat>, path: seq<Hash>) {
    && path != [] && path[0] == GENESIS && IsPath(g, path)
    && Succ(g, path[|path| - 1]) == {}
    && forall i :: 0 < i < |path| ==> Leads(g, h, path[i], Succ(g, path[i - 1]))
  }

  method GhostPath(g: Graph, h: map<Hash, nat>) returns (path: seq<Hash>)
    requires IsTree(g)
    ensures IsGhostPath(g, h, path)
  {
    ghost var rank := AcyclicIsRanked(g);
    ghost var bound := MaxRank(rank);
    path := [GENESIS];
    var cursor := GENESIS;
    var memo: map<Hash, nat> := map[];
    while true
      invariant path != [] && path[0] == GENESIS && path[|path| - 1] == cursor && IsPath(g, path)
      invariant MemoOk(g, memo)
      invariant forall i :: 0 < i < |path| ==> Leads(g, h, path[i], Succ(g, path[i - 1]))
      decreases if cursor in rank then bound - rank[cursor] else 0
    {
      var found, best;
      found, best, memo := BestChild(g, h, cursor, memo, rank, bound);
      if !found {
        return;
      }
      path := path + [best];
      cursor := best;
    }
  }
}
