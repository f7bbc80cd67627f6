/**
 * The end-of-round analysis of the Bitcoin peers: heights by a re-enqueueing worklist, the
 * walk back to GENESIS, and branch lengths by a memoised recursion.
 */
module DagAnalytics {
  import opened BlockTree
  import opened BlockGraph

  type Heights = map<Hash, nat>

  /** Every recorded height is the length of some path from GENESIS. */
  ghost predicate Witnessed(g: Graph, h: Heights) {
    forall x {:trigger h[x]} :: x in h ==> Reaches(g, GENESIS, x, h[x])
  }

  /** The edge from `x` to `c` has been taken into account. */
  predicate Relaxed(h: Heights, x: Hash, c: Hash)
    requires x in h
  {
    c in h && h[c] > h[x]
  }

  /** Every edge out of a measured block is accounted for, or the block is waiting. */
  ghost predicate RelaxedBut(g: Graph, h: Heights, waiting: seq<Hash>) {
    forall x, c :: x in h && c in Succ(g, x) ==> Relaxed(h, x, c) || x in waiting
  }

  // ---------------------------------------------------------------- why the worklist stops

  /** How much a block's height can still grow, counting its first appearance. */
  function Slack(rank: map<Hash, nat>, h: Heights, x: Hash): nat {
    if x !in rank then 0 else if x in h then (if h[x] <= rank[x] then rank[x] - h[x] else 0) else rank[x] + 1
  }

  function TotalSlack(rank: map<Hash, nat>, h: Heights, nodes: seq<Hash>): nat {
    if nodes == [] then 0 else Slack(rank, h, nodes[0]) + TotalSlack(rank, h, nodes[1..])
  }

  lemma {:induction false} SlackDrops(rank: map<Hash, nat>, h: Heights, nodes: seq<Hash>, x: Hash, k: nat)
    requires x in rank && k <= rank[x] && (x in h ==> h[x] < k)
    ensures TotalSlack(rank, h[x := k], nodes) <= TotalSlack(rank, h, nodes)
    ensures x in nodes ==> TotalSlack(rank, h[x := k], nodes) < TotalSlack(rank, h, nodes)
  {
    if nodes != [] {
      SlackDrops(rank, h, nodes[1..], x, k);
    }
  }

  /** What the worklist has left to do. */
  function Work(rank: map<Hash, nat>, h: Heights, nodes: seq<Hash>, queue: seq<Hash>): nat {
    2 * TotalSlack(rank, h, nodes) + |queue|
  }

  lemma {:induction false} Enumerate(s: set<Hash>) returns (nodes: seq<Hash>)
    ensures forall x :: x in nodes <==> x in s
  {
    if s == {} {
      nodes := [];
    } else {
      var x :| x in s;
      nodes := Enumerate(s - {x});
      nodes := nodes + [x];
    }
  }

  // ---------------------------------------------------------------- the worklist

  /** One child of the block taken off the queue: measured for the first time, or raised. */
  lemma RelaxOne(g: Graph, rank: map<Hash, nat>, h: Heights, x: Hash, c: Hash)
    requires EdgesRise(g, rank) && Witnessed(g, h) && x in h && c in Succ(g, x) && GENESIS in rank
    ensures c in rank && h[x] + 1 <= rank[c] && c != x
    ensures Reaches(g, GENESIS, c, h[x] + 1)
  {
    assert Reaches(g, GENESIS, x, h[x]);
    StepAfter(g, GENESIS, x, h[x], c);
    PathRises(g, rank, GENESIS, c, h[x] + 1);
  }

  /** Handles the children of `current` in any order. */
  method RelaxChildren(g: Graph, h0: Heights, queue0: seq<Hash>, current: Hash,
                       ghost rank: map<Hash, nat>, ghost nodes: seq<Hash>)
    returns (h: Heights, queue: seq<Hash>)
    requires EdgesRise(g, rank) && GENESIS in rank && current in h0
    requires forall x :: x in g.parents ==> x in nodes
    requires Witnessed(g, h0) && RelaxedBut(g, h0, [current] + queue0)
    requires forall x :: x in queue0 ==> x in h0
    ensures Witnessed(g, h) && RelaxedBut(g, h, queue)
    ensures forall x :: x in h0 ==> x in h
    ensures forall x :: x in queue ==> x in h
    ensures Work(rank, h, nodes, queue) <= Work(rank, h0, nodes, queue0)
  {
    h, queue := h0, queue0;
    if current !in g.children {
      DropWaiting(g, h, current, queue);
      return;
    }
    var todo := g.children[current];
    while todo != {}
      invariant todo <= g.children[current]
      invariant current in h && h[current] == h0[current]
      invariant Witnessed(g, h)
      invariant RelaxedBut(g, h, [current] + queue)
      invariant forall c :: c in Succ(g, current) - todo ==> Relaxed(h, current, c)
      invariant forall x :: x in h0 ==> x in h
      invariant forall x :: x in queue ==> x in h
      invariant Work(rank, h, nodes, queue) <= Work(rank, h0, nodes, queue0)
    {
      var child :| child in todo;
      todo := todo - {child};
      if child in g.parents {
        assert child in Succ(g, current);
        var candidate := h[current] + 1;
        RelaxOne(g, rank, h, current, child);
        ghost var was := h;
        assert forall c :: c in Succ(g, current) - todo && c != child ==> Relaxed(was, current, c);
        if child !in h || candidate > h[child] {
          SlackDrops(rank, h, nodes, child, candidate);
          RaiseKeeps(g, h, current, queue, child, candidate);
          h := h[child := candidate];
          queue := queue + [child];
        }
      }
    }
    DropWaiting(g, h, current, queue);
  }

  lemma RaiseKeeps(g: Graph, h: Heights, current: Hash, queue: seq<Hash>, child: Hash, k: nat)
    requires current in h && child != current && k == h[current] + 1 && (child in h ==> h[child] < k)
    requires RelaxedBut(g, h, [current] + queue)
    ensures RelaxedBut(g, h[child := k], [current] + (queue + [child]))
  {
    var h' := h[child := k];
    var w := [current] + (queue + [child]);
    forall x, c | x in h' && c in Succ(g, x) ensures Relaxed(h', x, c) || x in w {
      if x != child {
        assert Relaxed(h, x, c) || x in [current] + queue;
      }
    }
  }

  lemma DropWaiting(g: Graph, h: Heights, current: Hash, queue: seq<Hash>)
    requires current in h && RelaxedBut(g, h, [current] + queue)
    requires forall c :: c in Succ(g, current) ==> Relaxed(h, current, c)
    ensures RelaxedBut(g, h, queue)
  {
    forall x, c | x in h && c in Succ(g, x) ensures Relaxed(h, x, c) || x in queue {
      assert Relaxed(h, x, c) || x in [current] + queue;
    }
  }

  /** With nothing waiting, no path is longer than the recorded height. */
  lemma {:induction false} NoLongerPath(g: Graph, h: Heights, x: Hash, k: nat)
    requires RelaxedBut(g, h, []) && GENESIS in h && Reaches(g, GENESIS, x, k)
    ensures x in h && k <= h[x]
    decreases k
  {
    if k > 0 {
      var y := LastStep(g, GENESIS, x, k);
      NoLongerPath(g, h, y, k - 1);
      assert Relaxed(h, y, x);
    } else {
      StaysPut(g, GENESIS, x);
    }
  }

  /** Exactly the blocks reachable from GENESIS, each with its longest-path length. */
  ghost predicate IsHeightMap(g: Graph, h: Heights) {
    && (forall x :: x in h <==> exists k: nat :: Reaches(g, GENESIS, x, k))
    && (forall x :: x in h ==> LongestTo(g, x, h[x]))
  }

  /** Terminates on every finite acyclic graph, although blocks are enqueued again and again. */
  method ComputeHeights(g: Graph) returns (h: Heights)
    requires NoCycles(g) && GENESIS in g.children
    ensures IsHeightMap(g, h) && GENESIS in h && h[GENESIS] == 0
  {
    ghost var rank := AcyclicIsRanked(g);
    ghost var nodes := Enumerate(g.parents.Keys);
    var queue := [GENESIS];
    h := map[GENESIS := 0];
    NoStep(g, GENESIS);
    while queue != []
      invariant GENESIS in h && Witnessed(g, h) && RelaxedBut(g, h, queue)
      invariant forall x :: x in queue ==> x in h
      decreases Work(rank, h, nodes, queue)
    {
      var current := queue[0];
      assert queue == [current] + queue[1..];
      h, queue := RelaxChildren(g, h, queue[1..], current, rank, nodes);
    }
    HeightsAreLongest(g, h);
  }

  lemma HeightsAreLongest(g: Graph, h: Heights)
    requires NoCycles(g) && GENESIS in h && Witnessed(g, h) && RelaxedBut(g, h, [])
    ensures IsHeightMap(g, h) && h[GENESIS] == 0
  {
    forall x | x in h ensures LongestTo(g, x, h[x]) {
      assert Reaches(g, GENESIS, x, h[x]);
      forall j: nat | Reaches(g, GENESIS, x, j) ensures j <= h[x] {
        NoLongerPath(g, h, x, j);
      }
    }
    forall x, k: nat | Reaches(g, GENESIS, x, k) ensures x in h {
      NoLongerPath(g, h, x, k);
    }
    assert Reaches(g, GENESIS, GENESIS, h[GENESIS]);
  }

  // ---------------------------------------------------------------- the longest chain

  predicate IsMaximum(h: Heights, m: nat) {
    (exists x :: x in h && h[x] == m) && forall x :: x in h ==> h[x] <= m
  }

  method LongestChain(h: Heights) returns (longest: nat)
    requires GENESIS in h && h[GENESIS] == 0
    ensures IsMaximum(h, longest)
  {
    longest := 0;
    var todo := h.Keys;
    while todo != {}
      invariant todo <= h.Keys
      invariant exists x :: x in h && h[x] == longest
      invariant forall x :: x in h.Keys - todo ==> h[x] <= longest
    {
      var x :| x in todo;
      todo := todo - {x};
      if h[x] > longest {
        longest := h[x];
      }
    }
  }

  /** The two ways of measuring the longest chain agree. */
  lemma LongestChainIsDepth(g: Graph, h: Heights, m: nat, d: nat)
    requires IsHeightMap(g, h) && IsMaximum(h, m) && LongestFrom(g, GENESIS, d)
    ensures m == d
  {
    var x :| x in h && h[x] == m;
    assert Reaches(g, GENESIS, x, m);
    var y :| Reaches(g, GENESIS, y, d);
    assert LongestTo(g, y, h[y]);
  }

  // ---------------------------------------------------------------- walking back

  /** The recorded parents are exactly the edges. */
  ghost predicate Consistent(g: Graph) {
    forall x, p :: x in g.parents && p in g.parents[x] <==> IsEdge(g.children, p, x)
  }

  lemma ParentOneLower(g: Graph, h: Heights, x: Hash) returns (p: Hash)
    requires Consistent(g) && IsHeightMap(g, h) && x in h && x != GENESIS && x in g.parents
    ensures h[x] > 0 && p in g.parents[x] && p in h && h[p] == h[x] - 1
  {
    assert LongestTo(g, x, h[x]);
    if h[x] == 0 {
      StaysPut(g, GENESIS, x);
    }
    p := LastStep(g, GENESIS, x, h[x]);
    assert IsEdge(g.children, p, x);
    assert LongestTo(g, p, h[p]);
    StepAfter(g, GENESIS, p, h[p], x);
  }

  /** The first listed parent one level lower, if any. */
  method PickParent(parents: seq<Hash>, h: Heights, height: int) returns (found: bool, next: Hash)
    ensures found ==> next in parents && next in h && h[next] == height - 1
    ensures !found ==> forall p :: p in parents && p in h ==> h[p] != height - 1
  {
    for i := 0 to |parents|
      invariant forall k :: 0 <= k < i && parents[k] in h ==> h[parents[k]] != height - 1
    {
      if parents[i] in h && h[parents[i]] == height - 1 {
        return true, parents[i];
      }
    }
    return false, "";
  }

  /** How many entries of a path are marked. */
  function Tally(path: seq<Hash>, marked: set<Hash>): nat {
    if path == [] then 0
    else Tally(path[..|path| - 1], marked) + if path[|path| - 1] in marked then 1 else 0
  }

  lemma HeightIsKnown(g: Graph, h: Heights, x: Hash)
    requires IsHeightMap(g, h) && x in h && x != GENESIS
    ensures x in g.parents
  {
    assert LongestTo(g, x, h[x]);
    if h[x] == 0 {
      StaysPut(g, GENESIS, x);
    }
    var p := LastStep(g, GENESIS, x, h[x]);
  }

  /** The blocks met on the way down to, but without, GENESIS, and how many of them are marked. */
  method WalkToGenesis(g: Graph, h: Heights, start: Hash, marked: set<Hash>) returns (met: seq<Hash>, parasites: nat)
    requires Consistent(g) && IsHeightMap(g, h) && start in h && GENESIS in h && h[GENESIS] == 0
    ensures |met| == h[start] && parasites == Tally(met, marked)
    ensures IsWalk(g, h, start, met, GENESIS)
  {
    met, parasites := [], 0;
    var current := start;
    while current != GENESIS
      invariant IsWalk(g, h, start, met, current) && parasites == Tally(met, marked)
      decreases h[current]
    {
      TallyOneMore(met, marked, current);
      if current in marked {
        parasites := parasites + 1;
      }
      var found, next := LowerParent(g, h, current);
      met := met + [current];
      if !found {
        break;
      }
      current := next;
    }
  }

  /** A parent one level lower; above GENESIS there always is one. */
  method LowerParent(g: Graph, h: Heights, current: Hash) returns (found: bool, next: Hash)
    requires Consistent(g) && IsHeightMap(g, h) && current in h && current != GENESIS
    ensures found && current in g.parents && next in g.parents[current] && next in h && h[next] == h[current] - 1
  {
    HeightIsKnown(g, h, current);
    ghost var p := ParentOneLower(g, h, current);
    found, next := PickParent(g.parents[current], h, h[current]);
  }

  /** From `start`, parent by parent and one level at a time, as far as, but without, `current`. */
  predicate IsWalk(g: Graph, h: Heights, start: Hash, met: seq<Hash>, current: Hash) {
    && start in h && current in h && h[current] == h[start] - |met|
    && (forall i :: 0 <= i < |met| ==> met[i] in h && h[met[i]] == h[start] - i && met[i] in g.parents)
    && (forall i :: 0 < i < |met| ==> met[i] in g.parents[met[i - 1]])
    && (met == [] ==> current == start)
    && (met != [] ==> met[0] == start && current in g.parents[met[|met| - 1]])
  }

  lemma TallyOneMore(path: seq<Hash>, marked: set<Hash>, x: Hash)
    ensures Tally(path + [x], marked) == Tally(path, marked) + if x in marked then 1 else 0
  {
    assert (path + [x])[..|path|] == path;
  }

  // ---------------------------------------------------------------- branch lengths

  ghost predicate MemoOk(g: Graph, memo: map<Hash, nat>) {
    forall x {:trigger memo[x]} :: x in memo ==> LongestFrom(g, x, memo[x])
  }

  /** The blocks on the call stack lie above `hash`. */
  predicate ActiveAbove(rank: map<Hash, nat>, active: set<Hash>, hash: Hash)
    requires hash in rank
  {
    forall a :: a in active ==> a in rank && rank[a] < rank[hash]
  }

  /** The heights cover the known blocks below what they cover. */
  ghost predicate Covers(g: Graph, h: Heights) {
    forall x :: x in h ==> x in g.parents && Succ(g, x) <= h.Keys
  }

  lemma HeightMapCovers(g: Graph, h: Heights)
    requires IsHeightMap(g, h) && GENESIS in g.parents
    ensures Covers(g, h)
  {
    forall x | x in h ensures x in g.parents && Succ(g, x) <= h.Keys {
      assert LongestTo(g, x, h[x]);
      if x != GENESIS {
        if h[x] == 0 {
          StaysPut(g, GENESIS, x);
        }
        var y := LastStep(g, GENESIS, x, h[x]);
      }
      forall c | c in Succ(g, x) ensures c in h {
        StepAfter(g, GENESIS, x, h[x], c);
      }
    }
  }

  /** Longest distance down to any descendant, memoised; a block on the stack counts as 0. */
  method LongestDepthFrom(g: Graph, h: Heights, hash: Hash, memo0: map<Hash, nat>, active: set<Hash>,
                          ghost rank: map<Hash, nat>, ghost bound: nat)
    returns (depth: nat, memo: map<Hash, nat>)
    requires EdgesRise(g, rank) && (forall x :: x in rank ==> rank[x] <= bound)
    requires Covers(g, h) && hash in h && hash in rank
    requires hash in active || ActiveAbove(rank, active, hash)
    requires MemoOk(g, memo0)
    ensures MemoOk(g, memo)
    ensures hash in active ==> depth == 0
    ensures hash !in active ==> LongestFrom(g, hash, depth)
    decreases bound - rank[hash]
  {
    memo := memo0;
    if hash in active {
      return 0, memo;
    }
    if hash in memo {
      return memo[hash], memo;
    }
    depth := 0;
    var todo := if hash in g.children then g.children[hash] else {};
    DeepestStarts(g, hash, todo);
    while todo != {}
      invariant todo == {} || (hash in g.children && todo <= g.children[hash])
      invariant MemoOk(g, memo) && DeepestBut(g, hash, todo, depth)
      decreases |todo|
    {
      var child :| child in todo;
      DeepestSkips(g, hash, todo, depth, child);
      if child in h {
        assert child in Succ(g, hash);
        var d;
        d, memo := LongestDepthFrom(g, h, child, memo, active + {hash}, rank, bound);
        DeepestGrows(g, hash, todo, depth, child, d);
        depth := if 1 + d > depth then 1 + d else depth;
      }
      todo := todo - {child};
    }
    DeepestEnds(g, hash, depth);
    memo := memo[hash := depth];
  }

  /** The deepest way down once only the children in `todo` are left. */
  ghost predicate DeepestBut(g: Graph, x: Hash, todo: set<Hash>, depth: nat) {
    DeepestSoFar(g, x, Succ(g, x) - todo, depth)
  }

  lemma DeepestStarts(g: Graph, x: Hash, todo: set<Hash>)
    requires Succ(g, x) <= todo
    ensures DeepestBut(g, x, todo, 0)
  {
    NoStep(g, x);
  }

  lemma DeepestSkips(g: Graph, x: Hash, todo: set<Hash>, depth: nat, child: Hash)
    requires DeepestBut(g, x, todo, depth)
    ensures child !in Succ(g, x) ==> DeepestBut(g, x, todo - {child}, depth)
  {
  }

  lemma DeepestGrows(g: Graph, x: Hash, todo: set<Hash>, depth: nat, child: Hash, d: nat)
    requires DeepestBut(g, x, todo, depth) && child in Succ(g, x) && child in todo && LongestFrom(g, child, d)
    ensures DeepestBut(g, x, todo - {child}, if 1 + d > depth then 1 + d else depth)
  {
    DeeperWithChild(g, x, Succ(g, x) - todo, depth, child, d);
    assert Succ(g, x) - (todo - {child}) == Succ(g, x) - todo + {child};
  }

  lemma DeepestEnds(g: Graph, x: Hash, depth: nat)
    requires DeepestBut(g, x, {}, depth)
    ensures LongestFrom(g, x, depth)
  {
    assert Succ(g, x) - {} == Succ(g, x);
    DeepestIsLongest(g, x, depth);
  }

  /** `depth` is the longest way down through the children `done`, or 0 where there is none. */
  ghost predicate DeepestSoFar(g: Graph, x: Hash, done: set<Hash>, depth: nat) {
    && (exists y :: Reaches(g, x, y, depth))
    && forall c :: c in done ==> c in Succ(g, x) && NoDeeper(g, c, depth)
  }

  ghost predicate NoDeeper(g: Graph, c: Hash, depth: nat) {
    forall y, j: nat :: Reaches(g, c, y, j) ==> j + 1 <= depth
  }

  lemma DeeperWithChild(g: Graph, x: Hash, done: set<Hash>, depth: nat, child: Hash, d: nat)
    requires DeepestSoFar(g, x, done, depth) && child in Succ(g, x) && LongestFrom(g, child, d)
    ensures DeepestSoFar(g, x, done + {child}, if 1 + d > depth then 1 + d else depth)
  {
    var y :| Reaches(g, child, y, d);
    StepBefore(g, child, y, d, x);
    var best := if 1 + d > depth then 1 + d else depth;
    forall c | c in done + {child} ensures NoDeeper(g, c, best) {
      if c in done {
        assert NoDeeper(g, c, depth);
      }
    }
  }

  lemma DeepestIsLongest(g: Graph, x: Hash, depth: nat)
    requires DeepestSoFar(g, x, Succ(g, x), depth)
    ensures LongestFrom(g, x, depth)
  {
    forall y, j: nat | Reaches(g, x, y, j) ensures j <= depth {
      if j > 0 {
        var c := FirstStep(g, x, y, j);
        assert NoDeeper(g, c, depth);
      }
    }
  }

  // ---------------------------------------------------------------- the union of the ledgers

  datatype Seen = Seen(hash: Hash, parents: seq<Hash>)

  predicate Lists(records: seq<Seen>, x: Hash, p: Hash) {
    exists i :: 0 <= i < |records| && records[i].hash == x && p in records[i].parents
  }

  predicate Mentions(records: seq<Seen>, x: Hash) {
    exists i :: 0 <= i < |records| && records[i].hash == x
  }

  /** The graph has the recorded blocks and GENESIS, and the recorded edges both ways. */
  ghost predicate IsUnion(records: seq<Seen>, g: Graph) {
    && (forall x :: x in g.parents <==> x == GENESIS || Mentions(records, x))
    && (forall x, p :: x in g.parents && p in g.parents[x] <==> Lists(records, x, p))
    && (forall x, p :: IsEdge(g.children, p, x) <==> Lists(records, x, p))
    && GENESIS in g.children
  }

  function MergeParents(known: seq<Hash>, more: seq<Hash>): (r: seq<Hash>)
    ensures forall p :: p in r <==> p in known || p in more
  {
    if more == [] then known
    else
      var rest := MergeParents(known, more[..|more| - 1]);
      var last := more[|more| - 1];
      assert more == more[..|more| - 1] + [last];
      if last in rest then rest else rest + [last]
  }

  predicate IsEdge(children: Links, p: Hash, x: Hash) {
    p in children && x in children[p]
  }

  lemma EdgeAdded(children: Links, p: Hash, x: Hash)
    ensures var r := children[p := (if p in children then children[p] else {}) + {x}];
      forall q, y :: IsEdge(r, q, y) <==> IsEdge(children, q, y) || (y == x && q == p)
  {
    var s := (if p in children then children[p] else {}) + {x};
    var r := children[p := s];
    forall q, y ensures IsEdge(r, q, y) <==> IsEdge(children, q, y) || (y == x && q == p) {
      if q == p {
        assert r[q] == s;
      } else {
        assert q in r <==> q in children;
      }
    }
  }

  function LinkParents(children: Links, x: Hash, parents: seq<Hash>): Links {
    if parents == [] then children
    else
      var rest := LinkParents(children, x, parents[..|parents| - 1]);
      var last := parents[|parents| - 1];
      rest[last := (if last in rest then rest[last] else {}) + {x}]
  }

  lemma {:induction false} LinkedEdges(children: Links, x: Hash, parents: seq<Hash>)
    ensures var r := LinkParents(children, x, parents);
      && (forall p, y :: IsEdge(r, p, y) <==> IsEdge(children, p, y) || (y == x && p in parents))
      && (forall p :: p in children ==> p in r)
  {
    if parents != [] {
      var init, last := parents[..|parents| - 1], parents[|parents| - 1];
      assert parents == init + [last];
      LinkedEdges(children, x, init);
      var rest, r := LinkParents(children, x, init), LinkParents(children, x, parents);
      EdgeAdded(rest, last, x);
      forall p, y ensures IsEdge(r, p, y) <==> IsEdge(children, p, y) || (y == x && p in parents) {
        assert p in parents <==> p in init || p == last;
        assert IsEdge(rest, p, y) <==> IsEdge(children, p, y) || (y == x && p in init);
        assert IsEdge(r, p, y) <==> IsEdge(rest, p, y) || (y == x && p == last);
      }
    }
  }

  lemma ListsOneMore(records: seq<Seen>, i: nat, x: Hash, p: Hash)
    requires i < |records|
    ensures Lists(records[..i + 1], x, p) <==> Lists(records[..i], x, p) || (records[i].hash == x && p in records[i].parents)
    ensures Mentions(records[..i + 1], x) <==> Mentions(records[..i], x) || records[i].hash == x
  {
    var a, b := records[..i], records[..i + 1];
    assert b == a + [records[i]];
    if Lists(a, x, p) {
      var k :| 0 <= k < |a| && a[k].hash == x && p in a[k].parents;
      assert b[k] == a[k];
    }
    if Mentions(a, x) {
      var k :| 0 <= k < |a| && a[k].hash == x;
      assert b[k] == a[k];
    }
    assert b[i] == records[i];
  }

  /** Aggregates the records of all ledgers, taken one after the other. */
  method Aggregate(records: seq<Seen>) returns (g: Graph)
    ensures IsUnion(records, g) && Consistent(g)
  {
    var parents: map<Hash, seq<Hash>> := map[];
    var children: Links := map[];
    for i := 0 to |records|
      invariant SoFar(records[..i], parents, children)
    {
      var r := records[i];
      AggregateStep(records, i, parents, children);
      parents := WithRecord(parents, r);
      if r.hash !in children {
        children := children[r.hash := {}];
      }
      children := LinkParents(children, r.hash, r.parents);
    }
    assert records[..|records|] == records;
    if GENESIS !in parents {
      parents := parents[GENESIS := []];
    }
    if GENESIS !in children {
      children := children[GENESIS := {}];
    }
    g := Graph(parents, children);
  }

  function WithRecord(parents: map<Hash, seq<Hash>>, r: Seen): map<Hash, seq<Hash>> {
    parents[r.hash := if r.hash in parents then MergeParents(parents[r.hash], r.parents) else r.parents]
  }

  ghost predicate SoFar(records: seq<Seen>, parents: map<Hash, seq<Hash>>, children: Links) {
    && (forall x :: x in parents <==> Mentions(records, x))
    && (forall x, p :: x in parents && p in parents[x] <==> Lists(records, x, p))
    && (forall x, p :: IsEdge(children, p, x) <==> Lists(records, x, p))
  }

  lemma RecordAdded(parents: map<Hash, seq<Hash>>, r: Seen, x: Hash, p: Hash)
    ensures var ps := WithRecord(parents, r);
      && (x in ps <==> x in parents || x == r.hash)
      && (x in ps && p in ps[x] <==> (x in parents && p in parents[x]) || (x == r.hash && p in r.parents))
  {
  }

  lemma AggregateStep(records: seq<Seen>, i: nat, parents: map<Hash, seq<Hash>>, children: Links)
    requires i < |records| && SoFar(records[..i], parents, children)
    ensures var r := records[i];
      var base := if r.hash in children then children else children[r.hash := {}];
      SoFar(records[..i + 1], WithRecord(parents, r), LinkParents(base, r.hash, r.parents))
  {
    var r := records[i];
    var base := if r.hash in children then children else children[r.hash := {}];
    var ps, links := WithRecord(parents, r), LinkParents(base, r.hash, r.parents);
    LinkedEdges(base, r.hash, r.parents);
    forall x, p ensures x in ps <==> Mentions(records[..i + 1], x)
                ensures x in ps && p in ps[x] <==> Lists(records[..i + 1], x, p)
                ensures IsEdge(links, p, x) <==> Lists(records[..i + 1], x, p) {
      ListsOneMore(records, i, x, p);
      RecordAdded(parents, r, x, p);
      assert IsEdge(base, p, x) <==> IsEdge(children, p, x);
    }
  }

  /** The whole analysis: the reported chain length is the longest path of the union graph,
      measured by the worklist and by the recursion alike. */
  method EndOfRound(records: seq<Seen>) returns (g: Graph, h: Heights, longest: nat)
    requires forall u :: IsUnion(records, u) ==> NoCycles(u)
    ensures IsUnion(records, g) && IsHeightMap(g, h) && IsMaximum(h, longest) && LongestFrom(g, GENESIS, longest)
  {
    g := Aggregate(records);
    h := ComputeHeights(g);
    longest := LongestChain(h);
    HeightMapCovers(g, h);
    ghost var rank := AcyclicIsRanked(g);
    ghost var bound := MaxRank(rank);
    var depth, memo := LongestDepthFrom(g, h, GENESIS, map[], {}, rank, bound);
    LongestChainIsDepth(g, h, longest, depth);
  }
}
