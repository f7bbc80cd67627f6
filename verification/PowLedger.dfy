/**
 * The proof-of-work ledger: block records, child lists, heights and the best tip, kept up
 * to date in place as blocks arrive in any order.
 */
module PowLedger {
  import opened Quorums
  import opened BlockTree

  const NO_PEER_ID: int := -1

  datatype BlockRecord = BlockRecord(hash: Hash, parents: seq<Hash>, miner: int, height: int, parasite: bool)

  type Blocks = map<Hash, BlockRecord>
  type Children = map<Hash, seq<Hash>>

  /** One parent for every block but GENESIS, which has none: what the miners produce. */
  predicate SingleParent(blocks: Blocks) {
    && GENESIS in blocks && blocks[GENESIS].parents == []
    && forall h :: h in blocks ==> blocks[h].hash == h && (h != GENESIS ==> |blocks[h].parents| == 1)
  }

  function TreeOf(blocks: Blocks): (t: Tree)
    requires SingleParent(blocks)
    ensures GENESIS !in t && forall h :: Known(t, h) <==> h in blocks
  {
    map h | h in blocks && h != GENESIS :: blocks[h].parents[0]
  }

  predicate IsChild(blocks: Blocks, p: Hash, h: Hash) {
    h in blocks && p in blocks[h].parents
  }

  /** The child lists hold each block once, under its parent, known or not. */
  ghost predicate ChildrenOk(blocks: Blocks, children: Children) {
    && (forall h :: h in blocks ==> h in children)
    && (forall h :: h in blocks ==> forall p :: p in blocks[h].parents ==> p in children)
    && (forall p :: p in children ==> forall i, j :: 0 <= i < j < |children[p]| ==> children[p][i] != children[p][j])
    && (forall p :: p in children ==> forall h :: h in children[p] <==> IsChild(blocks, p, h))
    && (forall p :: p in children ==> p in blocks || children[p] != [])
  }

  predicate HeightOk(blocks: Blocks, h: Hash)
    requires SingleParent(blocks) && h in blocks
  {
    blocks[h].height >= 0 && HasHeight(TreeOf(blocks), h, blocks[h].height)
  }

  /** The records differ at most in their heights. */
  predicate SameButHeights(a: Blocks, b: Blocks) {
    a.Keys == b.Keys && forall h :: h in a ==> b[h] == a[h].(height := b[h].height)
  }

  lemma SameTree(a: Blocks, b: Blocks)
    requires SameButHeights(a, b) && SingleParent(a)
    ensures SingleParent(b) && TreeOf(b) == TreeOf(a)
    ensures forall p, h :: IsChild(a, p, h) <==> IsChild(b, p, h)
  {
  }

  /** The order of the Bitcoin ledger on two records. */
  predicate PreferCandidate(candidate: BlockRecord, incumbent: BlockRecord) {
    if candidate.height != incumbent.height then candidate.height > incumbent.height
    else Less(candidate.hash, incumbent.hash)
  }

  /** `b` is at least as good as every block of `among`. */
  predicate Leads(blocks: Blocks, b: Hash, among: set<Hash>) {
    b in blocks && forall h :: h in among ==> h in blocks && (h == b || PreferCandidate(blocks[b], blocks[h]))
  }

  lemma LeadsOneMore(blocks: Blocks, b: Hash, among: set<Hash>, c: Hash)
    requires SingleParent(blocks) && Leads(blocks, b, among) && c in blocks
    ensures c == b || !PreferCandidate(blocks[c], blocks[b]) ==> Leads(blocks, b, among + {c})
    ensures c != b && PreferCandidate(blocks[c], blocks[b]) ==> Leads(blocks, c, among + {c})
  {
    if c != b {
      BeatsIsStrictOrder(b, blocks[b].height, c, blocks[c].height, b, 0);
      if PreferCandidate(blocks[c], blocks[b]) {
        forall h | h in among ensures h == c || PreferCandidate(blocks[c], blocks[h]) {
          BeatsIsStrictOrder(c, blocks[c].height, b, blocks[b].height, h, blocks[h].height);
        }
      }
    }
  }

  lemma FewerLeft(all: set<Hash>, a: set<Hash>, b: set<Hash>)
    requires a < b <= all
    ensures |all - b| < |all - a|
  {
    assert all - a == (all - b) + (b - a);
    var x :| x in b - a;
  }

  function Mentioned(t: Tree): set<Hash> {
    set h | h in t :: t[h]
  }

  /** Everything the ancestor search has reached is waiting or has its parent reached too. */
  ghost predicate SearchOk(t: Tree, hash: Hash, visited: set<Hash>, stack: seq<Hash>) {
    && visited <= Mentioned(t)
    && (forall x :: x in stack ==> x in visited + {hash})
    && (forall x {:trigger ParentIn(t, visited, x)} :: x in visited + {hash} ==> x in stack || ParentIn(t, visited, x))
    && (Connected(t, hash) ==> forall x :: x in visited ==> Connected(t, x))
  }

  lemma SearchStep(t: Tree, hash: Hash, visited0: set<Hash>, stack0: seq<Hash>,
                   visited: set<Hash>, stack: seq<Hash>, parents: seq<Hash>)
    requires SearchOk(t, hash, visited0, stack0) && stack0 != []
    requires var current, rest := stack0[|stack0| - 1], stack0[..|stack0| - 1];
      && Known(t, current) && GENESIS !in t
      && parents == (if current in t then [t[current]] else [])
      && visited == visited0 + (set p | p in parents)
      && forall x :: x in stack <==> x in rest || (x in parents && x !in visited0)
    ensures SearchOk(t, hash, visited, stack)
  {
    var current, rest := stack0[|stack0| - 1], stack0[..|stack0| - 1];
    assert stack0 == rest + [current];
    if current in t {
      assert current in stack0 && current in visited0 + {hash};
      ConnectedStep(t, current);
      assert visited == visited0 + {t[current]};
      assert forall x :: x in stack <==> x in rest || (x == t[current] && x !in visited0);
    } else {
      assert visited == visited0 && forall x :: x in stack <==> x in rest;
    }
    forall x | x in stack ensures x in visited + {hash} {
      assert x in rest ==> x in stack0;
    }
    forall x | x in visited + {hash} ensures x in stack || ParentIn(t, visited, x) {
      assert x in stack0 ==> x in rest || x == current;
      if x in visited0 + {hash} {
        assert x in stack0 || ParentIn(t, visited0, x);
      }
    }
  }

  lemma SearchFails(t: Tree, hash: Hash, visited: set<Hash>, stack: seq<Hash>)
    requires SearchOk(t, hash, visited, stack) && stack != [] && !Known(t, stack[|stack| - 1])
    ensures !Connected(t, hash)
  {
    assert stack[|stack| - 1] in visited + {hash};
    UnknownIsDisconnected(t, stack[|stack| - 1]);
  }

  /** With nothing left to visit the search has seen all ancestors, and all are known. */
  lemma SearchDone(t: Tree, hash: Hash, visited: set<Hash>)
    requires SearchOk(t, hash, visited, []) && Acyclic(t)
    ensures Connected(t, hash)
  {
    assert ParentIn(t, visited, hash);
    if hash in t {
      assert Grounded(t, hash);
      var k: nat :| HasHeight(t, hash, k);
      forall x | x in visited + {hash} ensures ParentIn(t, visited + {hash}, x) {
        assert ParentIn(t, visited, x);
      }
      ClosedIsConnected(t, visited + {hash}, hash, k);
    } else {
      GenesisIsConnected(t);
    }
  }

  ghost function ConnectedIn(blocks: Blocks): set<Hash>
    requires SingleParent(blocks)
  {
    set h | h in blocks && Connected(TreeOf(blocks), h)
  }

  /** Child lists, heights and tip all agree with the tree of recorded blocks. */
  ghost predicate IndexOk(blocks: Blocks, children: Children, best: Hash) {
    && SingleParent(blocks) && Acyclic(TreeOf(blocks)) && ChildrenOk(blocks, children)
    && (forall h :: h in blocks ==> HeightOk(blocks, h))
    && best in ConnectedIn(blocks) && Leads(blocks, best, ConnectedIn(blocks))
  }

  // ---------------------------------------------------------------- breadth-first propagation

  /** Heights and the tip are right outside the new block's subtree and where the search has been. */
  ghost predicate Settled(t: Tree, root: Hash, visited: set<Hash>, h: Hash) {
    h in visited || !Under(t, root, h)
  }

  ghost predicate FrontierOk(t: Tree, root: Hash, blocks: Blocks, visited: set<Hash>, queue: seq<Hash>) {
    && (forall x :: x in queue ==> x in blocks && Under(t, root, x) && (x == root || (x in t && t[x] in visited)))
    && (forall v :: v in visited ==> v in blocks && Under(t, root, v))
    && (root in visited || root in queue)
    && (forall v, h :: v in visited && IsChild(blocks, v, h) ==> h in visited || h in queue)
  }

  ghost predicate HeightsSettled(t: Tree, root: Hash, blocks: Blocks, visited: set<Hash>)
    requires SingleParent(blocks)
  {
    forall h :: h in blocks && Settled(t, root, visited, h) ==> HeightOk(blocks, h)
  }

  ghost predicate TipSettled(t: Tree, root: Hash, blocks: Blocks, best: Hash, visited: set<Hash>) {
    && best in blocks && Connected(t, best) && Settled(t, root, visited, best)
    && forall h :: h in blocks && Connected(t, h) && Settled(t, root, visited, h) ==>
                   h == best || PreferCandidate(blocks[best], blocks[h])
  }

  /** The recomputed height of a block whose parent is settled, or missing, is right. */
  lemma RecomputedIsRight(t: Tree, root: Hash, blocks: Blocks, visited: set<Hash>, x: Hash, k: int)
    requires SingleParent(blocks) && t == TreeOf(blocks) && Acyclic(t) && x in t
    requires HeightsSettled(t, root, blocks, visited)
    requires x == root || t[x] in visited
    requires t[x] !in blocks ==> k == 0
    requires t[x] in blocks && blocks[t[x]].height >= 0 ==> k == blocks[t[x]].height + 1
    ensures k >= 0 && HasHeight(t, x, k)
  {
    if t[x] in blocks {
      if x == root {
        ParentIsNotUnder(t, root);
      }
      assert HeightOk(blocks, t[x]);
    }
  }

  /** The records, the tip and the frontier after one block has been taken off the queue. */
  lemma VisitKeepsHeights(t: Tree, root: Hash, blocks: Blocks, now: Blocks, visited: set<Hash>, x: Hash)
    requires SingleParent(blocks) && t == TreeOf(blocks) && Acyclic(t) && x in t && x !in visited && Under(t, root, x)
    requires SameButHeights(blocks, now) && forall h :: h in blocks && h != x ==> now[h] == blocks[h]
    requires HeightsSettled(t, root, blocks, visited)
    requires now[x].height >= 0 && HasHeight(t, x, now[x].height)
    ensures SingleParent(now) && TreeOf(now) == t && HeightsSettled(t, root, now, visited + {x})
  {
    SameTree(blocks, now);
    forall h | h in now && Settled(t, root, visited + {x}, h) ensures HeightOk(now, h) {
      if h != x {
        assert HeightOk(blocks, h);
      }
    }
  }

  lemma VisitKeepsTip(t: Tree, root: Hash, blocks: Blocks, now: Blocks, best: Hash, best': Hash,
                      visited: set<Hash>, x: Hash)
    requires SingleParent(blocks) && SingleParent(now) && x in blocks && x !in visited && Under(t, root, x)
    requires blocks.Keys == now.Keys && forall h :: h in blocks && h != x ==> now[h] == blocks[h]
    requires TipSettled(t, root, blocks, best, visited)
    requires best' == if Connected(t, x) && x != best && PreferCandidate(now[x], now[best]) then x else best
    ensures TipSettled(t, root, now, best', visited + {x})
  {
    assert x != best;
    BeatsIsStrictOrder(best, now[best].height, x, now[x].height, best, 0);
    forall h | h in now && Connected(t, h) && Settled(t, root, visited + {x}, h)
      ensures h == best' || PreferCandidate(now[best'], now[h])
    {
      if h != x {
        BeatsIsStrictOrder(x, now[x].height, best, now[best].height, h, now[h].height);
      }
    }
  }

  lemma ChildrenAreBelow(t: Tree, root: Hash, blocks: Blocks, x: Hash, c: Hash)
    requires SingleParent(blocks) && t == TreeOf(blocks) && x in t && Under(t, root, x) && IsChild(blocks, x, c)
    ensures c in t && t[c] == x && Under(t, root, c)
  {
    UnderBelow(t, root, c);
  }

  lemma VisitKeepsFrontier(t: Tree, root: Hash, blocks: Blocks, children: Children,
                           visited: set<Hash>, x: Hash, queue: seq<Hash>)
    requires SingleParent(blocks) && t == TreeOf(blocks) && ChildrenOk(blocks, children)
    requires x in t && FrontierOk(t, root, blocks, visited, [x] + queue)
    ensures FrontierOk(t, root, blocks, visited + {x}, queue + children[x])
  {
    var q, v' := queue + children[x], visited + {x};
    assert x in [x] + queue;
    forall c | c in q ensures c in blocks && Under(t, root, c) && (c == root || (c in t && t[c] in v')) {
      if c in queue {
        assert c in [x] + queue;
      } else {
        ChildrenAreBelow(t, root, blocks, x, c);
      }
    }
    forall v, h | v in v' && IsChild(blocks, v, h) ensures h in v' || h in q {
      if v != x {
        assert h in visited || h in [x] + queue;
      }
    }
  }

  lemma UnderBelow(t: Tree, root: Hash, c: Hash)
    requires c in t && Under(t, root, t[c])
    ensures Under(t, root, c)
  {
    var k: nat :| Below(t, root, t[c], k);
    assert Below(t, root, c, k + 1);
  }

  lemma SkipKeepsFrontier(t: Tree, root: Hash, blocks: Blocks, visited: set<Hash>, x: Hash, queue: seq<Hash>)
    requires x in visited && FrontierOk(t, root, blocks, visited, [x] + queue)
    ensures FrontierOk(t, root, blocks, visited, queue)
  {
    assert forall c :: c in queue ==> c in [x] + queue;
    assert forall c :: c in [x] + queue ==> c == x || c in queue;
  }

  /** An empty queue means the whole subtree has been visited. */
  lemma {:induction false} SubtreeVisited(t: Tree, root: Hash, blocks: Blocks, visited: set<Hash>, h: Hash, k: nat)
    requires SingleParent(blocks) && t == TreeOf(blocks) && FrontierOk(t, root, blocks, visited, [])
    requires Below(t, root, h, k)
    ensures h in visited
    decreases k
  {
    if k > 0 {
      SubtreeVisited(t, root, blocks, visited, t[h], k - 1);
      assert IsChild(blocks, t[h], h);
    }
  }

  /** All that propagation keeps while it works through the new block's subtree. */
  ghost predicate Propagating(t: Tree, root: Hash, blocks: Blocks, children: Children, best: Hash,
                              visited: set<Hash>, queue: seq<Hash>) {
    && SingleParent(blocks) && TreeOf(blocks) == t && Acyclic(t) && root in t && ChildrenOk(blocks, children)
    && FrontierOk(t, root, blocks, visited, queue)
    && HeightsSettled(t, root, blocks, visited)
    && TipSettled(t, root, blocks, best, visited)
  }

  lemma VisitKeepsAll(t: Tree, root: Hash, blocks: Blocks, now: Blocks, children: Children, best: Hash, best': Hash,
                      visited: set<Hash>, x: Hash, queue: seq<Hash>)
    requires x !in visited && x in t && Propagating(t, root, blocks, children, best, visited, [x] + queue)
    requires SameButHeights(blocks, now) && forall h :: h in blocks && h != x ==> now[h] == blocks[h]
    requires t[x] !in blocks ==> now[x].height == 0
    requires t[x] in blocks && blocks[t[x]].height >= 0 ==> now[x].height == blocks[t[x]].height + 1
    requires best' == if Connected(t, x) && x != best && PreferCandidate(now[x], now[best]) then x else best
    ensures Propagating(t, root, now, children, best', visited + {x}, queue + children[x])
  {
    assert x in [x] + queue;
    SameTree(blocks, now);
    RecomputedIsRight(t, root, blocks, visited, x, now[x].height);
    VisitKeepsHeights(t, root, blocks, now, visited, x);
    VisitKeepsTip(t, root, blocks, now, best, best', visited, x);
    VisitKeepsFrontier(t, root, now, children, visited, x, queue);
  }

  lemma PropagationDone(t: Tree, root: Hash, blocks: Blocks, children: Children, best: Hash, visited: set<Hash>)
    requires Propagating(t, root, blocks, children, best, visited, [])
    ensures IndexOk(blocks, children, best)
  {
    forall h | h in blocks ensures Settled(t, root, visited, h) {
      if Under(t, root, h) {
        var k: nat :| Below(t, root, h, k);
        SubtreeVisited(t, root, blocks, visited, h, k);
      }
    }
  }

  /** Before anything is visited, everything outside the new block's subtree is as it was. */
  lemma NewBlockSettled(was: Blocks, children: Children, now: Blocks, best: Hash, root: Hash)
    requires IndexOk(was, children, best) && root !in was && root in now && SingleParent(now)
    requires now == was[root := now[root]]
    ensures HeightsSettled(TreeOf(now), root, now, {}) && TipSettled(TreeOf(now), root, now, best, {})
  {
    var t, u, p := TreeOf(was), TreeOf(now), now[root].parents[0];
    assert u == t[root := p];
    assert Below(u, root, root, 0);
    forall h | h in now && Settled(u, root, {}, h) ensures HeightOk(now, h) {
      assert HeightOk(was, h);
      HeightSurvives(t, root, p, h, was[h].height);
    }
    NewTipSettled(was, children, now, best, root);
  }

  lemma NewTipSettled(was: Blocks, children: Children, now: Blocks, best: Hash, root: Hash)
    requires IndexOk(was, children, best) && root !in was && root in now && SingleParent(now)
    requires now == was[root := now[root]]
    ensures TipSettled(TreeOf(now), root, now, best, {})
  {
    var t, u, p := TreeOf(was), TreeOf(now), now[root].parents[0];
    assert u == t[root := p];
    assert Below(u, root, root, 0);
    var kb: nat :| AtDistance(t, best, kb);
    DistanceSurvives(t, root, p, best, kb);
    forall h | h in now && Connected(u, h) && Settled(u, root, {}, h)
      ensures h == best || PreferCandidate(now[best], now[h])
    {
      var k: nat :| AtDistance(u, h, k);
      DistanceIsOld(t, root, p, h, k);
      assert h in ConnectedIn(was);
    }
  }

  class Ledger {
    var blocks: Blocks
    var children: Children
    var bestHash: Hash

    /** The part of the index that propagation relies on; heights and the tip may be stale. */
    ghost predicate Shape()
      reads this
    {
      SingleParent(blocks) && Acyclic(TreeOf(blocks)) && ChildrenOk(blocks, children)
    }

    /** The index agrees with the plain definitions. */
    ghost predicate Valid()
      reads this
    {
      IndexOk(blocks, children, bestHash)
    }

    constructor ()
      ensures Valid() && blocks == map[GENESIS := BlockRecord(GENESIS, [], NO_PEER_ID, 0, false)] && bestHash == GENESIS
    {
      var genesis := BlockRecord(GENESIS, [], NO_PEER_ID, 0, false);
      blocks := map[GENESIS := genesis];
      children := map[GENESIS := []];
      bestHash := GENESIS;
      GenesisIsConnected(map[]);
      new;
      assert TreeOf(blocks) == map[];
    }

    /** Depth-first search for a missing ancestor. */
    method HasFullAncestry(hash: Hash) returns (full: bool)
      requires SingleParent(blocks) && Acyclic(TreeOf(blocks))
      ensures full == Connected(TreeOf(blocks), hash)
    {
      full := AncestrySearch(blocks, hash);
    }

    /** The largest parent height, or -1 where a parent is missing. */
    method MaxParentHeight(parents: seq<Hash>) returns (m: int)
      ensures m >= -1
      ensures (exists p :: p in parents && p !in blocks) ==> m == -1
      ensures (forall p :: p in parents ==> p in blocks) ==>
        && (forall p :: p in parents ==> blocks[p].height <= m)
        && (m == -1 || exists p :: p in parents && blocks[p].height == m)
    {
      m := -1;
      for i := 0 to |parents|
        invariant m >= -1
        invariant forall k :: 0 <= k < i ==> parents[k] in blocks && blocks[parents[k]].height <= m
        invariant m == -1 || exists k :: 0 <= k < i && blocks[parents[k]].height == m
      {
        if parents[i] !in blocks {
          return -1;
        }
        if blocks[parents[i]].height > m {
          m := blocks[parents[i]].height;
        }
      }
    }

    /** One more than the parent's stored height, or 0 where the parent is missing. */
    method RecomputeHeight(hash: Hash)
      requires SingleParent(blocks) && hash in blocks
      modifies this`blocks
      ensures SameButHeights(old(blocks), blocks)
      ensures forall h :: h in blocks && h != hash ==> blocks[h] == old(blocks)[h]
      ensures hash == GENESIS ==> blocks[hash].height == 0
      ensures hash != GENESIS ==> var p := blocks[hash].parents[0];
        && (p !in old(blocks) ==> blocks[hash].height == 0)
        && (p in old(blocks) && old(blocks)[p].height >= 0 ==> blocks[hash].height == old(blocks)[p].height + 1)
    {
      var record := blocks[hash];
      if record.parents == [] {
        blocks := blocks[hash := record.(height := 0)];
        return;
      }
      assert record.parents[0] in record.parents;
      var maxParentHeight := MaxParentHeight(record.parents);
      var newHeight := if maxParentHeight >= 0 then maxParentHeight + 1 else 0;
      blocks := blocks[hash := record.(height := newHeight)];
    }

    /** The candidate becomes the tip when it is connected and preferred to the tip. */
    method MaybePromoteBest(hash: Hash)
      requires SingleParent(blocks) && Acyclic(TreeOf(blocks)) && hash in blocks && bestHash in blocks
      modifies this`bestHash
      ensures bestHash == if Connected(TreeOf(blocks), hash) && hash != old(bestHash)
                             && PreferCandidate(blocks[hash], blocks[old(bestHash)]) then hash else old(bestHash)
    {
      var full := HasFullAncestry(hash);
      if !full || hash == bestHash {
        return;
      }
      if PreferCandidate(blocks[hash], blocks[bestHash]) {
        bestHash := hash;
      }
    }

    /** The best connected block, by a scan of all records in any order. */
    method ScanForBest() returns (best: Option<Hash>)
      requires SingleParent(blocks) && Acyclic(TreeOf(blocks))
      ensures best.None? ==> ConnectedIn(blocks) == {}
      ensures best.Some? ==> best.value in ConnectedIn(blocks) && Leads(blocks, best.value, ConnectedIn(blocks))
    {
      best := None;
      ghost var connected := ConnectedIn(blocks);
      ghost var seen: set<Hash> := {};
      var todo := blocks.Keys;
      while todo != {}
        invariant todo <= blocks.Keys
        invariant seen == connected - todo
        invariant best.None? ==> seen == {}
        invariant best.Some? ==> best.value in connected && Leads(blocks, best.value, seen)
      {
        var hash :| hash in todo;
        var full := HasFullAncestry(hash);
        if full {
          if best.Some? {
            LeadsOneMore(blocks, best.value, seen, hash);
            LessIsTotal(hash, hash);
          }
          seen := seen + {hash};
          if best.None? || PreferCandidate(blocks[hash], blocks[best.value]) {
            best := Some(hash);
          }
        }
        todo := todo - {hash};
      }
    }

    /** Recomputes the tip from scratch, but only when the stored one is not connected. */
    method EnsureBestValid() returns (fellBack: bool)
      requires SingleParent(blocks) && Acyclic(TreeOf(blocks))
      modifies this`bestHash
      ensures fellBack <==> old(bestHash) !in ConnectedIn(blocks)
      ensures !fellBack ==> bestHash == old(bestHash)
      ensures fellBack ==> bestHash in ConnectedIn(blocks) && Leads(blocks, bestHash, ConnectedIn(blocks))
    {
      if bestHash in blocks {
        var full := HasFullAncestry(bestHash);
        if full {
          return false;
        }
      }
      var best := ScanForBest();
      GenesisIsConnected(TreeOf(blocks));
      assert GENESIS in ConnectedIn(blocks);
      bestHash := if best.Some? then best.value else GENESIS;
      fellBack := true;
    }

    /** Records a block. A known one only gains the parasite mark; a new one joins the index,
        and the tip never gets shorter. */
    method RegisterBlock(hash: Hash, parents: seq<Hash>, miner: int, parasite: bool) returns (record: BlockRecord)
      requires Valid()
      requires hash !in blocks ==> |parents| == 1 && Acyclic(TreeOf(blocks)[hash := parents[0]])
      modifies this
      ensures Valid() && hash in blocks && record == blocks[hash]
      ensures hash in old(blocks) ==>
        && blocks == old(blocks)[hash := old(blocks)[hash].(parasite := old(blocks)[hash].parasite || parasite)]
        && children == old(children) && bestHash == old(bestHash)
      ensures hash !in old(blocks) ==>
        SameButHeights(old(blocks)[hash := BlockRecord(hash, parents, miner, 0, parasite)], blocks)
      ensures old(bestHash) in old(blocks) && bestHash in blocks
        && blocks[bestHash].height >= old(blocks)[old(bestHash)].height
    {
      if hash in blocks {
        MarkKnown(hash, parasite);
      } else {
        InsertBlock(hash, parents, miner, parasite);
      }
      return blocks[hash];
    }

    method MarkKnown(hash: Hash, parasite: bool)
      requires Valid() && hash in blocks
      modifies this`blocks
      ensures Valid()
      ensures blocks == old(blocks)[hash := old(blocks)[hash].(parasite := old(blocks)[hash].parasite || parasite)]
    {
      var known := blocks[hash];
      blocks := blocks[hash := known.(parasite := known.parasite || parasite)];
      MarkKeepsIndex(old(blocks), blocks, children, bestHash);
    }

    method InsertBlock(hash: Hash, parents: seq<Hash>, miner: int, parasite: bool)
      requires Valid() && hash !in blocks && |parents| == 1 && Acyclic(TreeOf(blocks)[hash := parents[0]])
      modifies this
      ensures Valid()
      ensures SameButHeights(old(blocks)[hash := BlockRecord(hash, parents, miner, 0, parasite)], blocks)
      ensures blocks[bestHash].height >= old(blocks)[old(bestHash)].height
    {
      LinkBlock(hash, parents, miner, parasite);
      var fellBack := PropagateUpdates(hash);
      TipGrows(old(blocks), old(children), old(bestHash), blocks, children, bestHash,
               BlockRecord(hash, parents, miner, 0, parasite));
    }

    /** The new record and its child entries, before any height is recomputed. */
    method LinkBlock(hash: Hash, parents: seq<Hash>, miner: int, parasite: bool)
      requires Valid() && hash !in blocks && |parents| == 1 && Acyclic(TreeOf(blocks)[hash := parents[0]])
      modifies this`blocks, this`children
      ensures blocks == old(blocks)[hash := BlockRecord(hash, parents, miner, 0, parasite)]
      ensures Shape() && HeightsSettled(TreeOf(blocks), hash, blocks, {})
      ensures TipSettled(TreeOf(blocks), hash, blocks, bestHash, {})
    {
      blocks := blocks[hash := BlockRecord(hash, parents, miner, 0, parasite)];
      AddChild(hash, parents);
      JoinKeepsShape(old(blocks), blocks, old(children), children, hash);
      NewBlockSettled(old(blocks), old(children), blocks, bestHash, hash);
    }

    /** The block gets a child list and is appended to each parent's, once. */
    method AddChild(hash: Hash, parents: seq<Hash>)
      modifies this`children
      ensures children == WithChild(old(children), hash, parents)
    {
      if hash !in children {
        children := children[hash := []];
      }
      for i := 0 to |parents|
        invariant children == WithChild(old(children), hash, parents[..i])
      {
        assert parents[..i + 1][..i] == parents[..i];
        var vec := if parents[i] in children then children[parents[i]] else [];
        children := children[parents[i] := if hash in vec then vec else vec + [hash]];
      }
      assert parents[..|parents|] == parents;
    }

    /** The path from GENESIS to a block, following first parents. */
    method ChainToGenesis(tip: Hash) returns (path: seq<Hash>)
      requires Valid()
      ensures path != [] && path[0] == GENESIS
      ensures tip !in blocks ==> path == [GENESIS]
      ensures tip in blocks ==> path[|path| - 1] == tip
      ensures tip in ConnectedIn(blocks) ==> |path| == blocks[tip].height + 1 && Linked(TreeOf(blocks), path)
      ensures tip in blocks && tip !in ConnectedIn(blocks) ==>
        |path| == blocks[tip].height + 2 && Linked(TreeOf(blocks), path[1..])
    {
      if tip !in blocks {
        return [GENESIS];
      }
      assert HeightOk(blocks, tip);
      path := PathFromGenesis(blocks, tip, blocks[tip].height);
    }

    method ParentsForNextBlock() returns (parents: seq<Hash>)
      requires Valid()
      ensures parents == [bestHash] && IsBest(TreeOf(blocks), bestHash)
    {
      ValidTipIsBest(blocks, children, bestHash);
      parents := [bestHash];
    }

    /** Breadth-first: recompute the block and everything below it, then check the tip. */
    method PropagateUpdates(root: Hash) returns (fellBack: bool)
      requires Shape() && root in blocks && root != GENESIS
      requires HeightsSettled(TreeOf(blocks), root, blocks, {})
      requires TipSettled(TreeOf(blocks), root, blocks, bestHash, {})
      modifies this`blocks, this`bestHash
      ensures Valid() && SameButHeights(old(blocks), blocks)
      ensures !fellBack
    {
      ghost var t := TreeOf(blocks);
      ghost var visited := SearchSubtree(t, root);
      PropagationDone(t, root, blocks, children, bestHash, visited);
      fellBack := EnsureBestValid();
    }

    method SearchSubtree(ghost t: Tree, root: Hash) returns (ghost reached: set<Hash>)
      requires Shape() && t == TreeOf(blocks) && root in t
      requires HeightsSettled(t, root, blocks, {}) && TipSettled(t, root, blocks, bestHash, {})
      modifies this`blocks, this`bestHash
      ensures SameButHeights(old(blocks), blocks)
      ensures Propagating(t, root, blocks, children, bestHash, reached, [])
    {
      var queue := [root];
      var visited: set<Hash> := {};
      assert Below(t, root, root, 0);
      while queue != []
        invariant SameButHeights(old(blocks), blocks)
        invariant Propagating(t, root, blocks, children, bestHash, visited, queue)
        decreases |old(blocks).Keys - visited|, |queue|
      {
        visited, queue := TakeBlock(t, root, visited, queue);
      }
      reached := visited;
    }

    /** One turn of the search: a block seen before is dropped from the queue. */
    method TakeBlock(ghost t: Tree, ghost root: Hash, visited0: set<Hash>, queue0: seq<Hash>)
      returns (visited: set<Hash>, queue: seq<Hash>)
      requires queue0 != [] && Propagating(t, root, blocks, children, bestHash, visited0, queue0)
      modifies this`blocks, this`bestHash
      ensures SameButHeights(old(blocks), blocks)
      ensures Propagating(t, root, blocks, children, bestHash, visited, queue)
      ensures visited0 <= visited
      ensures visited == visited0 ==> |queue| < |queue0|
      ensures visited != visited0 ==> |blocks.Keys - visited| < |blocks.Keys - visited0|
    {
      var current := queue0[0];
      visited, queue := visited0, queue0[1..];
      assert queue0 == [current] + queue;
      if current in visited {
        SkipKeepsFrontier(t, root, blocks, visited, current, queue);
      } else {
        visited := visited + {current};
        queue := VisitBlock(t, root, visited0, current, queue);
        FewerLeft(blocks.Keys, visited0, visited);
      }
    }

    /** The block's height, then the tip, then its children onto the queue. */
    method VisitBlock(ghost t: Tree, ghost root: Hash, ghost visited: set<Hash>, current: Hash, queue0: seq<Hash>)
      returns (queue: seq<Hash>)
      requires current !in visited && Propagating(t, root, blocks, children, bestHash, visited, [current] + queue0)
      modifies this`blocks, this`bestHash
      ensures SameButHeights(old(blocks), blocks)
      ensures Propagating(t, root, blocks, children, bestHash, visited + {current}, queue)
    {
      assert current in [current] + queue0;
      assert current in t && t[current] == blocks[current].parents[0];
      RecomputeHeight(current);
      SameTree(old(blocks), blocks);
      MaybePromoteBest(current);
      queue := PushAll(queue0, children[current]);
      VisitKeepsAll(t, root, old(blocks), blocks, children, old(bestHash), bestHash, visited, current, queue0);
    }
  }

  // ---------------------------------------------------------------- registering a block

  function WithChild(children: Children, hash: Hash, parents: seq<Hash>): Children {
    if parents == [] then (if hash in children then children else children[hash := []])
    else
      var rest := WithChild(children, hash, parents[..|parents| - 1]);
      var p := parents[|parents| - 1];
      var vec := if p in rest then rest[p] else [];
      rest[p := if hash in vec then vec else vec + [hash]]
  }

  predicate SameButMark(a: Blocks, b: Blocks) {
    a.Keys == b.Keys && forall h :: h in a ==> b[h] == a[h].(parasite := b[h].parasite)
  }

  lemma MarkKeepsChildren(was: Blocks, now: Blocks, children: Children)
    requires SameButMark(was, now) && ChildrenOk(was, children)
    ensures ChildrenOk(now, children)
  {
    assert forall p, h :: IsChild(now, p, h) <==> IsChild(was, p, h);
  }

  lemma MarkKeepsTree(was: Blocks, now: Blocks)
    requires SameButMark(was, now) && SingleParent(was)
    ensures SingleParent(now) && TreeOf(now) == TreeOf(was)
  {
  }

  lemma MarkKeepsIndex(was: Blocks, now: Blocks, children: Children, best: Hash)
    requires SameButMark(was, now) && IndexOk(was, children, best)
    ensures IndexOk(now, children, best)
  {
    MarkKeepsTree(was, now);
    MarkKeepsChildren(was, now, children);
    assert ConnectedIn(now) == ConnectedIn(was);
    forall h | h in now ensures HeightOk(now, h) {
      assert HeightOk(was, h);
    }
  }

  lemma JoinedChildren(was: Blocks, children: Children, hash: Hash, p: Hash)
    requires ChildrenOk(was, children) && hash !in was
    ensures var base := if hash in children then children else children[hash := []];
      WithChild(children, hash, [p]) == base[p := (if p in base then base[p] else []) + [hash]]
  {
    assert [p][..0] == [];
    assert !IsChild(was, p, hash);
  }

  lemma JoinKeepsChildren(was: Blocks, now: Blocks, children: Children, hash: Hash, p: Hash)
    requires ChildrenOk(was, children) && hash !in was && hash in now
    requires now == was[hash := now[hash]] && now[hash].parents == [p]
    ensures ChildrenOk(now, WithChild(children, hash, [p]))
  {
    JoinedChildren(was, children, hash, p);
    var children' := WithChild(children, hash, [p]);
    forall q, h | q in children' ensures h in children'[q] <==> IsChild(now, q, h) {
      assert IsChild(now, q, h) <==> IsChild(was, q, h) || (h == hash && q == p);
      assert q !in children ==> !IsChild(was, q, h);
    }
  }

  lemma JoinedTree(was: Blocks, now: Blocks, hash: Hash)
    requires SingleParent(was) && hash !in was && hash in now
    requires now == was[hash := now[hash]] && now[hash].hash == hash && |now[hash].parents| == 1
    ensures SingleParent(now) && TreeOf(now) == TreeOf(was)[hash := now[hash].parents[0]]
  {
  }

  lemma JoinKeepsShape(was: Blocks, now: Blocks, children: Children, children': Children, hash: Hash)
    requires SingleParent(was) && ChildrenOk(was, children) && hash !in was && hash in now
    requires now == was[hash := now[hash]] && now[hash].hash == hash && |now[hash].parents| == 1
    requires children' == WithChild(children, hash, now[hash].parents)
    requires Acyclic(TreeOf(was)[hash := now[hash].parents[0]])
    ensures SingleParent(now) && Acyclic(TreeOf(now)) && ChildrenOk(now, children')
  {
    var p := now[hash].parents[0];
    assert now[hash].parents == [p];
    JoinedTree(was, now, hash);
    JoinKeepsChildren(was, now, children, hash, p);
  }

  /** The best height never goes down. */
  lemma TipGrows(was: Blocks, children: Children, best: Hash, now: Blocks, children': Children, best': Hash,
                 record: BlockRecord)
    requires IndexOk(was, children, best) && IndexOk(now, children', best')
    requires record.hash !in was && |record.parents| == 1 && record.hash != GENESIS
    requires SameButHeights(was[record.hash := record], now)
    ensures now[best'].height >= was[best].height
  {
    var t, h := TreeOf(was), record.hash;
    var joined := was[h := record];
    JoinedTree(was, joined, h);
    SameTree(joined, now);
    assert HeightOk(was, best) && HeightOk(now, best);
    ConnectedHeight(t, best, was[best].height);
    DistanceSurvives(t, h, record.parents[0], best, was[best].height);
    DistanceIsHeight(TreeOf(now), best, was[best].height);
    HeightIsUnique(TreeOf(now), best, was[best].height, now[best].height);
    assert best in ConnectedIn(now);
  }

  // ---------------------------------------------------------------- paths

  /** Each entry is the parent of the next one. */
  predicate Linked(t: Tree, path: seq<Hash>) {
    forall i :: 0 < i < |path| ==> path[i] in t && t[path[i]] == path[i - 1]
  }

  /** Each entry is the child of the next one. */
  predicate Climbs(t: Tree, up: seq<Hash>) {
    forall i :: 0 <= i < |up| - 1 ==> up[i] in t && t[up[i]] == up[i + 1]
  }

  lemma {:induction false} TopDecides(t: Tree, up: seq<Hash>)
    requires up != [] && Climbs(t, up) && IsTop(t, up[|up| - 1]) && GENESIS !in t
    ensures Connected(t, up[0]) <==> up[|up| - 1] == GENESIS
  {
    if |up| == 1 {
      GenesisIsConnected(t);
      if up[0] != GENESIS {
        ConnectedStep(t, up[0]);
        UnknownIsDisconnected(t, t[up[0]]);
      }
    } else {
      ConnectedStep(t, up[0]);
      assert up[1..][0] == t[up[0]];
      TopDecides(t, up[1..]);
    }
  }

  /** Follows first parents from a known block for as long as they are known. */
  method Climb(blocks: Blocks, tip: Hash, ghost k: nat) returns (up: seq<Hash>)
    requires SingleParent(blocks) && tip in blocks && HasHeight(TreeOf(blocks), tip, k)
    ensures |up| == k + 1 && up[0] == tip && Climbs(TreeOf(blocks), up) && IsTop(TreeOf(blocks), up[k])
    ensures Connected(TreeOf(blocks), tip) <==> up[k] == GENESIS
  {
    ghost var t := TreeOf(blocks);
    up := [];
    var current := tip;
    while current in blocks
      invariant |up| <= k + 1 && Climbs(t, up)
      invariant up == [] ==> current == tip
      invariant up != [] ==> up[0] == tip && up[|up| - 1] in t && t[up[|up| - 1]] == current
      invariant |up| <= k ==> HasHeight(t, current, k - |up|)
      invariant |up| == k + 1 ==> current !in blocks && IsTop(t, up[k])
      decreases k + 1 - |up|
    {
      up := up + [current];
      if blocks[current].parents == [] {
        break;
      }
      current := blocks[current].parents[0];
    }
    TopDecides(t, up);
  }

  function Reversed(up: seq<Hash>): (path: seq<Hash>)
    ensures |path| == |up| && forall i :: 0 <= i < |up| ==> path[i] == up[|up| - 1 - i]
  {
    seq(|up|, i requires 0 <= i < |up| => up[|up| - 1 - i])
  }

  lemma ClimbReversed(t: Tree, up: seq<Hash>)
    requires Climbs(t, up)
    ensures Linked(t, Reversed(up))
    ensures Reversed(up + [GENESIS]) == [GENESIS] + Reversed(up)
  {
    var path := Reversed(up);
    forall i | 0 < i < |path| ensures path[i] in t && t[path[i]] == path[i - 1] {
      var j := |up| - 1 - i;
      assert up[j] in t && t[up[j]] == up[j + 1];
    }
  }

  method PathFromGenesis(blocks: Blocks, tip: Hash, ghost k: nat) returns (path: seq<Hash>)
    requires SingleParent(blocks) && tip in blocks && HasHeight(TreeOf(blocks), tip, k)
    ensures path != [] && path[0] == GENESIS && path[|path| - 1] == tip
    ensures Connected(TreeOf(blocks), tip) ==> |path| == k + 1 && Linked(TreeOf(blocks), path)
    ensures !Connected(TreeOf(blocks), tip) ==> |path| == k + 2 && Linked(TreeOf(blocks), path[1..])
  {
    var up := Climb(blocks, tip, k);
    ClimbReversed(TreeOf(blocks), up);
    if up[|up| - 1] != GENESIS {
      path := Reversed(up + [GENESIS]);
      assert path[1..] == Reversed(up);
    } else {
      path := Reversed(up);
    }
  }

  /** The stored tip is the best connected block of the tree the ledger knows. */
  lemma ValidTipIsBest(blocks: Blocks, children: Children, best: Hash)
    requires IndexOk(blocks, children, best)
    ensures IsBest(TreeOf(blocks), best)
  {
    var t := TreeOf(blocks);
    assert HeightOk(blocks, best);
    ConnectedHeight(t, best, blocks[best].height);
    forall h, j: nat | AtDistance(t, h, j) ensures h == best || Beats(best, blocks[best].height, h, j) {
      DistanceIsHeight(t, h, j);
      assert h in ConnectedIn(blocks) && HeightOk(blocks, h);
      HeightIsUnique(t, h, j, blocks[h].height);
    }
    assert BestAt(t, best, blocks[best].height);
  }

  lemma ParentsInTree(blocks: Blocks, h: Hash)
    requires SingleParent(blocks) && h in blocks
    ensures blocks[h].parents == if h in TreeOf(blocks) then [TreeOf(blocks)[h]] else []
  {
  }

  lemma SearchTurn(blocks: Blocks, hash: Hash, visited0: set<Hash>, stack0: seq<Hash>,
                   visited: set<Hash>, stack: seq<Hash>)
    requires SingleParent(blocks) && SearchOk(TreeOf(blocks), hash, visited0, stack0) && stack0 != []
    requires var current, rest := stack0[|stack0| - 1], stack0[..|stack0| - 1];
      && current in blocks
      && visited == visited0 + (set p | p in blocks[current].parents)
      && forall x :: x in stack <==> x in rest || (x in blocks[current].parents && x !in visited0)
    ensures SearchOk(TreeOf(blocks), hash, visited, stack)
    ensures visited != visited0 ==> |Mentioned(TreeOf(blocks)) - visited| < |Mentioned(TreeOf(blocks)) - visited0|
  {
    var t, current := TreeOf(blocks), stack0[|stack0| - 1];
    ParentsInTree(blocks, current);
    SearchStep(t, hash, visited0, stack0, visited, stack, blocks[current].parents);
    assert visited <= Mentioned(t);
    if visited != visited0 {
      FewerLeft(Mentioned(t), visited0, visited);
    }
  }

  method AncestrySearch(blocks: Blocks, hash: Hash) returns (full: bool)
    requires SingleParent(blocks) && Acyclic(TreeOf(blocks))
    ensures full == Connected(TreeOf(blocks), hash)
  {
    ghost var t := TreeOf(blocks);
    var visited: set<Hash> := {};
    var stack := [hash];
    while stack != []
      invariant SearchOk(t, hash, visited, stack)
      decreases |Mentioned(t) - visited|, |stack|
    {
      var current := stack[|stack| - 1];
      ghost var stack0, visited0 := stack, visited;
      stack := stack[..|stack| - 1];
      if current !in blocks {
        SearchFails(t, hash, visited, stack0);
        return false;
      }
      visited, stack := PushUnvisited(blocks[current].parents, visited, stack);
      SearchTurn(blocks, hash, visited0, stack0, visited, stack);
    }
    SearchDone(t, hash, visited);
    return true;
  }

  method PushAll(queue0: seq<Hash>, more: seq<Hash>) returns (queue: seq<Hash>)
    ensures queue == queue0 + more
  {
    queue := queue0;
    for i := 0 to |more|
      invariant queue == queue0 + more[..i]
    {
      queue := queue + [more[i]];
    }
  }

  /** Pushes the entries of `parents` not visited before, each once. */
  method PushUnvisited(parents: seq<Hash>, visited0: set<Hash>, stack0: seq<Hash>)
    returns (visited: set<Hash>, stack: seq<Hash>)
    ensures visited == visited0 + (set p | p in parents)
    ensures forall x :: x in stack <==> x in stack0 || (x in parents && x !in visited0)
    ensures visited == visited0 ==> stack == stack0
  {
    visited, stack := visited0, stack0;
    for i := 0 to |parents|
      invariant visited == visited0 + (set p | p in parents[..i])
      invariant forall x :: x in stack <==> x in stack0 || (x in parents[..i] && x !in visited0)
      invariant visited == visited0 ==> stack == stack0
    {
      assert parents[..i + 1] == parents[..i] + [parents[i]];
      if parents[i] !in visited {
        visited := visited + {parents[i]};
        stack := stack + [parents[i]];
      }
    }
    assert parents[..|parents|] == parents;
  }
}
