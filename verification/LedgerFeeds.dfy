/**
 * Feeding ledgers: whatever the order, the repetitions and the orphans, the same blocks
 * leave the same ledger.
 */
module LedgerFeeds {
  import opened BlockTree
  import opened PowLedger

  datatype Announcement = Announcement(hash: Hash, parents: seq<Hash>, miner: int, parasite: bool)

  /** The blocks that exist: each has one parent and one miner. */
  datatype Universe = Universe(tree: Tree, miner: map<Hash, int>)

  predicate Genuine(u: Universe, a: Announcement) {
    a.hash == GENESIS
    || (a.hash in u.tree && a.parents == [u.tree[a.hash]] && a.hash in u.miner && a.miner == u.miner[a.hash])
  }

  predicate AllGenuine(u: Universe, heard: set<Announcement>) {
    forall a :: a in heard ==> Genuine(u, a)
  }

  predicate Heard(heard: set<Announcement>, h: Hash) {
    exists a :: a in heard && a.hash == h
  }

  predicate Marked(heard: set<Announcement>, h: Hash) {
    exists a :: a in heard && a.hash == h && a.parasite
  }

  /** The part of the universe that `heard` tells of. */
  function SeenTree(u: Universe, heard: set<Announcement>): (t: Tree)
    requires AllGenuine(u, heard) && GENESIS !in u.tree
    ensures forall h :: h in t <==> h != GENESIS && Heard(heard, h)
    ensures forall h :: h in t ==> h in u.tree && t[h] == u.tree[h]
  {
    map h | h in u.tree && Heard(heard, h) :: u.tree[h]
  }

  /** The records hold exactly what was heard: an order-free description of a ledger's content. */
  ghost predicate Holds(u: Universe, heard: set<Announcement>, blocks: Blocks) {
    && SingleParent(blocks)
    && (forall h :: h in blocks <==> h == GENESIS || Heard(heard, h))
    && blocks[GENESIS].miner == NO_PEER_ID
    && (forall h :: h in blocks && h != GENESIS ==>
          h in u.tree && blocks[h].parents == [u.tree[h]] && h in u.miner && blocks[h].miner == u.miner[h])
    && (forall h :: h in blocks ==> (blocks[h].parasite <==> Marked(heard, h)))
  }

  lemma HeldTree(u: Universe, heard: set<Announcement>, blocks: Blocks)
    requires AllGenuine(u, heard) && GENESIS !in u.tree && Holds(u, heard, blocks)
    ensures TreeOf(blocks) == SeenTree(u, heard)
  {
  }

  /** Two ledgers that heard the same blocks are equal: records, heights, marks, tip and child sets. */
  lemma Confluence(u: Universe, heard: set<Announcement>,
                   blocks1: Blocks, children1: Children, best1: Hash,
                   blocks2: Blocks, children2: Children, best2: Hash)
    requires AllGenuine(u, heard) && GENESIS !in u.tree
    requires IndexOk(blocks1, children1, best1) && Holds(u, heard, blocks1)
    requires IndexOk(blocks2, children2, best2) && Holds(u, heard, blocks2)
    ensures blocks1 == blocks2 && best1 == best2
    ensures children1.Keys == children2.Keys
    ensures forall p :: p in children1 ==> multiset(children1[p]) == multiset(children2[p])
  {
    HeldTree(u, heard, blocks1);
    HeldTree(u, heard, blocks2);
    assert blocks1.Keys == blocks2.Keys;
    forall h | h in blocks1 ensures blocks1[h] == blocks2[h] {
      assert HeightOk(blocks1, h) && HeightOk(blocks2, h);
      HeightIsUnique(TreeOf(blocks1), h, blocks1[h].height, blocks2[h].height);
    }
    ValidTipIsBest(blocks1, children1, best1);
    ValidTipIsBest(blocks2, children2, best2);
    BestIsUnique(TreeOf(blocks1), best1, best2);
    SameChildren(blocks1, children1, children2);
  }

  lemma SameChildren(blocks: Blocks, children1: Children, children2: Children)
    requires ChildrenOk(blocks, children1) && ChildrenOk(blocks, children2)
    ensures children1.Keys == children2.Keys
    ensures forall p :: p in children1 ==> multiset(children1[p]) == multiset(children2[p])
  {
    KeysCovered(blocks, children1, children2);
    KeysCovered(blocks, children2, children1);
    forall p | p in children1 ensures multiset(children1[p]) == multiset(children2[p]) {
      assert forall h :: h in children1[p] <==> h in children2[p];
      SameElements(children1[p], children2[p]);
    }
  }

  lemma KeysCovered(blocks: Blocks, children1: Children, children2: Children)
    requires ChildrenOk(blocks, children1) && ChildrenOk(blocks, children2)
    ensures forall p :: p in children1 ==> p in children2
  {
    forall p | p in children1 ensures p in children2 {
      if p !in blocks {
        var h := children1[p][0];
        assert h in children1[p];
        assert IsChild(blocks, p, h);
      }
    }
  }

  predicate Distinct(s: seq<Hash>) {
    forall i, j :: 0 <= i < j < |s| ==> s[i] != s[j]
  }

  lemma {:induction false} CountsOnce(s: seq<Hash>, x: Hash)
    requires Distinct(s)
    ensures multiset(s)[x] == if x in s then 1 else 0
  {
    if s != [] {
      CountsOnce(s[1..], x);
      assert s == [s[0]] + s[1..];
      assert s[0] !in s[1..];
    }
  }

  lemma SameElements(a: seq<Hash>, b: seq<Hash>)
    requires Distinct(a) && Distinct(b) && forall x :: x in a <==> x in b
    ensures multiset(a) == multiset(b)
  {
    forall x | x in multiset(a) || x in multiset(b) ensures multiset(a)[x] == multiset(b)[x] {
      CountsOnce(a, x);
      CountsOnce(b, x);
    }
  }

  // ---------------------------------------------------------------- feeding a ledger

  function Told(feed: seq<Announcement>): set<Announcement> {
    set a | a in feed
  }

  /** What one more announcement adds to the records. */
  lemma HoldsOneMore(u: Universe, heard: set<Announcement>, a: Announcement, was: Blocks, now: Blocks)
    requires AllGenuine(u, heard) && Genuine(u, a) && GENESIS !in u.tree && Holds(u, heard, was) && SingleParent(now)
    requires a.hash in was ==> now == was[a.hash := was[a.hash].(parasite := was[a.hash].parasite || a.parasite)]
    requires a.hash !in was ==> SameButHeights(was[a.hash := BlockRecord(a.hash, a.parents, a.miner, 0, a.parasite)], now)
    ensures Holds(u, heard + {a}, now)
  {
    var more := heard + {a};
    forall h ensures Heard(more, h) <==> Heard(heard, h) || h == a.hash {
      assert a in more;
    }
    forall h ensures Marked(more, h) <==> Marked(heard, h) || (h == a.hash && a.parasite) {
      assert a in more;
    }
  }

  /** A ledger accepts any announcement of an existing block at any time. */
  lemma CanRegister(u: Universe, heard: set<Announcement>, a: Announcement, blocks: Blocks)
    requires Acyclic(u.tree) && AllGenuine(u, heard) && Genuine(u, a) && Holds(u, heard, blocks) && a.hash !in blocks
    ensures |a.parents| == 1 && Acyclic(TreeOf(blocks)[a.hash := a.parents[0]])
  {
    PartIsAcyclic(u.tree, TreeOf(blocks)[a.hash := a.parents[0]]);
  }

  method Hear(ghost u: Universe, ghost heard: set<Announcement>, ledger: Ledger, a: Announcement)
    requires Acyclic(u.tree) && AllGenuine(u, heard) && Genuine(u, a)
    requires ledger.Valid() && Holds(u, heard, ledger.blocks)
    modifies ledger
    ensures ledger.Valid() && Holds(u, heard + {a}, ledger.blocks)
  {
    if a.hash !in ledger.blocks {
      CanRegister(u, heard, a, ledger.blocks);
    }
    var record := ledger.RegisterBlock(a.hash, a.parents, a.miner, a.parasite);
    HoldsOneMore(u, heard, a, old(ledger.blocks), ledger.blocks);
  }

  /** A new ledger fed block announcements in the given order. */
  method Feed(ghost u: Universe, feed: seq<Announcement>) returns (ledger: Ledger)
    requires Acyclic(u.tree) && AllGenuine(u, Told(feed))
    ensures fresh(ledger) && ledger.Valid() && Holds(u, Told(feed), ledger.blocks)
  {
    ledger := new Ledger();
    HoldsNothing(u, ledger.blocks);
    for i := 0 to |feed|
      invariant fresh(ledger) && ledger.Valid() && Holds(u, Told(feed[..i]), ledger.blocks)
    {
      ToldOneMore(u, feed, i);
      Hear(u, Told(feed[..i]), ledger, feed[i]);
    }
    assert feed[..|feed|] == feed;
  }

  lemma HoldsNothing(u: Universe, blocks: Blocks)
    requires blocks == map[GENESIS := BlockRecord(GENESIS, [], NO_PEER_ID, 0, false)]
    ensures Holds(u, Told([]), blocks)
  {
  }

  lemma ToldOneMore(u: Universe, feed: seq<Announcement>, i: nat)
    requires i < |feed| && AllGenuine(u, Told(feed))
    ensures AllGenuine(u, Told(feed[..i])) && Genuine(u, feed[i])
    ensures Told(feed[..i + 1]) == Told(feed[..i]) + {feed[i]}
  {
    assert feed[i] in Told(feed);
    assert feed[..i + 1] == feed[..i] + [feed[i]];
    forall a | a in Told(feed[..i]) ensures Genuine(u, a) {
      assert a in Told(feed);
    }
  }

  /** Two orders of the same announcements, with any repetitions, build equal ledgers. */
  method FeedsConverge(ghost u: Universe, feed1: seq<Announcement>, feed2: seq<Announcement>)
    returns (a: Ledger, b: Ledger)
    requires Acyclic(u.tree) && AllGenuine(u, Told(feed1)) && Told(feed1) == Told(feed2)
    ensures a.Valid() && b.Valid()
    ensures a.blocks == b.blocks && a.bestHash == b.bestHash && a.children.Keys == b.children.Keys
    ensures forall p :: p in a.children ==> multiset(a.children[p]) == multiset(b.children[p])
    ensures IsBest(SeenTree(u, Told(feed1)), a.bestHash)
  {
    a := Feed(u, feed1);
    b := Feed(u, feed2);
    Confluence(u, Told(feed1), a.blocks, a.children, a.bestHash, b.blocks, b.children, b.bestHash);
    HeldTree(u, Told(feed1), a.blocks);
    ValidTipIsBest(a.blocks, a.children, a.bestHash);
  }
}
