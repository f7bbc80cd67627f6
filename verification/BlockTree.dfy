/**
 * Single-parent block trees: the plain definitions the incremental ledger is measured
 * against. A tree maps every block but GENESIS to its parent; a parent may be unknown.
 */
module BlockTree {

  type Hash = string
  type Tree = map<Hash, Hash>

  const GENESIS: Hash := "GENESIS"

  predicate Known(t: Tree, h: Hash) {
    h == GENESIS || h in t
  }

  /** A block with nothing above it: GENESIS, or an orphan whose parent has not arrived. */
  predicate IsTop(t: Tree, h: Hash) {
    h == GENESIS || (h in t && !Known(t, t[h]))
  }

  /** `h` is `k` parent steps below the top of its branch. */
  predicate HasHeight(t: Tree, h: Hash, k: nat)
    decreases k
  {
    if k == 0 then IsTop(t, h) else h in t && !IsTop(t, h) && HasHeight(t, t[h], k - 1)
  }

  /** `h` is `k` parent steps below GENESIS. */
  predicate AtDistance(t: Tree, h: Hash, k: nat)
    decreases k
  {
    if k == 0 then h == GENESIS else h != GENESIS && h in t && AtDistance(t, t[h], k - 1)
  }

  ghost predicate Connected(t: Tree, h: Hash) {
    exists k: nat :: AtDistance(t, h, k)
  }

  /** Every branch ends: GENESIS has no parent and no block is its own ancestor. */
  ghost predicate Acyclic(t: Tree) {
    GENESIS !in t && forall h {:trigger Grounded(t, h)} :: h in t ==> Grounded(t, h)
  }

  ghost predicate Grounded(t: Tree, h: Hash) {
    exists k: nat :: HasHeight(t, h, k)
  }

  /** `h` is `k` parent steps below `a`. */
  predicate Below(t: Tree, a: Hash, h: Hash, k: nat)
    decreases k
  {
    if k == 0 then h == a else h in t && Below(t, a, t[h], k - 1)
  }

  ghost predicate Under(t: Tree, a: Hash, h: Hash) {
    exists k: nat :: Below(t, a, h, k)
  }

  // ---------------------------------------------------------------- the order on tips

  /** `std::string` comparison. */
  predicate Less(a: Hash, b: Hash) {
    b != [] && (a == [] || a[0] < b[0] || (a[0] == b[0] && Less(a[1..], b[1..])))
  }

  lemma {:induction false} LessIsTotal(a: Hash, b: Hash)
    ensures Less(a, b) || Less(b, a) || a == b
    ensures !(Less(a, b) && Less(b, a)) && !Less(a, a)
  {
    if a != [] && b != [] && a[0] == b[0] {
      LessIsTotal(a[1..], b[1..]);
      assert a == [a[0]] + a[1..] && b == [b[0]] + b[1..];
    }
    if a != [] {
      LessIsTotal(a[1..], a[1..]);
    }
  }

  lemma {:induction false} LessIsTransitive(a: Hash, b: Hash, c: Hash)
    requires Less(a, b) && Less(b, c)
    ensures Less(a, c)
  {
    if a != [] && a[0] == b[0] && b[0] == c[0] {
      LessIsTransitive(a[1..], b[1..], c[1..]);
    }
  }

  /** The taller block wins, and of two equally tall ones the smaller hash. */
  predicate Beats(a: Hash, ka: int, b: Hash, kb: int) {
    if ka != kb then ka > kb else Less(a, b)
  }

  lemma BeatsIsStrictOrder(a: Hash, ka: int, b: Hash, kb: int, c: Hash, kc: int)
    ensures Beats(a, ka, b, kb) || Beats(b, kb, a, ka) || (a == b && ka == kb)
    ensures !(Beats(a, ka, b, kb) && Beats(b, kb, a, ka))
    ensures Beats(a, ka, b, kb) && Beats(b, kb, c, kc) ==> Beats(a, ka, c, kc)
  {
    LessIsTotal(a, b);
    if Less(a, b) && Less(b, c) {
      LessIsTransitive(a, b, c);
    }
  }

  /** `b` is the best connected block of the tree. */
  ghost predicate IsBest(t: Tree, b: Hash) {
    exists k: nat :: AtDistance(t, b, k) && BestAt(t, b, k)
  }

  ghost predicate BestAt(t: Tree, b: Hash, k: nat) {
    forall h, j: nat :: AtDistance(t, h, j) ==> h == b || Beats(b, k, h, j)
  }

  /** A tree has one best block: the tip does not depend on how the tree was learnt. */
  lemma BestIsUnique(t: Tree, a: Hash, b: Hash)
    requires IsBest(t, a) && IsBest(t, b)
    ensures a == b
  {
    var ka: nat :| AtDistance(t, a, ka) && BestAt(t, a, ka);
    var kb: nat :| AtDistance(t, b, kb) && BestAt(t, b, kb);
    BeatsIsStrictOrder(a, ka, b, kb, a, ka);
  }

  // ---------------------------------------------------------------- heights

  lemma {:induction false} HeightIsUnique(t: Tree, h: Hash, j: nat, k: nat)
    requires HasHeight(t, h, j) && HasHeight(t, h, k)
    ensures j == k
    decreases j
  {
    if j > 0 && k > 0 {
      HeightIsUnique(t, t[h], j - 1, k - 1);
    }
  }

  lemma {:induction false} DistanceIsHeight(t: Tree, h: Hash, k: nat)
    requires AtDistance(t, h, k)
    ensures HasHeight(t, h, k) && Known(t, h)
    decreases k
  {
    if k > 0 {
      DistanceIsHeight(t, t[h], k - 1);
    }
  }

  lemma {:induction false} ConnectedHeight(t: Tree, h: Hash, k: nat)
    requires Connected(t, h) && HasHeight(t, h, k)
    ensures AtDistance(t, h, k)
  {
    var j: nat :| AtDistance(t, h, j);
    DistanceIsHeight(t, h, j);
    HeightIsUnique(t, h, j, k);
  }

  lemma ConnectedStep(t: Tree, h: Hash)
    requires h in t && h != GENESIS
    ensures Connected(t, h) <==> Connected(t, t[h])
  {
    if Connected(t, h) {
      var k: nat :| AtDistance(t, h, k);
      assert AtDistance(t, t[h], k - 1);
    }
    if Connected(t, t[h]) {
      var k: nat :| AtDistance(t, t[h], k);
      assert AtDistance(t, h, k + 1);
    }
  }

  lemma UnknownIsDisconnected(t: Tree, h: Hash)
    requires !Known(t, h)
    ensures !Connected(t, h)
  {
  }

  lemma GenesisIsConnected(t: Tree)
    ensures Connected(t, GENESIS)
  {
    assert AtDistance(t, GENESIS, 0);
  }

  predicate ParentIn(t: Tree, p: set<Hash>, x: Hash) {
    Known(t, x) && (x in t ==> t[x] in p)
  }

  /** A set of known blocks that holds the parent of each member is connected. */
  lemma {:induction false} ClosedIsConnected(t: Tree, p: set<Hash>, h: Hash, k: nat)
    requires h in p && HasHeight(t, h, k)
    requires forall x {:trigger ParentIn(t, p, x)} :: x in p ==> ParentIn(t, p, x)
    ensures Connected(t, h)
    decreases k
  {
    assert ParentIn(t, p, h);
    if k == 0 {
      assert h in t ==> ParentIn(t, p, t[h]);
      GenesisIsConnected(t);
    } else {
      ClosedIsConnected(t, p, t[h], k - 1);
      ConnectedStep(t, h);
    }
  }

  lemma {:induction false} BelowHeight(t: Tree, a: Hash, h: Hash, j: nat, k: nat)
    requires Below(t, a, h, j) && HasHeight(t, h, k) && Known(t, a) && GENESIS !in t
    ensures j <= k && HasHeight(t, a, k - j)
    decreases j
  {
    if j > 0 {
      BelowTop(t, a, h, j);
      BelowHeight(t, a, t[h], j - 1, k - 1);
    }
  }

  lemma {:induction false} BelowTop(t: Tree, a: Hash, h: Hash, j: nat)
    requires Below(t, a, h, j) && j > 0 && Known(t, a) && GENESIS !in t
    ensures !IsTop(t, h)
    decreases j
  {
    if j > 1 {
      BelowTop(t, a, t[h], j - 1);
    }
  }

  lemma ParentIsNotUnder(t: Tree, a: Hash)
    requires Acyclic(t) && a in t
    ensures !Under(t, a, t[a])
  {
    if Under(t, a, t[a]) {
      var j: nat :| Below(t, a, t[a], j);
      assert Grounded(t, a);
      var k: nat :| HasHeight(t, a, k);
      assert Below(t, a, a, j + 1);
      BelowHeight(t, a, a, j + 1, k);
      HeightIsUnique(t, a, k, k - j - 1);
    }
  }

  lemma UnderStep(t: Tree, a: Hash, h: Hash)
    requires h in t && h != a
    ensures Under(t, a, h) <==> Under(t, a, t[h])
  {
    if Under(t, a, h) {
      var k: nat :| Below(t, a, h, k);
      assert Below(t, a, t[h], k - 1);
    }
    if Under(t, a, t[h]) {
      var k: nat :| Below(t, a, t[h], k);
      assert Below(t, a, h, k + 1);
    }
  }

  // ---------------------------------------------------------------- adding one block

  /** Heights outside the new block's subtree stay what they were. */
  lemma {:induction false} HeightSurvives(t: Tree, a: Hash, p: Hash, h: Hash, k: nat)
    requires a !in t && a != GENESIS && HasHeight(t, h, k) && !Under(t[a := p], a, h)
    ensures HasHeight(t[a := p], h, k)
    decreases k
  {
    var u := t[a := p];
    assert h != a by {
      assert Below(u, a, a, 0);
    }
    if h in t {
      UnderStep(u, a, h);
      assert t[h] != a by {
        assert Below(u, a, a, 0);
      }
      if k > 0 {
        HeightSurvives(t, a, p, t[h], k - 1);
      }
    }
  }

  /** What was connected stays connected, and lies outside the new block's subtree. */
  lemma {:induction false} DistanceSurvives(t: Tree, a: Hash, p: Hash, h: Hash, k: nat)
    requires a !in t && a != GENESIS && GENESIS !in t && AtDistance(t, h, k)
    ensures AtDistance(t[a := p], h, k) && !Under(t[a := p], a, h)
    decreases k
  {
    var u := t[a := p];
    if k > 0 {
      DistanceSurvives(t, a, p, t[h], k - 1);
      UnderStep(u, a, h);
    }
  }

  /** Nothing else becomes connected outside that subtree. */
  lemma {:induction false} DistanceIsOld(t: Tree, a: Hash, p: Hash, h: Hash, k: nat)
    requires a !in t && a != GENESIS && AtDistance(t[a := p], h, k) && !Under(t[a := p], a, h)
    ensures AtDistance(t, h, k)
    decreases k
  {
    var u := t[a := p];
    assert h != a by {
      assert Below(u, a, a, 0);
    }
    if k > 0 {
      UnderStep(u, a, h);
      DistanceIsOld(t, a, p, u[h], k - 1);
    }
  }

  // ---------------------------------------------------------------- where acyclic trees come from

  /** Parents precede their children in some ranking, for example in the order of mining. */
  predicate Ranked(t: Tree, rank: map<Hash, nat>) {
    GENESIS !in t && forall h :: h in t ==> h in rank && (t[h] in rank ==> rank[t[h]] < rank[h])
  }

  lemma {:induction false} RankedHasHeight(t: Tree, rank: map<Hash, nat>, h: Hash) returns (k: nat)
    requires Ranked(t, rank) && h in t
    ensures HasHeight(t, h, k)
    decreases rank[h]
  {
    if IsTop(t, h) {
      k := 0;
    } else if t[h] == GENESIS {
      k := 1;
      assert HasHeight(t, GENESIS, 0);
    } else {
      k := RankedHasHeight(t, rank, t[h]);
      k := k + 1;
    }
  }

  /** A ranked tree, and with it every part of a ranked tree, is acyclic. */
  lemma RankedIsAcyclic(t: Tree, rank: map<Hash, nat>)
    requires Ranked(t, rank)
    ensures Acyclic(t)
  {
    forall h | h in t ensures Grounded(t, h) {
      var k := RankedHasHeight(t, rank, h);
    }
  }

  lemma {:induction false} PartHasHeight(t: Tree, part: Tree, h: Hash, k: nat) returns (j: nat)
    requires GENESIS !in t && HasHeight(t, h, k) && h in part
    requires forall x :: x in part ==> x in t && part[x] == t[x]
    ensures HasHeight(part, h, j)
    decreases k
  {
    if IsTop(part, h) {
      j := 0;
    } else if part[h] == GENESIS {
      j := 1;
      assert HasHeight(part, GENESIS, 0);
    } else {
      j := PartHasHeight(t, part, t[h], k - 1);
      j := j + 1;
    }
  }

  /** Knowing fewer blocks of an acyclic tree leaves an acyclic tree. */
  lemma PartIsAcyclic(t: Tree, part: Tree)
    requires Acyclic(t) && forall x :: x in part ==> x in t && part[x] == t[x]
    ensures Acyclic(part)
  {
    forall h | h in part ensures Grounded(part, h) {
      assert Grounded(t, h);
      var k: nat :| HasHeight(t, h, k);
      var j := PartHasHeight(t, part, h, k);
    }
  }
}
