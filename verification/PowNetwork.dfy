/**
 * Runs of a network of miners: mining on the local tip, withholding, releasing and
 * relaying, over channels that delay, lose, duplicate and reorder announcements.
 */
module PowNetwork {
  import opened BlockTree
  import opened PowLedger
  import opened LedgerFeeds

  // ---------------------------------------------------------------- names of blocks

  function Digit(d: nat): char
    requires d < 10
  {
    ['0', '1', '2', '3', '4', '5', '6', '7', '8', '9'][d]
  }

  function Decimal(n: nat): string {
    if n < 10 then [Digit(n)] else Decimal(n / 10) + [Digit(n % 10)]
  }

  /** A mined block is named after its miner, the transaction it carries and the round. */
  function BlockName(miner: nat, tx: nat, round: nat): Hash {
    Decimal(miner) + ":" + (Decimal(tx) + ":" + Decimal(round))
  }

  function DigitValue(c: char): nat {
    if '0' <= c <= '9' then (c - '0') as int else 0
  }

  function Value(s: string): nat {
    if s == [] then 0 else 10 * Value(s[..|s| - 1]) + DigitValue(s[|s| - 1])
  }

  lemma DigitRoundTrip(d: nat)
    requires d < 10
    ensures DigitValue(Digit(d)) == d && Digit(d) != ':'
  {
  }

  lemma {:induction false} DecimalRoundTrip(n: nat)
    ensures Value(Decimal(n)) == n && ':' !in Decimal(n) && Decimal(n) != []
  {
    DigitRoundTrip(n % 10);
    if n < 10 {
      assert [Digit(n)][..0] == [];
    } else {
      DecimalRoundTrip(n / 10);
      assert Decimal(n)[..|Decimal(n)| - 1] == Decimal(n / 10);
    }
  }

  lemma ColonInside(a: string, b: string, c: string, d: string)
    requires a + ":" + b == c + ":" + d && |a| < |c|
    ensures ':' in c
  {
    var s := a + ":" + b;
    assert s[|a|] == ':' && s[|a|] == c[|a|];
  }

  lemma SplitAtColon(a: string, b: string, c: string, d: string)
    requires a + ":" + b == c + ":" + d && ':' !in a && ':' !in c
    ensures a == c && b == d
  {
    var s := a + ":" + b;
    if |a| < |c| {
      ColonInside(a, b, c, d);
    } else if |c| < |a| {
      ColonInside(c, d, a, b);
    } else {
      assert a == s[..|a|] == c;
      assert b == s[|a| + 1..] == d;
    }
  }

  /** Names do not collide, and none of them is GENESIS. */
  lemma BlockNameIsInjective(p1: nat, tx1: nat, r1: nat, p2: nat, tx2: nat, r2: nat)
    ensures BlockName(p1, tx1, r1) == BlockName(p2, tx2, r2) ==> p1 == p2 && tx1 == tx2 && r1 == r2
    ensures BlockName(p1, tx1, r1) != GENESIS
  {
    DecimalRoundTrip(p1);
    DecimalRoundTrip(p2);
    DecimalRoundTrip(tx1);
    DecimalRoundTrip(tx2);
    DecimalRoundTrip(r1);
    DecimalRoundTrip(r2);
    if BlockName(p1, tx1, r1) == BlockName(p2, tx2, r2) {
      SplitAtColon(Decimal(p1), Decimal(tx1) + ":" + Decimal(r1), Decimal(p2), Decimal(tx2) + ":" + Decimal(r2));
      SplitAtColon(Decimal(tx1), Decimal(r1), Decimal(tx2), Decimal(r2));
    }
    assert BlockName(p1, tx1, r1)[|Decimal(p1)|] == ':';
  }

  // ---------------------------------------------------------------- the network

  /** `heard` is what the peer's ledger was told, `withheld` what it keeps back. */
  datatype Peer = Peer(heard: set<Announcement>, withheld: set<Announcement>, lastMined: int)

  datatype Envelope = Envelope(to: nat, a: Announcement)

  /** `universe` and `rank` record every block ever mined, in the order of mining. */
  datatype Network = Network(round: nat, peers: map<nat, Peer>, wire: set<Envelope>,
                             universe: Universe, rank: map<Hash, nat>)

  datatype Step =
    | Tick
    | Receive(p: nat, a: Announcement)
    | KeepBack(p: nat, a: Announcement)
    | Mine(p: nat, tx: nat, parent: Hash, mark: bool, announced: set<nat>, announcedMark: bool, withhold: bool)
    | Release(p: nat)

  function Start(ids: set<nat>): Network {
    Network(0, map p | p in ids :: Peer({}, {}, -1), {}, Universe(map[], map[]), map[GENESIS := 0])
  }

  function ToAll(s: Network, ids: set<nat>, what: set<Announcement>): set<Envelope> {
    set p, a | p in ids && a in what :: Envelope(p, a)
  }

  /** Honest peers mine on their ledger's tip; a withholding one may extend a block it keeps back. */
  ghost predicate Enabled(s: Network, step: Step) {
    match step
    case Tick => true
    case Receive(p, a) => p in s.peers && Envelope(p, a) in s.wire
    case KeepBack(p, a) => p in s.peers && Envelope(p, a) in s.wire
    case Mine(p, tx, parent, mark, announced, announcedMark, withhold) =>
      && p in s.peers && s.peers[p].lastMined < s.round && announced <= s.peers.Keys
      && AllGenuine(s.universe, s.peers[p].heard) && GENESIS !in s.universe.tree
      && (IsBest(SeenTree(s.universe, s.peers[p].heard), parent) || Heard(s.peers[p].withheld, parent))
    case Release(p) => p in s.peers
  }

  function NewBlock(s: Network, step: Step): Announcement
    requires step.Mine?
  {
    Announcement(BlockName(step.p, step.tx, s.round), [step.parent], step.p, step.mark)
  }

  function Apply(s: Network, step: Step): Network
    requires step.Tick? || step.p in s.peers
  {
    match step
    case Tick => s.(round := s.round + 1)
    case Receive(p, a) => s.(peers := s.peers[p := s.peers[p].(heard := s.peers[p].heard + {a})])
    case KeepBack(p, a) => s.(peers := s.peers[p := s.peers[p].(withheld := s.peers[p].withheld + {a})])
    case Mine(p, tx, parent, mark, announced, announcedMark, withhold) =>
      var block := NewBlock(s, step);
      var sent := block.(parasite := announcedMark);
      var peer := s.peers[p];
      Network(
        s.round,
        s.peers[p := Peer(peer.heard + {block}, peer.withheld + (if withhold then {sent} else {}), s.round)],
        s.wire + ToAll(s, announced, {sent}),
        Universe(s.universe.tree[block.hash := parent], s.universe.miner[block.hash := p]),
        s.rank[block.hash := |s.rank|])
    case Release(p) =>
      s.(wire := s.wire + ToAll(s, s.peers.Keys, s.peers[p].withheld),
         peers := s.peers[p := s.peers[p].(withheld := {})])
  }

  ghost predicate StepAt(run: seq<Network>, steps: seq<Step>, i: nat)
    requires i < |steps| && |run| == |steps| + 1
  {
    Enabled(run[i], steps[i]) && (steps[i].Tick? || steps[i].p in run[i].peers) && run[i + 1] == Apply(run[i], steps[i])
  }

  ghost predicate IsRun(ids: set<nat>, run: seq<Network>, steps: seq<Step>) {
    && |run| == |steps| + 1 && run[0] == Start(ids)
    && forall i :: 0 <= i < |steps| ==> StepAt(run, steps, i)
  }

  // ---------------------------------------------------------------- the invariant

  /** Every name in use was taken by a peer in a round it has already mined in. */
  ghost predicate NamedInTime(peers: map<nat, Peer>, h: Hash) {
    exists p: nat, tx: nat, r: nat :: h == BlockName(p, tx, r) && p in peers && r <= peers[p].lastMined
  }

  /** The parent of a mined block was mined before it. */
  predicate RankedAt(t: Tree, rank: map<Hash, nat>, h: Hash)
    requires h in t && h in rank
  {
    t[h] in rank && rank[t[h]] < rank[h]
  }

  ghost predicate RanksOk(u: Universe, rank: map<Hash, nat>) {
    && GENESIS !in u.tree && (forall h :: h in u.tree <==> h in u.miner)
    && (forall h :: h in rank <==> Known(u.tree, h))
    && (forall h {:trigger RankedAt(u.tree, rank, h)} :: h in u.tree ==> RankedAt(u.tree, rank, h))
    && (forall h :: h in rank ==> rank[h] < |rank|)
  }

  ghost predicate AllConnected(t: Tree) {
    forall h {:trigger Connected(t, h)} :: h in t ==> Connected(t, h)
  }

  ghost predicate TreeOk(s: Network) {
    && RanksOk(s.universe, s.rank)
    && AllConnected(s.universe.tree)
    && (forall h {:trigger NamedInTime(s.peers, h)} :: h in s.universe.tree ==> NamedInTime(s.peers, h))
  }

  predicate PeersOk(s: Network) {
    && (forall p :: p in s.peers ==> s.peers[p].lastMined <= s.round)
    && (forall p :: p in s.peers ==> AllGenuine(s.universe, s.peers[p].heard))
    && (forall p :: p in s.peers ==> AllGenuine(s.universe, s.peers[p].withheld))
    && (forall e :: e in s.wire ==> Genuine(s.universe, e.a))
  }

  ghost predicate Inv(s: Network) {
    TreeOk(s) && PeersOk(s)
  }

  lemma NewNameIsNew(s: Network, step: Step)
    requires Inv(s) && step.Mine? && Enabled(s, step)
    ensures NewBlock(s, step).hash !in s.universe.tree && NewBlock(s, step).hash != GENESIS
  {
    var h := NewBlock(s, step).hash;
    BlockNameIsInjective(step.p, step.tx, s.round, 0, 0, 0);
    if h in s.universe.tree {
      assert NamedInTime(s.peers, h);
      var p: nat, tx: nat, r: nat :| h == BlockName(p, tx, r) && p in s.peers && r <= s.peers[p].lastMined;
      BlockNameIsInjective(step.p, step.tx, s.round, p, tx, r);
    }
  }

  lemma ParentIsKnown(s: Network, step: Step)
    requires Inv(s) && step.Mine? && Enabled(s, step)
    ensures step.parent in s.rank && Connected(s.universe.tree, step.parent)
  {
    var t, peer := s.universe.tree, s.peers[step.p];
    GenesisIsConnected(t);
    if Heard(peer.withheld, step.parent) {
      var a :| a in peer.withheld && a.hash == step.parent;
      assert Genuine(s.universe, a);
      assert step.parent != GENESIS ==> Connected(t, step.parent);
    } else {
      var seen := SeenTree(s.universe, peer.heard);
      var k: nat :| AtDistance(seen, step.parent, k);
      DistanceIsHeight(seen, step.parent, k);
      assert step.parent != GENESIS ==> Connected(t, step.parent);
    }
  }

  lemma GenuineGrows(u: Universe, h: Hash, parent: Hash, miner: int, a: Announcement)
    requires Genuine(u, a) && h !in u.tree && h !in u.miner
    ensures Genuine(Universe(u.tree[h := parent], u.miner[h := miner]), a)
  {
  }

  lemma NamesStay(before: map<nat, Peer>, after: map<nat, Peer>, h: Hash)
    requires NamedInTime(before, h)
    requires forall p :: p in before ==> p in after && before[p].lastMined <= after[p].lastMined
    ensures NamedInTime(after, h)
  {
    var p: nat, tx: nat, r: nat :| h == BlockName(p, tx, r) && p in before && r <= before[p].lastMined;
    assert h == BlockName(p, tx, r) && p in after && r <= after[p].lastMined;
  }

  lemma NewRankIsHighest(rank: map<Hash, nat>, h: Hash)
    requires h !in rank && forall x :: x in rank ==> rank[x] < |rank|
    ensures var rank' := rank[h := |rank|];
      |rank'| == |rank| + 1 && rank'.Keys == rank.Keys + {h} && forall x :: x in rank' ==> rank'[x] < |rank'|
  {
    var rank' := rank[h := |rank|];
    assert rank'.Keys == rank.Keys + {h};
    assert |rank'.Keys| == |rank.Keys| + 1;
  }

  lemma OldRankStays(t: Tree, rank: map<Hash, nat>, h: Hash, parent: Hash, k: nat, x: Hash)
    requires x in t && x in rank && h !in rank && RankedAt(t, rank, x)
    ensures RankedAt(t[h := parent], rank[h := k], x)
  {
  }

  lemma NewRanked(t: Tree, rank: map<Hash, nat>, h: Hash, parent: Hash, k: nat, x: Hash)
    requires h !in rank && parent in rank && rank[parent] < k && (forall y :: y in t ==> y in rank)
    requires x in t[h := parent] && (x in t ==> RankedAt(t, rank, x))
    ensures RankedAt(t[h := parent], rank[h := k], x)
  {
    if x != h {
      OldRankStays(t, rank, h, parent, k, x);
    }
  }

  lemma NewRank(u: Universe, rank: map<Hash, nat>, h: Hash, parent: Hash, miner: int)
    requires RanksOk(u, rank) && h !in u.tree && h != GENESIS && parent in rank
    ensures RanksOk(Universe(u.tree[h := parent], u.miner[h := miner]), rank[h := |rank|])
  {
    var tree', rank' := u.tree[h := parent], rank[h := |rank|];
    NewRankIsHighest(rank, h);
    forall x | x in tree' ensures RankedAt(tree', rank', x) {
      NewRanked(u.tree, rank, h, parent, |rank|, x);
    }
  }

  lemma NewBlockIsConnected(t: Tree, h: Hash, parent: Hash)
    requires GENESIS !in t && h !in t && h != GENESIS && Connected(t, parent)
    requires AllConnected(t)
    ensures AllConnected(t[h := parent])
  {
    var t' := t[h := parent];
    forall x | x in t' ensures Connected(t', x) {
      var y := if x == h then parent else x;
      assert Connected(t, y);
      var k: nat :| AtDistance(t, y, k);
      DistanceSurvives(t, h, parent, y, k);
      assert Connected(t', y);
      if x == h {
        ConnectedStep(t', h);
      }
    }
  }

  lemma MiningKeepsNames(s: Network, step: Step, h: Hash)
    requires Inv(s) && step.Mine? && Enabled(s, step) && h in Apply(s, step).universe.tree
    ensures NamedInTime(Apply(s, step).peers, h)
  {
    var n := Apply(s, step);
    if h == NewBlock(s, step).hash {
      assert h == BlockName(step.p, step.tx, s.round) && s.round <= n.peers[step.p].lastMined;
    } else {
      assert NamedInTime(s.peers, h);
      NamesStay(s.peers, n.peers, h);
    }
  }

  lemma MiningKeepsTree(s: Network, step: Step)
    requires Inv(s) && step.Mine? && Enabled(s, step)
    ensures TreeOk(Apply(s, step))
  {
    var n, h := Apply(s, step), NewBlock(s, step).hash;
    NewNameIsNew(s, step);
    ParentIsKnown(s, step);
    NewRank(s.universe, s.rank, h, step.parent, step.p);
    NewBlockIsConnected(s.universe.tree, h, step.parent);
    forall x | x in n.universe.tree ensures NamedInTime(n.peers, x) {
      MiningKeepsNames(s, step, x);
    }
  }

  lemma MiningKeepsPeers(s: Network, step: Step)
    requires Inv(s) && step.Mine? && Enabled(s, step)
    ensures PeersOk(Apply(s, step))
  {
    var n, block := Apply(s, step), NewBlock(s, step);
    NewNameIsNew(s, step);
    forall a | Genuine(s.universe, a) ensures Genuine(n.universe, a) {
      GenuineGrows(s.universe, block.hash, step.parent, step.p, a);
    }
    assert Genuine(n.universe, block) && Genuine(n.universe, block.(parasite := step.announcedMark));
    forall e | e in n.wire ensures Genuine(n.universe, e.a) {
    }
  }

  lemma RelayingKeepsInv(s: Network, step: Step)
    requires Inv(s) && !step.Mine? && Enabled(s, step) && (step.Tick? || step.p in s.peers)
    ensures Inv(Apply(s, step))
  {
    var n := Apply(s, step);
    forall h | h in n.universe.tree ensures NamedInTime(n.peers, h) {
      assert NamedInTime(s.peers, h);
      NamesStay(s.peers, n.peers, h);
    }
  }

  lemma StepKeepsInv(s: Network, step: Step)
    requires Inv(s) && Enabled(s, step) && (step.Tick? || step.p in s.peers)
    ensures Inv(Apply(s, step))
  {
    if step.Mine? {
      MiningKeepsTree(s, step);
      MiningKeepsPeers(s, step);
    } else {
      RelayingKeepsInv(s, step);
    }
  }

  lemma StartInv(ids: set<nat>)
    ensures Inv(Start(ids))
  {
  }

  lemma {:induction false} RunInv(ids: set<nat>, run: seq<Network>, steps: seq<Step>, i: nat)
    requires IsRun(ids, run, steps) && i < |run|
    ensures Inv(run[i])
  {
    if i == 0 {
      StartInv(ids);
    } else {
      RunInv(ids, run, steps, i - 1);
      assert StepAt(run, steps, i - 1);
      StepKeepsInv(run[i - 1], steps[i - 1]);
    }
  }

  // ---------------------------------------------------------------- what holds of every run

  lemma RanksGround(u: Universe, rank: map<Hash, nat>)
    requires RanksOk(u, rank)
    ensures Acyclic(u.tree)
  {
    forall h | h in u.tree ensures h in rank && (u.tree[h] in rank ==> rank[u.tree[h]] < rank[h]) {
      assert RankedAt(u.tree, rank, h);
    }
    RankedIsAcyclic(u.tree, rank);
  }

  /** All blocks ever mined form one acyclic tree, every one of them connected to GENESIS. */
  lemma OneTree(ids: set<nat>, run: seq<Network>, steps: seq<Step>, i: nat)
    requires IsRun(ids, run, steps) && i < |run|
    ensures Acyclic(run[i].universe.tree)
    ensures AllConnected(run[i].universe.tree)
  {
    RunInv(ids, run, steps, i);
    RanksGround(run[i].universe, run[i].rank);
  }

  /** The announcement is in some ledger, in some private store or on its way. */
  ghost predicate Circulates(s: Network, a: Announcement) {
    || (exists p :: p in s.peers && (a in s.peers[p].heard || a in s.peers[p].withheld))
    || (exists p :: Envelope(p, a) in s.wire)
  }

  /** Equal hashes, anywhere in the network, carry equal parents and name the same miner. */
  lemma HashFixesBlock(ids: set<nat>, run: seq<Network>, steps: seq<Step>, i: nat, a: Announcement, b: Announcement)
    requires IsRun(ids, run, steps) && i < |run|
    requires Circulates(run[i], a) && Circulates(run[i], b) && a.hash == b.hash != GENESIS
    ensures a.parents == b.parents && |a.parents| == 1 && a.miner == b.miner
  {
    RunInv(ids, run, steps, i);
    CirculatingIsGenuine(run[i], a);
    CirculatingIsGenuine(run[i], b);
  }

  lemma CirculatingIsGenuine(s: Network, a: Announcement)
    requires Inv(s) && Circulates(s, a)
    ensures Genuine(s.universe, a)
  {
    if exists p :: Envelope(p, a) in s.wire {
      var p :| Envelope(p, a) in s.wire;
      assert Genuine(s.universe, Envelope(p, a).a);
    } else {
      var p :| p in s.peers && (a in s.peers[p].heard || a in s.peers[p].withheld);
    }
  }

  /** A peer can register whatever reaches it: the announcement keeps its ledger's tree acyclic. */
  lemma ReceptionIsSafe(ids: set<nat>, run: seq<Network>, steps: seq<Step>, i: nat, p: nat, a: Announcement, blocks: Blocks)
    requires IsRun(ids, run, steps) && i < |run| && p in run[i].peers && Circulates(run[i], a)
    requires Holds(run[i].universe, run[i].peers[p].heard, blocks) && a.hash !in blocks
    ensures |a.parents| == 1 && Acyclic(TreeOf(blocks)[a.hash := a.parents[0]])
  {
    RunInv(ids, run, steps, i);
    OneTree(ids, run, steps, i);
    CirculatingIsGenuine(run[i], a);
    CanRegister(run[i].universe, run[i].peers[p].heard, a, blocks);
  }

  /** Two peers whose ledgers have heard of the same blocks, in whatever order, mine on the same tip. */
  lemma SameViewSameTip(ids: set<nat>, run: seq<Network>, steps: seq<Step>, i: nat, p: nat, q: nat,
                        blocks1: Blocks, children1: Children, best1: Hash,
                        blocks2: Blocks, children2: Children, best2: Hash)
    requires IsRun(ids, run, steps) && i < |run| && p in run[i].peers && q in run[i].peers
    requires forall h :: Heard(run[i].peers[p].heard, h) <==> Heard(run[i].peers[q].heard, h)
    requires IndexOk(blocks1, children1, best1) && Holds(run[i].universe, run[i].peers[p].heard, blocks1)
    requires IndexOk(blocks2, children2, best2) && Holds(run[i].universe, run[i].peers[q].heard, blocks2)
    ensures best1 == best2
  {
    RunInv(ids, run, steps, i);
    var u := run[i].universe;
    HeldTree(u, run[i].peers[p].heard, blocks1);
    HeldTree(u, run[i].peers[q].heard, blocks2);
    assert TreeOf(blocks1) == TreeOf(blocks2);
    ValidTipIsBest(blocks1, children1, best1);
    ValidTipIsBest(blocks2, children2, best2);
    BestIsUnique(TreeOf(blocks1), best1, best2);
  }
}
