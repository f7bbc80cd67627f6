/**
 * What announcing achieves: a block that was mined is kept back by somebody or on its way to
 * everybody, every network can be brought to rest by releasing and delivering what is there, and at
 * rest all miners work on the best of all blocks ever mined.
 */
module PowDelivery {
  import opened Quorums
  import opened BlockTree
  import opened PowLedger
  import opened LedgerFeeds
  import opened PowNetwork

  // ---------------------------------------------------------------- nothing gets lost

  /** A miner that does not keep its block back announces it to all the others. */
  predicate Announces(s: Network, step: Step) {
    step.Mine? && !step.withhold ==> s.peers.Keys - {step.p} <= step.announced
  }

  ghost predicate AllAnnounce(run: seq<Network>, steps: seq<Step>)
    requires |run| == |steps| + 1
  {
    forall i :: 0 <= i < |steps| ==> Announces(run[i], steps[i])
  }

  /** The block has reached the peer, or is on its way to it. */
  ghost predicate Reaches(s: Network, p: nat, h: Hash)
    requires p in s.peers
  {
    Heard(s.peers[p].heard, h) || exists e :: e in s.wire && e.to == p && e.a.hash == h
  }

  ghost predicate KeptBack(s: Network, h: Hash) {
    exists p :: p in s.peers && Heard(s.peers[p].withheld, h)
  }

  ghost predicate ReachesAll(s: Network, h: Hash) {
    forall p :: p in s.peers ==> Reaches(s, p, h)
  }

  ghost predicate Public(s: Network) {
    forall h :: h in s.universe.tree ==> KeptBack(s, h) || ReachesAll(s, h)
  }

  lemma ReachesLater(s: Network, t: Network, p: nat, h: Hash)
    requires p in s.peers && p in t.peers && Reaches(s, p, h)
    requires s.peers[p].heard <= t.peers[p].heard && s.wire <= t.wire
    ensures Reaches(t, p, h)
  {
    if Heard(s.peers[p].heard, h) {
      var a :| a in s.peers[p].heard && a.hash == h;
      assert a in t.peers[p].heard;
    }
  }

  lemma AllReachedLater(s: Network, t: Network, h: Hash)
    requires s.peers.Keys == t.peers.Keys && ReachesAll(s, h) && s.wire <= t.wire
    requires forall p :: p in s.peers ==> s.peers[p].heard <= t.peers[p].heard
    ensures ReachesAll(t, h)
  {
    forall p | p in t.peers ensures Reaches(t, p, h) {
      ReachesLater(s, t, p, h);
    }
  }

  /** A release puts whatever was kept back on its way to everybody. */
  lemma ReleasedReachesAll(s: Network, p: nat, h: Hash)
    requires p in s.peers && Heard(s.peers[p].withheld, h)
    ensures ReachesAll(Apply(s, Release(p)), h)
  {
    var t := Apply(s, Release(p));
    var a :| a in s.peers[p].withheld && a.hash == h;
    forall q | q in t.peers ensures Reaches(t, q, h) {
      assert Envelope(q, a) in t.wire;
    }
  }

  /** A new block is kept back or announced. */
  lemma MinedIsPublic(s: Network, step: Step)
    requires step.Mine? && Enabled(s, step) && Announces(s, step)
    ensures var t, h := Apply(s, step), NewBlock(s, step).hash; KeptBack(t, h) || ReachesAll(t, h)
  {
    var t, b := Apply(s, step), NewBlock(s, step);
    var sent := b.(parasite := step.announcedMark);
    if step.withhold {
      assert sent in t.peers[step.p].withheld;
    } else {
      forall q | q in t.peers ensures Reaches(t, q, b.hash) {
        if q == step.p {
          assert b in t.peers[q].heard;
        } else {
          assert Envelope(q, sent) in t.wire;
        }
      }
    }
  }

  lemma StepKeepsPublic(s: Network, step: Step)
    requires Public(s) && Enabled(s, step) && (step.Tick? || step.p in s.peers) && Announces(s, step)
    ensures Public(Apply(s, step))
  {
    var t := Apply(s, step);
    forall h | h in t.universe.tree ensures KeptBack(t, h) || ReachesAll(t, h) {
      if h !in s.universe.tree {
        MinedIsPublic(s, step);
      } else if KeptBack(s, h) {
        var p :| p in s.peers && Heard(s.peers[p].withheld, h);
        var a :| a in s.peers[p].withheld && a.hash == h;
        if step.Release? && step.p == p {
          ReleasedReachesAll(s, p, h);
        } else {
          assert a in t.peers[p].withheld;
        }
      } else {
        AllReachedLater(s, t, h);
      }
    }
  }

  lemma {:induction false} RunIsPublic(ids: set<nat>, run: seq<Network>, steps: seq<Step>, i: nat)
    requires IsRun(ids, run, steps) && AllAnnounce(run, steps) && i < |run|
    ensures Public(run[i])
  {
    if i > 0 {
      RunIsPublic(ids, run, steps, i - 1);
      assert StepAt(run, steps, i - 1) && Announces(run[i - 1], steps[i - 1]);
      StepKeepsPublic(run[i - 1], steps[i - 1]);
    }
  }

  /** A block mined in secret on `a`, which the miner was told of in secret. */
  function Secret(p: nat, tx: nat, a: Announcement): Step {
    Mine(p, tx, a.hash, true, {}, true, true)
  }

  /**
   * The private chain: a peer that keeps an announced block back can mine on it in the next round,
   * keep the new block back too, and release both, which then reach everybody.
   */
  lemma PrivateChain(s: Network, p: nat, tx: nat, a: Announcement) returns (mined: Network, released: Network)
    requires Inv(s) && p in s.peers && Envelope(p, a) in s.wire
    ensures var told := Apply(Apply(s, KeepBack(p, a)), Tick);
      && Enabled(told, Secret(p, tx, a)) && mined == Apply(told, Secret(p, tx, a))
      && released == Apply(mined, Release(p)) && released.peers[p].withheld == {}
      && var h := BlockName(p, tx, s.round + 1);
         && h in mined.universe.tree && mined.universe.tree[h] == a.hash && KeptBack(mined, h)
         && ReachesAll(released, h) && ReachesAll(released, a.hash)
  {
    var told, step := Apply(Apply(s, KeepBack(p, a)), Tick), Secret(p, tx, a);
    assert a in told.peers[p].withheld;
    mined := Apply(told, step);
    released := Apply(mined, Release(p));
    var b := NewBlock(told, step);
    assert b in mined.peers[p].withheld && a in mined.peers[p].withheld;
    ReleasedReachesAll(mined, p, b.hash);
    ReleasedReachesAll(mined, p, a.hash);
  }

  // ---------------------------------------------------------------- the network at rest

  predicate Delivered(s: Network, e: Envelope) {
    e.to in s.peers ==> e.a in s.peers[e.to].heard
  }

  /** Nothing is kept back and every announcement has arrived. */
  ghost predicate AtRest(s: Network) {
    && (forall p :: p in s.peers ==> s.peers[p].withheld == {})
    && (forall e :: e in s.wire ==> Delivered(s, e))
  }

  /**
   * At rest every miner has every block ever mined, and the tip of its ledger is the best of them all:
   * all miners work on the same block.
   */
  lemma AtRestAllAgree(ids: set<nat>, run: seq<Network>, steps: seq<Step>, i: nat, p: nat,
                       blocks: Blocks, children: Children, best: Hash)
    requires IsRun(ids, run, steps) && AllAnnounce(run, steps) && i < |run| && AtRest(run[i]) && p in run[i].peers
    requires IndexOk(blocks, children, best) && Holds(run[i].universe, run[i].peers[p].heard, blocks)
    ensures TreeOf(blocks) == run[i].universe.tree && IsBest(run[i].universe.tree, best)
  {
    var s := run[i];
    RunInv(ids, run, steps, i);
    RunIsPublic(ids, run, steps, i);
    HeldTree(s.universe, s.peers[p].heard, blocks);
    forall h | h in s.universe.tree ensures Heard(s.peers[p].heard, h) {
      assert KeptBack(s, h) || ReachesAll(s, h);
      assert Reaches(s, p, h);
      if e :| e in s.wire && e.to == p && e.a.hash == h {
        assert Delivered(s, e);
      }
    }
    assert TreeOf(blocks) == s.universe.tree;
    ValidTipIsBest(blocks, children, best);
  }

  // ---------------------------------------------------------------- every network can come to rest

  lemma Extend(ids: set<nat>, run: seq<Network>, steps: seq<Step>, step: Step)
    returns (run': seq<Network>, steps': seq<Step>)
    requires IsRun(ids, run, steps) && AllAnnounce(run, steps) && !step.Mine? && !step.Tick?
    requires Enabled(run[|steps|], step)
    ensures run' == run + [Apply(run[|steps|], step)] && steps' == steps + [step]
    ensures IsRun(ids, run', steps') && AllAnnounce(run', steps')
  {
    run', steps' := run + [Apply(run[|steps|], step)], steps + [step];
    forall i | 0 <= i < |steps'| ensures StepAt(run', steps', i) && Announces(run'[i], steps'[i]) {
      if i < |steps| {
        assert StepAt(run, steps, i) && Announces(run[i], steps[i]);
      }
    }
  }

  function Holders(s: Network): set<nat> {
    set p | p in s.peers && s.peers[p].withheld != {}
  }

  function Undelivered(s: Network): set<Envelope> {
    set e | e in s.wire && !Delivered(s, e)
  }

  /** The run goes on, no block is mined, and the network has come to rest. */
  ghost predicate ComesToRest(ids: set<nat>, run: seq<Network>, steps: seq<Step>,
                              run': seq<Network>, steps': seq<Step>)
    requires |run| == |steps| + 1 && |run'| == |steps'| + 1
  {
    && IsRun(ids, run', steps') && AllAnnounce(run', steps') && steps <= steps' && run <= run'
    && AtRest(run'[|steps'|]) && run'[|steps'|].universe == run[|steps|].universe
  }

  /** From any point of any run, releasing and delivering alone bring the network to rest. */
  lemma {:induction false} CanComeToRest(ids: set<nat>, run: seq<Network>, steps: seq<Step>)
    returns (run': seq<Network>, steps': seq<Step>)
    requires IsRun(ids, run, steps) && AllAnnounce(run, steps)
    ensures |run'| == |steps'| + 1 && ComesToRest(ids, run, steps, run', steps')
    decreases |Holders(run[|steps|])|, |Undelivered(run[|steps|])|
  {
    var s := run[|steps|];
    if Holders(s) != {} {
      var p :| p in Holders(s);
      var step := Release(p);
      var r, q := Extend(ids, run, steps, step);
      assert Holders(Apply(s, step)) == Holders(s) - {p};
      run', steps' := CanComeToRest(ids, r, q);
    } else if Undelivered(s) != {} {
      var e :| e in Undelivered(s);
      var step := Receive(e.to, e.a);
      var r, q := Extend(ids, run, steps, step);
      assert Holders(Apply(s, step)) <= Holders(s) == {};
      assert Undelivered(Apply(s, step)) <= Undelivered(s) - {e};
      SubsetSize(Undelivered(Apply(s, step)), Undelivered(s) - {e});
      run', steps' := CanComeToRest(ids, r, q);
    } else {
      assert forall p :: p in s.peers ==> p !in Holders(s);
      assert forall e :: e in s.wire ==> e !in Undelivered(s);
      run', steps' := run, steps;
    }
  }
}
