/**
 * Committees of at most three members, where f = 0 and one vote is a quorum. Agreement within a
 * view holds there for a reason of its own: a leader does not prepare, and it proposes two
 * requests for one slot only when another member has executed that position before.
 */
module PbftSmall {
  import opened Quorums
  import opened PbftNode
  import opened PbftRuns

  /** Somebody executed position `n` before view `v`. */
  predicate Past(decided: set<Decision>, v: int, n: int) {
    exists d :: d in decided && d.position == n && d.view < v
  }

  predicate PastBesides(decided: set<Decision>, v: int, n: int, p: Id) {
    exists d :: d in decided && d.position == n && d.view < v && d.peer != p
  }

  /** A pre-prepare in the name of the leader of its view. */
  predicate FromLeader(committee: seq<Id>, m: Msg) {
    m.PrePrepare? && m.b.view >= 0 && m.b.from == LeaderFor(committee, m.b.view)
  }

  predicate Active(p: Phase) {
    p.PrePreparing? || p.Preparing? || p.Committing?
  }

  /** The replica has not proposed at position `n` of its view yet. */
  predicate Before(s: Node, n: int) {
    |s.confirmed| < n || (|s.confirmed| == n && s.phase.PrePreparing?)
  }

  predicate DistinctPositions(proof: seq<Ballot>) {
    forall i, j :: 0 <= i < j < |proof| ==> proof[i].seqNum != proof[j].seqNum
  }

  // ---------------------------------------------------------------- the invariant

  predicate PrepareOk(committee: seq<Id>, s: System, m: Msg)
    requires m.Prepare?
  {
    && m.b.view >= 0 && m.b.from != LeaderFor(committee, m.b.view)
    && PrePrepare(m.b.(from := LeaderFor(committee, m.b.view))) in s.sent
    && forall d :: d in s.decided && d.peer == m.b.from && d.position == m.b.seqNum ==> d.view >= m.b.view
  }

  predicate ViewChangeOk(s: System, m: Msg)
    requires m.ViewChange?
  {
    forall b :: b in m.proof ==> Past(s.decided, m.view + 1, b.seqNum)
  }

  predicate NewViewOk(s: System, m: Msg)
    requires m.NewView?
  {
    DistinctPositions(m.proof) && forall b :: b in m.proof ==> Past(s.decided, m.view, b.seqNum)
  }

  predicate ProposalOk(committee: seq<Id>, s: System, m: Msg)
    requires FromLeader(committee, m)
  {
    && m.b.from in s.nodes
    && var n := s.nodes[m.b.from];
       && m.b.view <= n.view
       && (m.b.view == n.view ==> Active(n.phase))
       && (m.b.view == n.view && Before(n, m.b.seqNum) ==> Past(s.decided, m.b.view, m.b.seqNum))
  }

  predicate MsgOk(committee: seq<Id>, s: System, m: Msg) {
    && (m.Prepare? ==> PrepareOk(committee, s, m))
    && (m.ViewChange? ==> ViewChangeOk(s, m))
    && (m.NewView? ==> NewViewOk(s, m))
    && (FromLeader(committee, m) ==> ProposalOk(committee, s, m))
  }

  /** Two proposals of one leader for one slot: another member is past it. */
  predicate PairOk(committee: seq<Id>, s: System, a: Msg, b: Msg) {
    FromLeader(committee, a) && FromLeader(committee, b) && a.b.view == b.b.view && a.b.seqNum == b.b.seqNum && a != b
    ==> PastBesides(s.decided, a.b.view, a.b.seqNum, a.b.from)
  }

  predicate SmallInv(w: World, s: System) {
    && Inv(w, s)
    && (forall m :: m in s.sent ==> MsgOk(w.committee, s, m))
    && (forall a, b :: a in s.sent && b in s.sent ==> PairOk(w.committee, s, a, b))
  }

  // ---------------------------------------------------------------- what one phase sends

  predicate Proposes(c: Config, s: Node, t: Node, m: Msg)
    requires m.PrePrepare?
  {
    && s.phase.PrePreparing? && t.phase.Preparing? && c.me == LeaderFor(c.committee, s.view)
    && m.b.view == s.view && m.b.seqNum == |s.confirmed|
  }

  predicate Reissues(c: Config, s: Node, t: Node, events: seq<Event>, m: Msg)
    requires m.PrePrepare?
  {
    && s.phase.NewViewing? && t.phase.PrePreparing? && m.b.view == s.view
    && exists nv :: nv in s.log && ReissueOf(c, s, nv, events, m)
  }

  predicate ReissueOf(c: Config, s: Node, nv: Msg, events: seq<Event>, m: Msg)
    requires m.PrePrepare?
  {
    && nv.NewView? && nv.view == s.view
    && (exists b :: b in nv.proof && b.seqNum == m.b.seqNum)
    && (DistinctPositions(nv.proof) ==>
          forall x :: x in SentIn(events) && x.PrePrepare? && x.b.seqNum == m.b.seqNum ==> x == m)
  }

  predicate SendOk(c: Config, s: Node, r: StepResult, m: Msg) {
    match m
    case PrePrepare(b) =>
      || (Proposes(c, s, r.node, m) && forall x :: x in SentIn(r.events) ==> x == m)
      || Reissues(c, s, r.node, r.events, m)
    case Prepare(b) =>
      c.me != LeaderFor(c.committee, s.view) && PrePrepare(b.(from := LeaderFor(c.committee, s.view))) in s.log
    case ViewChange(_, v, _, _, proof, _) =>
      v == s.view && forall b :: b in proof ==> 0 <= b.seqNum < |s.confirmed|
    case NewView(_, v, _, proof, _) =>
      && v == s.view && DistinctPositions(proof)
      && forall b :: b in proof ==> exists vc :: vc in s.log && vc.ViewChange? && vc.view == v - 1 && b in vc.proof
    case _ => true
  }

  predicate SmallFacts(c: Config, s: Node, r: StepResult) {
    && (forall m :: m in SentIn(r.events) ==> SendOk(c, s, r, m))
    && (r.node.view == s.view && Active(s.phase) ==> Active(r.node.phase))
    && (r.node.view == s.view && r.node.phase.PrePreparing? && r.node.confirmed == s.confirmed
        ==> s.phase.PrePreparing? || s.phase.NewViewing?)
  }

  lemma {:induction false} ProofPositions(c: Config, log: seq<Msg>, v: nat, lo: nat, hi: nat)
    ensures forall b :: b in PreparedProof(c, log, v, lo, hi) ==> lo <= b.seqNum < hi
    decreases hi - lo
  {
    if lo < hi {
      ProofPositions(c, log, v, lo + 1, hi);
    }
  }

  lemma ViewChangeSends(c: Config, s: Node, round: nat)
    ensures SmallFacts(c, s, RequestViewChange(c, MaybeStableCheckpoint(c, s), round))
  {
    CheckpointOnlyPrunes(c, s);
    var u := MaybeStableCheckpoint(c, s);
    ProofPositions(c, u.log, u.view, u.lastStable + 1, |u.confirmed|);
    SingleSend(c.me, RequestViewChange(c, u, round).events[0].m);
  }

  lemma PrePreparingSends(c: Config, s: Node, round: nat)
    requires s.phase.PrePreparing?
    ensures SmallFacts(c, s, PrePrepareStep(c, s, round))
  {
    ViewChangeSends(c, s, round);
    CheckpointOnlyPrunes(c, s);
    if MaybeStableCheckpoint(c, s).timer >= round {
      if c.me == LeaderFor(c.committee, s.view) {
        LeaderSends(c, s, round);
      } else {
        BackupSends(c, s, round);
      }
    }
  }

  lemma LeaderSends(c: Config, s: Node, round: nat)
    requires s.phase.PrePreparing? && c.me == LeaderFor(c.committee, s.view) && MaybeStableCheckpoint(c, s).timer >= round
    ensures SmallFacts(c, s, PrePrepareStep(c, s, round))
  {
    CheckpointOnlyPrunes(c, s);
    var r := PrePrepareStep(c, s, round);
    var m := r.events[|r.events| - 1].m;
    assert SentIn(r.events) == {m} by {
      assert r.events[|r.events| - 1] == Send(m);
    }
    assert Proposes(c, s, r.node, m);
  }

  lemma BackupSends(c: Config, s: Node, round: nat)
    requires s.phase.PrePreparing? && c.me != LeaderFor(c.committee, s.view) && MaybeStableCheckpoint(c, s).timer >= round
    ensures SmallFacts(c, s, PrePrepareStep(c, s, round))
  {
    CheckpointOnlyPrunes(c, s);
    var u, r := MaybeStableCheckpoint(c, s), PrePrepareStep(c, s, round);
    if r.events != [] {
      var x := First(u.log, 0, Acceptable(c, u.view, |u.confirmed|)).value;
      SingleSend(c.me, r.events[0].m);
      assert x == PrePrepare(r.events[0].m.b.(from := LeaderFor(c.committee, s.view)));
    }
  }

  lemma VotingSends(c: Config, s: Node, round: nat)
    requires s.phase.Preparing? || s.phase.Committing?
    ensures SmallFacts(c, s, PhaseStep(c, s, round))
  {
    ViewChangeSends(c, s, round);
    CheckpointOnlyPrunes(c, s);
    var u, r := MaybeStableCheckpoint(c, s), PhaseStep(c, s, round);
    if u.timer >= round && r.again {
      if s.phase.Preparing? {
        SingleSend(c.me, r.events[0].m);
      } else {
        var done := r.node.confirmed;
        var marks := if |done| % CHECKPOINT_INTERVAL == 0 then [Checkpoint(|done|, s.view, done, c.me)] else [];
        assert r.events == [r.events[0]] + Sends(marks);
        DecideThenSends(c.me, r.events[0], marks);
      }
    }
  }

  lemma {:induction false} BestInProofFrom(best: Option<Ballot>, proof: seq<Ballot>, n: int)
    ensures var r := BestInProof(best, proof, n); r == best || (r.Some? && r.value in proof && r.value.seqNum == n)
    decreases |proof|
  {
    if proof != [] {
      BestInProofFrom(best, proof[..|proof| - 1], n);
    }
  }

  predicate CarriedFrom(log: seq<Msg>, v: int, b: Ballot) {
    exists vc :: vc in log && vc.ViewChange? && vc.view == v - 1 && b in vc.proof
  }

  lemma {:induction false} BestInLogFrom(log: seq<Msg>, anchor: int, v: int, n: int)
    ensures var r := BestInLog(log, anchor, v, n); r.Some? ==> r.value.seqNum == n && CarriedFrom(log, v, r.value)
    decreases |log|
  {
    if log != [] {
      var init, m := log[..|log| - 1], log[|log| - 1];
      BestInLogFrom(init, anchor, v, n);
      var best, r := BestInLog(init, anchor, v, n), BestInLog(log, anchor, v, n);
      if r != best {
        BestInProofFrom(best, m.proof, n);
        assert m in log;
      } else if r.Some? {
        var vc :| vc in init && vc.ViewChange? && vc.view == v - 1 && r.value in vc.proof;
        assert vc in log;
      }
    }
  }

  /** Ballots of positions from `lo` on, each once, and each from some view change. */
  ghost predicate CarriedOk(log: seq<Msg>, v: int, lo: int, bs: seq<Ballot>) {
    DistinctPositions(bs) && forall i :: 0 <= i < |bs| ==> bs[i].seqNum >= lo && CarriedFrom(log, v, bs[i])
  }

  lemma CarryOne(log: seq<Msg>, v: int, lo: int, best: Option<Ballot>, rest: seq<Ballot>)
    requires CarriedOk(log, v, lo + 1, rest)
    requires best.Some? ==> best.value.seqNum == lo && CarriedFrom(log, v, best.value)
    ensures CarriedOk(log, v, lo, (if best.Some? then [best.value] else []) + rest)
  {
    assert [] + rest == rest;
  }

  lemma {:induction false} CarriedOverFrom(log: seq<Msg>, anchor: int, v: int, lo: nat, hi: nat)
    ensures CarriedOk(log, v, lo, CarriedOver(log, anchor, v, lo, hi))
    decreases hi - lo
  {
    if lo <= hi {
      CarriedOverFrom(log, anchor, v, lo + 1, hi);
      BestInLogFrom(log, anchor, v, lo);
      CarryOne(log, v, lo, BestInLog(log, anchor, v, lo), CarriedOver(log, anchor, v, lo + 1, hi));
    }
  }

  lemma ViewChangingSends(c: Config, s: Node, round: nat)
    requires s.phase.ViewChanging?
    ensures SmallFacts(c, s, ViewChangeStep(c, s, round))
  {
    ViewChangeSends(c, s, round);
    CheckpointOnlyPrunes(c, s);
    var u, r := MaybeStableCheckpoint(c, s), ViewChangeStep(c, s, round);
    if round < u.timer && r.events != [] {
      var m := r.events[0].m;
      SingleSend(c.me, m);
      CarriedOverFrom(u.log, u.anchor, u.view, u.lastStable + 1, u.highWater);
      forall b | b in m.proof ensures exists vc :: vc in s.log && vc.ViewChange? && vc.view == m.view - 1 && b in vc.proof {
        assert CarriedFrom(u.log, u.view, b);
        var vc :| vc in u.log && vc.ViewChange? && vc.view == u.view - 1 && b in vc.proof;
        assert vc in s.log;
      }
    }
  }

  /** Every re-issued pre-prepare comes from its own ballot of the proof. */
  lemma {:induction false} ReissuedFrom(c: Config, v: nat, proof: seq<Ballot>)
    ensures forall m :: m in Reissued(c, v, proof) ==> m.PrePrepare? && m.b.view == v && exists b :: b in proof && m == Reissue(c, v, b)
    decreases |proof|
  {
    if proof != [] {
      var init, b := proof[..|proof| - 1], proof[|proof| - 1];
      ReissuedFrom(c, v, init);
      forall m | m in Reissued(c, v, proof) ensures m.PrePrepare? && m.b.view == v && exists b :: b in proof && m == Reissue(c, v, b) {
        if m in Reissued(c, v, init) {
          var x :| x in init && m == Reissue(c, v, x);
          assert x in proof;
        } else {
          assert b in proof && m == Reissue(c, v, b);
        }
      }
    }
  }

  function Reissue(c: Config, v: nat, b: Ballot): Msg {
    PrePrepare(Ballot(b.seqNum, v,
                      if b.proposal.Some? then Some(Proposal(v, b.proposal.value.request)) else None, c.me))
  }

  lemma NewViewingSends(c: Config, s: Node, round: nat)
    requires s.phase.NewViewing?
    ensures SmallFacts(c, s, NewViewStep(c, s, round))
  {
    ViewChangeSends(c, s, round);
    CheckpointOnlyPrunes(c, s);
    var u, r := MaybeStableCheckpoint(c, s), NewViewStep(c, s, round);
    if round < u.timer && r.again {
      var nv := First(u.log, 0, NewViewFromLeader(c, u.view, u.anchor)).value;
      var ms := Reissued(c, u.view, nv.proof);
      assert r.events == Sends(ms);
      OnlySends(c.me, ms);
      ReissuedFrom(c, u.view, nv.proof);
      forall m | m in SentIn(r.events) ensures SendOk(c, s, r, m) {
        ReissueIsOf(c, s, nv, r.events, m);
      }
    }
  }

  lemma ReissueIsOf(c: Config, s: Node, nv: Msg, events: seq<Event>, m: Msg)
    requires nv in s.log && nv.NewView? && nv.view == s.view && m in SentIn(events)
    requires forall x :: x in SentIn(events) ==> x.PrePrepare? && x.b.view == s.view && exists b :: b in nv.proof && x == Reissue(c, s.view, b)
    ensures m.PrePrepare? && ReissueOf(c, s, nv, events, m)
  {
    var b :| b in nv.proof && m == Reissue(c, s.view, b);
    if DistinctPositions(nv.proof) {
      forall x | x in SentIn(events) && x.PrePrepare? && x.b.seqNum == m.b.seqNum ensures x == m {
        var y :| y in nv.proof && x == Reissue(c, s.view, y);
        assert y == b;
      }
    }
  }

  lemma PhaseSends(c: Config, s: Node, round: nat)
    ensures SmallFacts(c, s, PhaseStep(c, s, round))
  {
    match s.phase
    case PrePreparing => PrePreparingSends(c, s, round);
    case Preparing => VotingSends(c, s, round);
    case Committing => VotingSends(c, s, round);
    case ViewChanging => ViewChangingSends(c, s, round);
    case NewViewing => NewViewingSends(c, s, round);
  }

  // ---------------------------------------------------------------- one phase keeps the invariant

  lemma PastGrows(a: set<Decision>, b: set<Decision>, v: int, n: int, p: Id)
    requires a <= b
    ensures Past(a, v, n) ==> Past(b, v, n)
    ensures PastBesides(a, v, n, p) ==> PastBesides(b, v, n, p)
  {
    if Past(a, v, n) {
      var d :| d in a && d.position == n && d.view < v;
      assert d in b;
    }
    if PastBesides(a, v, n, p) {
      var d :| d in a && d.position == n && d.view < v && d.peer != p;
      assert d in b;
    }
  }

  /** What a step may do: one replica moves by a phase whose facts are known. */
  predicate Moved(w: World, s: System, p: Id, r: StepResult, t: System) {
    && SmallInv(w, s) && p in s.nodes && w.byzantine == {}
    && PhaseFacts(Config(w.committee, p), s.nodes[p], r) && SmallFacts(Config(w.committee, p), s.nodes[p], r)
    && t == Absorb(s, p, r.node, r.events) && Inv(w, t)
  }

  lemma LoggedWasSent(w: World, s: System, p: Id, m: Msg)
    requires Inv(w, s) && p in s.nodes && w.byzantine == {} && m in s.nodes[p].log
    ensures m in s.sent
  {
    assert NodeOk(w, s, p);
    assert Deliverable(w, s.sent, m);
  }

  lemma PreparesStayOk(w: World, s: System, p: Id, r: StepResult, t: System, m: Msg)
    requires Moved(w, s, p, r, t) && m in t.sent && m.Prepare?
    ensures PrepareOk(w.committee, t, m)
  {
    var n := s.nodes[p];
    assert NodeOk(w, s, p);
    if m in s.sent {
      assert MsgOk(w.committee, s, m);
      assert m.b.from == p ==> Behind(m, n);
      assert t.decided == s.decided + DecidedIn(p, r.events);
    } else {
      assert SendOk(Config(w.committee, p), n, r, m);
      LoggedWasSent(w, s, p, PrePrepare(m.b.(from := LeaderFor(w.committee, n.view))));
      assert t.decided == s.decided;
      forall d | d in s.decided && d.peer == p ensures d.position < m.b.seqNum {
        assert DecisionOk(w, s, d);
      }
    }
  }

  lemma ViewChangesStayOk(w: World, s: System, p: Id, r: StepResult, t: System, m: Msg)
    requires Moved(w, s, p, r, t) && m in t.sent && m.ViewChange?
    ensures ViewChangeOk(t, m)
  {
    var n := s.nodes[p];
    forall b | b in m.proof ensures Past(t.decided, m.view + 1, b.seqNum) {
      if m in s.sent {
        assert MsgOk(w.committee, s, m);
      } else {
        assert SendOk(Config(w.committee, p), n, r, m);
        assert NodeOk(w, s, p) && Executed(s, p, b.seqNum);
        var d :| d in s.decided && d.peer == p && d.position == b.seqNum && d.request == n.confirmed[b.seqNum];
        assert DecisionOk(w, s, d);
      }
      PastGrows(s.decided, t.decided, m.view + 1, b.seqNum, p);
    }
  }

  lemma NewViewsStayOk(w: World, s: System, p: Id, r: StepResult, t: System, m: Msg)
    requires Moved(w, s, p, r, t) && m in t.sent && m.NewView?
    ensures NewViewOk(t, m)
  {
    if m in s.sent {
      assert MsgOk(w.committee, s, m);
    } else {
      assert SendOk(Config(w.committee, p), s.nodes[p], r, m);
    }
    forall b | b in m.proof ensures Past(t.decided, m.view, b.seqNum) {
      if m !in s.sent {
        var vc :| vc in s.nodes[p].log && vc.ViewChange? && vc.view == m.view - 1 && b in vc.proof;
        LoggedWasSent(w, s, p, vc);
        assert MsgOk(w.committee, s, vc);
      }
      PastGrows(s.decided, t.decided, m.view, b.seqNum, p);
    }
  }

  /** What the leader re-issues was carried over by somebody who is past it. */
  lemma ReissuedIsPast(w: World, s: System, p: Id, r: StepResult, t: System, m: Msg)
    requires Moved(w, s, p, r, t) && m.PrePrepare? && Reissues(Config(w.committee, p), s.nodes[p], r.node, r.events, m)
    ensures Past(s.decided, m.b.view, m.b.seqNum)
    ensures forall x :: x in SentIn(r.events) && x.PrePrepare? && x.b.seqNum == m.b.seqNum ==> x == m
  {
    var c, n := Config(w.committee, p), s.nodes[p];
    var nv :| nv in n.log && ReissueOf(c, n, nv, r.events, m);
    LoggedWasSent(w, s, p, nv);
    assert MsgOk(w.committee, s, nv);
  }

  lemma ProposalsStayOk(w: World, s: System, p: Id, r: StepResult, t: System, m: Msg)
    requires Moved(w, s, p, r, t) && m in t.sent && FromLeader(w.committee, m)
    ensures ProposalOk(w.committee, t, m)
  {
    PastGrows(s.decided, t.decided, m.b.view, m.b.seqNum, p);
    if m in s.sent {
      assert MsgOk(w.committee, s, m);
    } else {
      assert m.Sender() == p;
      assert SendOk(Config(w.committee, p), s.nodes[p], r, m);
      if Reissues(Config(w.committee, p), s.nodes[p], r.node, r.events, m) {
        ReissuedIsPast(w, s, p, r, t, m);
      }
    }
  }

  lemma NewPairOk(w: World, s: System, p: Id, r: StepResult, t: System, a: Msg, b: Msg)
    requires Moved(w, s, p, r, t) && a in t.sent && a !in s.sent && b in t.sent
    ensures PairOk(w.committee, t, a, b)
  {
    if FromLeader(w.committee, a) && FromLeader(w.committee, b) && a.b.view == b.b.view && a.b.seqNum == b.b.seqNum && a != b {
      var c, n := Config(w.committee, p), s.nodes[p];
      assert a.Sender() == p;
      assert SendOk(c, n, r, a);
      if b !in s.sent {
        if Reissues(c, n, r.node, r.events, a) {
          ReissuedIsPast(w, s, p, r, t, a);
        }
        assert false;
      }
      assert MsgOk(w.committee, s, b);
      assert Proposes(c, n, r.node, a);
      var d :| d in s.decided && d.position == a.b.seqNum && d.view < a.b.view;
      assert DecisionOk(w, s, d);
      assert d in t.decided && d.peer != p;
    }
  }

  lemma PhaseKeepsSmall(w: World, s: System, p: Id, r: StepResult, t: System)
    requires Moved(w, s, p, r, t)
    ensures SmallInv(w, t)
  {
    forall m | m in t.sent ensures MsgOk(w.committee, t, m) {
      if m.Prepare? {
        PreparesStayOk(w, s, p, r, t, m);
      } else if m.ViewChange? {
        ViewChangesStayOk(w, s, p, r, t, m);
      } else if m.NewView? {
        NewViewsStayOk(w, s, p, r, t, m);
      } else if FromLeader(w.committee, m) {
        ProposalsStayOk(w, s, p, r, t, m);
      }
    }
    forall a, b | a in t.sent && b in t.sent ensures PairOk(w.committee, t, a, b) {
      if a !in s.sent {
        NewPairOk(w, s, p, r, t, a, b);
      } else if b !in s.sent {
        NewPairOk(w, s, p, r, t, b, a);
      } else {
        assert PairOk(w.committee, s, a, b);
        if FromLeader(w.committee, a) {
          PastGrows(s.decided, t.decided, a.b.view, a.b.seqNum, a.b.from);
        }
      }
    }
  }

  lemma {:induction false} RunKeepsSmall(w: World, s: System, p: Id, round: nat)
    requires Valid(w) && w.byzantine == {} && SmallInv(w, s) && p in s.nodes
    ensures var r := RunPhase(Config(w.committee, p), s.nodes[p], round); SmallInv(w, Absorb(s, p, r.node, r.events))
    decreases Entering(s.nodes[p].phase), |Backlog(Config(w.committee, p), s.nodes[p])|, Rank(s.nodes[p].phase)
  {
    var c := Config(w.committee, p);
    var r := PhaseStep(c, s.nodes[p], round);
    var t := Absorb(s, p, r.node, r.events);
    assert SmallInv(w, t) by {
      PhaseStepFacts(c, s.nodes[p], round);
      PhaseSends(c, s.nodes[p], round);
      PhaseKeepsInv(w, s, p, r);
      PhaseKeepsSmall(w, s, p, r, t);
    }
    if r.again {
      PhaseProgress(c, s.nodes[p], round);
      RunKeepsSmall(w, t, p, round);
      var rest := RunPhase(c, r.node, round);
      AbsorbTwice(s, p, r.node, r.events, rest.node, rest.events);
    }
  }

  lemma StepKeepsSmall(w: World, s: System, step: Step)
    requires Valid(w) && w.byzantine == {} && SmallInv(w, s) && Enabled(w, s, step)
    ensures SmallInv(w, Apply(w, s, step))
  {
    var t := Apply(w, s, step);
    StepKeepsInv(w, s, step);
    if step.Run? {
      RunKeepsSmall(w, s, step.p, step.round);
    } else {
      InputKeepsSmall(w, s, step.p, t);
    }
  }

  lemma InputKeepsSmall(w: World, s: System, p: Id, t: System)
    requires SmallInv(w, s) && Inv(w, t) && p in s.nodes && p in t.nodes && t.sent == s.sent && t.decided == s.decided
    requires t.nodes == s.nodes[p := t.nodes[p]]
    requires var a, b := s.nodes[p], t.nodes[p]; b == a.(log := b.log, unhandled := b.unhandled)
    ensures SmallInv(w, t)
  {
    forall m | m in t.sent ensures MsgOk(w.committee, t, m) {
      assert MsgOk(w.committee, s, m);
    }
    forall a, b | a in t.sent && b in t.sent ensures PairOk(w.committee, t, a, b) {
      assert PairOk(w.committee, s, a, b);
    }
  }

  lemma StartSmall(w: World)
    requires Valid(w)
    ensures SmallInv(w, Start(w))
  {
    StartKeepsInv(w);
  }

  lemma NextIsSmall(w: World, run: seq<System>, steps: seq<Step>, i: nat)
    requires Valid(w) && w.byzantine == {} && IsRun(w, run, steps) && i < |steps| && SmallInv(w, run[i])
    ensures SmallInv(w, run[i + 1])
  {
    assert StepAt(w, run, steps, i);
    StepKeepsSmall(w, run[i], steps[i]);
  }

  lemma {:induction false} RunSmall(w: World, run: seq<System>, steps: seq<Step>, i: nat)
    requires Valid(w) && w.byzantine == {} && IsRun(w, run, steps) && i < |run|
    ensures SmallInv(w, run[i])
  {
    if i == 0 {
      StartSmall(w);
    } else {
      RunSmall(w, run, steps, i - 1);
      NextIsSmall(w, run, steps, i - 1);
    }
  }

  // ---------------------------------------------------------------- agreement

  /** A decision rests on the prepare of some member other than the leader. */
  lemma DecisionWasPrepared(w: World, s: System, d: Decision) returns (m: Msg)
    requires SmallInv(w, s) && w.byzantine == {} && d in s.decided
    ensures m in s.sent && m.Prepare? && BallotFor(m.b, d.view, d.position, d.request) && m.b.from in w.committee
    ensures PrepareOk(w.committee, s, m)
  {
    assert DecisionOk(w, s, d);
    var p := MemberOutside(CommitBackers(w, s.sent, d.view, d.position, d.request), {});
    var x :| x in s.sent && x.Commit? && x.b.from == p && BallotFor(x.b, d.view, d.position, d.request);
    assert CommitOk(w, s.sent, x);
    var q := MemberOutside(PrepareBackers(w, s.sent, d.view, d.position, d.request), {});
    m :| m in s.sent && m.Prepare? && m.b.from == q && BallotFor(m.b, d.view, d.position, d.request);
    assert MsgOk(w.committee, s, m);
  }

  /** Four different members do not fit into three places. */
  lemma NoFourInThree(committee: seq<Id>, a: Id, b: Id, c: Id, d: Id)
    requires |committee| <= 3 && a in committee && b in committee && c in committee && d in committee
    ensures a == b || a == c || a == d || b == c || b == d || c == d
  {
  }

  lemma SmallStateAgrees(w: World, s: System, d: Decision, e: Decision)
    requires SmallInv(w, s) && w.byzantine == {} && |w.committee| <= 3
    requires d in s.decided && e in s.decided && d.view == e.view && d.position == e.position
    ensures d.request == e.request
  {
    var a := DecisionWasPrepared(w, s, d);
    var b := DecisionWasPrepared(w, s, e);
    if d.request != e.request {
      var leader := LeaderFor(w.committee, d.view);
      var x, y := PrePrepare(a.b.(from := leader)), PrePrepare(b.b.(from := leader));
      assert SameSlot(a, b) <==> a.b.from == b.b.from;
      assert PairOk(w.committee, s, x, y);
      var f :| f in s.decided && f.position == d.position && f.view < d.view && f.peer != leader;
      assert DecisionOk(w, s, f);
      NoFourInThree(w.committee, a.b.from, b.b.from, leader, f.peer);
    }
  }

  /** In every run of at most three members, two decisions of one slot are the same. */
  lemma SmallCommitteesAgree(w: World, run: seq<System>, steps: seq<Step>, i: nat, d: Decision, e: Decision)
    requires Valid(w) && IsRun(w, run, steps) && i < |run| && |w.committee| <= 3
    requires d in run[i].decided && e in run[i].decided && d.view == e.view && d.position == e.position
    ensures d.request == e.request
  {
    RunSmall(w, run, steps, i);
    SmallStateAgrees(w, run[i], d, e);
  }

  /** A member on its own never decides anything. */
  lemma AloneDecidesNothing(w: World, run: seq<System>, steps: seq<Step>, i: nat)
    requires Valid(w) && IsRun(w, run, steps) && i < |run| && |w.committee| <= 1
    ensures run[i].decided == {}
  {
    RunSmall(w, run, steps, i);
    forall d | d in run[i].decided ensures false {
      var m := DecisionWasPrepared(w, run[i], d);
    }
  }
}
