/**
 * Runs of a whole PBFT committee over a network that delays, loses, duplicates and
 * reorders messages, with Byzantine members that send anything under their own identifier.
 */
module PbftRuns {
  import opened Quorums
  import opened PbftNode

  datatype World = World(committee: seq<Id>, byzantine: set<Id>)

  datatype Decision = Decision(peer: Id, view: nat, position: nat, request: Request)

  /** `sent` and `decided` record the past: what correct replicas ever sent and ever executed. */
  datatype System = System(nodes: map<Id, Node>, sent: set<Msg>, decided: set<Decision>)

  datatype Step =
    | Deliver(p: Id, m: Msg)
    | Client(p: Id, round: nat, r: Request)
    | Run(p: Id, round: nat)

  predicate Valid(w: World) {
    Increasing(w.committee) && w.byzantine <= Elements(w.committee) && |w.byzantine| <= F(w.committee)
  }

  function Correct(w: World): set<Id> {
    Elements(w.committee) - w.byzantine
  }

  function Start(w: World): System {
    System(map p | p in Correct(w) :: Initial(), {}, {})
  }

  predicate Deliverable(w: World, sent: set<Msg>, m: Msg) {
    m in sent || m.Sender() in w.byzantine
  }

  function SentIn(events: seq<Event>): set<Msg> {
    set i | 0 <= i < |events| && events[i].Send? :: events[i].m
  }

  function DecidedIn(p: Id, events: seq<Event>): set<Decision> {
    set i | 0 <= i < |events| && events[i].Decide? ::
      Decision(p, events[i].view, events[i].position, events[i].request)
  }

  function Absorb(s: System, p: Id, node: Node, events: seq<Event>): System {
    System(s.nodes[p := node], s.sent + SentIn(events), s.decided + DecidedIn(p, events))
  }

  predicate Enabled(w: World, s: System, step: Step) {
    && step.p in s.nodes
    && (step.Deliver? ==> Deliverable(w, s.sent, step.m))
  }

  function Apply(w: World, s: System, step: Step): System
    requires Enabled(w, s, step)
  {
    var node := s.nodes[step.p];
    match step
    case Deliver(p, m) => s.(nodes := s.nodes[p := node.(log := node.log + [m])])
    case Client(p, round, r) =>
      s.(nodes := s.nodes[p := node.(unhandled := InsertByRound(node.unhandled, round, r))])
    case Run(p, round) =>
      var r := RunPhase(Config(w.committee, p), node, round);
      Absorb(s, p, r.node, r.events)
  }

  /** A run of any length: lost messages are never delivered, duplicated ones more than once. */
  ghost predicate IsRun(w: World, run: seq<System>, steps: seq<Step>) {
    && |run| == |steps| + 1
    && run[0] == Start(w)
    && forall i :: 0 <= i < |steps| ==> StepAt(w, run, steps, i)
  }

  ghost predicate StepAt(w: World, run: seq<System>, steps: seq<Step>, i: nat)
    requires i < |steps| && |run| == |steps| + 1
  {
    Enabled(w, run[i], steps[i]) && run[i + 1] == Apply(w, run[i], steps[i])
  }

  // ---------------------------------------------------------------- the invariant

  predicate IsVote(m: Msg) {
    m.Prepare? || m.Commit?
  }

  /** The replica has gone past the point at which it cast vote `m`. */
  predicate Behind(m: Msg, s: Node)
    requires IsVote(m)
  {
    || m.b.view < s.view
    || (m.b.view == s.view && m.b.seqNum < |s.confirmed|)
    || (m.b.view == s.view && m.b.seqNum == |s.confirmed|
        && (s.phase.Committing? || (s.phase.Preparing? && m.Prepare?)))
  }

  predicate SameSlot(a: Msg, b: Msg)
    requires IsVote(a) && IsVote(b)
  {
    && a.Prepare? == b.Prepare?
    && a.b.from == b.b.from && a.b.view == b.b.view && a.b.seqNum == b.b.seqNum
  }

  predicate OneVotePerSlot(sent: set<Msg>) {
    forall a, b :: a in sent && b in sent && IsVote(a) && IsVote(b) && SameSlot(a, b) ==> a == b
  }

  predicate SaysPrepare(sent: set<Msg>, p: Id, v: int, n: int, r: Request) {
    exists m :: m in sent && m.Prepare? && m.b.from == p && BallotFor(m.b, v, n, r)
  }

  predicate SaysCommit(sent: set<Msg>, p: Id, v: int, n: int, r: Request) {
    exists m :: m in sent && m.Commit? && m.b.from == p && BallotFor(m.b, v, n, r)
  }

  /** The members that prepared `r` in slot (`v`, `n`), or may claim to have. */
  function PrepareBackers(w: World, sent: set<Msg>, v: int, n: int, r: Request): set<Id> {
    set p | p in w.committee && (p in w.byzantine || SaysPrepare(sent, p, v, n, r))
  }

  function CommitBackers(w: World, sent: set<Msg>, v: int, n: int, r: Request): set<Id> {
    set p | p in w.committee && (p in w.byzantine || SaysCommit(sent, p, v, n, r))
  }

  /** A prepared certificate for `r` in slot (`v`, `n`) can be assembled. */
  predicate Certified(w: World, sent: set<Msg>, v: int, n: int, r: Request) {
    |PrepareBackers(w, sent, v, n, r)| > Quorum(w.committee)
  }

  predicate NodeOk(w: World, s: System, p: Id)
    requires p in s.nodes
  {
    var node := s.nodes[p];
    && (forall m :: m in node.log ==> Deliverable(w, s.sent, m))
    && (forall m :: m in s.sent && IsVote(m) && m.Sender() == p ==> Behind(m, node))
    && (forall i :: 0 <= i < |node.confirmed| ==> Executed(s, p, i))
  }

  predicate Executed(s: System, p: Id, i: nat)
    requires p in s.nodes && i < |s.nodes[p].confirmed|
  {
    exists d :: d in s.decided && d.peer == p && d.position == i && d.request == s.nodes[p].confirmed[i]
  }

  predicate DecisionOk(w: World, s: System, d: Decision) {
    && d.peer in s.nodes
    && d.position < |s.nodes[d.peer].confirmed|
    && s.nodes[d.peer].confirmed[d.position] == d.request
    && d.view <= s.nodes[d.peer].view
    && |CommitBackers(w, s.sent, d.view, d.position, d.request)| > Quorum(w.committee)
  }

  predicate CommitOk(w: World, sent: set<Msg>, m: Msg)
    requires m.Commit?
  {
    m.b.proposal.Some? && Certified(w, sent, m.b.view, m.b.seqNum, m.b.proposal.value.request)
  }

  predicate Inv(w: World, s: System) {
    && s.nodes.Keys == Correct(w)
    && (forall m :: m in s.sent ==> m.Sender() in Correct(w))
    && (forall p :: p in s.nodes ==> NodeOk(w, s, p))
    && OneVotePerSlot(s.sent)
    && (forall m :: m in s.sent && m.Commit? ==> CommitOk(w, s.sent, m))
    && (forall d :: d in s.decided ==> DecisionOk(w, s, d))
  }

  // ---------------------------------------------------------------- what one phase emits

  /** Everything about one phase that the safety argument uses. */
  predicate PhaseFacts(c: Config, s: Node, r: StepResult) {
    var t := r.node;
    && s.view <= t.view
    && (forall m :: m in SentIn(r.events) ==> m.Sender() == c.me)
    && (forall m :: m in t.log ==> m in s.log || m in SentIn(r.events))
    && (forall m :: m in SentIn(r.events) && IsVote(m) ==>
          && r.events == [Send(m)]
          && m.b.view == s.view == t.view && m.b.seqNum == |s.confirmed|
          && t.confirmed == s.confirmed
          && (m.Prepare? ==> s.phase.PrePreparing? && t.phase.Preparing?)
          && (m.Commit? ==> s.phase.Preparing? && t.phase.Committing? && Justified(c, s, m)))
    && (t.confirmed == s.confirmed || Decides(c, s, r))
    && (t.confirmed == s.confirmed ==> DecidedIn(c.me, r.events) == {})
    && ((s.phase.Preparing? || s.phase.Committing?) && t.view == s.view && t.confirmed == s.confirmed ==>
          t.phase == s.phase || (s.phase.Preparing? && t.phase.Committing?))
  }

  predicate Justified(c: Config, s: Node, m: Msg)
    requires m.Commit?
  {
    && m.b.proposal.Some?
    && |PrepareSenders(s.log, s.view, |s.confirmed|, m.b.proposal.value.request)| > Quorum(c.committee)
  }

  predicate Decides(c: Config, s: Node, r: StepResult) {
    && s.phase.Committing? && r.node.view == s.view
    && |r.node.confirmed| == |s.confirmed| + 1
    && r.node.confirmed == s.confirmed + [r.node.confirmed[|s.confirmed|]]
    && DecidedIn(c.me, r.events) == {Decision(c.me, s.view, |s.confirmed|, r.node.confirmed[|s.confirmed|])}
    && |CommitSenders(s.log, s.view, |s.confirmed|, r.node.confirmed[|s.confirmed|])| > Quorum(c.committee)
  }

  lemma SendersShrink(log: seq<Msg>, part: seq<Msg>, v: int, n: int, r: Request)
    requires forall m :: m in part ==> m in log
    ensures |PrepareSenders(part, v, n, r)| <= |PrepareSenders(log, v, n, r)|
    ensures |CommitSenders(part, v, n, r)| <= |CommitSenders(log, v, n, r)|
  {
    forall p | p in PrepareSenders(part, v, n, r) ensures p in PrepareSenders(log, v, n, r) {
      var i :| 0 <= i < |part| && part[i].Prepare? && BallotFor(part[i].b, v, n, r) && part[i].b.from == p;
      assert part[i] in log;
    }
    forall p | p in CommitSenders(part, v, n, r) ensures p in CommitSenders(log, v, n, r) {
      var i :| 0 <= i < |part| && part[i].Commit? && BallotFor(part[i].b, v, n, r) && part[i].b.from == p;
      assert part[i] in log;
    }
    SubsetSize(PrepareSenders(part, v, n, r), PrepareSenders(log, v, n, r));
    SubsetSize(CommitSenders(part, v, n, r), CommitSenders(log, v, n, r));
  }

  lemma SingleSend(p: Id, m: Msg)
    ensures SentIn([Send(m)]) == {m} && DecidedIn(p, [Send(m)]) == {}
  {
    assert [Send(m)][0] == Send(m);
  }

  lemma OnlySends(p: Id, ms: seq<Msg>)
    ensures forall m :: m in SentIn(Sends(ms)) <==> m in ms
    ensures DecidedIn(p, Sends(ms)) == {}
  {
    forall m | m in ms ensures m in SentIn(Sends(ms)) {
      var i :| 0 <= i < |ms| && ms[i] == m;
      assert Sends(ms)[i] == Send(m);
    }
  }

  lemma {:induction false} ReissuedArePrePrepares(c: Config, v: nat, proof: seq<Ballot>)
    ensures forall m :: m in Reissued(c, v, proof) ==> m.PrePrepare? && m.Sender() == c.me
  {
    if proof != [] {
      ReissuedArePrePrepares(c, v, proof[..|proof| - 1]);
    }
  }

  lemma ViewChangeFacts(c: Config, s0: Node, round: nat)
    ensures PhaseFacts(c, s0, RequestViewChange(c, MaybeStableCheckpoint(c, s0), round))
  {
    CheckpointOnlyPrunes(c, s0);
    var r := RequestViewChange(c, MaybeStableCheckpoint(c, s0), round);
    SingleSend(c.me, r.events[0].m);
  }

  lemma LeaderFacts(c: Config, s: Node, round: nat)
    requires s.phase.PrePreparing? && c.me == LeaderFor(c.committee, s.view)
    requires MaybeStableCheckpoint(c, s).timer >= round
    ensures PhaseFacts(c, s, PrePrepareStep(c, s, round))
  {
    CheckpointOnlyPrunes(c, s);
    var r := PrePrepareStep(c, s, round);
    var m := r.events[|r.events| - 1].m;
    assert SentIn(r.events) == {m} by {
      assert r.events[|r.events| - 1] == Send(m);
    }
    assert m.PrePrepare?;
  }

  lemma BackupFacts(c: Config, s: Node, round: nat)
    requires s.phase.PrePreparing? && c.me != LeaderFor(c.committee, s.view)
    requires MaybeStableCheckpoint(c, s).timer >= round
    ensures PhaseFacts(c, s, PrePrepareStep(c, s, round))
  {
    CheckpointOnlyPrunes(c, s);
    var r := PrePrepareStep(c, s, round);
    if r.events != [] {
      SingleSend(c.me, r.events[0].m);
    }
  }

  lemma PrePrepareFacts(c: Config, s: Node, round: nat)
    requires s.phase.PrePreparing?
    ensures PhaseFacts(c, s, PrePrepareStep(c, s, round))
  {
    if MaybeStableCheckpoint(c, s).timer < round {
      ViewChangeFacts(c, s, round);
    } else if c.me == LeaderFor(c.committee, s.view) {
      LeaderFacts(c, s, round);
    } else {
      BackupFacts(c, s, round);
    }
  }

  lemma PrepareFacts(c: Config, s: Node, round: nat)
    requires s.phase.Preparing?
    ensures PhaseFacts(c, s, PrepareStep(c, s, round))
  {
    ViewChangeFacts(c, s, round);
    CheckpointOnlyPrunes(c, s);
    var r, u := PrepareStep(c, s, round), MaybeStableCheckpoint(c, s);
    if u.timer >= round && r.events != [] {
      var m := r.events[0].m;
      SingleSend(c.me, m);
      SendersShrink(s.log, u.log, s.view, |s.confirmed|, m.b.proposal.value.request);
    }
  }

  lemma DecideThenSends(p: Id, d: Event, ms: seq<Msg>)
    requires d.Decide?
    ensures forall m :: m in SentIn([d] + Sends(ms)) <==> m in ms
    ensures DecidedIn(p, [d] + Sends(ms)) == {Decision(p, d.view, d.position, d.request)}
  {
    var e := [d] + Sends(ms);
    assert e[0] == d;
    assert forall i :: 0 < i < |e| ==> e[i] == Send(ms[i - 1]);
    forall m | m in ms ensures m in SentIn(e) {
      var i :| 0 <= i < |ms| && ms[i] == m;
      assert e[i + 1] == Send(m);
    }
  }

  lemma CommitFacts(c: Config, s: Node, round: nat)
    requires s.phase.Committing?
    ensures PhaseFacts(c, s, CommitStep(c, s, round))
  {
    ViewChangeFacts(c, s, round);
    CheckpointOnlyPrunes(c, s);
    var r, u := CommitStep(c, s, round), MaybeStableCheckpoint(c, s);
    if u.timer >= round && r.again {
      var d := r.events[0];
      var done := r.node.confirmed;
      var marks := if |done| % CHECKPOINT_INTERVAL == 0 then [Checkpoint(|done|, s.view, done, c.me)] else [];
      assert r.events == [d] + Sends(marks);
      DecideThenSends(c.me, d, marks);
      assert r.node.log == u.log + marks;
      SendersShrink(s.log, u.log, s.view, |s.confirmed|, d.request);
      assert Decides(c, s, r);
    }
  }

  lemma ViewChangingFacts(c: Config, s: Node, round: nat)
    requires s.phase.ViewChanging?
    ensures PhaseFacts(c, s, ViewChangeStep(c, s, round))
  {
    ViewChangeFacts(c, s, round);
    CheckpointOnlyPrunes(c, s);
    var r, u := ViewChangeStep(c, s, round), MaybeStableCheckpoint(c, s);
    if round < u.timer && r.events != [] {
      SingleSend(c.me, r.events[0].m);
    }
  }

  lemma NewViewFacts(c: Config, s: Node, round: nat)
    requires s.phase.NewViewing?
    ensures PhaseFacts(c, s, NewViewStep(c, s, round))
  {
    ViewChangeFacts(c, s, round);
    CheckpointOnlyPrunes(c, s);
    var r, u := NewViewStep(c, s, round), MaybeStableCheckpoint(c, s);
    if round < u.timer && r.again {
      var ms := r.node.log[|u.log|..];
      var proof := First(u.log, 0, NewViewFromLeader(c, u.view, u.anchor)).value.proof;
      assert ms == Reissued(c, u.view, proof);
      ReissuedArePrePrepares(c, u.view, proof);
      OnlySends(c.me, ms);
    }
  }

  lemma PhaseStepFacts(c: Config, s: Node, round: nat)
    ensures PhaseFacts(c, s, PhaseStep(c, s, round))
  {
    match s.phase
    case PrePreparing => PrePrepareFacts(c, s, round);
    case Preparing => PrepareFacts(c, s, round);
    case Committing => CommitFacts(c, s, round);
    case ViewChanging => ViewChangingFacts(c, s, round);
    case NewViewing => NewViewFacts(c, s, round);
  }

  // ---------------------------------------------------------------- one phase keeps the invariant

  lemma BackersGrow(w: World, sent: set<Msg>, more: set<Msg>, v: int, n: int, r: Request)
    requires sent <= more
    ensures |PrepareBackers(w, sent, v, n, r)| <= |PrepareBackers(w, more, v, n, r)|
    ensures |CommitBackers(w, sent, v, n, r)| <= |CommitBackers(w, more, v, n, r)|
  {
    SubsetSize(PrepareBackers(w, sent, v, n, r), PrepareBackers(w, more, v, n, r));
    SubsetSize(CommitBackers(w, sent, v, n, r), CommitBackers(w, more, v, n, r));
  }

  /** A quorum read off a replica's log is a quorum of the committee. */
  lemma LogBacksVotes(w: World, sent: set<Msg>, log: seq<Msg>, v: int, n: int, r: Request)
    requires Valid(w)
    requires forall m :: m in sent ==> m.Sender() in Correct(w)
    requires forall m :: m in log ==> Deliverable(w, sent, m)
    ensures |PrepareSenders(log, v, n, r)| <= |PrepareBackers(w, sent, v, n, r)|
    ensures |CommitSenders(log, v, n, r)| <= |CommitBackers(w, sent, v, n, r)|
  {
    forall p | p in PrepareSenders(log, v, n, r) ensures p in PrepareBackers(w, sent, v, n, r) {
      var i :| 0 <= i < |log| && log[i].Prepare? && BallotFor(log[i].b, v, n, r) && log[i].b.from == p;
      assert Deliverable(w, sent, log[i]) && log[i].Sender() == p;
    }
    forall p | p in CommitSenders(log, v, n, r) ensures p in CommitBackers(w, sent, v, n, r) {
      var i :| 0 <= i < |log| && log[i].Commit? && BallotFor(log[i].b, v, n, r) && log[i].b.from == p;
      assert Deliverable(w, sent, log[i]) && log[i].Sender() == p;
    }
    SubsetSize(PrepareSenders(log, v, n, r), PrepareBackers(w, sent, v, n, r));
    SubsetSize(CommitSenders(log, v, n, r), CommitBackers(w, sent, v, n, r));
  }

  lemma PhaseKeepsNodes(w: World, s: System, p: Id, r: StepResult)
    requires Valid(w) && Inv(w, s) && p in s.nodes
    requires PhaseFacts(Config(w.committee, p), s.nodes[p], r)
    ensures var t := Absorb(s, p, r.node, r.events); forall q :: q in t.nodes ==> NodeOk(w, t, q)
  {
    var t := Absorb(s, p, r.node, r.events);
    var was, now := s.nodes[p], r.node;
    forall q | q in t.nodes ensures NodeOk(w, t, q) {
      assert NodeOk(w, s, q);
      if q == p {
        forall m | m in now.log ensures Deliverable(w, t.sent, m) {
          assert m in was.log || m in t.sent;
        }
        forall m | m in t.sent && IsVote(m) && m.Sender() == p ensures Behind(m, now) {
          if m in s.sent {
            assert Behind(m, was);
          }
        }
        forall i | 0 <= i < |now.confirmed| ensures Executed(t, p, i) {
          if i < |was.confirmed| {
            assert Executed(s, p, i);
          } else {
            assert Decision(p, was.view, i, now.confirmed[i]) in t.decided;
          }
        }
      } else {
        forall i | 0 <= i < |t.nodes[q].confirmed| ensures Executed(t, q, i) {
          assert Executed(s, q, i);
        }
      }
    }
  }

  lemma SlotIsNew(w: World, s: System, p: Id, r: StepResult, a: Msg, b: Msg)
    requires Inv(w, s) && p in s.nodes && PhaseFacts(Config(w.committee, p), s.nodes[p], r)
    requires a in SentIn(r.events) && b in s.sent && IsVote(a) && IsVote(b)
    ensures !SameSlot(a, b)
  {
    assert NodeOk(w, s, p);
    assert b.Sender() == p ==> Behind(b, s.nodes[p]);
  }

  lemma PhaseKeepsVotes(w: World, s: System, p: Id, r: StepResult)
    requires Valid(w) && Inv(w, s) && p in s.nodes
    requires PhaseFacts(Config(w.committee, p), s.nodes[p], r)
    ensures var t := Absorb(s, p, r.node, r.events);
      && OneVotePerSlot(t.sent)
      && (forall m :: m in t.sent ==> m.Sender() in Correct(w))
      && (forall m :: m in t.sent && m.Commit? ==> CommitOk(w, t.sent, m))
  {
    var t := Absorb(s, p, r.node, r.events);
    var was := s.nodes[p];
    assert NodeOk(w, s, p);
    forall a, b | a in t.sent && b in t.sent && IsVote(a) && IsVote(b) && SameSlot(a, b) ensures a == b {
      if a !in s.sent && b !in s.sent {
        assert [Send(a)] == r.events == [Send(b)];
      } else if a !in s.sent {
        SlotIsNew(w, s, p, r, a, b);
      } else if b !in s.sent {
        SlotIsNew(w, s, p, r, b, a);
      }
    }
    forall m | m in t.sent && m.Commit? ensures CommitOk(w, t.sent, m) {
      var req := m.b.proposal.value.request;
      if m in s.sent {
        assert CommitOk(w, s.sent, m);
      } else {
        LogBacksVotes(w, s.sent, was.log, was.view, |was.confirmed|, req);
      }
      BackersGrow(w, s.sent, t.sent, m.b.view, m.b.seqNum, req);
    }
  }

  lemma PhaseKeepsDecisions(w: World, s: System, p: Id, r: StepResult)
    requires Valid(w) && Inv(w, s) && p in s.nodes
    requires PhaseFacts(Config(w.committee, p), s.nodes[p], r)
    ensures var t := Absorb(s, p, r.node, r.events); forall d :: d in t.decided ==> DecisionOk(w, t, d)
  {
    var t := Absorb(s, p, r.node, r.events);
    var was := s.nodes[p];
    assert NodeOk(w, s, p);
    forall d | d in t.decided ensures DecisionOk(w, t, d) {
      if d in s.decided {
        assert DecisionOk(w, s, d);
      } else {
        LogBacksVotes(w, s.sent, was.log, was.view, |was.confirmed|, d.request);
      }
      BackersGrow(w, s.sent, t.sent, d.view, d.position, d.request);
    }
  }

  lemma AbsorbTwice(s: System, p: Id, n1: Node, e1: seq<Event>, n2: Node, e2: seq<Event>)
    ensures Absorb(Absorb(s, p, n1, e1), p, n2, e2) == Absorb(s, p, n2, e1 + e2)
  {
    var e := e1 + e2;
    assert SentIn(e) == SentIn(e1) + SentIn(e2) by {
      forall m | m in SentIn(e2) ensures m in SentIn(e) {
        var i :| 0 <= i < |e2| && e2[i] == Send(m);
        assert e[|e1| + i] == Send(m);
      }
      forall m | m in SentIn(e1) ensures m in SentIn(e) {
        var i :| 0 <= i < |e1| && e1[i] == Send(m);
        assert e[i] == Send(m);
      }
    }
    assert DecidedIn(p, e) == DecidedIn(p, e1) + DecidedIn(p, e2) by {
      forall d | d in DecidedIn(p, e2) ensures d in DecidedIn(p, e) {
        var i :| 0 <= i < |e2| && e2[i] == Decide(d.view, d.position, d.request);
        assert e[|e1| + i] == e2[i];
      }
      forall d | d in DecidedIn(p, e1) ensures d in DecidedIn(p, e) {
        var i :| 0 <= i < |e1| && e1[i] == Decide(d.view, d.position, d.request);
        assert e[i] == e1[i];
      }
    }
    assert s.nodes[p := n1][p := n2] == s.nodes[p := n2];
  }

  /** (view, log length) never goes back, and the executed log only grows at its end. */
  predicate Advances(s: Node, t: Node) {
    s.view <= t.view && s.confirmed <= t.confirmed
  }

  predicate Grows(s: System, t: System) {
    && s.nodes.Keys == t.nodes.Keys && s.sent <= t.sent && s.decided <= t.decided
    && forall p :: p in s.nodes ==> Advances(s.nodes[p], t.nodes[p])
  }

  lemma PhaseKeepsInv(w: World, s: System, p: Id, r: StepResult)
    requires Valid(w) && Inv(w, s) && p in s.nodes
    requires PhaseFacts(Config(w.committee, p), s.nodes[p], r)
    ensures Inv(w, Absorb(s, p, r.node, r.events))
  {
    PhaseKeepsNodes(w, s, p, r);
    PhaseKeepsVotes(w, s, p, r);
    PhaseKeepsDecisions(w, s, p, r);
  }

  lemma PhaseStepKeepsInv(w: World, s: System, p: Id, round: nat)
    requires Valid(w) && Inv(w, s) && p in s.nodes
    ensures var r := PhaseStep(Config(w.committee, p), s.nodes[p], round);
      Inv(w, Absorb(s, p, r.node, r.events)) && Advances(s.nodes[p], r.node)
  {
    PhaseStepFacts(Config(w.committee, p), s.nodes[p], round);
    PhaseKeepsInv(w, s, p, PhaseStep(Config(w.committee, p), s.nodes[p], round));
  }

  lemma {:induction false} RunKeepsInv(w: World, s: System, p: Id, round: nat)
    requires Valid(w) && Inv(w, s) && p in s.nodes
    ensures var r := RunPhase(Config(w.committee, p), s.nodes[p], round);
      Inv(w, Absorb(s, p, r.node, r.events)) && Advances(s.nodes[p], r.node)
    decreases Entering(s.nodes[p].phase), |Backlog(Config(w.committee, p), s.nodes[p])|, Rank(s.nodes[p].phase)
  {
    var c := Config(w.committee, p);
    var r := PhaseStep(c, s.nodes[p], round);
    var t := Absorb(s, p, r.node, r.events);
    PhaseStepKeepsInv(w, s, p, round);
    if r.again {
      PhaseProgress(c, s.nodes[p], round);
      RunKeepsInv(w, t, p, round);
      var rest := RunPhase(c, r.node, round);
      AbsorbTwice(s, p, r.node, r.events, rest.node, rest.events);
    }
  }

  lemma StartKeepsInv(w: World)
    requires Valid(w)
    ensures Inv(w, Start(w))
  {
  }

  lemma StepKeepsInv(w: World, s: System, step: Step)
    requires Valid(w) && Inv(w, s) && Enabled(w, s, step)
    ensures Inv(w, Apply(w, s, step))
    ensures Grows(s, Apply(w, s, step))
  {
    var t := Apply(w, s, step);
    if step.Run? {
      RunKeepsInv(w, s, step.p, step.round);
    } else {
      InputKeepsInv(w, s, t, step.p);
    }
  }

  /** Filing a message or a client request changes nothing the invariant reads but the log. */
  lemma InputKeepsInv(w: World, s: System, t: System, p: Id)
    requires Inv(w, s) && p in s.nodes && t.sent == s.sent && t.decided == s.decided
    requires p in t.nodes && t.nodes == s.nodes[p := t.nodes[p]]
    requires var a, b := s.nodes[p], t.nodes[p]; b == a.(log := b.log, unhandled := b.unhandled)
    requires forall m :: m in t.nodes[p].log ==> m in s.nodes[p].log || Deliverable(w, s.sent, m)
    ensures Inv(w, t) && Grows(s, t)
  {
    forall q | q in t.nodes ensures NodeOk(w, t, q) {
      assert NodeOk(w, s, q);
      forall i | 0 <= i < |t.nodes[q].confirmed| ensures Executed(t, q, i) {
        assert Executed(s, q, i);
      }
    }
    forall d | d in t.decided ensures DecisionOk(w, t, d) {
      assert DecisionOk(w, s, d);
    }
  }

  lemma {:induction false} RunInv(w: World, run: seq<System>, steps: seq<Step>, i: nat)
    requires Valid(w) && IsRun(w, run, steps) && i < |run|
    ensures Inv(w, run[i])
  {
    if i == 0 {
      StartKeepsInv(w);
    } else {
      RunInv(w, run, steps, i - 1);
      assert StepAt(w, run, steps, i - 1);
      StepKeepsInv(w, run[i - 1], steps[i - 1]);
    }
  }

  // ---------------------------------------------------------------- what holds of every run

  lemma StepGrows(w: World, run: seq<System>, steps: seq<Step>, i: nat)
    requires Valid(w) && IsRun(w, run, steps) && i < |steps|
    ensures Grows(run[i], run[i + 1])
  {
    RunInv(w, run, steps, i);
    assert StepAt(w, run, steps, i);
    StepKeepsInv(w, run[i], steps[i]);
  }

  /** Between two moments of a run no replica's view goes back and its executed log only grows. */
  lemma {:induction false} LogsOnlyGrow(w: World, run: seq<System>, steps: seq<Step>, i: nat, j: nat)
    requires Valid(w) && IsRun(w, run, steps) && i <= j < |run|
    ensures Grows(run[i], run[j])
    decreases j - i
  {
    if i < j {
      LogsOnlyGrow(w, run, steps, i, j - 1);
      StepGrows(w, run, steps, j - 1);
    }
  }

  /** A correct replica casts at most one prepare and one commit in each slot of a run. */
  lemma VotesAreUnique(w: World, run: seq<System>, steps: seq<Step>, i: nat, a: Msg, b: Msg)
    requires Valid(w) && IsRun(w, run, steps) && i < |run|
    requires a in run[i].sent && b in run[i].sent && IsVote(a) && IsVote(b) && SameSlot(a, b)
    ensures a == b
  {
    RunInv(w, run, steps, i);
  }

  /** With 3f+1 members any two quorums share a correct member. */
  lemma QuorumsMeet(w: World, a: set<Id>, b: set<Id>) returns (p: Id)
    requires Valid(w) && |w.committee| == 3 * F(w.committee) + 1
    requires a <= Elements(w.committee) && b <= Elements(w.committee)
    requires |a| > Quorum(w.committee) && |b| > Quorum(w.committee)
    ensures p in a && p in b && p in Correct(w)
  {
    IncreasingSize(w.committee);
    Overlap(a, b, Elements(w.committee));
    p := MemberOutside(a * b, w.byzantine);
  }

  lemma CertificatesAgree(w: World, s: System, v: int, n: int, r1: Request, r2: Request)
    requires Valid(w) && Inv(w, s) && |w.committee| == 3 * F(w.committee) + 1
    requires Certified(w, s.sent, v, n, r1) && Certified(w, s.sent, v, n, r2)
    ensures r1 == r2
  {
    var p := QuorumsMeet(w, PrepareBackers(w, s.sent, v, n, r1), PrepareBackers(w, s.sent, v, n, r2));
    var m1 :| m1 in s.sent && m1.Prepare? && m1.b.from == p && BallotFor(m1.b, v, n, r1);
    var m2 :| m2 in s.sent && m2.Prepare? && m2.b.from == p && BallotFor(m2.b, v, n, r2);
    assert SameSlot(m1, m2);
  }

  /** In every run, two prepared certificates for one slot carry the same request. */
  lemma PreparedIsUnique(w: World, run: seq<System>, steps: seq<Step>, i: nat, p: Id, q: Id,
                         v: nat, n: int, r1: Request, r2: Request)
    requires Valid(w) && IsRun(w, run, steps) && i < |run| && |w.committee| == 3 * F(w.committee) + 1
    requires p in run[i].nodes && IsPrepared(Config(w.committee, p), run[i].nodes[p].log, v, n, r1)
    requires q in run[i].nodes && IsPrepared(Config(w.committee, q), run[i].nodes[q].log, v, n, r2)
    ensures r1 == r2
  {
    RunInv(w, run, steps, i);
    assert NodeOk(w, run[i], p) && NodeOk(w, run[i], q);
    LogBacksVotes(w, run[i].sent, run[i].nodes[p].log, v, n, r1);
    LogBacksVotes(w, run[i].sent, run[i].nodes[q].log, v, n, r2);
    CertificatesAgree(w, run[i], v, n, r1, r2);
  }

  /** PBFT agreement: in every run with 3f+1 members, at most f of them Byzantine, two correct
      replicas that execute a request at one position in one view execute the same request. */
  lemma Agreement(w: World, run: seq<System>, steps: seq<Step>, i: nat, d: Decision, e: Decision)
    requires Valid(w) && IsRun(w, run, steps) && i < |run| && |w.committee| == 3 * F(w.committee) + 1
    requires d in run[i].decided && e in run[i].decided
    requires d.view == e.view && d.position == e.position
    ensures d.request == e.request
  {
    RunInv(w, run, steps, i);
    var sent := run[i].sent;
    assert DecisionOk(w, run[i], d) && DecisionOk(w, run[i], e);
    var p := QuorumsMeet(w, CommitBackers(w, sent, d.view, d.position, d.request),
                            CommitBackers(w, sent, e.view, e.position, e.request));
    var m1 :| m1 in sent && m1.Commit? && m1.b.from == p && BallotFor(m1.b, d.view, d.position, d.request);
    var m2 :| m2 in sent && m2.Commit? && m2.b.from == p && BallotFor(m2.b, e.view, e.position, e.request);
    assert SameSlot(m1, m2);
  }

  /** While two correct replicas are both still in the first view, one's log is a prefix of the other's. */
  lemma FirstViewLogsAgree(w: World, run: seq<System>, steps: seq<Step>, i: nat, p: Id, q: Id)
    requires Valid(w) && IsRun(w, run, steps) && i < |run| && |w.committee| == 3 * F(w.committee) + 1
    requires p in run[i].nodes && q in run[i].nodes
    requires run[i].nodes[p].view == 0 && run[i].nodes[q].view == 0
    requires |run[i].nodes[p].confirmed| <= |run[i].nodes[q].confirmed|
    ensures run[i].nodes[p].confirmed <= run[i].nodes[q].confirmed
  {
    RunInv(w, run, steps, i);
    var s := run[i];
    assert NodeOk(w, s, p) && NodeOk(w, s, q);
    forall k | 0 <= k < |s.nodes[p].confirmed| ensures s.nodes[p].confirmed[k] == s.nodes[q].confirmed[k] {
      assert Executed(s, p, k) && Executed(s, q, k);
      var d :| d in s.decided && d.peer == p && d.position == k && d.request == s.nodes[p].confirmed[k];
      var e :| e in s.decided && e.peer == q && e.position == k && e.request == s.nodes[q].confirmed[k];
      assert DecisionOk(w, s, d) && DecisionOk(w, s, e);
      Agreement(w, run, steps, i, d, e);
    }
  }

  function CorrectPreparers(w: World, sent: set<Msg>, v: int, n: int, r: Request): set<Id> {
    set p | p in Correct(w) && SaysPrepare(sent, p, v, n, r)
  }

  function CorrectCommitters(w: World, sent: set<Msg>, v: int, n: int, r: Request): set<Id> {
    set p | p in Correct(w) && SaysCommit(sent, p, v, n, r)
  }

  lemma CorrectPrepareShare(w: World, sent: set<Msg>, v: int, n: int, r: Request)
    requires Valid(w)
    ensures |PrepareBackers(w, sent, v, n, r)| <= |CorrectPreparers(w, sent, v, n, r)| + F(w.committee)
  {
    var backers, mine := PrepareBackers(w, sent, v, n, r), CorrectPreparers(w, sent, v, n, r);
    OutsideSize(backers, w.byzantine);
    assert backers - w.byzantine <= mine;
    SubsetSize(backers - w.byzantine, mine);
  }

  lemma CorrectCommitShare(w: World, sent: set<Msg>, v: int, n: int, r: Request)
    requires Valid(w)
    ensures |CommitBackers(w, sent, v, n, r)| <= |CorrectCommitters(w, sent, v, n, r)| + F(w.committee)
  {
    var backers, mine := CommitBackers(w, sent, v, n, r), CorrectCommitters(w, sent, v, n, r);
    OutsideSize(backers, w.byzantine);
    assert backers - w.byzantine <= mine;
    SubsetSize(backers - w.byzantine, mine);
  }

  lemma CommittedWasPrepared(w: World, s: System, d: Decision)
    requires Valid(w) && Inv(w, s) && d in s.decided
    ensures |CorrectCommitters(w, s.sent, d.view, d.position, d.request)| >= F(w.committee) + 1
    ensures |CorrectPreparers(w, s.sent, d.view, d.position, d.request)| >= F(w.committee) + 1
  {
    assert DecisionOk(w, s, d);
    CorrectCommitShare(w, s.sent, d.view, d.position, d.request);
    CorrectPrepareShare(w, s.sent, d.view, d.position, d.request);
    var p := MemberOutside(CorrectCommitters(w, s.sent, d.view, d.position, d.request), {});
    var m :| m in s.sent && m.Commit? && m.b.from == p && BallotFor(m.b, d.view, d.position, d.request);
    assert CommitOk(w, s.sent, m);
  }

  /** Every executed request, for any committee size, has the commits and the prepares of at
      least f+1 correct replicas behind it, and sits in its peer's log for good. */
  lemma ExecutedWasPrepared(w: World, run: seq<System>, steps: seq<Step>, i: nat, j: nat, d: Decision)
    requires Valid(w) && IsRun(w, run, steps) && i <= j < |run| && d in run[i].decided
    ensures |CorrectCommitters(w, run[i].sent, d.view, d.position, d.request)| >= F(w.committee) + 1
    ensures |CorrectPreparers(w, run[i].sent, d.view, d.position, d.request)| >= F(w.committee) + 1
    ensures d.peer in run[j].nodes && d.position < |run[j].nodes[d.peer].confirmed|
    ensures run[j].nodes[d.peer].confirmed[d.position] == d.request
  {
    assert Inv(w, run[i]) && Inv(w, run[j]) by {
      RunInv(w, run, steps, i);
      RunInv(w, run, steps, j);
    }
    CommittedWasPrepared(w, run[i], d);
    assert d in run[j].decided by {
      LogsOnlyGrow(w, run, steps, i, j);
    }
    assert DecisionOk(w, run[j], d);
  }
}
