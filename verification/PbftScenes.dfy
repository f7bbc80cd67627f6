/**
 * What single calls do to a replica that works on the first position of a view, and what groups
 * of replicas do together: the building blocks of concrete runs. Logs are a base that holds no
 * ballots of the view, and a known tail.
 */
module PbftScenes {
  import opened Quorums
  import opened PbftNode
  import opened PbftRuns

  /** A request proposed for position 0 of view `v`. */
  datatype Slot = Slot(committee: seq<Id>, v: nat, r: Request) {
    function Leader(): Id {
      LeaderFor(committee, v)
    }

    function Said(from: Id): Ballot {
      Ballot(0, v, Some(Proposal(v, r)), from)
    }

    function Asks(): Msg {
      PrePrepare(Said(Leader()))
    }
  }

  predicate IsBallotOf(m: Msg, v: int) {
    (m.PrePrepare? || m.Prepare? || m.Commit?) && m.b.view == v
  }

  predicate NoBallots(log: seq<Msg>, v: int) {
    forall i :: 0 <= i < |log| ==> !IsBallotOf(log[i], v)
  }

  predicate NoCheckpoints(log: seq<Msg>) {
    forall i :: 0 <= i < |log| ==> !log[i].Checkpoint?
  }

  /** A replica at the start of the view, before its deadline, with nothing executed. */
  predicate Ready(slot: Slot, base: Node, round: nat) {
    && Quorum(slot.committee) >= 1 && base.view == slot.v && base.phase.PrePreparing? && base.confirmed == []
    && base.timer >= round && NoCheckpoints(base.log) && NoBallots(base.log, slot.v)
  }

  /** A backup and others who make a quorum with it. */
  predicate Enough(slot: Slot, p: Id, others: seq<Id>) {
    p != slot.Leader() && p !in others && Unique(others) && |others| + 1 > Quorum(slot.committee)
  }

  // ---------------------------------------------------------------- the replica on its way

  function PrepareVotes(slot: Slot, ids: seq<Id>): (ms: seq<Msg>)
    ensures forall m :: m in ms ==> m.Prepare? && m.b.from in ids && m == Prepare(slot.Said(m.b.from))
  {
    seq(|ids|, i requires 0 <= i < |ids| => Prepare(slot.Said(ids[i])))
  }

  function CommitVotes(slot: Slot, ids: seq<Id>): (ms: seq<Msg>)
    ensures forall m :: m in ms ==> m.Commit? && m.b.from in ids && m == Commit(slot.Said(m.b.from))
  {
    seq(|ids|, i requires 0 <= i < |ids| => Commit(slot.Said(ids[i])))
  }

  function Asked(slot: Slot, base: Node): Node {
    base.(log := base.log + [slot.Asks()])
  }

  function Prepared1(slot: Slot, base: Node, p: Id): Node {
    base.(phase := Preparing, log := base.log + [slot.Asks()] + [Prepare(slot.Said(p))])
  }

  function PreparedAll(slot: Slot, base: Node, p: Id, others: seq<Id>): Node {
    base.(phase := Preparing, log := Prepared1(slot, base, p).log + PrepareVotes(slot, others))
  }

  function Committed1(slot: Slot, base: Node, p: Id, others: seq<Id>): Node {
    base.(phase := Committing, log := PreparedAll(slot, base, p, others).log + [Commit(slot.Said(p))])
  }

  function CommittedAll(slot: Slot, base: Node, p: Id, others: seq<Id>): Node {
    base.(phase := Committing, log := Committed1(slot, base, p, others).log + CommitVotes(slot, others))
  }

  // ---------------------------------------------------------------- searches

  lemma NothingStable(c: Config, s: Node)
    requires NoCheckpoints(s.log)
    ensures MaybeStableCheckpoint(c, s) == s
  {
  }

  lemma {:induction false} FirstAt(log: seq<Msg>, i: nat, j: nat, want: Msg -> bool)
    requires i <= j < |log| && want(log[j]) && forall k :: i <= k < j ==> !want(log[k])
    ensures First(log, i, want) == Some(log[j])
    decreases j - i
  {
    if i < j {
      FirstAt(log, i + 1, j, want);
    }
  }

  lemma {:induction false} NoneFound(log: seq<Msg>, i: nat, want: Msg -> bool)
    requires i <= |log| && forall k :: i <= k < |log| ==> !want(log[k])
    ensures First(log, i, want) == None
    decreases |log| - i
  {
    if i < |log| {
      NoneFound(log, i + 1, want);
    }
  }

  /** The proposal comes right after the base, and nothing before it is a ballot of the view. */
  lemma FindsProposal(slot: Slot, base: Node, tail: seq<Msg>, want: Msg -> bool)
    requires NoBallots(base.log, slot.v) && want(slot.Asks())
    requires forall m :: want(m) ==> IsBallotOf(m, slot.v)
    ensures First(base.log + [slot.Asks()] + tail, 0, want) == Some(slot.Asks())
  {
    FirstAt(base.log + [slot.Asks()] + tail, 0, |base.log|, want);
  }

  /** A call whose first phase goes on to one that ends it. */
  lemma TwoPhases(c: Config, s: Node, t: Node, e: seq<Event>, u: Node, e': seq<Event>, round: nat)
    requires PhaseStep(c, s, round) == StepResult(t, e, true) && PhaseStep(c, t, round) == StepResult(u, e', false)
    ensures RunPhase(c, s, round) == RunResult(u, e + e')
  {
    assert RunPhase(c, t, round) == RunResult(u, e');
  }

  lemma ThenWaits(c: Config, s: Node, t: Node, e: seq<Event>, round: nat)
    requires PhaseStep(c, s, round) == StepResult(t, e, true) && PhaseStep(c, t, round) == StepResult(t, [], false)
    ensures RunPhase(c, s, round) == RunResult(t, e)
  {
    TwoPhases(c, s, t, e, t, [], round);
    assert e + [] == e;
  }

  // ---------------------------------------------------------------- preparing

  lemma Prepares(slot: Slot, base: Node, p: Id, round: nat)
    requires Ready(slot, base, round) && p != slot.Leader()
    ensures PhaseStep(Config(slot.committee, p), Asked(slot, base), round)
         == StepResult(Prepared1(slot, base, p), [Send(Prepare(slot.Said(p)))], true)
  {
    var c, s := Config(slot.committee, p), Asked(slot, base);
    NothingStable(c, s);
    FindsProposal(slot, base, [], Acceptable(c, slot.v, 0));
    assert s.log + [] == s.log;
  }

  lemma AwaitsPrepares(slot: Slot, base: Node, p: Id, round: nat)
    requires Ready(slot, base, round)
    ensures PhaseStep(Config(slot.committee, p), Prepared1(slot, base, p), round)
         == StepResult(Prepared1(slot, base, p), [], false)
  {
    var c, t := Config(slot.committee, p), Prepared1(slot, base, p);
    NothingStable(c, t);
    var ids := PrepareSenders(t.log, slot.v, 0, slot.r);
    assert ids <= {p};
    SubsetSize(ids, {p});
    NoneFound(t.log, 0, PreparedHere(c, t.log, slot.v, 0));
  }

  lemma RunsToPrepared(slot: Slot, base: Node, p: Id, round: nat)
    requires Ready(slot, base, round) && p != slot.Leader()
    ensures RunPhase(Config(slot.committee, p), Asked(slot, base), round)
         == RunResult(Prepared1(slot, base, p), [Send(Prepare(slot.Said(p)))])
  {
    Prepares(slot, base, p, round);
    AwaitsPrepares(slot, base, p, round);
    ThenWaits(Config(slot.committee, p), Asked(slot, base), Prepared1(slot, base, p), [Send(Prepare(slot.Said(p)))], round);
  }

  // ---------------------------------------------------------------- committing

  lemma QuorumOf(ids: set<Id>, p: Id, others: seq<Id>)
    requires p in ids && p !in others && Unique(others) && forall q :: q in others ==> q in ids
    ensures |ids| >= |others| + 1
  {
    UniqueSize(others);
    SubsetSize(Elements(others) + {p}, ids);
  }

  lemma EnoughPrepares(slot: Slot, base: Node, p: Id, others: seq<Id>)
    requires Enough(slot, p, others)
    ensures IsPrepared(Config(slot.committee, p), PreparedAll(slot, base, p, others).log, slot.v, 0, slot.r)
  {
    var log := PreparedAll(slot, base, p, others).log;
    var ids, n := PrepareSenders(log, slot.v, 0, slot.r), |base.log|;
    assert SupportsPrePrepare(Config(slot.committee, p), log[n], slot.v, 0, slot.r);
    assert log[n + 1] == Prepare(slot.Said(p));
    forall q | q in others ensures q in ids {
      var i :| 0 <= i < |others| && others[i] == q;
      assert log[n + 2 + i] == Prepare(slot.Said(q));
    }
    QuorumOf(ids, p, others);
  }

  lemma Commits(slot: Slot, base: Node, p: Id, others: seq<Id>, round: nat)
    requires Ready(slot, base, round) && Enough(slot, p, others)
    ensures PhaseStep(Config(slot.committee, p), PreparedAll(slot, base, p, others), round)
         == StepResult(Committed1(slot, base, p, others), [Send(Commit(slot.Said(p)))], true)
  {
    var c, s := Config(slot.committee, p), PreparedAll(slot, base, p, others);
    NothingStable(c, s);
    EnoughPrepares(slot, base, p, others);
    FindsProposal(slot, base, [Prepare(slot.Said(p))] + PrepareVotes(slot, others), PreparedHere(c, s.log, slot.v, 0));
    assert s.log == base.log + [slot.Asks()] + ([Prepare(slot.Said(p))] + PrepareVotes(slot, others));
  }

  lemma OwnCommitOnly(slot: Slot, base: Node, p: Id, others: seq<Id>)
    requires NoBallots(base.log, slot.v)
    ensures |CommitSenders(Committed1(slot, base, p, others).log, slot.v, 0, slot.r)| <= 1
  {
    var log := Committed1(slot, base, p, others).log;
    var ids := CommitSenders(log, slot.v, 0, slot.r);
    forall q | q in ids ensures q == p {
      var i :| 0 <= i < |log| && log[i].Commit? && BallotFor(log[i].b, slot.v, 0, slot.r) && log[i].b.from == q;
      assert log[i] in base.log || log[i] == Commit(slot.Said(p));
    }
    SubsetSize(ids, {p});
  }

  lemma AwaitsCommits(slot: Slot, base: Node, p: Id, others: seq<Id>, round: nat)
    requires Ready(slot, base, round)
    ensures PhaseStep(Config(slot.committee, p), Committed1(slot, base, p, others), round)
         == StepResult(Committed1(slot, base, p, others), [], false)
  {
    var c, t := Config(slot.committee, p), Committed1(slot, base, p, others);
    NothingStable(c, t);
    OwnCommitOnly(slot, base, p, others);
    forall k | 0 <= k < |t.log| ensures !CommittedHere(c, t.log, slot.v, 0)(t.log[k]) {
      assert t.log[k] in base.log || t.log[k] == slot.Asks() || !t.log[k].PrePrepare?;
    }
    NoneFound(t.log, 0, CommittedHere(c, t.log, slot.v, 0));
  }

  lemma RunsToCommitted(slot: Slot, base: Node, p: Id, others: seq<Id>, round: nat)
    requires Ready(slot, base, round) && Enough(slot, p, others)
    ensures RunPhase(Config(slot.committee, p), PreparedAll(slot, base, p, others), round)
         == RunResult(Committed1(slot, base, p, others), [Send(Commit(slot.Said(p)))])
  {
    Commits(slot, base, p, others, round);
    AwaitsCommits(slot, base, p, others, round);
    ThenWaits(Config(slot.committee, p), PreparedAll(slot, base, p, others), Committed1(slot, base, p, others),
              [Send(Commit(slot.Said(p)))], round);
  }

  // ---------------------------------------------------------------- executing

  lemma EnoughCommits(slot: Slot, base: Node, p: Id, others: seq<Id>)
    requires Enough(slot, p, others)
    ensures IsCommitted(Config(slot.committee, p), CommittedAll(slot, base, p, others).log, slot.v, 0, slot.r)
  {
    var log := CommittedAll(slot, base, p, others).log;
    var ids, n := CommitSenders(log, slot.v, 0, slot.r), |Committed1(slot, base, p, others).log|;
    assert log[n - 1] == Commit(slot.Said(p));
    forall q | q in others ensures q in ids {
      var i :| 0 <= i < |others| && others[i] == q;
      assert log[n + i] == Commit(slot.Said(q));
    }
    QuorumOf(ids, p, others);
  }

  function Tail(slot: Slot, p: Id, others: seq<Id>): seq<Msg> {
    [Prepare(slot.Said(p))] + PrepareVotes(slot, others) + [Commit(slot.Said(p))] + CommitVotes(slot, others)
  }

  lemma CommittedLog(slot: Slot, base: Node, p: Id, others: seq<Id>)
    ensures CommittedAll(slot, base, p, others).log == base.log + [slot.Asks()] + Tail(slot, p, others)
  {
  }

  lemma Executes(slot: Slot, base: Node, p: Id, others: seq<Id>, round: nat)
    requires Ready(slot, base, round) && Enough(slot, p, others)
    ensures var u := PhaseStep(Config(slot.committee, p), CommittedAll(slot, base, p, others), round);
      && u.again && u.events == [Decide(slot.v, 0, slot.r)]
      && u.node.view == slot.v && u.node.phase.PrePreparing? && u.node.timer >= round && |u.node.confirmed| == 1
      && u.node.log == CommittedAll(slot, base, p, others).log
  {
    var c, s := Config(slot.committee, p), CommittedAll(slot, base, p, others);
    NothingStable(c, s);
    EnoughCommits(slot, base, p, others);
    CommittedLog(slot, base, p, others);
    FindsProposal(slot, base, Tail(slot, p, others), CommittedHere(c, s.log, slot.v, 0));
    assert s.log + [] == s.log;
    assert [Decide(slot.v, 0, slot.r)] + Sends([]) == [Decide(slot.v, 0, slot.r)];
  }

  lemma AwaitsNext(slot: Slot, base: Node, t: Node, p: Id, others: seq<Id>, round: nat)
    requires Ready(slot, base, round) && p != slot.Leader()
    requires t.view == slot.v && t.phase.PrePreparing? && t.timer >= round && |t.confirmed| == 1
    requires t.log == CommittedAll(slot, base, p, others).log
    ensures PhaseStep(Config(slot.committee, p), t, round) == StepResult(t, [], false)
  {
    var want := Acceptable(Config(slot.committee, p), slot.v, 1);
    CommittedLog(slot, base, p, others);
    forall k | 0 <= k < |t.log| ensures !want(t.log[k]) {
      assert t.log[k] in base.log || t.log[k] == slot.Asks() || t.log[k] in Tail(slot, p, others);
    }
    NoneFound(t.log, 0, want);
  }

  lemma RunsToDecision(slot: Slot, base: Node, p: Id, others: seq<Id>, round: nat)
    requires Ready(slot, base, round) && Enough(slot, p, others)
    ensures RunPhase(Config(slot.committee, p), CommittedAll(slot, base, p, others), round).events
         == [Decide(slot.v, 0, slot.r)]
  {
    var c, s := Config(slot.committee, p), CommittedAll(slot, base, p, others);
    Executes(slot, base, p, others, round);
    var u := PhaseStep(c, s, round);
    AwaitsNext(slot, base, u.node, p, others, round);
    ThenWaits(c, s, u.node, u.events, round);
  }

  // ---------------------------------------------------------------- changing the view

  /** What a replica that has executed nothing sends to leave view `v`. */
  function AskFor(v: int, from: Id): Msg {
    ViewChange(0, v, v + 1, 0, [], from)
  }

  /** Nothing in the log is of a later view, no checkpoint, and no view change carries anything. */
  predicate Clean(log: seq<Msg>, v: int) {
    forall m :: m in log ==>
      && !m.Checkpoint?
      && ((m.PrePrepare? || m.Prepare? || m.Commit?) ==> m.b.view <= v)
      && (m.NewView? ==> m.view <= v)
      && (m.ViewChange? ==> m.proof == [])
  }

  /** A replica that has executed nothing and seen nothing of later views. */
  predicate Idle(n: Node, v: nat, deadline: nat) {
    n.view == v && n.confirmed == [] && n.lastStable == 0 && n.timer <= deadline && Clean(n.log, v)
  }

  function TimedOut(s: Node, p: Id, round: nat): Node {
    s.(view := s.view + 1, anchor := 0, log := s.log + [AskFor(s.view, p)], timer := round + VIEW_CHANGE_DELAY,
       phase := ViewChanging)
  }

  /** Nothing is executed, so the proof carried over is empty, whatever the replica has prepared. */
  lemma TimesOut(committee: seq<Id>, s: Node, p: Id, v: nat, deadline: nat, round: nat)
    requires Idle(s, v, deadline) && deadline < round
    ensures RunPhase(Config(committee, p), s, round) == RunResult(TimedOut(s, p, round), [Send(AskFor(s.view, p))])
  {
    NothingStable(Config(committee, p), s);
  }

  /** Waiting for the view `v`: the replica has asked for it and the time has not run out. */
  predicate Waiting(n: Node, p: Id, v: nat, deadline: nat) {
    && v > 0 && n.view == v && n.phase.ViewChanging? && n.anchor == 0 && n.timer == deadline
    && n.confirmed == [] && n.lastStable == 0 && Clean(n.log, v - 1) && AskFor(v - 1, p) in n.log
  }

  lemma EnoughRequests(s: Node, p: Id, others: seq<Id>, v: nat)
    requires v > 0 && s.view == v && s.anchor == 0 && p !in others && Unique(others) && AskFor(v - 1, p) in s.log
    requires forall q :: q in others ==> AskFor(v - 1, q) in s.log
    ensures |ViewChangeSenders(s.log, s.anchor, s.view)| >= |others| + 1
  {
    var ids := ViewChangeSenders(s.log, s.anchor, s.view);
    forall q | AskFor(v - 1, q) in s.log ensures q in ids {
      var i :| 0 <= i < |s.log| && s.log[i] == AskFor(v - 1, q);
    }
    QuorumOf(ids, p, others);
  }

  lemma LeavesOldView(committee: seq<Id>, s: Node, p: Id, round: nat)
    requires s.phase.ViewChanging? && round < s.timer && NoCheckpoints(s.log)
    requires |ViewChangeSenders(s.log, s.anchor, s.view)| > Quorum(committee) && p != LeaderFor(committee, s.view)
    ensures RunPhase(Config(committee, p), s, round) == RunResult(s.(phase := NewViewing), [])
  {
    NothingStable(Config(committee, p), s);
  }

  function Entered(s: Node, round: nat): Node {
    s.(lowWater := s.lastStable, highWater := s.lastStable + WINDOW, timer := round + VIEW_CHANGE_DELAY,
       phase := PrePreparing)
  }

  predicate SeesNewView(committee: seq<Id>, s: Node, at: nat) {
    && at < |s.log| && s.log[at] == NewView(s.anchor, s.view, s.lastStable, [], LeaderFor(committee, s.view))
    && forall k :: 0 <= k < at && s.log[k].NewView? ==> s.log[k].view != s.view
  }

  /** With the new leader's message and enough requests the replica starts the new view. */
  lemma EntersNewView(committee: seq<Id>, s: Node, p: Id, round: nat, at: nat)
    requires s.phase.NewViewing? && round < s.timer && NoCheckpoints(s.log) && SeesNewView(committee, s, at)
    requires |ViewChangeSenders(s.log, s.anchor, s.view)| > Quorum(committee)
    ensures PhaseStep(Config(committee, p), s, round) == StepResult(Entered(s, round), [], true)
  {
    var c := Config(committee, p);
    NothingStable(c, s);
    FirstAt(s.log, 0, at, NewViewFromLeader(c, s.view, s.anchor));
    assert Reissued(c, s.view, []) == [] && s.log + [] == s.log && Sends([]) == [];
  }

  /** A backup then waits for a proposal. */
  lemma BackupEnters(committee: seq<Id>, s: Node, p: Id, round: nat, at: nat)
    requires s.phase.NewViewing? && round < s.timer && NoCheckpoints(s.log) && SeesNewView(committee, s, at)
    requires |ViewChangeSenders(s.log, s.anchor, s.view)| > Quorum(committee) && p != LeaderFor(committee, s.view)
    requires NoBallots(s.log, s.view)
    ensures RunPhase(Config(committee, p), s, round) == RunResult(Entered(s, round), [])
  {
    var c, t := Config(committee, p), Entered(s, round);
    EntersNewView(committee, s, p, round, at);
    NothingStable(c, t);
    NoneFound(t.log, 0, Acceptable(c, s.view, |s.confirmed|));
    ThenWaits(c, s, t, [], round);
  }

  // ---------------------------------------------------------------- a correct leader

  function Proposed(slot: Slot, s: Node): Node {
    s.(log := s.log + [slot.Asks()], phase := Preparing)
  }

  lemma LeaderProposes(slot: Slot, s: Node, round: nat)
    requires s.phase.PrePreparing? && s.view == slot.v && s.timer >= round && s.confirmed == [] && NoCheckpoints(s.log)
    requires s.unhandled != [] && s.unhandled[0].1 == slot.r
    ensures PhaseStep(Config(slot.committee, slot.Leader()), s, round)
         == StepResult(Proposed(slot, s), [Send(slot.Asks())], false)
  {
    NothingStable(Config(slot.committee, slot.Leader()), s);
    assert [] + [Send(slot.Asks())] == [Send(slot.Asks())];
  }

  lemma {:induction false} NothingInLog(log: seq<Msg>, v: int, n: int)
    requires forall m :: m in log && m.ViewChange? ==> m.proof == []
    ensures BestInLog(log, 0, v, n) == None
    decreases |log|
  {
    if log != [] {
      NothingInLog(log[..|log| - 1], v, n);
      assert log[|log| - 1] in log;
    }
  }

  lemma {:induction false} NothingCarried(log: seq<Msg>, v: int, lo: nat, hi: nat)
    requires forall m :: m in log && m.ViewChange? ==> m.proof == []
    ensures CarriedOver(log, 0, v, lo, hi) == []
    decreases hi - lo
  {
    if lo <= hi {
      NothingInLog(log, v, lo);
      NothingCarried(log, v, lo + 1, hi);
    }
  }

  function Announced(s: Node, p: Id): Node {
    s.(log := s.log + [NewView(0, s.view, 0, [], p)], phase := NewViewing)
  }

  lemma LeaderAnnounces(committee: seq<Id>, s: Node, round: nat)
    requires s.phase.ViewChanging? && round < s.timer && s.anchor == 0 && s.lastStable == 0 && NoCheckpoints(s.log)
    requires |ViewChangeSenders(s.log, s.anchor, s.view)| > Quorum(committee)
    requires forall m :: m in s.log && m.ViewChange? ==> m.proof == []
    ensures var p := LeaderFor(committee, s.view);
      RunPhase(Config(committee, p), s, round) == RunResult(Announced(s, p), [Send(NewView(0, s.view, 0, [], p))])
  {
    NothingStable(Config(committee, LeaderFor(committee, s.view)), s);
    NothingCarried(s.log, s.view, 1, s.highWater);
  }

  /** A leader enters its view and proposes in one call. */
  lemma LeaderEnters(slot: Slot, s: Node, round: nat, at: nat)
    requires s.phase.NewViewing? && s.view == slot.v && round < s.timer && NoCheckpoints(s.log) && s.confirmed == []
    requires SeesNewView(slot.committee, s, at) && |ViewChangeSenders(s.log, s.anchor, s.view)| > Quorum(slot.committee)
    requires s.unhandled != [] && s.unhandled[0].1 == slot.r
    ensures RunPhase(Config(slot.committee, slot.Leader()), s, round)
         == RunResult(Proposed(slot, Entered(s, round)), [Send(slot.Asks())])
  {
    var c, t := Config(slot.committee, slot.Leader()), Entered(s, round);
    EntersNewView(slot.committee, s, slot.Leader(), round, at);
    LeaderProposes(slot, t, round);
    TwoPhases(c, s, t, [], Proposed(slot, t), [Send(slot.Asks())], round);
    assert [] + [Send(slot.Asks())] == [Send(slot.Asks())];
  }
}
