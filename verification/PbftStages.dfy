/** Stages of runs in which groups of replicas vote, give up on a view or enter the next one. */
module PbftStages {
  import opened Quorums
  import opened PbftNode
  import opened PbftRuns
  import opened PbftScenes

  ghost predicate Reachable(w: World, s: System) {
    exists run, steps :: IsRun(w, run, steps) && run[|steps|] == s
  }

  /** Only the given replicas moved, nothing sent was taken back and nothing was decided. */
  predicate OnlyMoved(s: System, t: System, who: seq<Id>) {
    && t.nodes.Keys == s.nodes.Keys && s.sent <= t.sent && t.decided == s.decided
    && forall x :: x in s.nodes && x !in who ==> t.nodes[x] == s.nodes[x]
  }

  // ---------------------------------------------------------------- single steps

  lemma Begin(w: World)
    ensures Reachable(w, Start(w))
  {
    assert IsRun(w, [Start(w)], []);
  }

  lemma Extend(w: World, s: System, step: Step)
    requires Reachable(w, s) && Enabled(w, s, step)
    ensures Reachable(w, Apply(w, s, step))
  {
    var run, steps :| IsRun(w, run, steps) && run[|steps|] == s;
    var run', steps' := run + [Apply(w, s, step)], steps + [step];
    forall i | 0 <= i < |steps'| ensures StepAt(w, run', steps', i) {
      if i < |steps| {
        assert StepAt(w, run, steps, i);
      }
    }
    assert IsRun(w, run', steps') && run'[|steps'|] == Apply(w, s, step);
  }

  function Delivered(s: System, p: Id, ms: seq<Msg>): System
    requires p in s.nodes
  {
    s.(nodes := s.nodes[p := s.nodes[p].(log := s.nodes[p].log + ms)])
  }

  lemma {:induction false} DeliverAll(w: World, s: System, p: Id, ms: seq<Msg>)
    requires Reachable(w, s) && p in s.nodes && forall m :: m in ms ==> Deliverable(w, s.sent, m)
    ensures Reachable(w, Delivered(s, p, ms))
    decreases |ms|
  {
    if ms == [] {
      assert s.nodes[p].log + ms == s.nodes[p].log;
      assert Delivered(s, p, ms) == s;
    } else {
      var init, last := ms[..|ms| - 1], ms[|ms| - 1];
      DeliverAll(w, s, p, init);
      var t := Delivered(s, p, init);
      Extend(w, t, Deliver(p, last));
      assert t.nodes[p].log + [last] == s.nodes[p].log + ms;
      assert Apply(w, t, Deliver(p, last)) == Delivered(s, p, ms);
    }
  }

  /** A call that ends in `node` and sends exactly the messages of `ms`. */
  lemma Call(w: World, s: System, p: Id, round: nat, node: Node, ms: seq<Msg>) returns (t: System)
    requires Reachable(w, s) && p in s.nodes
    requires RunPhase(Config(w.committee, p), s.nodes[p], round) == RunResult(node, Sends(ms))
    ensures Reachable(w, t) && t.nodes == s.nodes[p := node] && t.decided == s.decided
    ensures s.sent <= t.sent && forall m :: m in ms ==> m in t.sent
  {
    var step := Run(p, round);
    Extend(w, s, step);
    t := Apply(w, s, step);
    OnlySends(p, ms);
  }

  /** Some messages arrive, and the next call sends exactly `m`. */
  lemma HearAndSend(w: World, s: System, p: Id, ms: seq<Msg>, round: nat, heard: Node, node: Node, m: Msg) returns (t: System)
    requires Reachable(w, s) && p in s.nodes && forall x :: x in ms ==> Deliverable(w, s.sent, x)
    requires heard == s.nodes[p].(log := s.nodes[p].log + ms)
    requires RunPhase(Config(w.committee, p), heard, round) == RunResult(node, [Send(m)])
    ensures Reachable(w, t) && t.nodes == s.nodes[p := node] && t.decided == s.decided
    ensures s.sent <= t.sent && m in t.sent
  {
    DeliverAll(w, s, p, ms);
    assert Sends([m]) == [Send(m)] && m in [m];
    t := Call(w, Delivered(s, p, ms), p, round, node, [m]);
  }

  // ---------------------------------------------------------------- one replica votes

  lemma PrepareStage(w: World, slot: Slot, s: System, p: Id, round: nat) returns (t: System)
    requires Reachable(w, s) && slot.committee == w.committee && p in s.nodes
    requires Ready(slot, s.nodes[p], round) && p != slot.Leader() && Deliverable(w, s.sent, slot.Asks())
    ensures Reachable(w, t) && OnlyMoved(s, t, [p]) && Prepare(slot.Said(p)) in t.sent
    ensures t.nodes[p] == Prepared1(slot, s.nodes[p], p)
  {
    var base := s.nodes[p];
    RunsToPrepared(slot, base, p, round);
    t := HearAndSend(w, s, p, [slot.Asks()], round, Asked(slot, base), Prepared1(slot, base, p), Prepare(slot.Said(p)));
  }

  lemma CommitStage(w: World, slot: Slot, s: System, base: Node, p: Id, others: seq<Id>, round: nat) returns (t: System)
    requires Reachable(w, s) && slot.committee == w.committee && p in s.nodes && s.nodes[p] == Prepared1(slot, base, p)
    requires Ready(slot, base, round) && Enough(slot, p, others)
    requires forall m :: m in PrepareVotes(slot, others) ==> Deliverable(w, s.sent, m)
    ensures Reachable(w, t) && OnlyMoved(s, t, [p]) && Commit(slot.Said(p)) in t.sent
    ensures t.nodes[p] == Committed1(slot, base, p, others)
  {
    RunsToCommitted(slot, base, p, others, round);
    t := HearAndSend(w, s, p, PrepareVotes(slot, others), round, PreparedAll(slot, base, p, others),
                     Committed1(slot, base, p, others), Commit(slot.Said(p)));
  }

  lemma DecideStage(w: World, slot: Slot, s: System, base: Node, p: Id, others: seq<Id>, round: nat) returns (t: System)
    requires Reachable(w, s) && slot.committee == w.committee && p in s.nodes && s.nodes[p] == Committed1(slot, base, p, others)
    requires Ready(slot, base, round) && Enough(slot, p, others)
    requires forall m :: m in CommitVotes(slot, others) ==> Deliverable(w, s.sent, m)
    ensures Reachable(w, t) && t.decided == s.decided + {Decision(p, slot.v, 0, slot.r)} && s.sent <= t.sent
    ensures t.nodes.Keys == s.nodes.Keys && forall x :: x in s.nodes && x != p ==> t.nodes[x] == s.nodes[x]
  {
    DeliverAll(w, s, p, CommitVotes(slot, others));
    var u := Delivered(s, p, CommitVotes(slot, others));
    RunsToDecision(slot, base, p, others, round);
    var e := Decide(slot.v, 0, slot.r);
    assert DecidedIn(p, [e]) == {Decision(p, slot.v, 0, slot.r)} by {
      assert [e][0] == e;
    }
    Extend(w, u, Run(p, round));
    t := Apply(w, u, Run(p, round));
  }

  // ---------------------------------------------------------------- a group votes

  /** Correct backups who, with Byzantine helpers, make a quorum. */
  predicate IsGroup(w: World, slot: Slot, s: System, group: seq<Id>, helpers: seq<Id>) {
    && slot.committee == w.committee && Unique(group + helpers) && |group + helpers| > Quorum(w.committee)
    && (forall p :: p in group ==> p in s.nodes && p != slot.Leader())
    && (forall z :: z in helpers ==> z in w.byzantine)
  }

  lemma OthersAreEnough(w: World, slot: Slot, s: System, group: seq<Id>, helpers: seq<Id>, p: Id)
    requires IsGroup(w, slot, s, group, helpers) && p in group
    ensures Enough(slot, p, Besides(group + helpers, p))
    ensures forall q :: q in Besides(group + helpers, p) ==> q in group || q in w.byzantine
  {
    BesidesHas(group + helpers, p);
  }

  predicate HasPrepared(slot: Slot, s: System, t: System, p: Id) {
    && p in s.nodes && p in t.nodes && t.nodes[p] == Prepared1(slot, s.nodes[p], p)
    && Prepare(slot.Said(p)) in t.sent
  }

  predicate HasCommitted(slot: Slot, s: System, t: System, voters: seq<Id>, p: Id) {
    && p in s.nodes && p in t.nodes && t.nodes[p] == Committed1(slot, s.nodes[p], p, Besides(voters, p))
    && Commit(slot.Said(p)) in t.sent
  }

  lemma {:induction false} GroupPrepares(w: World, slot: Slot, s: System, group: seq<Id>, k: nat, round: nat) returns (t: System)
    requires Reachable(w, s) && slot.committee == w.committee && Unique(group) && k <= |group|
    requires forall p :: p in group ==> p in s.nodes && p != slot.Leader() && Ready(slot, s.nodes[p], round)
    requires Deliverable(w, s.sent, slot.Asks())
    ensures Reachable(w, t) && OnlyMoved(s, t, group[..k])
    ensures forall p :: p in group[..k] ==> HasPrepared(slot, s, t, p)
    decreases k
  {
    if k == 0 {
      t := s;
    } else {
      var u := GroupPrepares(w, slot, s, group, k - 1, round);
      var p := group[k - 1];
      assert p in group && p !in group[..k - 1];
      t := PrepareStage(w, slot, u, p, round);
      assert group[..k] == group[..k - 1] + [p];
    }
  }

  lemma GroupCommitsOne(w: World, slot: Slot, s0: System, s: System, group: seq<Id>, helpers: seq<Id>, p: Id, round: nat)
    returns (t: System)
    requires Reachable(w, s) && IsGroup(w, slot, s, group, helpers) && p in group
    requires HasPrepared(slot, s0, s, p) && Ready(slot, s0.nodes[p], round)
    requires forall q :: q in group ==> Prepare(slot.Said(q)) in s.sent
    ensures Reachable(w, t) && OnlyMoved(s, t, [p]) && HasCommitted(slot, s0, t, group + helpers, p)
  {
    OthersAreEnough(w, slot, s, group, helpers, p);
    t := CommitStage(w, slot, s, s0.nodes[p], p, Besides(group + helpers, p), round);
  }

  lemma {:induction false} GroupCommits(w: World, slot: Slot, s0: System, s: System, group: seq<Id>, helpers: seq<Id>, k: nat,
                                        round: nat) returns (t: System)
    requires Reachable(w, s) && IsGroup(w, slot, s, group, helpers) && k <= |group| && s0.nodes.Keys == s.nodes.Keys
    requires forall p :: p in group ==> HasPrepared(slot, s0, s, p) && Ready(slot, s0.nodes[p], round)
    ensures Reachable(w, t) && OnlyMoved(s, t, group[..k])
    ensures forall p :: p in group[..k] ==> HasCommitted(slot, s0, t, group + helpers, p)
    decreases k
  {
    if k == 0 {
      t := s;
    } else {
      var u := GroupCommits(w, slot, s0, s, group, helpers, k - 1, round);
      var p := group[k - 1];
      UniqueParts(group, helpers);
      assert p in group && p !in group[..k - 1];
      t := GroupCommitsOne(w, slot, s0, u, group, helpers, p, round);
      OneMoreCommitted(slot, s0, s, u, t, group, helpers, k);
    }
  }

  lemma OneMoreCommitted(slot: Slot, s0: System, s: System, u: System, t: System, group: seq<Id>, helpers: seq<Id>, k: nat)
    requires Unique(group) && 0 < k <= |group| && OnlyMoved(s, u, group[..k - 1]) && OnlyMoved(u, t, [group[k - 1]])
    requires forall p :: p in group[..k - 1] ==> HasCommitted(slot, s0, u, group + helpers, p)
    requires HasCommitted(slot, s0, t, group + helpers, group[k - 1])
    ensures OnlyMoved(s, t, group[..k]) && forall p :: p in group[..k] ==> HasCommitted(slot, s0, t, group + helpers, p)
  {
    assert group[..k] == group[..k - 1] + [group[k - 1]];
    forall p | p in group[..k - 1] ensures p != group[k - 1] && HasCommitted(slot, s0, t, group + helpers, p) {
      assert HasCommitted(slot, s0, u, group + helpers, p);
    }
  }

  lemma UniqueParts<T>(a: seq<T>, b: seq<T>)
    requires Unique(a + b)
    ensures Unique(a)
  {
    forall i, j | 0 <= i < j < |a| ensures a[i] != a[j] {
      assert (a + b)[i] == a[i] && (a + b)[j] == a[j];
    }
  }

  /** The group commits and its first member executes. */
  lemma GroupDecides(w: World, slot: Slot, s: System, group: seq<Id>, helpers: seq<Id>, round: nat) returns (t: System)
    requires Reachable(w, s) && IsGroup(w, slot, s, group, helpers) && group != [] && Deliverable(w, s.sent, slot.Asks())
    requires forall p :: p in group ==> Ready(slot, s.nodes[p], round + 2)
    ensures Reachable(w, t) && t.decided == s.decided + {Decision(group[0], slot.v, 0, slot.r)} && s.sent <= t.sent
    ensures t.nodes.Keys == s.nodes.Keys && forall x :: x in s.nodes && x !in group ==> t.nodes[x] == s.nodes[x]
    ensures forall p :: p in group && p != group[0] ==> HasCommitted(slot, s, t, group + helpers, p)
  {
    UniqueParts(group, helpers);
    var n := |group|;
    assert group[..n] == group;
    var a := GroupPrepares(w, slot, s, group, n, round);
    var b := GroupCommits(w, slot, s, a, group, helpers, n, round + 1);
    var p := group[0];
    OthersAreEnough(w, slot, s, group, helpers, p);
    t := DecideStage(w, slot, b, s.nodes[p], p, Besides(group + helpers, p), round + 2);
  }

  // ---------------------------------------------------------------- giving up on views

  /** The deadline after giving up on `k` views, one as soon as the other. */
  function Later(deadline: nat, k: nat): nat {
    deadline + 11 * k
  }

  lemma TimeOutStage(w: World, s: System, p: Id, v: nat, deadline: nat) returns (t: System)
    requires Reachable(w, s) && p in s.nodes && Idle(s.nodes[p], v, deadline)
    ensures Reachable(w, t) && OnlyMoved(s, t, [p]) && AskFor(v, p) in t.sent
    ensures Waiting(t.nodes[p], p, v + 1, deadline + 11) && t.nodes[p].unhandled == s.nodes[p].unhandled
  {
    var n := s.nodes[p];
    TimesOut(w.committee, n, p, v, deadline, deadline + 1);
    var m := AskFor(v, p);
    assert Sends([m]) == [Send(m)] && m in [m];
    t := Call(w, s, p, deadline + 1, TimedOut(n, p, deadline + 1), [m]);
  }

  lemma WaitingIsIdle(n: Node, p: Id, v: nat, deadline: nat)
    requires Waiting(n, p, v, deadline)
    ensures Idle(n, v, deadline)
  {
  }

  /** Leaving `k` views in a row, entering none of them. */
  lemma {:induction false} GiveUpStage(w: World, s: System, p: Id, v: nat, deadline: nat, k: nat) returns (t: System)
    requires Reachable(w, s) && p in s.nodes && Idle(s.nodes[p], v, deadline) && k > 0
    ensures Reachable(w, t) && OnlyMoved(s, t, [p]) && AskFor(v + k - 1, p) in t.sent
    ensures Waiting(t.nodes[p], p, v + k, Later(deadline, k)) && t.nodes[p].unhandled == s.nodes[p].unhandled
    decreases k
  {
    if k == 1 {
      t := TimeOutStage(w, s, p, v, deadline);
    } else {
      t := GiveUpStage(w, s, p, v, deadline, k - 1);
      WaitingIsIdle(t.nodes[p], p, v + k - 1, Later(deadline, k - 1));
      t := TimeOutStage(w, t, p, v + k - 1, Later(deadline, k - 1));
    }
  }

  /** The replica waits for view `v`, has asked everybody for it and kept its client requests. */
  predicate GaveUp(s: System, t: System, p: Id, v: nat, deadline: nat) {
    && p in s.nodes && p in t.nodes && Waiting(t.nodes[p], p, v, deadline)
    && t.nodes[p].unhandled == s.nodes[p].unhandled && AskFor(v - 1, p) in t.sent
  }

  lemma {:induction false} GroupGivesUp(w: World, s: System, group: seq<Id>, j: nat, v: nat, deadline: nat, k: nat)
    returns (t: System)
    requires Reachable(w, s) && Unique(group) && j <= |group| && k > 0
    requires forall p :: p in group ==> p in s.nodes && Idle(s.nodes[p], v, deadline)
    ensures Reachable(w, t) && OnlyMoved(s, t, group[..j])
    ensures forall p :: p in group[..j] ==> GaveUp(s, t, p, v + k, Later(deadline, k))
    decreases j
  {
    if j == 0 {
      t := s;
    } else {
      var u := GroupGivesUp(w, s, group, j - 1, v, deadline, k);
      var p := group[j - 1];
      assert p in group && p !in group[..j - 1];
      t := GiveUpStage(w, u, p, v, deadline, k);
      assert group[..j] == group[..j - 1] + [p];
    }
  }

  // ---------------------------------------------------------------- entering a view

  function Requests(v: int, ids: seq<Id>): (ms: seq<Msg>)
    ensures forall m :: m in ms ==> m.ViewChange? && m.from in ids && m == AskFor(v, m.from)
  {
    seq(|ids|, i requires 0 <= i < |ids| => AskFor(v, ids[i]))
  }

  /** What a waiting replica needs: the requests of enough others. */
  predicate CanEnter(w: World, s: System, p: Id, others: seq<Id>, v: nat, deadline: nat) {
    && p in s.nodes && Waiting(s.nodes[p], p, v, deadline) && deadline >= 2
    && p !in others && Unique(others) && |others| + 1 > Quorum(w.committee)
    && forall q :: q in others ==> Deliverable(w, s.sent, AskFor(v - 1, q))
  }

  /** The log of a waiting replica once it has heard the requests and then `more`. */
  function Heard(n: Node, v: nat, others: seq<Id>, more: seq<Msg>): Node {
    n.(log := n.log + Requests(v - 1, others) + more)
  }

  lemma HeardFacts(n: Node, p: Id, v: nat, deadline: nat, others: seq<Id>, more: seq<Msg>)
    requires Waiting(n, p, v, deadline) && p !in others && Unique(others)
    requires forall m :: m in more ==> m.NewView? && m.view == v
    ensures var h := Heard(n, v, others, more);
      && |ViewChangeSenders(h.log, h.anchor, h.view)| >= |others| + 1
      && NoCheckpoints(h.log) && NoBallots(h.log, v) && Clean(h.log, v)
      && (forall i :: 0 <= i < |n.log| + |others| && h.log[i].NewView? ==> h.log[i].view != v)
  {
    var h := Heard(n, v, others, more);
    forall q | q in others ensures AskFor(v - 1, q) in h.log {
      var i :| 0 <= i < |others| && others[i] == q;
      assert h.log[|n.log| + i] == AskFor(v - 1, q);
    }
    EnoughRequests(h, p, others, v);
    forall i | 0 <= i < |n.log| + |others| ensures h.log[i] in n.log || h.log[i] in Requests(v - 1, others) {
    }
    forall i | 0 <= i < |h.log| ensures !h.log[i].Checkpoint? && !IsBallotOf(h.log[i], v) {
      assert h.log[i] in n.log || h.log[i] in Requests(v - 1, others) || h.log[i] in more;
    }
  }

  /** Started on view `v`, and ready for a proposal until the new deadline. */
  predicate Fresh(n: Node, v: nat, deadline: nat) {
    && n.view == v && n.phase.PrePreparing? && n.confirmed == [] && n.lastStable == 0 && n.timer == deadline
    && Clean(n.log, v) && NoBallots(n.log, v)
  }

  /** Everything a replica needs to hear before it can start on view `v`. */
  predicate Informed(committee: seq<Id>, h: Node, v: nat, deadline: nat, at: nat) {
    && h.view == v && h.anchor == 0 && h.lastStable == 0 && h.confirmed == [] && h.timer == deadline
    && NoCheckpoints(h.log) && NoBallots(h.log, v) && Clean(h.log, v)
    && |ViewChangeSenders(h.log, h.anchor, h.view)| > Quorum(committee) && SeesNewView(committee, h, at)
  }

  lemma HeardIsInformed(committee: seq<Id>, n: Node, p: Id, v: nat, deadline: nat, others: seq<Id>)
    requires Waiting(n, p, v, deadline) && p !in others && Unique(others) && |others| + 1 > Quorum(committee)
    ensures Informed(committee, Heard(n, v, others, [NewView(0, v, 0, [], LeaderFor(committee, v))]), v, deadline,
                     |n.log| + |others|)
  {
    var nv := NewView(0, v, 0, [], LeaderFor(committee, v));
    HeardFacts(n, p, v, deadline, others, [nv]);
    assert Heard(n, v, others, [nv]).log[|n.log| + |others|] == nv;
  }

  lemma LeaveStage(w: World, s: System, p: Id, v: nat, deadline: nat, at: nat) returns (t: System)
    requires Reachable(w, s) && p in s.nodes && Informed(w.committee, s.nodes[p], v, deadline, at)
    requires s.nodes[p].phase.ViewChanging? && deadline >= 2 && p != LeaderFor(w.committee, v)
    ensures Reachable(w, t) && OnlyMoved(s, t, [p]) && t.nodes[p] == s.nodes[p].(phase := NewViewing)
  {
    LeavesOldView(w.committee, s.nodes[p], p, deadline - 2);
    assert Sends([]) == [];
    t := Call(w, s, p, deadline - 2, s.nodes[p].(phase := NewViewing), []);
  }

  lemma FinishStage(w: World, s: System, p: Id, v: nat, deadline: nat, at: nat) returns (t: System)
    requires Reachable(w, s) && p in s.nodes && Informed(w.committee, s.nodes[p], v, deadline, at)
    requires s.nodes[p].phase.NewViewing? && deadline >= 2 && p != LeaderFor(w.committee, v)
    ensures Reachable(w, t) && OnlyMoved(s, t, [p]) && Fresh(t.nodes[p], v, deadline + 9)
  {
    BackupEnters(w.committee, s.nodes[p], p, deadline - 1, at);
    assert Sends([]) == [];
    t := Call(w, s, p, deadline - 1, Entered(s.nodes[p], deadline - 1), []);
  }

  lemma HearStage(w: World, s: System, p: Id, others: seq<Id>, v: nat, deadline: nat, more: seq<Msg>) returns (t: System)
    requires Reachable(w, s) && CanEnter(w, s, p, others, v, deadline) && forall m :: m in more ==> Deliverable(w, s.sent, m)
    ensures Reachable(w, t) && OnlyMoved(s, t, [p]) && t.nodes[p] == Heard(s.nodes[p], v, others, more)
  {
    var ms := Requests(v - 1, others) + more;
    DeliverAll(w, s, p, ms);
    t := Delivered(s, p, ms);
    assert s.nodes[p].log + ms == Heard(s.nodes[p], v, others, more).log;
  }

  lemma EnterStage(w: World, s: System, p: Id, others: seq<Id>, v: nat, deadline: nat) returns (t: System)
    requires Reachable(w, s) && CanEnter(w, s, p, others, v, deadline) && p != LeaderFor(w.committee, v)
    requires Deliverable(w, s.sent, NewView(0, v, 0, [], LeaderFor(w.committee, v)))
    ensures Reachable(w, t) && OnlyMoved(s, t, [p]) && Fresh(t.nodes[p], v, deadline + 9)
  {
    var n, nv := s.nodes[p], NewView(0, v, 0, [], LeaderFor(w.committee, v));
    t := HearStage(w, s, p, others, v, deadline, [nv]);
    HeardIsInformed(w.committee, n, p, v, deadline, others);
    t := LeaveStage(w, t, p, v, deadline, |n.log| + |others|);
    t := FinishStage(w, t, p, v, deadline, |n.log| + |others|);
  }

  lemma {:induction false} GroupEnters(w: World, s: System, group: seq<Id>, k: nat, voters: seq<Id>, v: nat, deadline: nat)
    returns (t: System)
    requires Reachable(w, s) && Unique(group) && Unique(voters) && k <= |group| && |voters| > Quorum(w.committee) && v > 0
    requires deadline >= 2 && forall p :: p in group ==> p in voters && p in s.nodes && Waiting(s.nodes[p], p, v, deadline)
    requires forall q :: q in voters ==> Deliverable(w, s.sent, AskFor(v - 1, q))
    requires forall p :: p in group ==> p != LeaderFor(w.committee, v)
    requires Deliverable(w, s.sent, NewView(0, v, 0, [], LeaderFor(w.committee, v)))
    ensures Reachable(w, t) && OnlyMoved(s, t, group[..k])
    ensures forall p :: p in group[..k] ==> p in t.nodes && Fresh(t.nodes[p], v, deadline + 9)
    decreases k
  {
    if k == 0 {
      t := s;
    } else {
      var u := GroupEnters(w, s, group, k - 1, voters, v, deadline);
      var p := group[k - 1];
      assert p in group && p !in group[..k - 1];
      BesidesHas(voters, p);
      t := EnterStage(w, u, p, Besides(voters, p), v, deadline);
      assert group[..k] == group[..k - 1] + [p];
    }
  }

  /** A correct leader announces the view to everybody. */
  lemma AnnounceStage(w: World, s: System, p: Id, others: seq<Id>, v: nat, deadline: nat) returns (t: System)
    requires Reachable(w, s) && CanEnter(w, s, p, others, v, deadline) && p == LeaderFor(w.committee, v)
    ensures Reachable(w, t) && OnlyMoved(s, t, [p]) && NewView(0, v, 0, [], p) in t.sent
    ensures t.nodes[p] == Heard(s.nodes[p], v, others, [NewView(0, v, 0, [], p)]).(phase := NewViewing)
  {
    var n, nv := s.nodes[p], NewView(0, v, 0, [], p);
    t := HearStage(w, s, p, others, v, deadline, []);
    var h := t.nodes[p];
    HeardFacts(n, p, v, deadline, others, []);
    LeaderAnnounces(w.committee, h, deadline - 2);
    assert Sends([nv]) == [Send(nv)] && nv in [nv];
    t := Call(w, t, p, deadline - 2, Announced(h, p), [nv]);
    assert h.log + [nv] == Heard(n, v, others, [nv]).log;
  }

  lemma ProposeStage(w: World, slot: Slot, s: System, deadline: nat, at: nat) returns (t: System)
    requires Reachable(w, s) && slot.committee == w.committee && slot.Leader() in s.nodes && deadline >= 2
    requires var n := s.nodes[slot.Leader()];
      && Informed(w.committee, n, slot.v, deadline, at) && n.phase.NewViewing?
      && n.unhandled != [] && n.unhandled[0].1 == slot.r
    ensures Reachable(w, t) && OnlyMoved(s, t, [slot.Leader()]) && slot.Asks() in t.sent
    ensures Idle(t.nodes[slot.Leader()], slot.v, deadline + 9)
  {
    var p := slot.Leader();
    LeaderEnters(slot, s.nodes[p], deadline - 1, at);
    assert Sends([slot.Asks()]) == [Send(slot.Asks())] && slot.Asks() in [slot.Asks()];
    t := Call(w, s, p, deadline - 1, Proposed(slot, Entered(s.nodes[p], deadline - 1)), [slot.Asks()]);
  }

  /** A correct leader announces the view, enters it and proposes its oldest client request. */
  lemma LeadStage(w: World, slot: Slot, s: System, others: seq<Id>, deadline: nat) returns (t: System)
    requires Reachable(w, s) && slot.committee == w.committee && slot.v > 0
    requires CanEnter(w, s, slot.Leader(), others, slot.v, deadline)
    requires var n := s.nodes[slot.Leader()]; n.unhandled != [] && n.unhandled[0].1 == slot.r
    ensures Reachable(w, t) && OnlyMoved(s, t, [slot.Leader()])
    ensures NewView(0, slot.v, 0, [], slot.Leader()) in t.sent && slot.Asks() in t.sent
    ensures Idle(t.nodes[slot.Leader()], slot.v, deadline + 9)
  {
    var p := slot.Leader();
    HeardIsInformed(w.committee, s.nodes[p], p, slot.v, deadline, others);
    t := AnnounceStage(w, s, p, others, slot.v, deadline);
    t := ProposeStage(w, slot, t, deadline, |s.nodes[p].log| + |others|);
  }
}
