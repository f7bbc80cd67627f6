/**
 * What happens to client requests: they wait in the order of their arrival, the leader proposes the
 * oldest one, and executing one takes it, once, off the queue.
 */
module PbftRequests {
  import opened Quorums
  import opened PbftNode
  import opened PbftRuns

  type Queue = seq<(nat, Request)>

  function Requests(u: Queue): seq<Request> {
    seq(|u|, i requires 0 <= i < |u| => u[i].1)
  }

  predicate InOrder(u: Queue) {
    forall i, j :: 0 <= i < j < |u| ==> u[i].0 <= u[j].0
  }

  // ---------------------------------------------------------------- arrival

  /** `w` is `u` with `x` put in at place `k`, behind everything that arrived before or with it. */
  predicate PutIn(u: Queue, x: (nat, Request), w: Queue, k: nat) {
    && k <= |u| && w == u[..k] + [x] + u[k..]
    && (forall i :: k <= i < |u| ==> u[i].0 > x.0)
    && (k > 0 ==> u[k - 1].0 <= x.0)
  }

  lemma PutInLonger(u: Queue, x: (nat, Request), w: Queue, k: nat, last: (nat, Request))
    requires PutIn(u, x, w, k) && last.0 > x.0
    ensures PutIn(u + [last], x, w + [last], k)
  {
    assert (u + [last])[..k] == u[..k] && (u + [last])[k..] == u[k..] + [last];
  }

  lemma PutInKeepsOrder(u: Queue, x: (nat, Request), w: Queue, k: nat)
    requires PutIn(u, x, w, k) && InOrder(u)
    ensures InOrder(w)
  {
    forall i | 0 <= i < k ensures u[i].0 <= x.0 {
    }
  }

  lemma {:induction false} InsertPutsIn(u: Queue, round: nat, r: Request) returns (k: nat)
    ensures PutIn(u, (round, r), InsertByRound(u, round, r), k)
    decreases |u|
  {
    k := |u|;
    if u != [] && u[|u| - 1].0 > round {
      var init := u[..|u| - 1];
      k := InsertPutsIn(init, round, r);
      PutInLonger(init, (round, r), InsertByRound(init, round, r), k, u[|u| - 1]);
      assert u == init + [u[|u| - 1]];
    }
  }

  // ---------------------------------------------------------------- execution

  /** `w` is `u` without its first entry that carries `r`, or `u` itself if there is none. */
  predicate TakenOut(u: Queue, r: Request, w: Queue) {
    if r in Requests(u) then exists k :: 0 <= k < |u| && TakenAt(u, r, w, k) else w == u
  }

  predicate TakenAt(u: Queue, r: Request, w: Queue, k: nat)
    requires k < |u|
  {
    u[k].1 == r && (forall i :: 0 <= i < k ==> u[i].1 != r) && w == u[..k] + u[k + 1..]
  }

  lemma {:induction false} RemoveTakesOut(u: Queue, r: Request)
    ensures TakenOut(u, r, RemoveRequest(u, r))
    decreases |u|
  {
    if u != [] {
      assert Requests(u) == [u[0].1] + Requests(u[1..]);
      var w := RemoveRequest(u, r);
      if u[0].1 == r {
        assert Requests(u)[0] == r && TakenAt(u, r, w, 0);
      } else {
        RemoveTakesOut(u[1..], r);
        if r in Requests(u[1..]) {
          var k :| 0 <= k < |u[1..]| && TakenAt(u[1..], r, RemoveRequest(u[1..], r), k);
          assert TakenAt(u, r, w, k + 1);
        }
      }
    }
  }

  lemma TakenKeepsOrder(u: Queue, r: Request, w: Queue)
    requires TakenOut(u, r, w) && InOrder(u)
    ensures InOrder(w)
  {
  }

  lemma OneCopyLess(a: seq<Request>, r: Request, b: seq<Request>)
    ensures multiset(a + b) == multiset(a + [r] + b) - multiset{r}
  {
  }

  lemma NoCopyLess(q: seq<Request>, r: Request)
    requires r !in q
    ensures multiset(q) == multiset(q) - multiset{r}
  {
    assert r !in multiset(q);
  }

  lemma TakenSplits(u: Queue, r: Request, w: Queue, k: nat)
    requires k < |u| && TakenAt(u, r, w, k)
    ensures Requests(u) == Requests(u)[..k] + [r] + Requests(u)[k + 1..]
    ensures Requests(w) == Requests(u)[..k] + Requests(u)[k + 1..]
  {
  }

  /** One copy less of `r`, and as many as before of every other request, in the same order. */
  lemma TakenOutCounts(u: Queue, r: Request, w: Queue)
    requires TakenOut(u, r, w)
    ensures multiset(Requests(w)) == multiset(Requests(u)) - multiset{r}
  {
    var q := Requests(u);
    if r in q {
      var k :| 0 <= k < |u| && TakenAt(u, r, w, k);
      TakenSplits(u, r, w, k);
      OneCopyLess(q[..k], r, q[k + 1..]);
    } else {
      NoCopyLess(q, r);
    }
  }

  /** A logged proposal of `r` by the leader for slot (`v`, `n`). */
  predicate Proposes(c: Config, m: Msg, v: nat, n: nat, r: Request) {
    && m.PrePrepare? && m.b.view == v && m.b.seqNum == n && m.b.from == LeaderFor(c.committee, v)
    && m.b.proposal.Some? && m.b.proposal.value.request == r
  }

  predicate ManyCommit(c: Config, log: seq<Msg>, v: nat, n: nat, r: Request) {
    |CommitSenders(log, v, n, r)| > 2 * F(c.committee)
  }

  /** `log[i]` is the first proposal of the leader to which more than 2f members have committed. */
  ghost predicate FirstCommitted(c: Config, log: seq<Msg>, v: nat, n: nat, r: Request, i: nat) {
    && i < |log| && Proposes(c, log[i], v, n, r) && ManyCommit(c, log, v, n, r)
    && forall j, x :: 0 <= j < i && Proposes(c, log[j], v, n, x) ==> !ManyCommit(c, log, v, n, x)
  }

  /** The announcement that `n` requests are executed, due at every tenth one. */
  function Announcement(c: Config, v: nat, done: seq<Request>): seq<Msg> {
    if |done| % 10 == 0 then [Checkpoint(|done|, v, done, c.me)] else []
  }

  /**
   * Everything that changes when `x` is executed, in plain terms: the request is appended, its delay
   * is added, the deadline is set anew, every tenth execution is announced, and one copy of the
   * request leaves the queue.
   */
  predicate Executes(c: Config, u: Node, round: nat, x: Request, r: StepResult) {
    var t, marks := r.node, Announcement(c, u.view, u.confirmed + [x]);
    && TakenOut(u.unhandled, x, t.unhandled)
    && multiset(Requests(t.unhandled)) == multiset(Requests(u.unhandled)) - multiset{x}
    && t == u.(confirmed := u.confirmed + [x], latency := u.latency + (round - x.roundSubmitted),
               timer := round + 10, log := u.log + marks, unhandled := t.unhandled, phase := PrePreparing)
    && r.events == [Decide(u.view, |u.confirmed|, x)] + Sends(marks) && r.again
  }

  /** Before its deadline a committing replica executes exactly when some proposal of the leader for its next position is committed. */
  lemma CommitExecutes(c: Config, s: Node, round: nat)
    requires s.phase.Committing? && s.timer >= round
    ensures var u, r, n := MaybeStableCheckpoint(c, s), CommitStep(c, s, round), |s.confirmed|;
      && u.view == s.view && u.confirmed == s.confirmed && u.unhandled == s.unhandled && u.latency == s.latency
      && (r.again <==> exists i: nat, x :: FirstCommitted(c, u.log, s.view, n, x, i))
      && (!r.again ==> r == StepResult(u, [], false))
      && (r.again ==>
            && |r.node.confirmed| == n + 1
            && (exists i: nat :: FirstCommitted(c, u.log, s.view, n, r.node.confirmed[n], i))
            && Executes(c, u, round, r.node.confirmed[n], r))
  {
    var u, n := MaybeStableCheckpoint(c, s), |s.confirmed|;
    CheckpointOnlyPrunes(c, s);
    CheckpointKeepsQueue(c, s);
    CommitFinds(c, u.log, s.view, n);
    var found := First(u.log, 0, CommittedHere(c, u.log, s.view, n));
    if found.Some? {
      var x := found.value.b.proposal.value.request;
      RemoveTakesOut(s.unhandled, x);
      TakenOutCounts(s.unhandled, x, RemoveRequest(s.unhandled, x));
    }
  }

  lemma CommitFinds(c: Config, log: seq<Msg>, v: nat, n: nat)
    ensures var found := First(log, 0, CommittedHere(c, log, v, n));
      if found.Some? then exists i: nat :: FirstCommitted(c, log, v, n, found.value.b.proposal.value.request, i)
      else forall i: nat, x :: !FirstCommitted(c, log, v, n, x, i)
  {
    var want := CommittedHere(c, log, v, n);
    var found := First(log, 0, want);
    if found.Some? {
      var i := FirstIs(log, 0, want);
      assert FirstCommitted(c, log, v, n, found.value.b.proposal.value.request, i);
    } else {
      forall i: nat, x ensures !FirstCommitted(c, log, v, n, x, i) {
        assert 0 <= i < |log| ==> !want(log[i]);
      }
    }
  }

  /** The search finds the first message it wants. */
  lemma {:induction false} FirstIs(log: seq<Msg>, start: nat, want: Msg -> bool) returns (i: nat)
    requires start <= |log| && First(log, start, want).Some?
    ensures start <= i < |log| && First(log, start, want) == Some(log[i]) && want(log[i])
    ensures forall j :: start <= j < i ==> !want(log[j])
    decreases |log| - start
  {
    if want(log[start]) {
      i := start;
    } else {
      i := FirstIs(log, start + 1, want);
    }
  }

  lemma CheckpointKeepsQueue(c: Config, s: Node)
    ensures var u := MaybeStableCheckpoint(c, s);
            u.unhandled == s.unhandled && u.nextRequestId == s.nextRequestId && u.latency == s.latency
  {
  }

  // ---------------------------------------------------------------- the leader proposes

  /** The request the leader adds when it has nothing to propose. */
  function Own(c: Config, s: Node, round: nat): Request {
    Request(s.nextRequestId, c.me, round, false)
  }

  /**
   * Before its deadline the leader proposes the request at the head of its queue for its next
   * position. With an empty queue it first submits a request of its own, under a number it has not
   * used, to the whole committee and to itself.
   */
  lemma LeaderProposes(c: Config, s: Node, round: nat)
    requires s.phase.PrePreparing? && s.timer >= round && c.me == LeaderFor(c.committee, s.view)
    ensures var u, r, own := MaybeStableCheckpoint(c, s), PrePrepareStep(c, s, round), Own(c, s, round);
      var x := if s.unhandled == [] then own else s.unhandled[0].1;
      var m := PrePrepare(Ballot(|s.confirmed|, s.view, Some(Proposal(s.view, x)), c.me));
      && !r.again
      && r.events == (if s.unhandled == [] then [SendRequest(own), Send(m)] else [Send(m)])
      && r.node == u.(log := u.log + [m], phase := Preparing,
                      unhandled := if s.unhandled == [] then [(round, own)] else s.unhandled,
                      nextRequestId := if s.unhandled == [] then s.nextRequestId + 1 else s.nextRequestId)
  {
    CheckpointOnlyPrunes(c, s);
    CheckpointKeepsQueue(c, s);
    var r := PrePrepareStep(c, s, round);
    if s.unhandled == [] {
      var k := InsertPutsIn([], round, Own(c, s, round));
      assert r.node.unhandled == [(round, Own(c, s, round))];
    }
  }

  /** What the leader proposes next when `left` is its queue after executing `x`. */
  predicate ProposesNext(c: Config, t: Node, round: nat, queued: multiset<Request>, x: Request, y: Request) {
    var rest := queued - multiset{x};
    && (if rest == multiset{} then y == Own(c, t, round) else y in rest)
    && (y == x ==> queued[x] >= 2 || x == Own(c, t, round))
  }

  lemma HeadIsNext(c: Config, t: Node, round: nat, queued: multiset<Request>, x: Request)
    requires multiset(Requests(t.unhandled)) == queued - multiset{x}
    ensures ProposesNext(c, t, round, queued, x, if t.unhandled == [] then Own(c, t, round) else t.unhandled[0].1)
  {
    var q := Requests(t.unhandled);
    if q != [] {
      assert q[0] in multiset(q);
      assert t.unhandled[0].1 == q[0];
    } else {
      assert t.unhandled == [] && multiset(q) == multiset{};
    }
  }

  lemma EndsTheCall(c: Config, s: Node, round: nat)
    requires PhaseStep(c, s, round).again
    requires var t := PhaseStep(c, s, round).node; !PhaseStep(c, t, round).again
    ensures var r := PhaseStep(c, s, round); RunPhase(c, s, round).events == r.events + PhaseStep(c, r.node, round).events
  {
  }

  lemma LastOf<T>(a: seq<T>, b: seq<T>)
    requires b != []
    ensures (a + b)[|a + b| - 1] == b[|b| - 1]
  {
  }

  /** The call in which the leader executes ends with its next proposal. */
  lemma EndsWithProposal(c: Config, s: Node, round: nat)
    requires s.phase.Committing? && s.timer >= round && c.me == LeaderFor(c.committee, s.view)
    requires CommitStep(c, s, round).again
    ensures var e, t := RunPhase(c, s, round).events, CommitStep(c, s, round).node;
      var y := if t.unhandled == [] then Own(c, t, round) else t.unhandled[0].1;
      e != [] && e[|e| - 1] == Send(PrePrepare(Ballot(|s.confirmed| + 1, s.view, Some(Proposal(s.view, y)), c.me)))
  {
    var t := CommitStep(c, s, round).node;
    CommitExecutes(c, s, round);
    CheckpointOnlyPrunes(c, s);
    LeaderProposes(c, t, round);
    var last := PrePrepareStep(c, t, round);
    EndsTheCall(c, s, round);
    LastOf(CommitStep(c, s, round).events, last.events);
  }

  /**
   * A leader that executes a request proposes the next one in the same call. It is the same request
   * again only if that one was queued twice, or if it carries the leader's own next number.
   */
  lemma NextProposal(c: Config, s: Node, round: nat) returns (x: Request, y: Request)
    requires s.phase.Committing? && s.timer >= round && c.me == LeaderFor(c.committee, s.view)
    requires CommitStep(c, s, round).again
    ensures var e, n := RunPhase(c, s, round).events, |s.confirmed|;
      && Decide(s.view, n, x) in e
      && e[|e| - 1] == Send(PrePrepare(Ballot(n + 1, s.view, Some(Proposal(s.view, y)), c.me)))
      && ProposesNext(c, s, round, multiset(Requests(s.unhandled)), x, y)
  {
    var r := CommitStep(c, s, round);
    CommitExecutes(c, s, round);
    CheckpointKeepsQueue(c, s);
    x := r.node.confirmed[|s.confirmed|];
    y := if r.node.unhandled == [] then Own(c, r.node, round) else r.node.unhandled[0].1;
    EndsWithProposal(c, s, round);
    HeadIsNext(c, r.node, round, multiset(Requests(s.unhandled)), x);
    assert r.events[0] == Decide(s.view, |s.confirmed|, x);
    assert r.events <= RunPhase(c, s, round).events;
  }

  // ---------------------------------------------------------------- whole runs

  /** The delays of requests that are all executed in one round. */
  function Delays(done: seq<Request>, round: nat): int {
    if done == [] then 0 else Delays(done[..|done| - 1], round) + (round - done[|done| - 1].roundSubmitted)
  }

  /** What a call of a phase does to the queue, the executed requests and the latency. */
  predicate Accounts(s: Node, t: Node, round: nat) {
    && (InOrder(s.unhandled) ==> InOrder(t.unhandled))
    && s.confirmed <= t.confirmed
    && t.latency == s.latency + Delays(t.confirmed[|s.confirmed|..], round)
  }

  lemma PhaseAccounts(c: Config, s: Node, round: nat)
    ensures Accounts(s, PhaseStep(c, s, round).node, round)
  {
    var t := PhaseStep(c, s, round).node;
    CheckpointOnlyPrunes(c, s);
    CheckpointKeepsQueue(c, s);
    if s.phase.Committing? && s.timer >= round && CommitStep(c, s, round).again {
      CommitExecutes(c, s, round);
      if InOrder(s.unhandled) {
        TakenKeepsOrder(s.unhandled, t.confirmed[|s.confirmed|], t.unhandled);
      }
      var more := t.confirmed[|s.confirmed|..];
      assert more[..0] == [] && |more| == 1;
    } else {
      assert t.confirmed == s.confirmed && t.confirmed[|s.confirmed|..] == [];
      if s.phase.PrePreparing? && s.timer >= round && c.me == LeaderFor(c.committee, s.view) {
        LeaderProposes(c, s, round);
      }
    }
  }

  lemma {:induction false} DelaysAdd(a: seq<Request>, b: seq<Request>, round: nat)
    ensures Delays(a + b, round) == Delays(a, round) + Delays(b, round)
    decreases |b|
  {
    if b == [] {
      assert a + b == a;
    } else {
      DelaysAdd(a, b[..|b| - 1], round);
      assert (a + b)[..|a + b| - 1] == a + b[..|b| - 1];
    }
  }

  lemma AccountsTransitive(s: Node, t: Node, u: Node, round: nat)
    requires Accounts(s, t, round) && Accounts(t, u, round)
    ensures Accounts(s, u, round)
  {
    DelaysAdd(t.confirmed[|s.confirmed|..], u.confirmed[|t.confirmed|..], round);
    assert u.confirmed[|s.confirmed|..] == t.confirmed[|s.confirmed|..] + u.confirmed[|t.confirmed|..];
  }

  lemma {:induction false} CallAccounts(c: Config, s: Node, round: nat)
    ensures Accounts(s, RunPhase(c, s, round).node, round)
    decreases Entering(s.phase), |Backlog(c, s)|, Rank(s.phase)
  {
    var r := PhaseStep(c, s, round);
    PhaseAccounts(c, s, round);
    if r.again {
      PhaseProgress(c, s, round);
      CallAccounts(c, r.node, round);
      AccountsTransitive(s, r.node, RunPhase(c, r.node, round).node, round);
    }
  }

  /** In every run every replica's requests wait in the order of the rounds in which they arrived. */
  lemma {:induction false} QueuesInOrder(w: World, run: seq<System>, steps: seq<Step>, i: nat, p: Id)
    requires Valid(w) && IsRun(w, run, steps) && i < |run| && p in run[i].nodes
    ensures InOrder(run[i].nodes[p].unhandled)
    decreases i
  {
    if i > 0 {
      assert StepAt(w, run, steps, i - 1);
      var before, step := run[i - 1], steps[i - 1];
      assert p in before.nodes;
      QueuesInOrder(w, run, steps, i - 1, p);
      if step.p == p && step.Run? {
        CallAccounts(Config(w.committee, p), before.nodes[p], step.round);
      } else if step.p == p && step.Client? {
        var u := before.nodes[p].unhandled;
        var k := InsertPutsIn(u, step.round, step.r);
        PutInKeepsOrder(u, (step.round, step.r), InsertByRound(u, step.round, step.r), k);
      }
    }
  }

  /** The execution of position `k` at `p` happened in step `j`. */
  predicate ExecutedIn(run: seq<System>, steps: seq<Step>, p: Id, k: nat, j: nat) {
    && j < |steps| && |run| == |steps| + 1 && steps[j].Run? && steps[j].p == p
    && p in run[j].nodes && p in run[j + 1].nodes
    && |run[j].nodes[p].confirmed| <= k < |run[j + 1].nodes[p].confirmed|
  }

  /** The delays of all requests, each executed in the round of its own step. */
  function Total(steps: seq<Step>, done: seq<Request>, at: seq<nat>): int
    requires |at| == |done| && forall k :: 0 <= k < |at| ==> at[k] < |steps| && steps[at[k]].Run?
  {
    if done == [] then 0
    else Total(steps, done[..|done| - 1], at[..|at| - 1]) + (steps[at[|at| - 1]].round - done[|done| - 1].roundSubmitted)
  }

  lemma {:induction false} TotalOfStep(steps: seq<Step>, done: seq<Request>, at: seq<nat>, more: seq<Request>, j: nat) returns (all: seq<nat>)
    requires |at| == |done| && forall k :: 0 <= k < |at| ==> at[k] < |steps| && steps[at[k]].Run?
    requires j < |steps| && steps[j].Run?
    ensures |all| == |done + more| && all[..|at|] == at && (forall k :: |at| <= k < |all| ==> all[k] == j)
    ensures (forall k :: 0 <= k < |all| ==> all[k] < |steps| && steps[all[k]].Run?)
            && Total(steps, done + more, all) == Total(steps, done, at) + Delays(more, steps[j].round)
    decreases |more|
  {
    if more == [] {
      assert done + more == done;
      all := at;
    } else {
      var init := more[..|more| - 1];
      var part := TotalOfStep(steps, done, at, init, j);
      all := part + [j];
      assert (done + more)[..|done + more| - 1] == done + init && all[..|all| - 1] == part;
    }
  }

  /** Each position was executed before step `i`, in the step that `at` gives for it. */
  predicate ExecutedAt(run: seq<System>, steps: seq<Step>, p: Id, i: nat, at: seq<nat>) {
    forall k :: 0 <= k < |at| ==> at[k] < i && at[k] < |steps| && steps[at[k]].Run? && ExecutedIn(run, steps, p, k, at[k])
  }

  lemma CallTotals(run: seq<System>, steps: seq<Step>, p: Id, i: nat, c: Config, was: seq<nat>) returns (at: seq<nat>)
    requires |run| == |steps| + 1 && i < |steps| && steps[i].Run? && steps[i].p == p
    requires p in run[i].nodes && p in run[i + 1].nodes
    requires run[i + 1].nodes[p] == RunPhase(c, run[i].nodes[p], steps[i].round).node
    requires |was| == |run[i].nodes[p].confirmed| && ExecutedAt(run, steps, p, i, was)
    requires run[i].nodes[p].latency == Total(steps, run[i].nodes[p].confirmed, was)
    ensures |at| == |run[i + 1].nodes[p].confirmed| && ExecutedAt(run, steps, p, i + 1, at)
    ensures run[i + 1].nodes[p].latency == Total(steps, run[i + 1].nodes[p].confirmed, at)
  {
    var before, after := run[i].nodes[p], run[i + 1].nodes[p];
    CallAccounts(c, before, steps[i].round);
    var more := after.confirmed[|before.confirmed|..];
    assert after.confirmed == before.confirmed + more;
    at := TotalOfStep(steps, before.confirmed, was, more, i);
    forall k | 0 <= k < |at|
      ensures at[k] < i + 1 && at[k] < |steps| && steps[at[k]].Run? && ExecutedIn(run, steps, p, k, at[k])
    {
      assert k < |was| ==> at[..|was|][k] == was[k];
    }
  }

  /**
   * In every run a replica's latency is the sum, over everything it has executed, of the rounds
   * between submission and execution.
   */
  lemma {:induction false} LatencyIsTotal(w: World, run: seq<System>, steps: seq<Step>, i: nat, p: Id) returns (at: seq<nat>)
    requires Valid(w) && IsRun(w, run, steps) && i < |run| && p in run[i].nodes
    ensures |at| == |run[i].nodes[p].confirmed| && ExecutedAt(run, steps, p, i, at)
    ensures run[i].nodes[p].latency == Total(steps, run[i].nodes[p].confirmed, at)
    decreases i
  {
    if i == 0 {
      at := [];
    } else {
      assert StepAt(w, run, steps, i - 1);
      at := LatencyIsTotal(w, run, steps, i - 1, p);
      if steps[i - 1].p == p && steps[i - 1].Run? {
        at := CallTotals(run, steps, p, i - 1, Config(w.committee, p), at);
      }
    }
  }
}
