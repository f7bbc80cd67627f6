/**
 * Whom a member of the group follows, and when its timer makes it stand: the whole effect of every
 * event on the term, the leader, the votes and the deadline, and what that means over a run for a
 * member that keeps hearing from its leader.
 */
module RaftTimers {
  import opened Quorums
  import opened RaftNode
  import opened RaftQueues
  import opened RaftRuns
  import opened RaftScenes

  // ---------------------------------------------------------------- what moves a member

  /** The member's own tick comes in the round of its deadline or later. */
  predicate TimesOut(s: Node, e: Event, now: Now) {
    e.Expire? && now.round >= s.timeOutRound
  }

  /** Somebody asks for votes in a later term. */
  predicate Calls(s: Node, e: Event) {
    e.Receive? && e.m.Elect? && e.m.term > s.term && e.m.from != NO_PEER_ID
  }

  /** A leader of this term or a later one makes itself heard. */
  predicate HearsLeader(s: Node, e: Event) {
    e.Receive? && e.m.Replicate? && e.m.term >= 0 && e.m.term >= s.term && e.m.from != NO_PEER_ID
  }

  /** A vote that was not counted yet. */
  predicate GetsVote(c: Config, s: Node, e: Event) {
    && e.Receive? && e.m.Vote? && e.m.candidate == c.me && s.leader != c.me
    && e.m.from != NO_PEER_ID && e.m.from !in s.votes
  }

  /** The vote with which more than half of the members have voted. */
  predicate Wins(c: Config, s: Node, e: Event) {
    GetsVote(c, s, e) && 2 * (|s.votes| + 1) > |c.members|
  }

  /** The news of a commit brings a later term. */
  predicate HearsTerm(c: Config, s: Node, e: Event) {
    e.Receive? && e.m.Commit? && e.m.from != c.me && e.m.term > s.term
  }

  /** A request of a leader's is among the messages. */
  predicate Speaks(out: seq<Envelope>) {
    exists i :: 0 <= i < |out| && out[i].m.Replicate?
  }

  /** Five events move a member, and nothing else touches its term, leader, votes or deadline. */
  ghost predicate Turns(c: Config, s: Node, e: Event, now: Now, r: Result) {
    var t := r.node;
    if TimesOut(s, e, now) then
      && Stance(t, s.term + 1, NO_PEER_ID, [], now.deadline) && t.candidate == c.me && t.leaderChanges == s.leaderChanges
      && r.out == [Multicast(Elect(c.me, s.term + 1))]
    else if Calls(s, e) then
      && Stance(t, e.m.term, NO_PEER_ID, [], now.deadline) && t.candidate == e.m.from && t.leaderChanges == s.leaderChanges
      && r.out == [Unicast(e.m.from, Vote(e.m.from, c.me, e.m.term))]
    else if HearsLeader(s, e) then
      && Stance(t, e.m.term, e.m.from, [], now.deadline) && t.candidate == NO_PEER_ID && t.leaderChanges == s.leaderChanges
    else if Wins(c, s, e) then
      && Stance(t, s.term, c.me, [], now.deadline) && t.candidate == NO_PEER_ID && t.leaderChanges == s.leaderChanges + 1
    else
      && Stance(t, if HearsTerm(c, s, e) then e.m.term else s.term, s.leader,
                if GetsVote(c, s, e) then s.votes + [e.m.from] else s.votes,
                if Speaks(r.out) then now.deadline else s.timeOutRound)
      && t.candidate == s.candidate && t.leaderChanges == s.leaderChanges
  }

  /** Before its deadline a tick changes nothing and says nothing. */
  predicate Waits(s: Node, e: Event, now: Now, r: Result) {
    e.Expire? && now.round < s.timeOutRound ==> r == Result(s, [])
  }

  /** Votes are asked for only on a timeout, and given only when called for. */
  predicate BallotsOnly(s: Node, e: Event, now: Now, r: Result) {
    forall i :: 0 <= i < |r.out| ==>
      && (r.out[i].m.Elect? ==> TimesOut(s, e, now))
      && (r.out[i].m.Vote? ==> Calls(s, e))
  }

  // ---------------------------------------------------------------- a leader's own timer

  /** The deadline moves exactly when a request goes out. */
  predicate Resets(s: Node, now: Now, r: Result) {
    r.node.timeOutRound == if Speaks(r.out) then now.deadline else s.timeOutRound
  }

  lemma {:induction false} OutboundIsSilent(q: seq<Request>, leader: Id)
    ensures !Speaks(Outbound(q, leader))
  {
    if q != [] {
      OutboundIsSilent(q[1..], leader);
    }
  }

  lemma ForwardResets(c: Config, s: Node, now: Now)
    ensures Resets(s, now, ForwardDeferred(c, s)) && !Speaks(ForwardDeferred(c, s).out)
  {
    OutboundIsSilent(LiveOnly(s.committed, s.deferred), s.leader);
  }

  lemma ResetsBoth(s: Node, now: Now, a: Result, b: Result)
    requires Resets(s, now, a) && Resets(a.node, now, b)
    ensures Resets(s, now, Result(b.node, a.out + b.out))
    ensures Speaks(a.out + b.out) <==> Speaks(a.out) || Speaks(b.out)
  {
    var out := a.out + b.out;
    if Speaks(a.out) {
      var i :| 0 <= i < |a.out| && a.out[i].m.Replicate?;
      assert out[i].m.Replicate?;
    } else if Speaks(b.out) {
      var i :| 0 <= i < |b.out| && b.out[i].m.Replicate?;
      assert out[|a.out| + i].m.Replicate?;
    }
  }

  lemma {:induction false} TakeResets(c: Config, s: Node, now: Now)
    ensures Resets(s, now, TakePending(c, s, now))
    decreases |s.pending|
  {
    if s.pending != [] {
      var t := TakePending(c, s, now);
      if Live(s.committed, s.pending[0]) {
        assert t.out[0].m.Replicate?;
      } else {
        TakeResets(c, s.(pending := s.pending[1..]), now);
      }
    }
  }

  lemma {:induction false} StartResets(c: Config, s: Node, now: Now)
    requires c.me != NO_PEER_ID
    ensures Resets(s, now, StartReplication(c, s, now))
    decreases |Taken(c, s)|, Idle(s)
  {
    if s.leader == c.me && s.inFlight.None? {
      if s.pending == [] {
        SelfSubmitProgress(c, s, now);
        var a := SelfSubmit(c, s, now);
        var b := StartReplication(c, a.node, now);
        var d := TakePending(c, b.node, now);
        ForwardResets(c, Enqueue(s.(nextRequestId := s.nextRequestId + 1), OwnRequest(c, s, now)), now);
        StartResets(c, a.node, now);
        TakeResets(c, b.node, now);
        ResetsBoth(s, now, a, b);
        ResetsBoth(s, now, Result(b.node, a.out + b.out), d);
      } else {
        TakeResets(c, s, now);
      }
    }
  }

  lemma ForwardAndStartResets(c: Config, s: Node, now: Now)
    requires c.me != NO_PEER_ID
    ensures var a := ForwardDeferred(c, s);
            var b := StartReplication(c, a.node, now);
            Quiet(s, b.node) && PassesOn(a.out + b.out) && Resets(s, now, Result(b.node, a.out + b.out))
  {
    var a := ForwardDeferred(c, s);
    var b := StartReplication(c, a.node, now);
    ForwardResets(c, s, now);
    StartResets(c, a.node, now);
    ResetsBoth(s, now, a, b);
    ForwardIsQuiet(c, s);
    StartIsQuiet(c, a.node, now);
  }

  // ---------------------------------------------------------------- the whole effect of an event

  lemma ClientTurns(c: Config, s: Node, r: Request, now: Now)
    requires c.me != NO_PEER_ID
    ensures var t := OnClientRequest(c, s, r, now);
            Quiet(s, t.node) && PassesOn(t.out) && Resets(s, now, t)
  {
    var s1 := if r.clientSeq.None? then s.(nextRequestId := s.nextRequestId + 1) else s;
    ForwardAndStartResets(c, Enqueue(s1, Fill(c, s, r, now)), now);
  }

  lemma RespondTurns(c: Config, s: Node, m: Msg, now: Now)
    requires m.Respond? && c.me != NO_PEER_ID
    ensures var r := HandleRespond(c, s, m, now); Turns(c, s, Receive(m), now, r) && BallotsOnly(s, Receive(m), now, r)
  {
    var submitted := RespondOutcome(c, s, m, now);
    var r, k := HandleRespond(c, s, m, now), KeyOf(m.request);
    if Counts(c, s, m) && HasQuorum(c, |RepliesFor(s, k)| + 1) {
      var own := if k in s.submittedRound then s.submittedRound[k] else OrElse(m.request.roundSubmitted, now.round);
      var s1 := AfterConfirm(Counted(s, m), m.request, own, now.round);
      StartResets(c, s1, now);
      StartIsQuiet(c, s1, now);
      var said := Result(s1, [Multicast(Commit(m.request, c.me, s.term, own, now.round))]);
      ResetsBoth(s1, now, said, StartReplication(c, s1, now));
      assert r == Result(StartReplication(c, s1, now).node, said.out + StartReplication(c, s1, now).out);
    }
  }

  lemma VoteTurns(c: Config, s: Node, m: Msg, now: Now)
    requires m.Vote? && c.me != NO_PEER_ID
    ensures var r := HandleVote(c, s, m, now); Turns(c, s, Receive(m), now, r) && BallotsOnly(s, Receive(m), now, r)
  {
    var s1 := TakeLead(c, s.(votes := s.votes + [m.from]), now);
    ForwardAndStartResets(c, s1, now);
  }

  /**
   * Whatever happens to a member, its term, leader, votes, count of elections won and deadline
   * change as the table says; before its deadline the timer does nothing at all.
   */
  lemma TurnsExactly(c: Config, s: Node, e: Event, now: Now)
    requires c.me != NO_PEER_ID
    ensures var r := Handle(c, s, e, now); Turns(c, s, e, now, r) && Waits(s, e, now, r) && BallotsOnly(s, e, now, r)
  {
    match e
    case Produce => ClientTurns(c, s.(nextRequestId := s.nextRequestId + 1), OwnRequest(c, s, now), now);
    case Expire =>
    case Flush =>
      ForwardResets(c, s, now);
      ForwardIsQuiet(c, s);
    case Receive(m) =>
      match m {
        case Respond(_, _, _) => RespondTurns(c, s, m, now);
        case Vote(_, _, _) => VoteTurns(c, s, m, now);
        case Client(r) => ClientTurns(c, s, r, now);
        case _ => WordTurns(c, s, m, now);
      }
  }

  lemma WordTurns(c: Config, s: Node, m: Msg, now: Now)
    requires m.Replicate? || m.Elect? || m.Commit?
    requires c.me != NO_PEER_ID
    ensures var r := Handle(c, s, Receive(m), now); Turns(c, s, Receive(m), now, r) && BallotsOnly(s, Receive(m), now, r)
  {
  }

  // ---------------------------------------------------------------- a member that keeps hearing from its leader

  /** What step `k` does to its member. */
  function Done(run: seq<System>, steps: seq<Step>, k: nat): Result
    requires |run| == |steps| + 1 && k < |steps| && Enabled(run[k], steps[k])
  {
    Handle(Config(run[k].nodes.Keys, steps[k].p), run[k].nodes[steps[k].p], steps[k].e, steps[k].now)
  }

  /** In step `k`, `p` hears from a leader of its term, or as a leader sends a request out. */
  predicate Feeds(run: seq<System>, steps: seq<Step>, k: nat, p: Id)
    requires |run| == |steps| + 1 && k < |steps| && Enabled(run[k], steps[k])
  {
    steps[k].p == p && (HearsLeader(run[k].nodes[p], steps[k].e) || Speaks(Done(run, steps, k).out))
  }

  /** The deadline drawn when `p` last heard from its leader, or spoke as one, since step `i`. */
  ghost function LastDeadline(run: seq<System>, steps: seq<Step>, i: nat, j: nat, p: Id): int
    requires |run| == |steps| + 1 && i <= j <= |steps| && p in run[i].nodes
    requires forall k :: i <= k < j ==> StepAt(run, steps, k)
    decreases j
  {
    if j == i then run[i].nodes[p].timeOutRound
    else
      assert StepAt(run, steps, j - 1);
      if Feeds(run, steps, j - 1, p) then steps[j - 1].now.deadline else LastDeadline(run, steps, i, j - 1, p)
  }

  /** No rival calls, wins or speaks to `p`. */
  predicate NoRival(s: System, step: Step, p: Id, leader: Id)
    requires p in s.nodes
  {
    step.p == p ==>
      && !Calls(s.nodes[p], step.e)
      && !Wins(Config(s.nodes.Keys, p), s.nodes[p], step.e)
      && (HearsLeader(s.nodes[p], step.e) ==> step.e.m.from == leader)
  }

  /** A stretch of a run in which no rival of the leader reaches `p`. */
  ghost predicate Calm(members: set<Id>, run: seq<System>, steps: seq<Step>, i: nat, j: nat, p: Id, leader: Id) {
    && |run| == |steps| + 1 && i <= j <= |steps| && p in members && NO_PEER_ID !in members && leader != NO_PEER_ID
    && (forall k :: i <= k <= j ==> run[k].nodes.Keys == members)
    && (forall k :: i <= k < j ==> StepAt(run, steps, k))
    && (forall k :: i <= k < j ==> NoRival(run[k], steps[k], p, leader))
  }

  /** Every tick of `p` comes before the deadline that it last drew. */
  ghost predicate Fed(members: set<Id>, run: seq<System>, steps: seq<Step>, i: nat, j: nat, p: Id, leader: Id)
    requires Calm(members, run, steps, i, j, p, leader)
  {
    forall k :: i <= k < j && steps[k].p == p && steps[k].e.Expire? ==>
      steps[k].now.round < LastDeadline(run, steps, i, k, p)
  }

  /** The member has the same leader and has not stood; what it counts on is the last deadline it drew. */
  ghost predicate Follows(s: System, t: System, p: Id, leader: Id, deadline: int) {
    && p in s.nodes && p in t.nodes && t.nodes[p].leader == leader && t.nodes[p].timeOutRound == deadline
    && t.nodes[p].leaderChanges == s.nodes[p].leaderChanges
    && forall m :: m in t.sent && m.Elect? && m.from == p ==> m in s.sent
  }

  lemma StepFollows(members: set<Id>, run: seq<System>, steps: seq<Step>, i: nat, j: nat, p: Id, leader: Id)
    requires i < j && Calm(members, run, steps, i, j, p, leader)
    requires Follows(run[i], run[j - 1], p, leader, LastDeadline(run, steps, i, j - 1, p))
    requires steps[j - 1].p == p ==> !TimesOut(run[j - 1].nodes[p], steps[j - 1].e, steps[j - 1].now)
    ensures Follows(run[i], run[j], p, leader, LastDeadline(run, steps, i, j, p))
  {
    var k := j - 1;
    assert StepAt(run, steps, k) && NoRival(run[k], steps[k], p, leader);
    var c, n := Config(members, steps[k].p), run[k].nodes[steps[k].p];
    var r := Done(run, steps, k);
    TurnsExactly(c, n, steps[k].e, steps[k].now);
    forall m | m in SentIn(r.out) && m.Elect? ensures m.from != p {
      var h :| 0 <= h < |r.out| && r.out[h].m == m;
      assert TimesOut(n, steps[k].e, steps[k].now);
      assert r.out[0].m == m;
    }
  }

  /**
   * A member that hears from its leader, or a leader that speaks, before each deadline never stands
   * and keeps its leader.
   */
  lemma {:induction false} HearingKeepsTheLeader(members: set<Id>, run: seq<System>, steps: seq<Step>, i: nat, j: nat, p: Id,
                                                 leader: Id)
    requires Calm(members, run, steps, i, j, p, leader) && run[i].nodes[p].leader == leader
    requires Fed(members, run, steps, i, j, p, leader)
    ensures Follows(run[i], run[j], p, leader, LastDeadline(run, steps, i, j, p))
    decreases j
  {
    if i < j {
      HearingKeepsTheLeader(members, run, steps, i, j - 1, p, leader);
      StepFollows(members, run, steps, i, j, p, leader);
    }
  }

  /** And the first tick that does not come in time makes it stand in the next term. */
  lemma StandsExactly(members: set<Id>, run: seq<System>, steps: seq<Step>, i: nat, j: nat, p: Id, leader: Id)
    requires Calm(members, run, steps, i, j, p, leader) && run[i].nodes[p].leader == leader
    requires Fed(members, run, steps, i, j, p, leader)
    requires j < |steps| && StepAt(run, steps, j) && steps[j].p == p && steps[j].e.Expire?
    ensures var late := steps[j].now.round >= LastDeadline(run, steps, i, j, p);
      if late then
        && run[j + 1].nodes[p].leader == NO_PEER_ID && run[j + 1].nodes[p].term == run[j].nodes[p].term + 1
        && Elect(p, run[j].nodes[p].term + 1) in run[j + 1].sent
      else run[j + 1] == run[j]
  {
    HearingKeepsTheLeader(members, run, steps, i, j, p, leader);
    TurnsExactly(Config(members, p), run[j].nodes[p], steps[j].e, steps[j].now);
    var r := Done(run, steps, j);
    if steps[j].now.round >= LastDeadline(run, steps, i, j, p) {
      assert r.out[0].m == Elect(p, run[j].nodes[p].term + 1);
    } else {
      assert run[j].nodes[p := run[j].nodes[p]] == run[j].nodes;
      assert SentIn([]) == {};
    }
  }
}
