/**
 * Every delay that a run records is honest: it starts in a round in which a leader sent that very
 * request out and ends in the round in which a leader counted a majority of answers to it.
 */
module RaftDelays {
  import opened Quorums
  import opened RaftNode
  import opened RaftQueues
  import opened RaftRuns
  import opened RaftTimers
  import opened RaftDuties

  // ---------------------------------------------------------------- one event

  predicate SendsKey(out: seq<Envelope>, k: Key) {
    exists i :: 0 <= i < |out| && out[i].m.Replicate? && KeyOf(out[i].m.request) == k
  }

  /** The round noted for `k` is an old note, or the current one and the request went out now. */
  predicate Noted(s: Node, now: Now, r: Result, k: Key) {
    k in r.node.submittedRound ==>
      || (k in s.submittedRound && r.node.submittedRound[k] == s.submittedRound[k])
      || (r.node.submittedRound[k] == now.round && SendsKey(r.out, k))
  }

  /** Every request that goes out bears the current round, and so does the note about it. */
  ghost predicate Stamps(s: Node, now: Now, r: Result) {
    && (forall i :: 0 <= i < |r.out| && r.out[i].m.Replicate? ==> r.out[i].m.request.roundSubmitted == Some(now.round))
    && forall k :: Noted(s, now, r, k)
  }

  lemma StampsBoth(s: Node, now: Now, a: Result, b: Result)
    requires Stamps(s, now, a) && Stamps(a.node, now, b)
    ensures Stamps(s, now, Result(b.node, a.out + b.out))
  {
    var out := a.out + b.out;
    forall k ensures Noted(s, now, Result(b.node, out), k) {
      assert Noted(s, now, a, k) && Noted(a.node, now, b, k);
      if SendsKey(a.out, k) {
        var i :| 0 <= i < |a.out| && a.out[i].m.Replicate? && KeyOf(a.out[i].m.request) == k;
        assert out[i] == a.out[i];
      } else if SendsKey(b.out, k) {
        var i :| 0 <= i < |b.out| && b.out[i].m.Replicate? && KeyOf(b.out[i].m.request) == k;
        assert out[|a.out| + i] == b.out[i];
      }
    }
  }

  /** Dropping notes stamps nothing wrongly. */
  lemma StampsAfter(s: Node, s1: Node, now: Now, r: Result)
    requires Stamps(s1, now, r)
    requires forall k :: k in s1.submittedRound ==> k in s.submittedRound && s1.submittedRound[k] == s.submittedRound[k]
    ensures Stamps(s, now, r)
  {
    forall k ensures Noted(s, now, r, k) {
      assert Noted(s1, now, r, k);
    }
  }

  lemma ForwardStamps(c: Config, s: Node, now: Now)
    ensures Stamps(s, now, ForwardDeferred(c, s))
  {
    var out := Outbound(LiveOnly(s.committed, s.deferred), s.leader);
    OutboundIsSilent(LiveOnly(s.committed, s.deferred), s.leader);
    forall i | 0 <= i < |out| ensures !out[i].m.Replicate? {
      assert !Speaks(out);
    }
  }

  lemma TakeStamps(c: Config, s: Node, now: Now)
    ensures Stamps(s, now, TakePending(c, s, now))
  {
    var i := TakesFirstLive(c, s, now);
    var r := TakePending(c, s, now);
    if i < |s.pending| {
      assert r.out[0].m.Replicate? && KeyOf(r.out[0].m.request) == KeyOf(s.pending[i]);
    }
  }

  lemma {:induction false} StartStamps(c: Config, s: Node, now: Now)
    requires c.me != NO_PEER_ID
    ensures Stamps(s, now, StartReplication(c, s, now))
    decreases |Taken(c, s)|, Idle(s)
  {
    if s.leader == c.me && s.inFlight.None? {
      if s.pending == [] {
        SelfSubmitProgress(c, s, now);
        var s1 := Enqueue(s.(nextRequestId := s.nextRequestId + 1), OwnRequest(c, s, now));
        var a := SelfSubmit(c, s, now);
        var b := StartReplication(c, a.node, now);
        ForwardStamps(c, s1, now);
        StampsAfter(s, s1, now, a);
        StartStamps(c, a.node, now);
        TakeStamps(c, b.node, now);
        StampsBoth(s, now, a, b);
        StampsBoth(s, now, Result(b.node, a.out + b.out), TakePending(c, b.node, now));
      } else {
        TakeStamps(c, s, now);
      }
    }
  }

  lemma ForwardAndStartStamps(c: Config, s: Node, now: Now)
    requires c.me != NO_PEER_ID
    ensures var a := ForwardDeferred(c, s);
            var b := StartReplication(c, a.node, now);
            Stamps(s, now, Result(b.node, a.out + b.out))
  {
    var a := ForwardDeferred(c, s);
    ForwardStamps(c, s, now);
    StartStamps(c, a.node, now);
    StampsBoth(s, now, a, StartReplication(c, a.node, now));
  }

  lemma ClientStamps(c: Config, s: Node, r: Request, now: Now)
    requires c.me != NO_PEER_ID
    ensures Stamps(s, now, OnClientRequest(c, s, r, now))
  {
    var s1 := if r.clientSeq.None? then s.(nextRequestId := s.nextRequestId + 1) else s;
    var s2 := Enqueue(s1, Fill(c, s, r, now));
    ForwardAndStartStamps(c, s2, now);
    StampsAfter(s, s2, now, OnClientRequest(c, s, r, now));
  }

  lemma RespondStamps(c: Config, s: Node, m: Msg, now: Now)
    requires m.Respond? && c.me != NO_PEER_ID
    ensures Stamps(s, now, HandleRespond(c, s, m, now))
  {
    var since := Since(s, m.request, now);
    var s1 := AfterConfirm(Counted(s, m), m.request, since, now.round);
    var a, b := Result(s1, [Multicast(Commit(m.request, c.me, s.term, since, now.round))]), StartReplication(c, s1, now);
    StartStamps(c, s1, now);
    assert Stamps(s, now, a);
    StampsBoth(s, now, a, b);
  }

  lemma VoteStamps(c: Config, s: Node, m: Msg, now: Now)
    requires m.Vote? && c.me != NO_PEER_ID
    ensures Stamps(s, now, HandleVote(c, s, m, now))
  {
    var s1 := TakeLead(c, s.(votes := s.votes + [m.from]), now);
    ForwardAndStartStamps(c, s1, now);
    if HandleVote(c, s, m, now) == BecomeLeader(c, s.(votes := s.votes + [m.from]), now) {
      StampsAfter(s, s1, now, HandleVote(c, s, m, now));
    }
  }

  lemma HandleStamps(c: Config, s: Node, e: Event, now: Now)
    requires c.me != NO_PEER_ID
    ensures Stamps(s, now, Handle(c, s, e, now))
  {
    match e
    case Produce =>
      var s1 := s.(nextRequestId := s.nextRequestId + 1);
      ClientStamps(c, s1, OwnRequest(c, s, now), now);
      StampsAfter(s, s1, now, Handle(c, s, e, now));
    case Expire =>
    case Flush => ForwardStamps(c, s, now);
    case Receive(m) =>
      match m {
        case Respond(_, _, _) => RespondStamps(c, s, m, now);
        case Vote(_, _, _) => VoteStamps(c, s, m, now);
        case Client(r) => ClientStamps(c, s, r, now);
        case _ =>
      }
  }

  lemma RespondsNothing(c: Config, s: Node, m: Msg, now: Now)
    requires m.Respond? && c.me != NO_PEER_ID
    ensures var out := HandleRespond(c, s, m, now).out; forall i :: 0 <= i < |out| ==> !out[i].m.Respond?
  {
    var _ := RespondOutcome(c, s, m, now);
    var out := HandleRespond(c, s, m, now).out;
    forall i | 0 <= i < |out| ensures !out[i].m.Respond? {
      if i > 0 {
        assert out[i] == out[1..][i - 1];
      }
    }
  }

  /** A response repeats the request that it answers. */
  lemma AnswersRepeat(c: Config, s: Node, e: Event, now: Now)
    requires c.me != NO_PEER_ID
    ensures var r := Handle(c, s, e, now);
            forall i :: 0 <= i < |r.out| && r.out[i].m.Respond? ==>
              e.Receive? && e.m.Replicate? && r.out[i].m.request == e.m.request
  {
    match e
    case Produce => ClientIsQuiet(c, s.(nextRequestId := s.nextRequestId + 1), OwnRequest(c, s, now), now);
    case Expire =>
    case Flush => ForwardIsQuiet(c, s);
    case Receive(m) =>
      match m {
        case Respond(_, _, _) => RespondsNothing(c, s, m, now);
        case Vote(_, _, _) => VoteOutcome(c, s, m, now);
        case Client(r) => ClientIsQuiet(c, s, r, now);
        case _ =>
      }
  }

  // ---------------------------------------------------------------- a run

  /** The rounds of a run never go back. */
  ghost predicate Timely(steps: seq<Step>) {
    forall a, b :: 0 <= a <= b < |steps| ==> steps[a].now.round <= steps[b].now.round
  }

  ghost predicate IsPrefix(members: set<Id>, run: seq<System>, steps: seq<Step>, i: nat) {
    IsRun(members, run, steps) && i <= |steps|
  }

  /** In step `h` a leader sends `k` out. */
  ghost predicate SendsAt(run: seq<System>, steps: seq<Step>, h: nat, k: Key)
    requires |run| == |steps| + 1 && h < |steps|
  {
    Enabled(run[h], steps[h]) && SendsKey(Done(run, steps, h).out, k)
  }

  /** In step `d` a leader counts the answer with which more than half have answered for `k`. */
  ghost predicate DecidesAt(run: seq<System>, steps: seq<Step>, d: nat, k: Key)
    requires |run| == |steps| + 1 && d < |steps|
  {
    && Enabled(run[d], steps[d])
    && Decides(Config(run[d].nodes.Keys, steps[d].p), run[d].nodes[steps[d].p], steps[d].e)
    && KeyOf(steps[d].e.m.request) == k
  }

  /** Before step `i`, `k` was sent out in this round. */
  ghost predicate SentOut(run: seq<System>, steps: seq<Step>, i: nat, k: Key, round: int)
    requires |run| == |steps| + 1 && i <= |steps|
  {
    exists h :: 0 <= h < i && steps[h].now.round == round && SendsAt(run, steps, h, k)
  }

  /** Before step `i`, `k` was decided in this round. */
  ghost predicate Decided(run: seq<System>, steps: seq<Step>, i: nat, k: Key, round: int)
    requires |run| == |steps| + 1 && i <= |steps|
  {
    exists d :: 0 <= d < i && steps[d].now.round == round && DecidesAt(run, steps, d, k)
  }

  ghost predicate Honest(run: seq<System>, steps: seq<Step>, i: nat, k: Key, from: int, to: int)
    requires |run| == |steps| + 1 && i <= |steps|
  {
    SentOut(run, steps, i, k, from) && Decided(run, steps, i, k, to) && from <= to
  }

  ghost predicate MsgHonest(run: seq<System>, steps: seq<Step>, i: nat, m: Msg)
    requires |run| == |steps| + 1 && i <= |steps|
  {
    match m
    case Replicate(r, _, _) => r.roundSubmitted.Some? && SentOut(run, steps, i, KeyOf(r), r.roundSubmitted.value)
    case Respond(r, _, _) => r.roundSubmitted.Some? && SentOut(run, steps, i, KeyOf(r), r.roundSubmitted.value)
    case Commit(r, _, _, from, to) => Honest(run, steps, i, KeyOf(r), from, to)
    case _ => true
  }

  ghost predicate NodeHonest(run: seq<System>, steps: seq<Step>, i: nat, n: Node)
    requires |run| == |steps| + 1 && i <= |steps|
  {
    && (forall k :: k in n.submittedRound ==> SentOut(run, steps, i, k, n.submittedRound[k]))
    && (forall j :: 0 <= j < |n.confirmed| ==>
          Honest(run, steps, i, KeyOf(n.confirmed[j].request), n.confirmed[j].roundSubmitted, n.confirmed[j].roundCommitted))
  }

  ghost predicate AllHonest(run: seq<System>, steps: seq<Step>, i: nat)
    requires |run| == |steps| + 1 && i <= |steps|
  {
    && (forall m :: m in run[i].sent ==> MsgHonest(run, steps, i, m))
    && (forall p :: p in run[i].nodes ==> NodeHonest(run, steps, i, run[i].nodes[p]))
  }

  lemma HonestLater(run: seq<System>, steps: seq<Step>, i: nat, k: Key)
    requires |run| == |steps| + 1 && i < |steps|
    ensures forall x :: SentOut(run, steps, i, k, x) ==> SentOut(run, steps, i + 1, k, x)
    ensures forall x :: Decided(run, steps, i, k, x) ==> Decided(run, steps, i + 1, k, x)
    ensures forall x, y :: Honest(run, steps, i, k, x, y) ==> Honest(run, steps, i + 1, k, x, y)
  {
  }

  /** The decision of step `i` is honest about the time it took. */
  lemma DecisionIsHonest(members: set<Id>, run: seq<System>, steps: seq<Step>, i: nat)
    requires IsPrefix(members, run, steps, i) && i < |steps| && Timely(steps) && AllHonest(run, steps, i)
    requires StepAt(run, steps, i)
    requires Decides(Config(run[i].nodes.Keys, steps[i].p), run[i].nodes[steps[i].p], steps[i].e)
    ensures var r := steps[i].e.m.request;
            Honest(run, steps, i + 1, KeyOf(r), Since(run[i].nodes[steps[i].p], r, steps[i].now), steps[i].now.round)
  {
    var n, m, now := run[i].nodes[steps[i].p], steps[i].e.m, steps[i].now;
    var k, since := KeyOf(m.request), Since(n, m.request, now);
    assert MsgHonest(run, steps, i, m) && NodeHonest(run, steps, i, n);
    HonestLater(run, steps, i, k);
    var h :| 0 <= h < i && steps[h].now.round == since && SendsAt(run, steps, h, k);
    assert steps[h].now.round <= now.round;
    assert DecidesAt(run, steps, i, k);
  }

  lemma MoverIsHonest(members: set<Id>, run: seq<System>, steps: seq<Step>, i: nat)
    requires IsPrefix(members, run, steps, i) && i < |steps| && Timely(steps) && AllHonest(run, steps, i)
    requires StepAt(run, steps, i) && QueuesOk(run[i].nodes[steps[i].p])
    ensures NodeHonest(run, steps, i + 1, Done(run, steps, i).node)
  {
    var c, s, e, now := Config(run[i].nodes.Keys, steps[i].p), run[i].nodes[steps[i].p], steps[i].e, steps[i].now;
    var r := Done(run, steps, i);
    HandleStamps(c, s, e, now);
    ConfirmsExactly(c, s, e, now);
    assert NodeHonest(run, steps, i, s);
    forall k | k in r.node.submittedRound ensures SentOut(run, steps, i + 1, k, r.node.submittedRound[k]) {
      HonestLater(run, steps, i, k);
      assert Noted(s, now, r, k);
      if !(k in s.submittedRound && r.node.submittedRound[k] == s.submittedRound[k]) {
        assert SendsAt(run, steps, i, k);
      }
    }
    forall j | 0 <= j < |r.node.confirmed|
      ensures var x := r.node.confirmed[j]; Honest(run, steps, i + 1, KeyOf(x.request), x.roundSubmitted, x.roundCommitted)
    {
      HonestLater(run, steps, i, KeyOf(r.node.confirmed[j].request));
      if j < |s.confirmed| {
        assert r.node.confirmed[j] == s.confirmed[j];
      } else if Decides(c, s, e) {
        DecisionIsHonest(members, run, steps, i);
      } else {
        assert HearsCommit(c, e) && MsgHonest(run, steps, i, e.m);
      }
    }
  }

  lemma WordIsHonest(members: set<Id>, run: seq<System>, steps: seq<Step>, i: nat, m: Msg)
    requires IsPrefix(members, run, steps, i) && i < |steps| && Timely(steps) && AllHonest(run, steps, i)
    requires StepAt(run, steps, i) && QueuesOk(run[i].nodes[steps[i].p]) && m in SentIn(Done(run, steps, i).out)
    ensures MsgHonest(run, steps, i + 1, m)
  {
    var c, s, e, now := Config(run[i].nodes.Keys, steps[i].p), run[i].nodes[steps[i].p], steps[i].e, steps[i].now;
    var r := Done(run, steps, i);
    var j :| 0 <= j < |r.out| && r.out[j].m == m;
    assert j > 0 ==> r.out[j] == r.out[1..][j - 1];
    if m.Replicate? {
      HandleStamps(c, s, e, now);
      assert SendsAt(run, steps, i, KeyOf(m.request));
    } else if m.Respond? {
      AnswersRepeat(c, s, e, now);
      assert MsgHonest(run, steps, i, e.m);
      HonestLater(run, steps, i, KeyOf(m.request));
    } else if m.Commit? {
      ConfirmsExactly(c, s, e, now);
      if Decides(c, s, e) {
        DecisionIsHonest(members, run, steps, i);
      }
    }
  }

  lemma StepIsHonest(members: set<Id>, run: seq<System>, steps: seq<Step>, i: nat)
    requires IsPrefix(members, run, steps, i) && i < |steps| && Timely(steps) && AllHonest(run, steps, i)
    ensures AllHonest(run, steps, i + 1)
  {
    assert StepAt(run, steps, i);
    MembersStay(members, run, steps, i);
    QueuesStaySound(members, run, steps, i, steps[i].p);
    var t := run[i + 1];
    forall m | m in t.sent ensures MsgHonest(run, steps, i + 1, m) {
      if m in run[i].sent {
        assert MsgHonest(run, steps, i, m);
        if m.Replicate? || m.Respond? || m.Commit? {
          HonestLater(run, steps, i, KeyOf(m.request));
        }
      } else {
        WordIsHonest(members, run, steps, i, m);
      }
    }
    forall p | p in t.nodes ensures NodeHonest(run, steps, i + 1, t.nodes[p]) {
      if p == steps[i].p {
        MoverIsHonest(members, run, steps, i);
      } else {
        NodeStaysHonest(run, steps, i, run[i].nodes[p]);
      }
    }
  }

  lemma NodeStaysHonest(run: seq<System>, steps: seq<Step>, i: nat, n: Node)
    requires |run| == |steps| + 1 && i < |steps| && NodeHonest(run, steps, i, n)
    ensures NodeHonest(run, steps, i + 1, n)
  {
    forall k | k in n.submittedRound ensures SentOut(run, steps, i + 1, k, n.submittedRound[k]) {
      HonestLater(run, steps, i, k);
    }
    forall j | 0 <= j < |n.confirmed|
      ensures var x := n.confirmed[j]; Honest(run, steps, i + 1, KeyOf(x.request), x.roundSubmitted, x.roundCommitted)
    {
      HonestLater(run, steps, i, KeyOf(n.confirmed[j].request));
    }
  }

  lemma {:induction false} RunIsHonest(members: set<Id>, run: seq<System>, steps: seq<Step>, i: nat)
    requires IsPrefix(members, run, steps, i) && Timely(steps)
    ensures AllHonest(run, steps, i)
  {
    if i == 0 {
      forall p | p in run[0].nodes ensures NodeHonest(run, steps, 0, run[0].nodes[p]) {
        assert StartsAt(run[0], p);
      }
    } else {
      RunIsHonest(members, run, steps, i - 1);
      StepIsHonest(members, run, steps, i - 1);
    }
  }

  /**
   * In every run, each confirmation at each member counts from a round in which a leader sent that
   * request out to a round in which one counted a majority for it, and the total delay of a member
   * is the sum over its confirmations, never negative.
   */
  lemma DelaysAreHonest(members: set<Id>, run: seq<System>, steps: seq<Step>, i: nat, p: Id)
    requires IsPrefix(members, run, steps, i) && Timely(steps) && p in members
    ensures p in run[i].nodes
    ensures var n := run[i].nodes[p];
      && (forall j :: 0 <= j < |n.confirmed| ==>
            Honest(run, steps, i, KeyOf(n.confirmed[j].request), n.confirmed[j].roundSubmitted, n.confirmed[j].roundCommitted))
      && n.latency == LatencySum(n.confirmed) && n.latency >= 0
  {
    MembersStay(members, run, steps, i);
    QueuesStaySound(members, run, steps, i, p);
    RunIsHonest(members, run, steps, i);
    SumIsPositive(run[i].nodes[p].confirmed);
  }

  lemma {:induction false} SumIsPositive(confirmed: seq<Confirmation>)
    requires forall j :: 0 <= j < |confirmed| ==> confirmed[j].roundSubmitted <= confirmed[j].roundCommitted
    ensures LatencySum(confirmed) >= 0
  {
    if confirmed != [] {
      SumIsPositive(confirmed[..|confirmed| - 1]);
    }
  }
}
