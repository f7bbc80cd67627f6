/**
 * One leader per term. The code counts votes without comparing their term, and a commit raises
 * the term of a leader without taking its lead away; in every run in which neither happens, at
 * most one member per term ever considers itself the leader.
 */
module RaftElections {
  import opened Quorums
  import opened RaftNode
  import opened RaftQueues
  import opened RaftRuns

  /** The two tests that the handlers leave out. */
  predicate Guarded(s: System, step: Step) {
    step.p in s.nodes && step.e.Receive? ==>
      && (step.e.m.Vote? ==> step.e.m.term == s.nodes[step.p].term)
      && (step.e.m.Commit? && s.nodes[step.p].leader == step.p ==> step.e.m.term <= s.nodes[step.p].term)
  }

  /** More than half of the members voted for `p` in `term`; member 0 leads term 0 from the start. */
  predicate Elected(s: System, p: Id, term: int) {
    (p == 0 && term == 0) || (term > 0 && |Voters(s, p, term)| > |s.nodes| / 2)
  }

  // ---------------------------------------------------------------- what a member sends as a leader

  /** Requests are replicated only by a leader, in its own name and term. */
  predicate LeadsOn(c: Config, s: Node, out: seq<Envelope>) {
    forall i :: 0 <= i < |out| ==>
      out[i].m.Client? || (out[i].m.Replicate? && out[i].m.from == c.me == s.leader && out[i].m.term == s.term)
  }

  lemma {:induction false} OutboundLeads(c: Config, s: Node, q: seq<Request>, leader: Id)
    ensures LeadsOn(c, s, Outbound(q, leader))
  {
    if q != [] {
      OutboundLeads(c, s, q[1..], leader);
    }
  }

  lemma ForwardLeads(c: Config, s: Node)
    ensures LeadsOn(c, s, ForwardDeferred(c, s).out)
  {
    OutboundLeads(c, s, LiveOnly(s.committed, s.deferred), s.leader);
  }

  lemma {:induction false} TakeLeads(c: Config, s: Node, now: Now)
    requires s.leader == c.me
    ensures LeadsOn(c, s, TakePending(c, s, now).out)
    decreases |s.pending|
  {
    if s.pending != [] && !Live(s.committed, s.pending[0]) {
      TakeLeads(c, s.(pending := s.pending[1..]), now);
    }
  }

  lemma {:induction false} StartLeads(c: Config, s: Node, now: Now)
    requires c.me != NO_PEER_ID
    ensures LeadsOn(c, s, StartReplication(c, s, now).out)
    decreases |Taken(c, s)|, Idle(s)
  {
    if s.leader == c.me && s.inFlight.None? {
      if s.pending == [] {
        SelfSubmitProgress(c, s, now);
        var s1 := SelfSubmit(c, s, now).node;
        ForwardLeads(c, Enqueue(s.(nextRequestId := s.nextRequestId + 1), OwnRequest(c, s, now)));
        StartLeads(c, s1, now);
        StartIsQuiet(c, s1, now);
        TakeLeads(c, StartReplication(c, s1, now).node, now);
      } else {
        TakeLeads(c, s, now);
      }
    }
  }

  lemma ClientLeads(c: Config, s: Node, r: Request, now: Now)
    requires c.me != NO_PEER_ID
    ensures LeadsOn(c, s, OnClientRequest(c, s, r, now).out)
  {
    var s1 := if r.clientSeq.None? then s.(nextRequestId := s.nextRequestId + 1) else s;
    var full := Fill(c, s, r, now);
    ForwardLeads(c, Enqueue(s1, full));
    StartLeads(c, Submit(c, s1, full).node, now);
  }

  // ---------------------------------------------------------------- what one event does to the lead

  /** The vote that makes a leader. */
  predicate WinsBy(c: Config, s: Node, e: Event) {
    && e.Receive? && e.m.Vote? && e.m.candidate == c.me && e.m.from !in s.votes
    && HasQuorum(c, |s.votes| + 1)
  }

  /** How a member comes to lead, or goes on leading. */
  predicate LeadOk(c: Config, s: Node, e: Event, t: Node) {
    t.leader == c.me ==>
      || (s.leader == c.me && t.term == s.term)
      || (s.leader == c.me && e.Receive? && e.m.Commit? && e.m.term > s.term)
      || (e.Receive? && e.m.Replicate? && e.m.from == c.me && t.term == e.m.term)
      || (WinsBy(c, s, e) && t.term == s.term)
  }

  predicate VotesOk(c: Config, s: Node, e: Event, t: Node) {
    || t.votes == []
    || (t.votes == s.votes && t.term == s.term)
    || (t.votes == s.votes && e.Receive? && e.m.Commit?)
    || (&& e.Receive? && e.m.Vote? && e.m.candidate == c.me && e.m.from !in s.votes
        && t.votes == s.votes + [e.m.from] && t.term == s.term)
  }

  predicate SpeaksOk(c: Config, s: Node, e: Event, t: Node, m: Msg) {
    && (m.Replicate? ==> m.from == c.me == t.leader && m.term == t.term)
    && (m.Elect? ==> m.from == c.me && m.term == s.term + 1 == t.term && t.votes == [])
    && (m.Vote? ==> e == Receive(Elect(m.candidate, m.term)))
  }

  ghost predicate Change(c: Config, s: Node, e: Event, r: Result) {
    && LeadOk(c, s, e, r.node) && VotesOk(c, s, e, r.node)
    && forall i :: 0 <= i < |r.out| ==> SpeaksOk(c, s, e, r.node, r.out[i].m)
  }

  lemma QuietChange(c: Config, s: Node, e: Event, r: Result)
    requires Quiet(s, r.node) && LeadsOn(c, s, r.out)
    ensures Change(c, s, e, r)
  {
  }

  lemma RespondChange(c: Config, s: Node, m: Msg, now: Now)
    requires m.Respond? && c.me != NO_PEER_ID
    ensures Change(c, s, Receive(m), HandleRespond(c, s, m, now))
  {
    var submitted := RespondOutcome(c, s, m, now);
    var k := KeyOf(m.request);
    if Counts(c, s, m) && HasQuorum(c, |RepliesFor(s, k)| + 1) {
      submitted := if k in s.submittedRound then s.submittedRound[k] else OrElse(m.request.roundSubmitted, now.round);
      var s1 := AfterConfirm(Counted(s, m), m.request, submitted, now.round);
      StartLeads(c, s1, now);
      StartIsQuiet(c, s1, now);
      var started := StartReplication(c, s1, now);
      assert HandleRespond(c, s, m, now)
          == Result(started.node, [Multicast(Commit(m.request, c.me, s.term, submitted, now.round))] + started.out);
    }
  }

  lemma VoteChange(c: Config, s: Node, m: Msg, now: Now)
    requires m.Vote? && c.me != NO_PEER_ID
    ensures Change(c, s, Receive(m), HandleVote(c, s, m, now))
  {
    var s1 := TakeLead(c, s.(votes := s.votes + [m.from]), now);
    ForwardLeads(c, s1);
    ForwardIsQuiet(c, s1);
    StartLeads(c, ForwardDeferred(c, s1).node, now);
    StartIsQuiet(c, ForwardDeferred(c, s1).node, now);
  }

  lemma OtherChange(c: Config, s: Node, e: Event, now: Now)
    requires c.me != NO_PEER_ID
    requires e.Expire? || (e.Receive? && (e.m.Replicate? || e.m.Elect? || e.m.Commit?))
    ensures Change(c, s, e, Handle(c, s, e, now))
  {
  }

  lemma HandleChange(c: Config, s: Node, e: Event, now: Now)
    requires c.me != NO_PEER_ID
    ensures Change(c, s, e, Handle(c, s, e, now))
  {
    var r := Handle(c, s, e, now);
    if e.Produce? {
      var s1 := s.(nextRequestId := s.nextRequestId + 1);
      ClientIsQuiet(c, s1, OwnRequest(c, s, now), now);
      ClientLeads(c, s1, OwnRequest(c, s, now), now);
      QuietChange(c, s, e, r);
    } else if e.Flush? {
      ForwardIsQuiet(c, s);
      ForwardLeads(c, s);
      QuietChange(c, s, e, r);
    } else if e.Receive? && e.m.Client? {
      ClientIsQuiet(c, s, e.m.request, now);
      ClientLeads(c, s, e.m.request, now);
      QuietChange(c, s, e, r);
    } else if e.Receive? && e.m.Respond? {
      RespondChange(c, s, e.m, now);
    } else if e.Receive? && e.m.Vote? {
      VoteChange(c, s, e.m, now);
    } else {
      OtherChange(c, s, e, now);
    }
  }

  // ---------------------------------------------------------------- the invariant

  predicate SaidOk(s: System, m: Msg) {
    && (m.Vote? ==> Elect(m.candidate, m.term) in s.sent)
    && (m.Elect? ==> m.term > 0)
    && (m.Replicate? ==> Elected(s, m.from, m.term))
  }

  /** The votes counted are votes of the current term, unless the member has not stood in it. */
  ghost predicate MemberOk(s: System, p: Id, n: Node) {
    && n.term >= 0 && Unique(n.votes)
    && (n.leader == p ==> Elected(s, p, n.term))
    && (Elect(p, n.term) in s.sent ==> forall q :: q in n.votes ==> Vote(p, q, n.term) in s.sent)
  }

  ghost predicate LeadInv(s: System) {
    && Inv(s)
    && (forall p :: p in s.nodes ==> MemberOk(s, p, s.nodes[p]))
    && (forall m :: m in s.sent ==> SaidOk(s, m))
  }

  lemma ElectedGrows(s: System, t: System, p: Id, term: int)
    requires s.sent <= t.sent && s.nodes.Keys == t.nodes.Keys && Elected(s, p, term)
    ensures Elected(t, p, term)
  {
    SubsetSize(Voters(s, p, term), Voters(t, p, term));
    assert |s.nodes.Keys| == |t.nodes.Keys|;
  }

  lemma CountedIsElected(s: System, p: Id, term: int, votes: seq<Id>)
    requires Unique(votes) && |votes| > |s.nodes| / 2 && term > 0 && forall q :: q in votes ==> Vote(p, q, term) in s.sent
    ensures Elected(s, p, term)
  {
    UniqueSize(votes);
    forall q | q in votes ensures q in Voters(s, p, term) {
      assert Vote(p, q, term) in s.sent;
    }
    SubsetSize(Elements(votes), Voters(s, p, term));
  }

  /** A guarded step of member `p` from `s` to `t`. */
  ghost predicate Taken1(s: System, step: Step, t: System) {
    && LeadInv(s) && Enabled(s, step) && Guarded(s, step) && t == Apply(s, step) && Inv(t) && Grows(s, t)
    && Change(Config(s.nodes.Keys, step.p), s.nodes[step.p], step.e,
              Handle(Config(s.nodes.Keys, step.p), s.nodes[step.p], step.e, step.now))
  }

  lemma WinnerIsElected(s: System, step: Step, t: System)
    requires Taken1(s, step, t) && WinsBy(Config(s.nodes.Keys, step.p), s.nodes[step.p], step.e)
    ensures Elected(s, step.p, s.nodes[step.p].term)
  {
    var p, m := step.p, step.e.m;
    var n := s.nodes[p];
    assert MemberOk(s, p, n) && SaidOk(s, m);
    assert Vote(p, m.from, n.term) == m && Elect(p, n.term) in s.sent && SaidOk(s, Elect(p, n.term));
    UniqueConcat(n.votes, [m.from]);
    CountedIsElected(s, p, n.term, n.votes + [m.from]);
  }

  lemma MoverLeadOk(s: System, step: Step, t: System)
    requires Taken1(s, step, t)
    ensures t.nodes[step.p].leader == step.p ==> Elected(t, step.p, t.nodes[step.p].term)
  {
    var p := step.p;
    var n, n' := s.nodes[p], t.nodes[p];
    assert MemberOk(s, p, n);
    if n'.leader == p {
      if n.leader == p && n'.term == n.term {
        ElectedGrows(s, t, p, n.term);
      } else if step.e.Receive? && step.e.m.Replicate? {
        assert SaidOk(s, step.e.m);
        ElectedGrows(s, t, p, n'.term);
      } else {
        WinnerIsElected(s, step, t);
        ElectedGrows(s, t, p, n'.term);
      }
    }
  }

  /** Only the member that moves can announce that it stands, and it has counted no votes then. */
  lemma NewElects(s: System, step: Step, t: System)
    requires Taken1(s, step, t)
    ensures forall m :: m in t.sent && m.Elect? && m !in s.sent ==> m.from == step.p && t.nodes[step.p].votes == []
  {
    var r := Handle(Config(s.nodes.Keys, step.p), s.nodes[step.p], step.e, step.now);
    forall m | m in t.sent && m.Elect? && m !in s.sent ensures m.from == step.p && t.nodes[step.p].votes == [] {
      var i :| 0 <= i < |r.out| && r.out[i].m == m;
      assert SpeaksOk(Config(s.nodes.Keys, step.p), s.nodes[step.p], step.e, r.node, r.out[i].m);
    }
  }

  lemma MoverVotesOk(s: System, step: Step, t: System)
    requires Taken1(s, step, t)
    ensures var n := t.nodes[step.p];
      && Unique(n.votes)
      && (Elect(step.p, n.term) in t.sent ==> forall q :: q in n.votes ==> Vote(step.p, q, n.term) in t.sent)
  {
    var p := step.p;
    var n, n' := s.nodes[p], t.nodes[p];
    assert MemberOk(s, p, n);
    NewElects(s, step, t);
    assert Elect(p, n'.term) in s.sent ==> MsgOk(s, Elect(p, n'.term));
    VotesStayDistinct(Config(s.nodes.Keys, p), n, step.e, n');
    VotesStayCurrent(Config(s.nodes.Keys, p), n, step.e, n', s.sent, t.sent);
  }

  lemma VotesStayDistinct(c: Config, n: Node, e: Event, n': Node)
    requires VotesOk(c, n, e, n') && Unique(n.votes)
    ensures Unique(n'.votes)
  {
    if e.Receive? && e.m.Vote? && e.m.from !in n.votes {
      UniqueConcat(n.votes, [e.m.from]);
    }
  }

  lemma VotesStayCurrent(c: Config, n: Node, e: Event, n': Node, sent: set<Msg>, more: set<Msg>)
    requires VotesOk(c, n, e, n') && n.term <= n'.term && sent <= more
    requires e.Receive? && e.m.Vote? ==> e.m in sent && e.m.term == n.term
    requires Elect(c.me, n.term) in sent ==> forall q :: q in n.votes ==> Vote(c.me, q, n.term) in sent
    requires Elect(c.me, n'.term) in sent ==> n'.term <= n.term
    requires Elect(c.me, n'.term) in more && Elect(c.me, n'.term) !in sent ==> n'.votes == []
    ensures Elect(c.me, n'.term) in more ==> forall q :: q in n'.votes ==> Vote(c.me, q, n'.term) in more
  {
  }

  lemma NewWordsOk(s: System, step: Step, t: System, m: Msg)
    requires Taken1(s, step, t) && m in t.sent
    ensures SaidOk(t, m)
  {
    var p := step.p;
    var r := Handle(Config(s.nodes.Keys, p), s.nodes[p], step.e, step.now);
    assert MemberOk(s, p, s.nodes[p]);
    if m in s.sent {
      assert SaidOk(s, m);
      if m.Replicate? {
        ElectedGrows(s, t, m.from, m.term);
      }
    } else {
      var i :| 0 <= i < |r.out| && r.out[i].m == m;
      assert SpeaksOk(Config(s.nodes.Keys, p), s.nodes[p], step.e, r.node, r.out[i].m);
      MoverLeadOk(s, step, t);
    }
  }

  lemma OthersStayOk(s: System, step: Step, t: System, q: Id)
    requires Taken1(s, step, t) && q in s.nodes && q != step.p
    ensures MemberOk(t, q, t.nodes[q])
  {
    var n := s.nodes[q];
    assert MemberOk(s, q, n);
    if n.leader == q {
      ElectedGrows(s, t, q, n.term);
    }
    NewElects(s, step, t);
  }

  lemma GuardedStepKeeps(s: System, step: Step)
    requires LeadInv(s) && Enabled(s, step) && Guarded(s, step)
    ensures LeadInv(Apply(s, step))
  {
    var t := Apply(s, step);
    InvKept(s, step);
    HandleChange(Config(s.nodes.Keys, step.p), s.nodes[step.p], step.e, step.now);
    assert Taken1(s, step, t);
    forall q | q in t.nodes ensures MemberOk(t, q, t.nodes[q]) {
      if q == step.p {
        MoverLeadOk(s, step, t);
        MoverVotesOk(s, step, t);
        assert MemberOk(s, q, s.nodes[q]) && NodeGrows(s.nodes[q], t.nodes[q]);
      } else {
        OthersStayOk(s, step, t, q);
      }
    }
    forall m | m in t.sent ensures SaidOk(t, m) {
      NewWordsOk(s, step, t, m);
    }
  }

  // ---------------------------------------------------------------- whole runs

  ghost predicate IsGuarded(run: seq<System>, steps: seq<Step>)
    requires |run| == |steps| + 1
  {
    forall i :: 0 <= i < |steps| ==> Guarded(run[i], steps[i])
  }

  lemma StartLeadInv(members: set<Id>, s: System)
    requires IsStart(members, s)
    ensures LeadInv(s)
  {
    StartInv(members, s);
    forall p | p in s.nodes ensures MemberOk(s, p, s.nodes[p]) {
      assert StartsAt(s, p);
    }
  }

  lemma {:induction false} RunLeadInv(members: set<Id>, run: seq<System>, steps: seq<Step>, i: nat)
    requires IsRun(members, run, steps) && IsGuarded(run, steps) && i < |run|
    ensures LeadInv(run[i])
    decreases i
  {
    if i == 0 {
      StartLeadInv(members, run[0]);
    } else {
      RunLeadInv(members, run, steps, i - 1);
      assert StepAt(run, steps, i - 1);
      GuardedStepKeeps(run[i - 1], steps[i - 1]);
    }
  }

  lemma LeaderWasElected(members: set<Id>, run: seq<System>, steps: seq<Step>, i: nat, j: nat, p: Id)
    requires IsRun(members, run, steps) && IsGuarded(run, steps) && i <= j < |run|
    requires p in run[i].nodes && run[i].nodes[p].leader == p
    ensures Elected(run[j], p, run[i].nodes[p].term)
  {
    RunLeadInv(members, run, steps, i);
    StatesOnlyGrow(members, run, steps, i, j);
    assert MemberOk(run[i], p, run[i].nodes[p]);
    ElectedGrows(run[i], run[j], p, run[i].nodes[p].term);
  }

  /** In every guarded run at most one member ever leads in each term, at whatever moments. */
  lemma OneLeaderPerTerm(members: set<Id>, run: seq<System>, steps: seq<Step>, i: nat, j: nat, p: Id, q: Id)
    requires IsRun(members, run, steps) && IsGuarded(run, steps) && i <= j < |run|
    requires p in run[i].nodes && run[i].nodes[p].leader == p
    requires q in run[j].nodes && run[j].nodes[q].leader == q && run[j].nodes[q].term == run[i].nodes[p].term
    ensures p == q
  {
    var term := run[i].nodes[p].term;
    LeaderWasElected(members, run, steps, i, j, p);
    LeaderWasElected(members, run, steps, j, j, q);
    if term > 0 {
      MembersStay(members, run, steps, j);
      OneWinnerPerTerm(members, run, steps, j, p, q, term);
    }
  }
}
