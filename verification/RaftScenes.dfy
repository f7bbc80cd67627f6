/**
 * What single events do to members in known states: the building blocks of concrete runs. In all
 * of these runs no member ever hears itself, as in every topology without self-neighbours.
 */
module RaftScenes {
  import opened Quorums
  import opened RaftNode
  import opened RaftQueues
  import opened RaftRuns

  /** A member hears its own message. */
  predicate Echoes(step: Step) {
    step.e.Receive? && !step.e.m.Client? && step.e.m.from == step.p
  }

  ghost predicate IsPlainRun(members: set<Id>, run: seq<System>, steps: seq<Step>) {
    IsRun(members, run, steps) && forall i :: 0 <= i < |steps| ==> !Echoes(steps[i])
  }

  ghost predicate Reachable(members: set<Id>, s: System) {
    exists run, steps :: IsPlainRun(members, run, steps) && run[|steps|] == s
  }

  lemma Begin(members: set<Id>, s: System)
    requires IsStart(members, s)
    ensures Reachable(members, s)
  {
    assert IsPlainRun(members, [s], []);
  }

  lemma Extend(members: set<Id>, s: System, step: Step)
    requires Reachable(members, s) && Enabled(s, step) && !Echoes(step)
    ensures Reachable(members, Apply(s, step))
  {
    var run, steps :| IsPlainRun(members, run, steps) && run[|steps|] == s;
    var run', steps' := run + [Apply(s, step)], steps + [step];
    forall i | 0 <= i < |steps'| ensures StepAt(run', steps', i) && !Echoes(steps'[i]) {
      if i < |steps| {
        assert StepAt(run, steps, i);
      }
    }
    assert IsPlainRun(members, run', steps') && run'[|steps'|] == Apply(s, step);
  }

  /** The members are all there. */
  ghost predicate Standing(members: set<Id>, s: System) {
    Reachable(members, s) && s.nodes.Keys == members && NO_PEER_ID !in members
  }

  function At(round: int): Now {
    Now(round, round + 100)
  }

  /** Member `p` moves from `n` to `n'`; the others stay, and what was sent stays sent. */
  predicate Moved(s: System, t: System, p: Id, n': Node) {
    p in s.nodes && t.nodes == s.nodes[p := n'] && s.sent <= t.sent
  }

  lemma Acts(members: set<Id>, s: System, p: Id, e: Event, round: int, r: Result) returns (t: System)
    requires Standing(members, s) && p in members && (e.Receive? && !e.m.Client? ==> e.m in s.sent && e.m.from != p)
    requires Handle(Config(members, p), s.nodes[p], e, At(round)) == r
    ensures Standing(members, t) && Moved(s, t, p, r.node)
    ensures forall i :: 0 <= i < |r.out| ==> r.out[i].m in t.sent
  {
    var step := Step(p, e, At(round));
    Extend(members, s, step);
    t := Apply(s, step);
  }

  // ---------------------------------------------------------------- elections

  /** Term, leader, counted votes and deadline. */
  predicate Stance(n: Node, term: int, leader: Id, votes: seq<Id>, deadline: int) {
    n.term == term && n.leader == leader && n.votes == votes && n.timeOutRound == deadline
  }

  /** Nothing has ever been asked of this member. */
  predicate Blank(n: Node) {
    && n.pending == [] && n.deferred == [] && n.inFlight.None? && n.known == {} && n.committed == {}
    && n.replies == map[] && n.submittedRound == map[] && n.nextRequestId == 0 && n.confirmed == []
  }

  lemma StandStage(members: set<Id>, s: System, p: Id, round: int) returns (t: System)
    requires Standing(members, s) && p in members && s.nodes[p].timeOutRound <= round
    ensures Standing(members, t) && p in t.nodes && Moved(s, t, p, t.nodes[p]) && Elect(p, s.nodes[p].term + 1) in t.sent
    ensures Stance(t.nodes[p], s.nodes[p].term + 1, NO_PEER_ID, [], round + 100)
    ensures Blank(s.nodes[p]) ==> Blank(t.nodes[p])
  {
    var r := MaybeStartElection(Config(members, p), s.nodes[p], At(round));
    t := Acts(members, s, p, Expire, round, r);
    assert r.out[0].m == Elect(p, s.nodes[p].term + 1);
  }

  lemma VoteStage(members: set<Id>, s: System, p: Id, who: Id, term: int, round: int) returns (t: System)
    requires Standing(members, s) && p in members && who != p && who != NO_PEER_ID
    requires s.nodes[p].term < term && Elect(who, term) in s.sent
    ensures Standing(members, t) && p in t.nodes && Moved(s, t, p, t.nodes[p]) && Vote(who, p, term) in t.sent
    ensures Stance(t.nodes[p], term, NO_PEER_ID, [], round + 100)
    ensures Blank(s.nodes[p]) ==> Blank(t.nodes[p])
  {
    var r := HandleElect(Config(members, p), s.nodes[p], Elect(who, term), At(round));
    t := Acts(members, s, p, Receive(Elect(who, term)), round, r);
    assert r.out[0].m == Vote(who, p, term);
  }

  /** A vote that does not decide yet. */
  lemma CountStage(members: set<Id>, s: System, p: Id, from: Id, term: int, round: int) returns (t: System)
    requires Standing(members, s) && p in members && s.nodes[p].leader != p && from != p && from != NO_PEER_ID
    requires Vote(p, from, term) in s.sent && from !in s.nodes[p].votes && |s.nodes[p].votes| + 1 <= |members| / 2
    ensures Standing(members, t) && Moved(s, t, p, s.nodes[p].(votes := s.nodes[p].votes + [from]))
  {
    t := Acts(members, s, p, Receive(Vote(p, from, term)), round,
              Result(s.nodes[p].(votes := s.nodes[p].votes + [from]), []));
  }

  lemma LastVote(c: Config, s: Node, m: Msg, now: Now)
    requires c.me != NO_PEER_ID && s.leader != c.me && HasQuorum(c, |s.votes| + 1)
    requires m.Vote? && m.candidate == c.me && m.from != NO_PEER_ID && m.from !in s.votes
    ensures var t := HandleVote(c, s, m, now).node; t.leader == c.me && t.term == s.term
  {
    var s1 := TakeLead(c, s.(votes := s.votes + [m.from]), now);
    ForwardIsQuiet(c, s1);
    StartIsQuiet(c, ForwardDeferred(c, s1).node, now);
  }

  /** The vote that makes a leader, of whatever term it is. */
  lemma WinStage(members: set<Id>, s: System, p: Id, from: Id, term: int, round: int) returns (t: System)
    requires Standing(members, s) && p in members && s.nodes[p].leader != p && from != p && from != NO_PEER_ID
    requires Vote(p, from, term) in s.sent && from !in s.nodes[p].votes && |s.nodes[p].votes| + 1 > |members| / 2
    ensures Standing(members, t) && p in t.nodes && Moved(s, t, p, t.nodes[p])
    ensures t.nodes[p].leader == p && t.nodes[p].term == s.nodes[p].term
  {
    var c, m := Config(members, p), Vote(p, from, term);
    LastVote(c, s.nodes[p], m, At(round));
    t := Acts(members, s, p, Receive(m), round, HandleVote(c, s.nodes[p], m, At(round)));
  }

  // ---------------------------------------------------------------- a leader with a request of its own

  function Own(p: Id, i: nat, round: int): Request {
    Request(Some(p), Some(i), Some(round), None)
  }

  /** The leader with its next own request in flight. */
  function Launched(c: Config, s: Node, now: Now): Node {
    var k := OwnKey(c, s);
    s.(known := s.known + {k}, inFlight := Some(OwnRequest(c, s, now)), replies := s.replies[k := []],
       submittedRound := s.submittedRound[k := now.round], timeOutRound := now.deadline,
       nextRequestId := s.nextRequestId + 1)
  }

  lemma OneSubmitted(c: Config, s: Node, now: Now)
    requires c.me != NO_PEER_ID && s.leader == c.me && s.pending == [] && s.deferred == []
    requires OwnKey(c, s) !in s.known && OwnKey(c, s) !in s.committed
    ensures SelfSubmit(c, s, now)
         == Result(s.(known := s.known + {OwnKey(c, s)}, pending := [OwnRequest(c, s, now)],
                      nextRequestId := s.nextRequestId + 1), [])
  {
    var r := OwnRequest(c, s, now);
    assert [] + [r] == [r];
    assert LiveOnly(s.committed, [r]) == [r];
    assert Unmark([r])[0] == r && Unmark([r]) == [r];
  }

  /** An idle leader with empty queues starts its own next request. */
  lemma IdleLaunches(c: Config, s: Node, now: Now)
    requires c.me != NO_PEER_ID && s.leader == c.me && s.pending == [] && s.deferred == [] && s.inFlight.None?
    requires OwnKey(c, s) !in s.known && OwnKey(c, s) !in s.committed && OwnKey(c, s) !in s.replies
    ensures StartReplication(c, s, now)
         == Result(Launched(c, s, now), [Multicast(Replicate(OwnRequest(c, s, now), c.me, s.term))])
  {
    var r, m := OwnRequest(c, s, now), Multicast(Replicate(OwnRequest(c, s, now), c.me, s.term));
    OneSubmitted(c, s, now);
    var s1 := SelfSubmit(c, s, now);
    assert TakePending(c, s1.node, now) == Result(Launched(c, s, now), [m]);
    assert StartReplication(c, s1.node, now) == Result(Launched(c, s, now), [m]);
    assert TakePending(c, Launched(c, s, now), now) == Result(Launched(c, s, now), []);
    assert [] + [m] + [] == [m];
  }

  /** A leader whose own request number `i` is in flight, the earlier ones confirmed, nothing else known. */
  predicate Leads(n: Node, p: Id, term: int, i: nat, answers: seq<Id>, round: int) {
    && n.leader == p && n.term == term && n.inFlight == Some(Own(p, i, round)) && n.nextRequestId == i + 1
    && n.pending == [] && n.deferred == [] && RepliesFor(n, (p, i)) == answers
    && (forall k :: k in n.known ==> k.0 == p && 0 <= k.1 <= i)
    && (forall k :: k in n.committed ==> k.0 == p && 0 <= k.1 < i)
    && (forall k :: k in n.replies ==> k.0 == p && 0 <= k.1 <= i)
    && |n.confirmed| == i && (forall j :: 0 <= j < i ==> KeyOf(n.confirmed[j].request) == (p, j))
    && (p, i) in n.known
  }

  /** A leader between its requests `i - 1` and `i`. */
  predicate Between(n: Node, p: Id, term: int, i: nat) {
    && n.leader == p && n.term == term && n.inFlight.None? && n.nextRequestId == i
    && n.pending == [] && n.deferred == []
    && (forall k :: k in n.known ==> k.0 == p && 0 <= k.1 < i)
    && (forall k :: k in n.committed ==> k.0 == p && 0 <= k.1 < i)
    && (forall k :: k in n.replies ==> k.0 == p && 0 <= k.1 < i)
    && |n.confirmed| == i && (forall j :: 0 <= j < i ==> KeyOf(n.confirmed[j].request) == (p, j))
  }

  lemma LaunchedLeads(c: Config, s: Node, now: Now, i: nat)
    requires c.me != NO_PEER_ID && Between(s, c.me, s.term, i)
    ensures StartReplication(c, s, now)
         == Result(Launched(c, s, now), [Multicast(Replicate(Own(c.me, i, now.round), c.me, s.term))])
    ensures Leads(Launched(c, s, now), c.me, s.term, i, [], now.round)
  {
    IdleLaunches(c, s, now);
  }

  /** A member elected with empty queues sends out its first own request. */
  lemma LeadStage(members: set<Id>, s: System, p: Id, from: Id, term: int, round: int) returns (t: System)
    requires Standing(members, s) && p in members && s.nodes[p].leader != p && from != p && from != NO_PEER_ID
    requires Vote(p, from, term) in s.sent && from !in s.nodes[p].votes && |s.nodes[p].votes| + 1 > |members| / 2
    requires Blank(s.nodes[p])
    ensures Standing(members, t) && p in t.nodes && Moved(s, t, p, t.nodes[p])
    ensures Leads(t.nodes[p], p, s.nodes[p].term, 0, [], round)
    ensures Replicate(Own(p, 0, round), p, s.nodes[p].term) in t.sent
  {
    var c, n, m, now := Config(members, p), s.nodes[p], Vote(p, from, term), At(round);
    var s1 := TakeLead(c, n.(votes := n.votes + [from]), now);
    assert LiveOnly({}, []) == [] && Unmark([]) == [] && [] + Unmark([]) == [];
    assert ForwardDeferred(c, s1) == Result(s1, []);
    LaunchedLeads(c, s1, now, 0);
    var e := Multicast(Replicate(Own(p, 0, round), p, n.term));
    var r := Result(Launched(c, s1, now), [] + [e]);
    assert HandleVote(c, n, m, now) == r;
    t := Acts(members, s, p, Receive(m), round, r);
    assert r.out[0].m == e.m;
  }

  /** The initial leader produces its first request. */
  lemma ProduceStage(members: set<Id>, s: System, round: int) returns (t: System)
    requires Standing(members, s) && 0 in members && s.nodes[0].leader == 0 && Blank(s.nodes[0])
    ensures Standing(members, t) && 0 in t.nodes && Moved(s, t, 0, t.nodes[0])
    ensures Leads(t.nodes[0], 0, s.nodes[0].term, 0, [], round)
    ensures Replicate(Own(0, 0, round), 0, s.nodes[0].term) in t.sent
  {
    var c, n, now := Config(members, 0), s.nodes[0], At(round);
    var own, e := OwnRequest(c, n, now), Multicast(Replicate(OwnRequest(c, n, now), 0, n.term));
    OneSubmitted(c, n, now);
    var s1 := SelfSubmit(c, n, now).node;
    var s2 := n.(nextRequestId := 1);
    assert Fill(c, s2, own, now) == own && Submit(c, s2, own) == SelfSubmit(c, n, now);
    assert StartReplication(c, s1, now) == TakePending(c, s1, now) == Result(Launched(c, n, now), [e]);
    LaunchedLeads(c, n, now, 0);
    var r := Result(Launched(c, n, now), [] + [e]);
    assert Generate(c, n, now) == r;
    t := Acts(members, s, 0, Produce, round, r);
    assert r.out[0].m == e.m;
  }

  // ---------------------------------------------------------------- a request goes round

  lemma HearStage(members: set<Id>, s: System, p: Id, r: Request, from: Id, term: int, round: int) returns (t: System)
    requires Standing(members, s) && p in members && from != p && from != NO_PEER_ID && term >= 0
    requires Replicate(r, from, term) in s.sent && KeyValid(KeyOf(r)) && s.nodes[p].term <= term
    ensures Standing(members, t) && p in t.nodes && Moved(s, t, p, t.nodes[p]) && Respond(r, p, term) in t.sent
    ensures t.nodes[p].term == term && t.nodes[p].leader == from && t.nodes[p].known == s.nodes[p].known + {KeyOf(r)}
  {
    var res := HandleReplicate(Config(members, p), s.nodes[p], Replicate(r, from, term), At(round));
    t := Acts(members, s, p, Receive(Replicate(r, from, term)), round, res);
    assert res.out[0].m == Respond(r, p, term);
  }

  /** A response that does not decide yet. */
  lemma AnswerStage(members: set<Id>, s: System, p: Id, q: Id, term: int, i: nat, answers: seq<Id>, first: int, said: int,
                    round: int) returns (t: System)
    requires Standing(members, s) && p in members && Leads(s.nodes[p], p, term, i, answers, first)
    requires Respond(Own(p, i, first), q, said) in s.sent && q != p && q != NO_PEER_ID && q !in answers
    requires |answers| + 1 <= |members| / 2
    ensures Standing(members, t) && p in t.nodes && Moved(s, t, p, t.nodes[p])
    ensures Leads(t.nodes[p], p, term, i, answers + [q], first)
  {
    var n, m := s.nodes[p], Respond(Own(p, i, first), q, said);
    var n' := n.(replies := n.replies[(p, i) := answers + [q]]);
    t := Acts(members, s, p, Receive(m), round, Result(n', []));
  }

  lemma ConfirmedLeads(c: Config, n: Node, term: int, i: nat, answers: seq<Id>, first: int, q: Id, said: int, now: Now)
    requires c.me != NO_PEER_ID && Leads(n, c.me, term, i, answers, first)
    requires q != NO_PEER_ID && q !in answers && HasQuorum(c, |answers| + 1)
    ensures var r := HandleRespond(c, n, Respond(Own(c.me, i, first), q, said), now);
      && Leads(r.node, c.me, term, i + 1, [], now.round) && |r.out| == 2
      && r.out[0].m.Commit? && KeyOf(r.out[0].m.request) == (c.me, i) && r.out[0].m.from == c.me && r.out[0].m.term == term
      && r.out[1].m == Replicate(Own(c.me, i + 1, now.round), c.me, term)
  {
    var m, k := Respond(Own(c.me, i, first), q, said), (c.me, i);
    var submitted := if k in n.submittedRound then n.submittedRound[k] else OrElse(m.request.roundSubmitted, now.round);
    var s1 := AfterConfirm(Counted(n, m), m.request, submitted, now.round);
    ConfirmedIsBetween(n, c.me, term, i, answers, first, m, submitted, now.round);
    LaunchedLeads(c, s1, now, i + 1);
  }

  lemma ConfirmedIsBetween(n: Node, p: Id, term: int, i: nat, answers: seq<Id>, first: int, m: Msg, submitted: int, round: int)
    requires Leads(n, p, term, i, answers, first) && m.Respond? && m.request == Own(p, i, first) && p != NO_PEER_ID
    ensures Between(AfterConfirm(Counted(n, m), m.request, submitted, round), p, term, i + 1)
  {
    assert Without((p, i), []) == [];
  }

  /** The response that confirms the request; the leader goes on to its next own one. */
  lemma ConfirmStage(members: set<Id>, s: System, p: Id, q: Id, term: int, i: nat, answers: seq<Id>, first: int, said: int,
                     round: int) returns (t: System, m: Msg)
    requires Standing(members, s) && p in members && Leads(s.nodes[p], p, term, i, answers, first)
    requires Respond(Own(p, i, first), q, said) in s.sent && q != p && q != NO_PEER_ID && q !in answers
    requires |answers| + 1 > |members| / 2
    ensures Standing(members, t) && p in t.nodes && Moved(s, t, p, t.nodes[p])
    ensures Leads(t.nodes[p], p, term, i + 1, [], round) && Replicate(Own(p, i + 1, round), p, term) in t.sent
    ensures m in t.sent && m.Commit? && KeyOf(m.request) == (p, i) && m.from == p && m.term == term
  {
    var c, n, x := Config(members, p), s.nodes[p], Respond(Own(p, i, first), q, said);
    ConfirmedLeads(c, n, term, i, answers, first, q, said, At(round));
    var r := HandleRespond(c, n, x, At(round));
    t := Acts(members, s, p, Receive(x), round, r);
    m := r.out[0].m;
    assert r.out[1].m in t.sent;
  }
}
