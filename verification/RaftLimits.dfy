/**
 * Runs that show where the replication code ends short of what one might expect: two leaders in
 * one term, requests that are lost, and majorities in which no single member knows every
 * confirmed request. In none of them does a member hear itself.
 */
module RaftLimits {
  import opened Quorums
  import opened RaftNode
  import opened RaftQueues
  import opened RaftRuns
  import opened RaftElections
  import opened RaftLosses
  import opened RaftScenes
  import opened RaftKnowledge

  lemma AtStart(members: set<Id>) returns (s: System)
    requires NO_PEER_ID !in members
    ensures Standing(members, s)
    ensures forall p :: p in members ==> Stance(s.nodes[p], 0, 0, [], 100) && Blank(s.nodes[p])
  {
    s := System(map p | p in members :: Initial(100), {});
    Begin(members, s);
  }

  // ---------------------------------------------------------------- two leaders in one term

  const THREE: set<Id> := {0, 1, 2}

  /** Candidates 1 and 2 have old votes under way and both stand in term 3. */
  lemma BothStand() returns (s: System)
    ensures Standing(THREE, s)
    ensures Stance(s.nodes[1], 3, NO_PEER_ID, [], 403) && Stance(s.nodes[2], 3, NO_PEER_ID, [], 403)
    ensures Vote(2, 0, 1) in s.sent && Vote(2, 1, 1) in s.sent && Vote(1, 0, 2) in s.sent && Vote(1, 2, 2) in s.sent
  {
    s := AtStart(THREE);
    s := StandStage(THREE, s, 2, 101);
    s := VoteStage(THREE, s, 0, 2, 1, 101);
    s := VoteStage(THREE, s, 1, 2, 1, 101);
    s := StandStage(THREE, s, 1, 202);
    s := VoteStage(THREE, s, 0, 1, 2, 202);
    s := VoteStage(THREE, s, 2, 1, 2, 202);
    s := StandStage(THREE, s, 1, 303);
    s := StandStage(THREE, s, 2, 303);
  }

  /** Two votes of an earlier term make a leader of this one. */
  lemma WinsLate(s: System, p: Id, a: Id, b: Id, term: int, deadline: int) returns (t: System)
    requires Standing(THREE, s) && p in THREE && a in THREE && b in THREE && a != p && b != p && a != b
    requires Stance(s.nodes[p], 3, NO_PEER_ID, [], deadline) && Vote(p, a, term) in s.sent && Vote(p, b, term) in s.sent
    ensures Standing(THREE, t) && p in t.nodes && Moved(s, t, p, t.nodes[p])
    ensures t.nodes[p].leader == p && t.nodes[p].term == 3
  {
    assert |THREE| == 3;
    var u := CountStage(THREE, s, p, a, term, 304);
    var v := WinStage(THREE, u, p, b, term, 304);
    t := v;
  }

  /** Without the test on the term of a vote, two members lead in the same term. */
  lemma TwoLeadersInOneTerm() returns (s: System)
    ensures Reachable(THREE, s) && 1 in s.nodes && 2 in s.nodes
    ensures s.nodes[1].leader == 1 && s.nodes[2].leader == 2 && s.nodes[1].term == s.nodes[2].term
  {
    s := BothStand();
    s := WinsLate(s, 1, 0, 2, 2, 403);
    s := WinsLate(s, 2, 0, 1, 1, 403);
  }

  // ---------------------------------------------------------------- five members

  const FIVE: set<Id> := {0, 1, 2, 3, 4}

  /** Member 0 leads term 0 with a request in flight; members 2, 3 and 4 have voted for member 1. */
  lemma RivalVoted() returns (s: System)
    ensures Standing(FIVE, s) && Leads(s.nodes[0], 0, 0, 0, [], 0)
    ensures Stance(s.nodes[1], 1, NO_PEER_ID, [], 201) && Blank(s.nodes[1])
    ensures forall q :: q in {2, 3, 4} ==> s.nodes[q].term == 1 && Vote(1, q, 1) in s.sent
  {
    s := AtStart(FIVE);
    s := ProduceStage(FIVE, s, 0);
    s := StandStage(FIVE, s, 1, 101);
    s := VoteStage(FIVE, s, 2, 1, 1, 101);
    s := VoteStage(FIVE, s, 3, 1, 1, 101);
    s := VoteStage(FIVE, s, 4, 1, 1, 101);
  }

  /** Member 1 leads term 1 as well, with its own request on the way. */
  lemma Rivals() returns (s: System)
    ensures Standing(FIVE, s) && Leads(s.nodes[0], 0, 0, 0, [], 0) && Leads(s.nodes[1], 1, 1, 0, [], 102)
    ensures Replicate(Own(1, 0, 102), 1, 1) in s.sent && forall q :: q in {2, 3, 4} ==> s.nodes[q].term == 1
  {
    s := RivalVoted();
    assert |FIVE| == 5;
    s := CountStage(FIVE, s, 1, 2, 1, 102);
    s := CountStage(FIVE, s, 1, 3, 1, 102);
    s := LeadStage(FIVE, s, 1, 4, 1, 102);
  }

  lemma RivalHeard() returns (s: System)
    ensures Standing(FIVE, s) && Leads(s.nodes[0], 0, 0, 0, [], 0) && Leads(s.nodes[1], 1, 1, 0, [], 102)
    ensures forall q :: q in {2, 3, 4} ==> Respond(Own(1, 0, 102), q, 1) in s.sent
  {
    s := Rivals();
    s := HearStage(FIVE, s, 2, Own(1, 0, 102), 1, 1, 103);
    s := HearStage(FIVE, s, 3, Own(1, 0, 102), 1, 1, 103);
    s := HearStage(FIVE, s, 4, Own(1, 0, 102), 1, 1, 103);
  }

  lemma RivalConfirms() returns (s: System, m: Msg)
    ensures Standing(FIVE, s) && Leads(s.nodes[0], 0, 0, 0, [], 0) && Leads(s.nodes[1], 1, 1, 1, [], 104)
    ensures m in s.sent && m.Commit? && m.from == 1 && m.term == 1
  {
    s := RivalHeard();
    assert |FIVE| == 5;
    s := AnswerStage(FIVE, s, 1, 2, 1, 0, [], 102, 1, 104);
    s := AnswerStage(FIVE, s, 1, 3, 1, 0, [] + [2], 102, 1, 104);
    s, m := ConfirmStage(FIVE, s, 1, 4, 1, 0, [] + [2] + [3], 102, 1, 104);
  }

  /** A commit of a later term leaves a leader leading, in that term. */
  lemma LeaderIsOvertaken() returns (s: System)
    ensures Reachable(FIVE, s) && 0 in s.nodes && 1 in s.nodes
    ensures s.nodes[0].leader == 0 && s.nodes[1].leader == 1 && s.nodes[0].term == s.nodes[1].term
  {
    var m;
    s, m := RivalConfirms();
    var r := HandleCommit(Config(FIVE, 0), s.nodes[0], m);
    s := Acts(FIVE, s, 0, Receive(m), 105, r);
  }

  // ---------------------------------------------------------------- lost requests

  lemma ReachedQueuesOk(members: set<Id>, s: System, p: Id)
    requires Standing(members, s) && p in members
    ensures QueuesOk(s.nodes[p])
  {
    var run, steps :| IsPlainRun(members, run, steps) && run[|steps|] == s;
    QueuesStaySound(members, run, steps, |steps|, p);
  }

  /** A leader that hears of a new one loses the request it has in flight. */
  lemma FlightIsDropped() returns (s: System, e: Event)
    ensures Reachable(FIVE, s) && Enabled(s, Step(0, e, At(103))) && DropsFlight(s.nodes[0], e)
    ensures LosesAt(Config(FIVE, 0), s.nodes[0], e, At(103))
  {
    s := Rivals();
    e := Receive(Replicate(Own(1, 0, 102), 1, 1));
    ReachedQueuesOk(FIVE, s, 0);
    LossExactly(Config(FIVE, 0), s.nodes[0], e, At(103));
  }

  /** Member 2 leads term 2 with one answer to its own request; the request of the leader of term 1 is still on its way. */
  lemma LateRequest() returns (s: System)
    ensures Standing(THREE, s) && Leads(s.nodes[2], 2, 2, 0, [] + [0], 202)
    ensures Replicate(Own(1, 0, 102), 1, 1) in s.sent && Respond(Own(2, 0, 202), 1, 2) in s.sent
  {
    s := SecondLeader();
    assert |THREE| == 3;
    s := HearStage(THREE, s, 0, Own(2, 0, 202), 2, 2, 203);
    s := HearStage(THREE, s, 1, Own(2, 0, 202), 2, 2, 203);
    s := AnswerStage(THREE, s, 2, 0, 2, 0, [], 202, 2, 204);
  }

  lemma FirstLeader() returns (s: System)
    ensures Standing(THREE, s) && Replicate(Own(1, 0, 102), 1, 1) in s.sent
    ensures Stance(s.nodes[2], 1, NO_PEER_ID, [], 201) && Blank(s.nodes[2]) && s.nodes[0].term == s.nodes[1].term == 1
  {
    s := AtStart(THREE);
    assert |THREE| == 3;
    s := StandStage(THREE, s, 1, 101);
    s := VoteStage(THREE, s, 0, 1, 1, 101);
    s := VoteStage(THREE, s, 2, 1, 1, 101);
    s := CountStage(THREE, s, 1, 0, 1, 102);
    s := LeadStage(THREE, s, 1, 2, 1, 102);
  }

  lemma SecondLeader() returns (s: System)
    ensures Standing(THREE, s) && Leads(s.nodes[2], 2, 2, 0, [], 202) && s.nodes[0].term == s.nodes[1].term == 2
    ensures Replicate(Own(1, 0, 102), 1, 1) in s.sent && Replicate(Own(2, 0, 202), 2, 2) in s.sent
  {
    s := FirstLeader();
    assert |THREE| == 3;
    s := StandStage(THREE, s, 2, 201);
    s := VoteStage(THREE, s, 0, 2, 2, 201);
    s := VoteStage(THREE, s, 1, 2, 2, 201);
    s := CountStage(THREE, s, 2, 0, 2, 202);
    s := LeadStage(THREE, s, 2, 1, 2, 202);
  }

  /** The old request reaches the new leader and is deferred there. */
  lemma LateRequestDeferred() returns (s: System)
    ensures Standing(THREE, s) && Respond(Own(2, 0, 202), 1, 2) in s.sent
    ensures var n := s.nodes[2];
      && n.leader == 2 && n.inFlight == Some(Own(2, 0, 202)) && n.pending == [] && n.deferred == [Own(1, 0, 102)]
      && n.nextRequestId == 1 && RepliesFor(n, (2, 0)) == [0]
      && (forall k :: k in n.known || k in n.committed ==> k == (2, 0) || k == (1, 0)) && (1, 0) !in n.committed
  {
    s := LateRequest();
    var n, r := s.nodes[2], Own(1, 0, 102);
    var n' := n.(known := n.known + {KeyOf(r)}, deferred := n.deferred + [r]);
    assert HandleReplicate(Config(THREE, 2), n, Replicate(r, 1, 1), At(204))
        == Result(n', [Unicast(1, Respond(r, 2, 2))]);
    s := Acts(THREE, s, 2, Receive(Replicate(r, 1, 1)), 204, Result(n', [Unicast(1, Respond(r, 2, 2))]));
  }

  /** The confirmation of the leader's own request starts two others at once, and one of them is lost. */
  lemma OverwriteHappens() returns (s: System, e: Event)
    ensures Reachable(THREE, s) && Enabled(s, Step(2, e, At(205))) && OverwritesAt(Config(THREE, 2), s.nodes[2], e)
    ensures LosesAt(Config(THREE, 2), s.nodes[2], e, At(205))
  {
    s := LateRequestDeferred();
    assert |THREE| == 3;
    e := Receive(Respond(Own(2, 0, 202), 1, 2));
    var r := Own(1, 0, 102);
    assert LiveOnly(s.nodes[2].committed + {(2, 0)}, [r]) == [r];
    ReachedQueuesOk(THREE, s, 2);
    LossExactly(Config(THREE, 2), s.nodes[2], e, At(205));
  }

  // ---------------------------------------------------------------- majorities that forget

  /** Nobody outside the list moved, and what was sent stays sent. */
  predicate OthersStay(s: System, t: System, who: seq<Id>) {
    s.nodes.Keys == t.nodes.Keys && s.sent <= t.sent && forall p :: p in s.nodes && p !in who ==> t.nodes[p] == s.nodes[p]
  }

  predicate HasHeard(s: System, t: System, p: Id, r: Request) {
    && p in s.nodes && p in t.nodes && t.nodes[p].term == 0 && t.nodes[p].known == s.nodes[p].known + {KeyOf(r)}
    && Respond(r, p, 0) in t.sent
  }

  lemma {:induction false} GroupHears(members: set<Id>, s: System, group: seq<Id>, k: nat, r: Request, round: int) returns (t: System)
    requires Standing(members, s) && Unique(group) && k <= |group| && KeyValid(KeyOf(r)) && Replicate(r, 0, 0) in s.sent
    requires forall p :: p in group ==> p in members && p != 0 && s.nodes[p].term == 0
    ensures Standing(members, t) && OthersStay(s, t, group[..k])
    ensures forall p :: p in group[..k] ==> HasHeard(s, t, p, r)
    decreases k
  {
    if k == 0 {
      t := s;
    } else {
      var u := GroupHears(members, s, group, k - 1, r, round);
      var p := group[k - 1];
      assert p in group && p !in group[..k - 1];
      t := HearStage(members, u, p, r, 0, 0, round);
      OneMoreHas(s, u, t, group, k, r);
    }
  }

  lemma OneMoreHas(s: System, u: System, t: System, group: seq<Id>, k: nat, r: Request)
    requires Unique(group) && 0 < k <= |group| && OthersStay(s, u, group[..k - 1]) && OthersStay(u, t, [group[k - 1]])
    requires (forall p :: p in group[..k - 1] ==> HasHeard(s, u, p, r)) && HasHeard(s, t, group[k - 1], r)
    ensures OthersStay(s, t, group[..k]) && forall p :: p in group[..k] ==> HasHeard(s, t, p, r)
  {
    assert group[..k] == group[..k - 1] + [group[k - 1]];
    forall p | p in group[..k - 1] ensures p != group[k - 1] && HasHeard(s, t, p, r) {
      assert HasHeard(s, u, p, r);
    }
  }

  lemma {:induction false} GroupAnswers(members: set<Id>, s: System, group: seq<Id>, k: nat, i: nat, round: int) returns (t: System)
    requires Standing(members, s) && 0 in members && Unique(group) && k <= |group| && k <= |members| / 2
    requires Leads(s.nodes[0], 0, 0, i, [], i)
    requires forall p :: p in group ==> p in members && p != 0 && Respond(Own(0, i, i), p, 0) in s.sent
    ensures Standing(members, t) && OthersStay(s, t, [0]) && Leads(t.nodes[0], 0, 0, i, group[..k], i)
    decreases k
  {
    if k == 0 {
      t := s;
    } else {
      var u := GroupAnswers(members, s, group, k - 1, i, round);
      var p := group[k - 1];
      assert p in group && p !in group[..k - 1];
      t := AnswerStage(members, u, 0, p, 0, i, group[..k - 1], i, 0, round);
      assert group[..k] == group[..k - 1] + [p];
    }
  }

  /** Request `i` of the leader is confirmed by exactly this group. */
  lemma RoundStage(members: set<Id>, s: System, group: seq<Id>, i: nat) returns (t: System)
    requires Standing(members, s) && 0 in members && Unique(group) && |group| == |members| / 2 + 1
    requires Leads(s.nodes[0], 0, 0, i, [], i) && Replicate(Own(0, i, i), 0, 0) in s.sent
    requires forall p :: p in group ==> p in members && p != 0 && s.nodes[p].term == 0
    ensures Standing(members, t) && Leads(t.nodes[0], 0, 0, i + 1, [], i + 1) && Replicate(Own(0, i + 1, i + 1), 0, 0) in t.sent
    ensures OthersStay(s, t, [0] + group) && forall p :: p in group ==> HasHeard(s, t, p, Own(0, i, i))
  {
    var n := |group|;
    assert group[..n] == group;
    var a := GroupHears(members, s, group, n, Own(0, i, i), i + 1);
    t := AnswersConfirm(members, a, group, i);
    forall p | p in group ensures HasHeard(s, t, p, Own(0, i, i)) {
      assert HasHeard(s, a, p, Own(0, i, i));
    }
  }

  lemma AnswersConfirm(members: set<Id>, s: System, group: seq<Id>, i: nat) returns (t: System)
    requires Standing(members, s) && 0 in members && Unique(group) && |group| == |members| / 2 + 1
    requires Leads(s.nodes[0], 0, 0, i, [], i)
    requires forall p :: p in group ==> p in members && p != 0 && Respond(Own(0, i, i), p, 0) in s.sent
    ensures Standing(members, t) && OthersStay(s, t, [0])
    ensures Leads(t.nodes[0], 0, 0, i + 1, [], i + 1) && Replicate(Own(0, i + 1, i + 1), 0, 0) in t.sent
  {
    var n := |group|;
    var last := group[n - 1];
    assert last in group && last !in group[..n - 1];
    var b := GroupAnswers(members, s, group, n - 1, i, i + 1);
    var m;
    t, m := ConfirmStage(members, b, 0, last, 0, i, group[..n - 1], i, 0, i + 1);
  }

  /** In every run without echoes of `n` members, each majority has one that knows any `m` confirmed requests. */
  ghost predicate AlwaysKnown(n: nat, m: nat) {
    forall members, s, keys :: Confirmed(members, s, keys) && |members| == n && |keys| <= m ==> EveryMajorityKnows(s, keys)
  }

  ghost predicate Confirmed(members: set<Id>, s: System, keys: set<Key>) {
    Reachable(members, s) && AllConfirmed(s, keys)
  }

  function Crew(n: nat): (members: set<Id>)
    ensures |members| == n && forall p :: p in members <==> 0 <= p < n
  {
    IncreasingSize(Span(0, n));
    Elements(Span(0, n))
  }

  /** The first of the `c` members that do not hear of request `i`. */
  function Skipped(n: nat, c: nat, i: nat): (lo: nat)
    requires 1 <= c && c + 1 <= n
    ensures 1 <= lo && lo + c <= n
  {
    if 1 + i * c <= n - c then 1 + i * c else n - c
  }

  predicate Hears(n: nat, c: nat, i: nat, p: Id)
    requires 1 <= c && c + 1 <= n
  {
    !(Skipped(n, c, i) <= p < Skipped(n, c, i) + c)
  }

  /** Everybody but the leader and those left out. */
  function Group(n: nat, c: nat, i: nat): (group: seq<Id>)
    requires 1 <= c && c + 1 <= n
    ensures Unique(group) && |group| == n - 1 - c && forall p :: p in group <==> 1 <= p < n && Hears(n, c, i, p)
  {
    var lo := Skipped(n, c, i);
    UniqueConcat(Span(1, lo), Span(lo + c, n));
    Span(1, lo) + Span(lo + c, n)
  }

  /** After `i` rounds a member knows exactly the requests it heard of. */
  ghost predicate AfterRounds(n: nat, c: nat, i: nat, s: System)
    requires 1 <= c && c + 1 <= n
  {
    && Standing(Crew(n), s) && Leads(s.nodes[0], 0, 0, i, [], i) && Replicate(Own(0, i, i), 0, 0) in s.sent
    && forall p :: 1 <= p < n ==> Informed(n, c, i, s.nodes[p], p)
  }

  ghost predicate Informed(n: nat, c: nat, i: nat, node: Node, p: Id)
    requires 1 <= c && c + 1 <= n
  {
    node.term == 0 && forall j: nat :: (0, j) in node.known <==> j < i && Hears(n, c, j, p)
  }

  lemma {:induction false} Rounds(n: nat, c: nat, i: nat) returns (s: System)
    requires 1 <= c && n - 1 - c == n / 2 + 1
    ensures AfterRounds(n, c, i, s)
    decreases i
  {
    if i == 0 {
      s := BeforeRounds(n, c);
    } else {
      s := Rounds(n, c, i - 1);
      s := NextRound(n, c, i - 1, s);
    }
  }

  lemma BeforeRounds(n: nat, c: nat) returns (s: System)
    requires 1 <= c && c + 1 <= n
    ensures AfterRounds(n, c, 0, s)
  {
    var u := AtStart(Crew(n));
    s := ProduceStage(Crew(n), u, 0);
    forall p | 1 <= p < n ensures Informed(n, c, 0, s.nodes[p], p) {
      assert s.nodes[p] == u.nodes[p] && Blank(u.nodes[p]);
    }
  }

  lemma NextRound(n: nat, c: nat, i: nat, s: System) returns (t: System)
    requires 1 <= c && n - 1 - c == n / 2 + 1 && AfterRounds(n, c, i, s)
    ensures AfterRounds(n, c, i + 1, t)
  {
    var group := Group(n, c, i);
    forall p | p in group ensures p in Crew(n) && p != 0 && s.nodes[p].term == 0 {
      assert Informed(n, c, i, s.nodes[p], p);
    }
    t := RoundStage(Crew(n), s, group, i);
    forall p | 1 <= p < n ensures Informed(n, c, i + 1, t.nodes[p], p) {
      OneMoreHeard(n, c, i, s, t, p);
    }
  }

  lemma OneMoreHeard(n: nat, c: nat, i: nat, s: System, t: System, p: Id)
    requires 1 <= c && c + 1 <= n && 1 <= p < n && p in s.nodes && p in t.nodes && Informed(n, c, i, s.nodes[p], p)
    requires if Hears(n, c, i, p) then HasHeard(s, t, p, Own(0, i, i)) else t.nodes[p] == s.nodes[p]
    ensures Informed(n, c, i + 1, t.nodes[p], p)
  {
  }

  /** The first `m` requests of the leader. */
  function FirstKeys(m: nat): (keys: set<Key>)
    ensures |keys| == m && forall k :: k in keys <==> k.0 == 0 && 0 <= k.1 < m
    decreases m
  {
    if m == 0 then {} else FirstKeys(m - 1) + {(0, m - 1)}
  }

  /** Every one of the members 1 to n/2 + 1 is left out of some round. */
  lemma LeftOut(n: nat, c: nat, m: nat, p: Id) returns (i: nat)
    requires 1 <= c && n - 1 - c == n / 2 + 1 && m * c > n / 2 && 1 <= p <= n / 2 + 1
    ensures i < m && !Hears(n, c, i, p)
  {
    i := (p - 1) / c;
    var r := (p - 1) % c;
    assert p - 1 == i * c + r && r < c;
    if i >= m {
      MulGrows(m, i, c);
    }
  }

  /** After `m` rounds nobody in the majority 1 to n/2 + 1 knows all of the first `m` requests. */
  lemma RoundsForget(n: nat, c: nat, m: nat) returns (s: System)
    requires 1 <= c && n - 1 - c == n / 2 + 1 && m * c > n / 2
    ensures Confirmed(Crew(n), s, FirstKeys(m)) && !EveryMajorityKnows(s, FirstKeys(m))
  {
    s := Rounds(n, c, m);
    var keys, v := FirstKeys(m), Elements(Span(1, n / 2 + 2));
    IncreasingSize(Span(1, n / 2 + 2));
    forall k | k in keys ensures exists p :: ConfirmedAt(s, p, k) {
      assert KeyOf(s.nodes[0].confirmed[k.1].request) == k;
      assert ConfirmedAt(s, 0, k);
    }
    forall p | p in v ensures p !in KnowAll(s, keys) {
      var i := LeftOut(n, c, m, p);
      assert Informed(n, c, m, s.nodes[p], p);
      assert (0, i) in keys && (0, i) !in s.nodes[p].known;
    }
    assert v <= s.nodes.Keys && |s.nodes| == |s.nodes.Keys| == n;
    assert v * KnowAll(s, keys) == {};
  }

  /** Where nobody hears itself: one member of every majority knows any `m` confirmed requests in
      all runs of `n` members exactly when m * (n - n/2 - 2) <= n/2. */
  lemma MajorityKnowsExactly(n: nat, m: nat)
    ensures AlwaysKnown(n, m) <==> m * (n - n / 2 - 2) <= n / 2
  {
    var c := n - n / 2 - 2;
    if m * c <= n / 2 {
      KnownIf(n, m, c);
    } else {
      ForgottenIf(n, m, c);
    }
  }

  lemma KnownIf(n: nat, m: nat, c: int)
    requires c == n - n / 2 - 2 && m * c <= n / 2
    ensures AlwaysKnown(n, m)
  {
    forall members, s, keys | Confirmed(members, s, keys) && |members| == n && |keys| <= m ensures EveryMajorityKnows(s, keys) {
      FewConfirmedAreWidelyKnown(members, s, keys, m, c);
    }
  }

  lemma ForgottenIf(n: nat, m: nat, c: int)
    requires c == n - n / 2 - 2 && m * c > n / 2
    ensures !AlwaysKnown(n, m)
  {
    NegativeProduct(m, c);
    var s := RoundsForget(n, c, m);
    assert Confirmed(Crew(n), s, FirstKeys(m));
  }

  lemma NegativeProduct(m: nat, c: int)
    requires m * c > 0
    ensures c >= 1
  {
  }
}
