/**
 * Where agreement ends. Within a view it holds for committees of 3f+1 members and, for a reason
 * of their own, for those of at most three; for every other size there is a run that breaks it.
 * Across two views there is such a run for every size 3f+1 with f > 0.
 */
module PbftLimits {
  import opened Quorums
  import opened PbftNode
  import opened PbftRuns
  import opened PbftScenes
  import opened PbftStages
  import opened PbftSmall

  // ---------------------------------------------------------------- committees

  /** Two decisions at one position in a run of a valid committee of `n` members. */
  ghost predicate Decided(w: World, n: nat, s: System, d: Decision, e: Decision) {
    && Valid(w) && |w.committee| == n && Reachable(w, s)
    && d in s.decided && e in s.decided && d.position == e.position
  }

  /** In every run of every valid committee of `n` members, decisions of one slot are the same. */
  ghost predicate AgreesWithinViews(n: nat) {
    forall w, s, d, e :: Decided(w, n, s, d, e) && d.view == e.view ==> d.request == e.request
  }

  /** In every run of every valid committee of `n` members, decisions at one position in these views are the same. */
  ghost predicate AgreesAcross(n: nat, v: nat, v': nat) {
    forall w, s, d, e :: Decided(w, n, s, d, e) && d.view == v && e.view == v' ==> d.request == e.request
  }

  const R1: Request := Request(1, 0, 0, false)
  const R2: Request := Request(2, 0, 0, false)

  // ---------------------------------------------------------------- within a view

  lemma InitialIsReady(slot: Slot, round: nat)
    requires slot.v == 0 && Quorum(slot.committee) >= 1 && round <= 10
    ensures Ready(slot, Initial(), round) && Idle(Initial(), 0, 10)
  {
  }

  /** f Byzantine members, one of them the leader, and two groups of f+1 correct ones. */
  lemma TwoGroups(n: nat, f: nat) returns (w: World, z: seq<Id>, g: seq<Id>, h: seq<Id>)
    requires f >= 1 && 3 * f + 2 <= n <= 3 * f + 3
    ensures Valid(w) && |w.committee| == n && F(w.committee) == f && LeaderFor(w.committee, 0) in w.byzantine
    ensures forall x :: x in z ==> x in w.byzantine
    ensures Unique(g + z) && Unique(h + z) && |g| == |h| == f + 1 && |z| == f
    ensures forall p :: p in g ==> p in Correct(w) && p !in h
    ensures forall p :: p in h ==> p in Correct(w)
  {
    z, g, h := Span(0, f), Span(f, 2 * f + 1), Span(2 * f + 1, 3 * f + 2);
    w := World(Span(0, n), Elements(z));
    UniqueSize(z);
    assert w.committee[0] in z;
    UniqueConcat(g, z);
    UniqueConcat(h, z);
  }

  lemma GroupsDisagree(n: nat, f: nat) returns (w: World, s: System, d: Decision, e: Decision)
    requires f >= 1 && 3 * f + 2 <= n <= 3 * f + 3
    ensures Decided(w, n, s, d, e) && d.view == e.view && d.request != e.request
  {
    var z, g, h;
    w, z, g, h := TwoGroups(n, f);
    var a, b := Slot(w.committee, 0, R1), Slot(w.committee, 0, R2);
    Begin(w);
    InitialIsReady(a, 2);
    InitialIsReady(b, 2);
    s := GroupDecides(w, a, Start(w), g, z, 0);
    s := GroupDecides(w, b, s, h, z, 0);
    d, e := Decision(g[0], 0, 0, R1), Decision(h[0], 0, 0, R2);
  }

  lemma ReachedAgrees(w: World, n: nat, s: System, d: Decision, e: Decision)
    requires Decided(w, n, s, d, e) && d.view == e.view && (n % 3 == 1 || n <= 3)
    ensures d.request == e.request
  {
    var run, steps :| IsRun(w, run, steps) && run[|steps|] == s;
    if |w.committee| <= 3 {
      SmallCommitteesAgree(w, run, steps, |steps|, d, e);
    } else {
      Agreement(w, run, steps, |steps|, d, e);
    }
  }

  /** Agreement within a view, over all runs of the code: for 3f+1 members, for two and for three, and for no other size. */
  lemma AgreementExactly(n: nat)
    ensures AgreesWithinViews(n) <==> n % 3 == 1 || n <= 3
  {
    if n % 3 == 1 || n <= 3 {
      forall w, s, d, e | Decided(w, n, s, d, e) && d.view == e.view ensures d.request == e.request {
        ReachedAgrees(w, n, s, d, e);
      }
    } else {
      var w, s, d, e := GroupsDisagree(n, (n - 1) / 3);
      assert !AgreesWithinViews(n);
    }
  }

  // ---------------------------------------------------------------- across views

  /** Who plays which part: Byzantine helpers, the correct members, and two groups of f+1 of those. */
  datatype Cast = Cast(w: World, z: seq<Id>, all: seq<Id>, g: seq<Id>, h: seq<Id>)

  ghost predicate IsCast(k: Cast, f: nat, v: nat, v': nat) {
    && f >= 1 && Valid(k.w) && |k.w.committee| == 3 * f + 1 && F(k.w.committee) == f
    && Unique(k.z) && |k.z| == f && (forall x :: x in k.z ==> x in k.w.byzantine)
    && LeaderFor(k.w.committee, v') in k.w.byzantine
    && (LeaderFor(k.w.committee, v) in k.w.byzantine || LeaderFor(k.w.committee, v) in k.all)
    && Unique(k.all) && |k.all| == 2 * f + 1 && (forall p :: p in k.all <==> p in Correct(k.w))
    && Unique(k.g) && Unique(k.h) && |k.g| == |k.h| == f + 1
    && (forall p :: p in k.g ==> p in k.all && p != LeaderFor(k.w.committee, v))
    && (forall p :: p in k.h ==> p in k.all && p != k.g[0])
  }

  lemma LeaderIsMember(committee: seq<Id>, v: nat)
    requires committee != []
    ensures LeaderFor(committee, v) in committee
  {
  }

  lemma Casting(f: nat, v: nat, v': nat) returns (k: Cast)
    requires f >= 1
    ensures IsCast(k, f, v, v')
  {
    var committee := Span(0, 3 * f + 1);
    LeaderIsMember(committee, v);
    LeaderIsMember(committee, v');
    IncreasingSize(committee);
    var members, first, last := Elements(committee), LeaderFor(committee, v), LeaderFor(committee, v');
    var bad := ByzantinePart(members, first, last, f);
    var correct := members - bad;
    assert members == bad + correct;
    k := CastGroups(World(committee, bad), correct, first, f);
  }

  lemma ByzantinePart(members: set<Id>, first: Id, last: Id, f: nat) returns (bad: set<Id>)
    requires f >= 1 && |members| == 3 * f + 1 && first in members && last in members
    ensures bad <= members && |bad| == f && last in bad && (first in bad ==> first == last)
  {
    var rest := members - {first} - {last};
    assert members == rest + {first} + {last};
    assert |rest| >= 3 * f - 1;
    var part := Part(rest, f - 1);
    bad := part + {last};
  }

  lemma CastGroups(w: World, correct: set<Id>, first: Id, f: nat) returns (k: Cast)
    requires f >= 1 && |correct| == 2 * f + 1 && |w.byzantine| == f
    ensures k.w == w && Unique(k.z) && |k.z| == f && (forall x :: x in k.z <==> x in w.byzantine)
    ensures Unique(k.all) && |k.all| == 2 * f + 1 && (forall p :: p in k.all <==> p in correct)
    ensures Unique(k.g) && Unique(k.h) && |k.g| == |k.h| == f + 1
    ensures forall p :: p in k.g ==> p in k.all && p != first
    ensures forall p :: p in k.h ==> p in k.all && p != k.g[0]
  {
    var z := Listed(w.byzantine);
    var all := Listed(correct);
    var backups := correct - {first};
    assert correct <= backups + {first};
    SubsetSize(correct, backups + {first});
    var part := Part(backups, f + 1);
    var g := Listed(part);
    var others := correct - {g[0]};
    assert correct == others + {g[0]};
    var part' := Part(others, f + 1);
    var h := Listed(part');
    k := Cast(w, z, all, g, h);
  }

  // ---------------------------------------------------------------- the first view

  lemma VotersAreDistinct(k: Cast, f: nat, v: nat, v': nat)
    requires IsCast(k, f, v, v')
    ensures Unique(k.g + k.z) && Unique(k.h + k.z)
  {
    forall x | x in k.g || x in k.h ensures x !in k.z {
      assert x in k.all;
      assert x in Correct(k.w);
    }
    UniqueConcat(k.g, k.z);
    UniqueConcat(k.h, k.z);
  }

  /** A deadline that all correct members keep while they are in view `v`. */
  function DeadlineIn(v: nat): nat {
    if v == 0 then 10 else Later(10, v) + 9
  }

  lemma FreshIsReady(slot: Slot, n: Node, deadline: nat, round: nat)
    requires Fresh(n, slot.v, deadline) && round <= deadline && Quorum(slot.committee) >= 1
    ensures Ready(slot, n, round) && Idle(n, slot.v, deadline)
  {
    assert forall i :: 0 <= i < |n.log| ==> n.log[i] in n.log;
  }

  /** Everybody is in view `v` with nothing executed, the group is ready and the proposal is out. */
  ghost predicate OnStage(k: Cast, v: nat, r: Request, s: System) {
    var slot := Slot(k.w.committee, v, r);
    && Reachable(k.w, s) && s.nodes.Keys == Correct(k.w) && Deliverable(k.w, s.sent, slot.Asks())
    && (forall p :: p in k.all ==> p in s.nodes && Idle(s.nodes[p], v, DeadlineIn(v)))
    && (forall p :: p in k.g ==> p in s.nodes && Ready(slot, s.nodes[p], DeadlineIn(v)))
  }

  /** The leader of the first view, if it is correct, gets the request from a client. */
  lemma GivenRequest(k: Cast, f: nat, v: nat, v': nat, r: Request) returns (s: System)
    requires IsCast(k, f, v, v')
    ensures Reachable(k.w, s) && s.nodes.Keys == Correct(k.w)
    ensures forall p :: p in s.nodes ==> s.nodes[p] == Initial().(unhandled := s.nodes[p].unhandled)
    ensures var p := LeaderFor(k.w.committee, v); p in s.nodes ==> s.nodes[p].unhandled == [(0, r)]
    ensures forall p :: p in s.nodes && p != LeaderFor(k.w.committee, v) ==> s.nodes[p] == Initial()
  {
    Begin(k.w);
    s := Start(k.w);
    var leader := LeaderFor(k.w.committee, v);
    if leader in s.nodes {
      Extend(k.w, s, Client(leader, 0, r));
      s := Apply(k.w, s, Client(leader, 0, r));
    }
  }

  lemma FirstViewStage(k: Cast, f: nat, v': nat, r: Request) returns (s: System)
    requires IsCast(k, f, 0, v')
    ensures OnStage(k, 0, r, s)
  {
    var slot := Slot(k.w.committee, 0, r);
    s := GivenRequest(k, f, 0, v', r);
    InitialIsReady(slot, 10);
    var p := slot.Leader();
    if p in s.nodes {
      var n, m := s.nodes[p], slot.Asks();
      LeaderProposes(slot, n, 0);
      assert Sends([m]) == [Send(m)] && m in [m];
      s := Call(k.w, s, p, 0, Proposed(slot, n), [m]);
    }
  }

  /** Everybody waits for view `v`, except that a correct leader has entered it and proposed. */
  ghost predicate Gathered(k: Cast, v: nat, r: Request, s: System) {
    var slot := Slot(k.w.committee, v, r);
    && v > 0 && Reachable(k.w, s) && s.nodes.Keys == Correct(k.w)
    && Deliverable(k.w, s.sent, slot.Asks()) && Deliverable(k.w, s.sent, NewView(0, v, 0, [], slot.Leader()))
    && (forall p :: p in k.all ==> p in s.nodes && AskFor(v - 1, p) in s.sent)
    && (forall p :: p in k.all && p != slot.Leader() ==> p in s.nodes && Waiting(s.nodes[p], p, v, Later(10, v)))
    && (slot.Leader() in s.nodes ==> Idle(s.nodes[slot.Leader()], v, DeadlineIn(v)))
  }

  lemma AllGiveUp(k: Cast, f: nat, v: nat, v': nat, r: Request) returns (s: System)
    requires IsCast(k, f, v, v') && v > 0
    ensures Reachable(k.w, s) && s.nodes.Keys == Correct(k.w)
    ensures forall p :: p in k.all ==> p in s.nodes && Waiting(s.nodes[p], p, v, Later(10, v)) && AskFor(v - 1, p) in s.sent
    ensures var p := LeaderFor(k.w.committee, v); p in s.nodes ==> s.nodes[p].unhandled == [(0, r)]
  {
    var s0 := GivenRequest(k, f, v, v', r);
    assert k.all[..|k.all|] == k.all;
    s := GroupGivesUp(k.w, s0, k.all, |k.all|, 0, 10, v);
    forall p | p in k.all ensures GaveUp(s0, s, p, v, Later(10, v)) {
    }
  }

  lemma GatherStage(k: Cast, f: nat, v: nat, v': nat, r: Request) returns (s: System)
    requires IsCast(k, f, v, v') && v > 0
    ensures Gathered(k, v, r, s)
  {
    s := AllGiveUp(k, f, v, v', r);
    if LeaderFor(k.w.committee, v) in k.all {
      s := LeaderGathers(k, f, v, v', r, s);
    }
  }

  lemma LeaderGathers(k: Cast, f: nat, v: nat, v': nat, r: Request, s: System) returns (t: System)
    requires IsCast(k, f, v, v') && v > 0 && LeaderFor(k.w.committee, v) in k.all && Reachable(k.w, s)
    requires s.nodes.Keys == Correct(k.w) && s.nodes[LeaderFor(k.w.committee, v)].unhandled == [(0, r)]
    requires forall p :: p in k.all ==> p in s.nodes && Waiting(s.nodes[p], p, v, Later(10, v)) && AskFor(v - 1, p) in s.sent
    ensures Gathered(k, v, r, t)
  {
    var slot := Slot(k.w.committee, v, r);
    var p := slot.Leader();
    BesidesHas(k.all, p);
    assert CanEnter(k.w, s, p, Besides(k.all, p), v, Later(10, v));
    t := LeadStage(k.w, slot, s, Besides(k.all, p), Later(10, v));
  }

  lemma LaterViewStage(k: Cast, f: nat, v: nat, v': nat, r: Request) returns (t: System)
    requires IsCast(k, f, v, v') && v > 0
    ensures OnStage(k, v, r, t)
  {
    var s := GatherStage(k, f, v, v', r);
    var slot := Slot(k.w.committee, v, r);
    assert k.g[..|k.g|] == k.g;
    t := GroupEnters(k.w, s, k.g, |k.g|, k.all, v, Later(10, v));
    forall q | q in k.all ensures Idle(t.nodes[q], v, DeadlineIn(v)) && (q in k.g ==> Ready(slot, t.nodes[q], DeadlineIn(v))) {
      if q in k.g {
        FreshIsReady(slot, t.nodes[q], DeadlineIn(v), DeadlineIn(v));
      } else if q != slot.Leader() {
        WaitingIsIdle(t.nodes[q], q, v, Later(10, v));
      }
    }
  }

  // ---------------------------------------------------------------- the second view

  lemma CommittedIsIdle(slot: Slot, base: Node, p: Id, others: seq<Id>, deadline: nat)
    requires Idle(base, slot.v, deadline)
    ensures Idle(Committed1(slot, base, p, others), slot.v, deadline)
  {
  }

  /** The first group executes in view `v`; all but one of the correct members have executed nothing. */
  lemma FirstDecision(k: Cast, f: nat, v: nat, v': nat, s: System) returns (t: System)
    requires IsCast(k, f, v, v') && OnStage(k, v, R1, s)
    ensures Reachable(k.w, t) && t.nodes.Keys == Correct(k.w) && Decision(k.g[0], v, 0, R1) in t.decided
    ensures forall p :: p in k.h ==> p in t.nodes && Idle(t.nodes[p], v, DeadlineIn(v))
  {
    var slot := Slot(k.w.committee, v, R1);
    VotersAreDistinct(k, f, v, v');
    t := GroupDecides(k.w, slot, s, k.g, k.z, DeadlineIn(v) - 2);
    forall p | p in k.h ensures p in t.nodes && Idle(t.nodes[p], v, DeadlineIn(v)) {
      assert p in k.all;
      if p in k.g {
        assert HasCommitted(slot, s, t, k.g + k.z, p);
        CommittedIsIdle(slot, s.nodes[p], p, Besides(k.g + k.z, p), DeadlineIn(v));
      }
    }
  }

  /** The second group changes to view `v'` and executes something else there. */
  lemma SecondDecision(k: Cast, f: nat, v: nat, v': nat, s: System) returns (t: System)
    requires IsCast(k, f, v, v') && v < v' && Reachable(k.w, s) && s.nodes.Keys == Correct(k.w)
    requires forall p :: p in k.h ==> p in s.nodes && Idle(s.nodes[p], v, DeadlineIn(v))
    ensures Reachable(k.w, t) && s.decided <= t.decided && Decision(k.h[0], v', 0, R2) in t.decided
  {
    var w, slot, deadline := k.w, Slot(k.w.committee, v', R2), Later(DeadlineIn(v), v' - v);
    assert k.h[..|k.h|] == k.h;
    var a := GroupGivesUp(w, s, k.h, |k.h|, v, DeadlineIn(v), v' - v);
    VotersAreDistinct(k, f, v, v');
    var b := GroupEnters(w, a, k.h, |k.h|, k.h + k.z, v', deadline);
    forall p | p in k.h ensures Ready(slot, b.nodes[p], deadline + 9) {
      FreshIsReady(slot, b.nodes[p], deadline + 9, deadline + 9);
    }
    t := GroupDecides(w, slot, b, k.h, k.z, deadline + 7);
  }

  /** For every f >= 1 and all v < v' there is a run with different decisions at position 0 in the two views. */
  lemma ViewsDisagree(f: nat, v: nat, v': nat) returns (w: World, s: System, d: Decision, e: Decision)
    requires f >= 1 && v < v'
    ensures Decided(w, 3 * f + 1, s, d, e) && d.view == v && e.view == v' && d.request != e.request
  {
    var k := Casting(f, v, v');
    var a;
    if v == 0 {
      a := FirstViewStage(k, f, v', R1);
    } else {
      a := LaterViewStage(k, f, v, v', R1);
    }
    var b := FirstDecision(k, f, v, v', a);
    s := SecondDecision(k, f, v, v', b);
    w, d, e := k.w, Decision(k.g[0], v, 0, R1), Decision(k.h[0], v', 0, R2);
  }

  /** Decisions in two views agree in every run exactly when it is one view, or one member. */
  lemma AcrossExactly(f: nat, v: nat, v': nat)
    ensures AgreesAcross(3 * f + 1, v, v') <==> v == v' || f == 0
  {
    var n := 3 * f + 1;
    if v == v' || f == 0 {
      forall w, s, d, e | Decided(w, n, s, d, e) && d.view == v && e.view == v' ensures d.request == e.request {
        if f == 0 {
          var run, steps :| IsRun(w, run, steps) && run[|steps|] == s;
          AloneDecidesNothing(w, run, steps, |steps|);
        } else {
          ReachedAgrees(w, n, s, d, e);
        }
      }
    } else if v < v' {
      var w, s, d, e := ViewsDisagree(f, v, v');
      assert Decided(w, n, s, d, e);
    } else {
      var w, s, d, e := ViewsDisagree(f, v', v);
      assert Decided(w, n, s, e, d);
    }
  }
}
