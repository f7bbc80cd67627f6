/**
 * The PBFT replica as the mutable object the simulator runs: fields updated in place,
 * the log scanned by loops. Each method is tied to the value-level function it computes.
 */
module PbftReplica {
  import opened Quorums
  import opened PbftNode

  class Replica {
    const c: Config
    var view: nat
    var phase: Phase
    var timer: nat
    var log: seq<Msg>
    var confirmed: seq<Request>
    var unhandled: seq<(nat, Request)>
    var nextRequestId: int
    var latency: int
    var lastStable: nat
    var lowWater: nat
    var highWater: nat
    var anchor: nat

    function Snapshot(): Node
      reads this
    {
      Node(view, phase, timer, log, confirmed, unhandled, nextRequestId, latency,
           lastStable, lowWater, highWater, anchor)
    }

    constructor (config: Config)
      ensures c == config && Snapshot() == Initial()
    {
      c := config;
      view, phase, timer, log, confirmed, unhandled := 0, PrePreparing, 10, [], [], [];
      nextRequestId, latency, lastStable, lowWater, highWater, anchor := 0, 0, 0, 0, WINDOW, 0;
    }

    // -------------------------------------------------------------- counting votes

    method FindPrePrepare(v: nat, n: int, r: Request) returns (found: bool)
      ensures found == HasPrePrepare(c, log, v, n, r)
    {
      for i := 0 to |log|
        invariant forall k :: 0 <= k < i ==> !SupportsPrePrepare(c, log[k], v, n, r)
      {
        if SupportsPrePrepare(c, log[i], v, n, r) {
          return true;
        }
      }
      return false;
    }

    method CountPrepares(v: nat, n: int, r: Request) returns (count: nat)
      ensures count == |PrepareSenders(log, v, n, r)|
    {
      var senders: set<Id> := {};
      for i := 0 to |log|
        invariant senders == PrepareSenders(log[..i], v, n, r)
      {
        if log[i].Prepare? && BallotFor(log[i].b, v, n, r) {
          senders := senders + {log[i].b.from};
        }
        PrepareSendersStep(log, i, v, n, r);
      }
      assert log[..|log|] == log;
      return |senders|;
    }

    method CountCommits(v: nat, n: int, r: Request) returns (count: nat)
      ensures count == |CommitSenders(log, v, n, r)|
    {
      var senders: set<Id> := {};
      for i := 0 to |log|
        invariant senders == CommitSenders(log[..i], v, n, r)
      {
        if log[i].Commit? && BallotFor(log[i].b, v, n, r) {
          senders := senders + {log[i].b.from};
        }
        CommitSendersStep(log, i, v, n, r);
      }
      assert log[..|log|] == log;
      return |senders|;
    }

    method CountViewChanges() returns (count: nat)
      ensures count == |ViewChangeSenders(log, anchor, view)|
    {
      var senders: set<Id> := {};
      for i := 0 to |log|
        invariant senders == ViewChangeSenders(log[..i], anchor, view)
      {
        var m := log[i];
        if m.ViewChange? && m.seqNum == anchor && m.view == view - 1 && m.newView == view {
          senders := senders + {m.from};
        }
        ViewChangeSendersStep(log, i, anchor, view);
      }
      assert log[..|log|] == log;
      return |senders|;
    }

    // -------------------------------------------------------------- searching the log

    method FindAcceptable(n: int) returns (found: Option<Msg>)
      ensures found == First(log, 0, Acceptable(c, view, n))
    {
      var i := 0;
      while i < |log|
        invariant 0 <= i <= |log|
        invariant First(log, 0, Acceptable(c, view, n)) == First(log, i, Acceptable(c, view, n))
      {
        if PrePrepareAt(log[i], view, n) && log[i].b.from == LeaderFor(c.committee, view) {
          return Some(log[i]);
        }
        i := i + 1;
      }
      return None;
    }

    method FindPrepared(v: nat, n: int) returns (found: Option<Msg>)
      ensures found == First(log, 0, PreparedHere(c, log, v, n))
    {
      var i := 0;
      while i < |log|
        invariant 0 <= i <= |log|
        invariant First(log, 0, PreparedHere(c, log, v, n)) == First(log, i, PreparedHere(c, log, v, n))
      {
        if PrePrepareAt(log[i], v, n) {
          var r := log[i].b.proposal.value.request;
          var has := FindPrePrepare(v, n, r);
          var count := CountPrepares(v, n, r);
          if has && count > Quorum(c.committee) {
            return Some(log[i]);
          }
        }
        i := i + 1;
      }
      return None;
    }

    method FindCommitted(n: int) returns (found: Option<Msg>)
      ensures found == First(log, 0, CommittedHere(c, log, view, n))
    {
      var i := 0;
      while i < |log|
        invariant 0 <= i <= |log|
        invariant First(log, 0, CommittedHere(c, log, view, n)) == First(log, i, CommittedHere(c, log, view, n))
      {
        if PrePrepareAt(log[i], view, n) && log[i].b.from == LeaderFor(c.committee, view) {
          var count := CountCommits(view, n, log[i].b.proposal.value.request);
          if count > Quorum(c.committee) {
            return Some(log[i]);
          }
        }
        i := i + 1;
      }
      return None;
    }

    method FindNewView() returns (found: Option<Msg>)
      ensures found == First(log, 0, NewViewFromLeader(c, view, anchor))
    {
      var i := 0;
      while i < |log|
        invariant 0 <= i <= |log|
        invariant First(log, 0, NewViewFromLeader(c, view, anchor)) == First(log, i, NewViewFromLeader(c, view, anchor))
      {
        var m := log[i];
        if m.NewView? && m.seqNum == anchor && m.view == view && m.from == LeaderFor(c.committee, view) {
          return Some(m);
        }
        i := i + 1;
      }
      return None;
    }

    // -------------------------------------------------------------- checkpoints

    /** Stops at the first digest that passes the quorum, like a scan of all of them would. */
    method StableCheckpointReady(n: nat) returns (ready: bool)
      ensures ready == StableReady(c, log, n, view)
    {
      if n % CHECKPOINT_INTERVAL != 0 {
        return false;
      }
      var tally: map<seq<Request>, nat> := map[];
      for i := 0 to |log|
        invariant forall d :: Tally(log[..i], n, view, d) == if d in tally then tally[d] else 0
        invariant forall d :: Tally(log[..i], n, view, d) <= Quorum(c.committee)
      {
        assert log[..i + 1][..i] == log[..i];
        var m := log[i];
        if CheckpointAt(m, n, view) {
          tally := tally[m.digest := (if m.digest in tally then tally[m.digest] else 0) + 1];
          if tally[m.digest] > Quorum(c.committee) {
            TallyGrows(log, i + 1, n, view, m.digest);
            return true;
          }
        }
      }
      assert log[..|log|] == log;
      return false;
    }

    method PruneLog(low: nat)
      modifies this`log
      ensures log == Prune(old(log), low)
    {
      var kept: seq<Msg> := [];
      for i := 0 to |log|
        invariant log == old(log) && kept == Prune(log[..i], low)
      {
        assert log[..i + 1][..i] == log[..i];
        if log[i].SeqNum() >= low {
          kept := kept + [log[i]];
        }
      }
      assert log[..|log|] == log;
      log := kept;
    }

    method AdvanceCheckpoint()
      modifies this
      ensures Snapshot() == MaybeStableCheckpoint(c, old(Snapshot()))
    {
      var n := |confirmed|;
      if n % CHECKPOINT_INTERVAL != 0 {
        return;
      }
      var ready := StableCheckpointReady(n);
      if !ready {
        return;
      }
      lastStable := n;
      lowWater := lastStable;
      highWater := lowWater + WINDOW;
      PruneLog(lowWater);
    }

    // -------------------------------------------------------------- view changes

    method CollectProof() returns (proof: seq<Ballot>)
      ensures proof == PreparedProof(c, log, view, lastStable + 1, |confirmed|)
    {
      proof := [];
      var s := lastStable + 1;
      while s < |confirmed|
        invariant lastStable + 1 <= s
        invariant proof + PreparedProof(c, log, view, s, |confirmed|)
               == PreparedProof(c, log, view, lastStable + 1, |confirmed|)
        decreases |confirmed| - s
      {
        var found := FindPrepared(view, s);
        if found.Some? {
          proof := proof + [found.value.b];
        }
        s := s + 1;
      }
    }

    method StartViewChange(round: nat) returns (events: seq<Event>)
      modifies this
      ensures StepResult(Snapshot(), events, false) == RequestViewChange(c, old(Snapshot()), round)
    {
      var proof := CollectProof();
      var vc := ViewChange(lastStable, view, view + 1, lastStable, proof, c.me);
      anchor := lastStable;
      view := view + 1;
      log := log + [vc];
      timer := round + VIEW_CHANGE_DELAY;
      phase := ViewChanging;
      events := [Send(vc)];
    }

    method BestCarried(n: int) returns (best: Option<Ballot>)
      ensures best == BestInLog(log, anchor, view, n)
    {
      best := None;
      for i := 0 to |log|
        invariant best == BestInLog(log[..i], anchor, view, n)
      {
        assert log[..i + 1][..i] == log[..i];
        var m := log[i];
        if m.ViewChange? && m.seqNum == anchor && m.view == view - 1 && m.newView == view {
          ghost var base := best;
          for k := 0 to |m.proof|
            invariant best == BestInProof(base, m.proof[..k], n)
          {
            assert m.proof[..k + 1][..k] == m.proof[..k];
            best := Better(best, m.proof[k], n);
          }
          assert m.proof[..|m.proof|] == m.proof;
        }
      }
      assert log[..|log|] == log;
    }

    method CollectCarried() returns (carried: seq<Ballot>)
      ensures carried == CarriedOver(log, anchor, view, lastStable + 1, highWater)
    {
      carried := [];
      var n := lastStable + 1;
      ghost var all := CarriedOver(log, anchor, view, lastStable + 1, highWater);
      while n <= highWater
        invariant lastStable + 1 <= n
        invariant carried + CarriedOver(log, anchor, view, n, highWater) == all
        decreases highWater + 1 - n
      {
        var best := BestCarried(n);
        ghost var rest := CarriedOver(log, anchor, view, n + 1, highWater);
        if best.Some? {
          assert carried + ([best.value] + rest) == carried + [best.value] + rest;
          carried := carried + [best.value];
        } else {
          assert [] + rest == rest;
        }
        n := n + 1;
      }
    }

    method Reissue(proof: seq<Ballot>) returns (ms: seq<Msg>)
      ensures ms == Reissued(c, view, proof)
    {
      ms := [];
      for i := 0 to |proof|
        invariant ms == Reissued(c, view, proof[..i])
      {
        assert proof[..i + 1][..i] == proof[..i];
        var b := proof[i];
        if b.proposal.Some? {
          ms := ms + [PrePrepare(Ballot(b.seqNum, view, Some(Proposal(view, b.proposal.value.request)), c.me))];
        }
      }
      assert proof[..|proof|] == proof;
    }

    // -------------------------------------------------------------- the phases

    method PrePreparePhase(round: nat) returns (events: seq<Event>, again: bool)
      modifies this
      ensures StepResult(Snapshot(), events, again) == PrePrepareStep(c, old(Snapshot()), round)
    {
      AdvanceCheckpoint();
      if timer < round {
        events := StartViewChange(round);
        return events, false;
      }
      var n := |confirmed|;
      if c.me == LeaderFor(c.committee, view) {
        events := [];
        if unhandled == [] {
          var own := Request(nextRequestId, c.me, round, false);
          nextRequestId := nextRequestId + 1;
          unhandled := InsertByRound(unhandled, round, own);
          events := [SendRequest(own)];
        }
        var m := PrePrepare(Ballot(n, view, Some(Proposal(view, unhandled[0].1)), c.me));
        events := events + [Send(m)];
        log := log + [m];
        phase := Preparing;
        return events, false;
      }
      var found := FindAcceptable(n);
      if found.None? {
        return [], false;
      }
      var m := Prepare(found.value.b.(from := c.me));
      log := log + [m];
      phase := Preparing;
      return [Send(m)], true;
    }

    method PreparePhase(round: nat) returns (events: seq<Event>, again: bool)
      modifies this
      ensures StepResult(Snapshot(), events, again) == PrepareStep(c, old(Snapshot()), round)
    {
      AdvanceCheckpoint();
      if timer < round {
        events := StartViewChange(round);
        return events, false;
      }
      var found := FindPrepared(view, |confirmed|);
      if found.None? {
        return [], false;
      }
      var m := Commit(found.value.b.(from := c.me));
      log := log + [m];
      phase := Committing;
      return [Send(m)], true;
    }

    method CommitPhase(round: nat) returns (events: seq<Event>, again: bool)
      modifies this
      ensures StepResult(Snapshot(), events, again) == CommitStep(c, old(Snapshot()), round)
    {
      AdvanceCheckpoint();
      if timer < round {
        events := StartViewChange(round);
        return events, false;
      }
      var n := |confirmed|;
      var found := FindCommitted(n);
      if found.None? {
        return [], false;
      }
      var r := found.value.b.proposal.value.request;
      events := Execute(r, round);
      return events, true;
    }

    /** Appends the request, with a checkpoint message at every interval. */
    method Execute(r: Request, round: nat) returns (events: seq<Event>)
      modifies this
      ensures var s := old(Snapshot());
              var done := s.confirmed + [r];
              var marks := if |done| % CHECKPOINT_INTERVAL == 0 then [Checkpoint(|done|, s.view, done, c.me)] else [];
              && Snapshot() == s.(confirmed := done, latency := s.latency + round - r.roundSubmitted,
                                  timer := round + VIEW_CHANGE_DELAY, log := s.log + marks,
                                  unhandled := RemoveRequest(s.unhandled, r), phase := PrePreparing)
              && events == [Decide(s.view, |s.confirmed|, r)] + Sends(marks)
    {
      events := [Decide(view, |confirmed|, r)];
      confirmed := confirmed + [r];
      latency := latency + round - r.roundSubmitted;
      timer := round + VIEW_CHANGE_DELAY;
      if |confirmed| % CHECKPOINT_INTERVAL == 0 {
        var mark := Checkpoint(|confirmed|, view, confirmed, c.me);
        assert Sends([mark]) == [Send(mark)];
        events := events + [Send(mark)];
        log := log + [mark];
      }
      unhandled := RemoveRequest(unhandled, r);
      phase := PrePreparing;
    }

    method ViewChangePhase(round: nat) returns (events: seq<Event>, again: bool)
      modifies this
      ensures StepResult(Snapshot(), events, again) == ViewChangeStep(c, old(Snapshot()), round)
    {
      AdvanceCheckpoint();
      if round >= timer {
        events := StartViewChange(round);
        return events, false;
      }
      var count := CountViewChanges();
      if count <= Quorum(c.committee) {
        return [], false;
      }
      events := [];
      if c.me == LeaderFor(c.committee, view) {
        var carried := CollectCarried();
        var nv := NewView(anchor, view, lastStable, carried, c.me);
        log := log + [nv];
        events := [Send(nv)];
      }
      phase := NewViewing;
      again := false;
    }

    method NewViewPhase(round: nat) returns (events: seq<Event>, again: bool)
      modifies this
      ensures StepResult(Snapshot(), events, again) == NewViewStep(c, old(Snapshot()), round)
    {
      AdvanceCheckpoint();
      if round >= timer {
        events := StartViewChange(round);
        return events, false;
      }
      var found := FindNewView();
      if found.None? {
        return [], false;
      }
      var count := CountViewChanges();
      if count <= Quorum(c.committee) {
        return [], false;
      }
      lowWater := lastStable;
      highWater := lowWater + WINDOW;
      var ms := Reissue(found.value.proof);
      log := log + ms;
      events := Sends(ms);
      timer := round + VIEW_CHANGE_DELAY;
      phase := PrePreparing;
      again := true;
    }

    /** The current phase and every phase it goes on to; always returns. */
    method RunPhases(round: nat) returns (events: seq<Event>)
      modifies this
      ensures RunResult(Snapshot(), events) == RunPhase(c, old(Snapshot()), round)
      decreases Entering(phase), |Backlog(c, Snapshot())|, Rank(phase)
    {
      var again: bool;
      match phase {
        case PrePreparing => events, again := PrePreparePhase(round);
        case Preparing => events, again := PreparePhase(round);
        case Committing => events, again := CommitPhase(round);
        case ViewChanging => events, again := ViewChangePhase(round);
        case NewViewing => events, again := NewViewPhase(round);
      }
      if again {
        PhaseProgress(c, old(Snapshot()), round);
        var rest := RunPhases(round);
        events := events + rest;
      }
    }

    // -------------------------------------------------------------- the message pump

    /** One round of the replica: file everything that arrived, then run the current phase. */
    method PerformComputation(arrived: seq<Msg>, requests: seq<Request>, round: nat) returns (events: seq<Event>)
      modifies this
      ensures RunResult(Snapshot(), events)
           == RunPhase(c, File(old(Snapshot()), arrived, requests, round), round)
    {
      for i := 0 to |arrived|
        invariant unchanged(`view, `phase, `timer, `confirmed, `unhandled, `nextRequestId, `latency,
                            `lastStable, `lowWater, `highWater, `anchor)
        invariant log == old(log) + arrived[..i]
      {
        log := log + [arrived[i]];
      }
      for i := 0 to |requests|
        invariant unchanged(`view, `phase, `timer, `confirmed, `nextRequestId, `latency,
                            `lastStable, `lowWater, `highWater, `anchor)
        invariant log == old(log) + arrived
        invariant unhandled == InsertAll(old(unhandled), requests[..i], round)
      {
        assert requests[..i + 1][..i] == requests[..i];
        unhandled := InsertByRound(unhandled, round, requests[i]);
      }
      assert requests[..|requests|] == requests;
      events := RunPhases(round);
    }
  }

  function InsertAll(u: seq<(nat, Request)>, requests: seq<Request>, round: nat): seq<(nat, Request)> {
    if requests == [] then u
    else InsertByRound(InsertAll(u, requests[..|requests| - 1], round), round, requests[|requests| - 1])
  }

  function File(s: Node, arrived: seq<Msg>, requests: seq<Request>, round: nat): Node {
    s.(log := s.log + arrived, unhandled := InsertAll(s.unhandled, requests, round))
  }

  lemma PrepareSendersStep(log: seq<Msg>, i: nat, v: nat, n: int, r: Request)
    requires i < |log|
    ensures PrepareSenders(log[..i + 1], v, n, r)
         == PrepareSenders(log[..i], v, n, r)
            + (if log[i].Prepare? && BallotFor(log[i].b, v, n, r) then {log[i].b.from} else {})
  {
    assert log[..i + 1] == log[..i] + [log[i]];
    assert log[..i + 1][i] == log[i];
    forall p | p in PrepareSenders(log[..i], v, n, r) ensures p in PrepareSenders(log[..i + 1], v, n, r) {
      var k :| 0 <= k < i && log[..i][k].Prepare? && BallotFor(log[..i][k].b, v, n, r) && log[..i][k].b.from == p;
      assert log[..i + 1][k] == log[..i][k];
    }
  }

  lemma CommitSendersStep(log: seq<Msg>, i: nat, v: nat, n: int, r: Request)
    requires i < |log|
    ensures CommitSenders(log[..i + 1], v, n, r)
         == CommitSenders(log[..i], v, n, r)
            + (if log[i].Commit? && BallotFor(log[i].b, v, n, r) then {log[i].b.from} else {})
  {
    assert log[..i + 1] == log[..i] + [log[i]];
    assert log[..i + 1][i] == log[i];
    forall p | p in CommitSenders(log[..i], v, n, r) ensures p in CommitSenders(log[..i + 1], v, n, r) {
      var k :| 0 <= k < i && log[..i][k].Commit? && BallotFor(log[..i][k].b, v, n, r) && log[..i][k].b.from == p;
      assert log[..i + 1][k] == log[..i][k];
    }
  }

  lemma ViewChangeSendersStep(log: seq<Msg>, i: nat, anchor: int, v: int)
    requires i < |log|
    ensures var m := log[i];
      ViewChangeSenders(log[..i + 1], anchor, v)
         == ViewChangeSenders(log[..i], anchor, v)
            + (if m.ViewChange? && m.seqNum == anchor && m.view == v - 1 && m.newView == v then {m.from} else {})
  {
    assert log[..i + 1] == log[..i] + [log[i]];
    assert log[..i + 1][i] == log[i];
    forall p | p in ViewChangeSenders(log[..i], anchor, v) ensures p in ViewChangeSenders(log[..i + 1], anchor, v) {
      var k :| 0 <= k < i && log[..i][k].ViewChange? && log[..i][k].seqNum == anchor && log[..i][k].view == v - 1
               && log[..i][k].newView == v && log[..i][k].from == p;
      assert log[..i + 1][k] == log[..i][k];
    }
  }

  lemma {:induction false} TallyGrows(log: seq<Msg>, i: nat, n: int, v: int, d: seq<Request>)
    requires i <= |log|
    ensures Tally(log[..i], n, v, d) <= Tally(log, n, v, d)
    decreases |log| - i
  {
    if i == |log| {
      assert log[..i] == log;
    } else {
      assert log[..i + 1][..i] == log[..i];
      TallyGrows(log, i + 1, n, v, d);
    }
  }
}
