/**
 * What a view change carries over: which positions a replica reports when it leaves a view, which
 * of the reported ballots the new leader announces, and what everybody re-issues on entering.
 */
module PbftCarry {
  import opened Quorums
  import opened PbftNode
  import opened PbftRuns
  import opened PbftRequests

  /** A ballot that can be carried over for position `n`. */
  predicate Fits(b: Ballot, n: int) {
    b.seqNum == n && b.proposal.Some? && b.proposal.value.view >= 0
  }

  /** A logged request to enter view `v`. */
  predicate Asks(m: Msg, anchor: int, v: int) {
    m.ViewChange? && m.seqNum == anchor && m.view == v - 1 && m.newView == v
  }

  /** All ballots reported for the entry into view `v`, in the order in which they were logged. */
  function Reported(log: seq<Msg>, anchor: int, v: int): seq<Ballot> {
    if log == [] then []
    else
      var m := log[|log| - 1];
      Reported(log[..|log| - 1], anchor, v) + if Asks(m, anchor, v) then m.proof else []
  }

  lemma {:induction false} ReportedIs(log: seq<Msg>, anchor: int, v: int, b: Ballot)
    ensures b in Reported(log, anchor, v) <==> exists m :: m in log && Asks(m, anchor, v) && b in m.proof
    decreases |log|
  {
    if log != [] {
      var init, last := log[..|log| - 1], log[|log| - 1];
      ReportedIs(init, anchor, v, b);
      assert log == init + [last];
      if b in Reported(init, anchor, v) {
        var m :| m in init && Asks(m, anchor, v) && b in m.proof;
        assert m in log;
      } else if b in Reported(log, anchor, v) {
        assert last in log;
      }
      forall m | m in log && Asks(m, anchor, v) && b in m.proof ensures b in Reported(log, anchor, v) {
        assert m in init || m == last;
      }
    }
  }

  /** `bs[k]` is of the latest view among all ballots for `n`, and the first one of that view. */
  predicate IsLatest(bs: seq<Ballot>, n: int, k: nat) {
    && k < |bs| && Fits(bs[k], n)
    && (forall j :: 0 <= j < |bs| && Fits(bs[j], n) ==> bs[j].proposal.value.view <= bs[k].proposal.value.view)
    && (forall j :: 0 <= j < k && Fits(bs[j], n) ==> bs[j].proposal.value.view < bs[k].proposal.value.view)
  }

  /** `best` is what remains of the ballots `bs` for position `n`. */
  predicate Remains(best: Option<Ballot>, bs: seq<Ballot>, n: int) {
    if best.None? then forall j :: 0 <= j < |bs| ==> !Fits(bs[j], n)
    else exists k :: 0 <= k < |bs| && bs[k] == best.value && IsLatest(bs, n, k)
  }

  lemma OneMoreReport(best: Option<Ballot>, bs: seq<Ballot>, b: Ballot, n: int)
    requires Remains(best, bs, n)
    ensures Remains(Better(best, b, n), bs + [b], n)
  {
    var all := bs + [b];
    if Better(best, b, n) == best {
      if best.Some? {
        var k :| 0 <= k < |bs| && bs[k] == best.value && IsLatest(bs, n, k);
        assert all[k] == best.value && IsLatest(all, n, k);
      }
    } else {
      if best.Some? {
        var k :| 0 <= k < |bs| && bs[k] == best.value && IsLatest(bs, n, k);
      }
      assert all[|bs|] == b && IsLatest(all, n, |bs|);
    }
  }

  lemma {:induction false} OneMoreProof(best: Option<Ballot>, bs: seq<Ballot>, proof: seq<Ballot>, n: int)
    requires Remains(best, bs, n)
    ensures Remains(BestInProof(best, proof, n), bs + proof, n)
    decreases |proof|
  {
    if proof == [] {
      assert bs + proof == bs;
    } else {
      var init, b := proof[..|proof| - 1], proof[|proof| - 1];
      OneMoreProof(best, bs, init, n);
      OneMoreReport(BestInProof(best, init, n), bs + init, b, n);
      assert bs + proof == bs + init + [b];
    }
  }

  /** The search over all logged requests finds the first ballot of the latest view, if there is any. */
  lemma {:induction false} BestIsLatest(log: seq<Msg>, anchor: int, v: int, n: int)
    ensures Remains(BestInLog(log, anchor, v, n), Reported(log, anchor, v), n)
    decreases |log|
  {
    if log != [] {
      var init, m := log[..|log| - 1], log[|log| - 1];
      BestIsLatest(init, anchor, v, n);
      if Asks(m, anchor, v) {
        OneMoreProof(BestInLog(init, anchor, v, n), Reported(init, anchor, v), m.proof, n);
      } else {
        assert Reported(init, anchor, v) + [] == Reported(init, anchor, v);
      }
    }
  }

  predicate Ascending(bs: seq<Ballot>) {
    forall i, j :: 0 <= i < j < |bs| ==> bs[i].seqNum < bs[j].seqNum
  }

  /** `carried` has for each position in the window the first ballot of the latest view, and nothing else. */
  ghost predicate CarriesLatest(carried: seq<Ballot>, reported: seq<Ballot>, lo: int, hi: int) {
    && Ascending(carried)
    && (forall i :: 0 <= i < |carried| ==> lo <= carried[i].seqNum <= hi && Carried(carried[i], reported))
    && (forall n {:trigger HasFit(reported, n)} :: lo <= n <= hi && HasFit(reported, n) ==> HasFit(carried, n))
  }

  predicate Carried(b: Ballot, reported: seq<Ballot>) {
    exists k :: 0 <= k < |reported| && reported[k] == b && IsLatest(reported, b.seqNum, k)
  }

  predicate HasFit(bs: seq<Ballot>, n: int) {
    exists b :: b in bs && Fits(b, n)
  }

  lemma CarryNext(carried: seq<Ballot>, reported: seq<Ballot>, lo: int, hi: int, best: Option<Ballot>)
    requires lo <= hi && CarriesLatest(carried, reported, lo + 1, hi) && Remains(best, reported, lo)
    ensures CarriesLatest((if best.Some? then [best.value] else []) + carried, reported, lo, hi)
  {
    var all := (if best.Some? then [best.value] else []) + carried;
    if best.Some? {
      assert Carried(best.value, reported);
      assert all[0] == best.value && Fits(best.value, lo);
    } else {
      assert all == carried;
    }
    forall n | lo <= n <= hi && HasFit(reported, n) ensures HasFit(all, n) {
      if n > lo {
        var b :| b in carried && Fits(b, n);
        assert b in all;
      } else {
        var b :| b in reported && Fits(b, n);
        assert best.Some? && best.value in all;
      }
    }
  }

  lemma {:induction false} CarriedOverIsLatest(log: seq<Msg>, anchor: int, v: int, lo: nat, hi: nat)
    ensures CarriesLatest(CarriedOver(log, anchor, v, lo, hi), Reported(log, anchor, v), lo, hi)
    decreases hi - lo
  {
    if lo <= hi {
      CarriedOverIsLatest(log, anchor, v, lo + 1, hi);
      BestIsLatest(log, anchor, v, lo);
      CarryNext(CarriedOver(log, anchor, v, lo + 1, hi), Reported(log, anchor, v), lo, hi, BestInLog(log, anchor, v, lo));
    }
  }

  // ---------------------------------------------------------------- leaving a view

  /** The deadline of a replica has passed; while it waits for a new view it is one round shorter. */
  predicate Expired(s: Node, round: nat) {
    if s.phase.ViewChanging? || s.phase.NewViewing? then round >= s.timer else s.timer < round
  }

  /** Position `n` was prepared in view `v` with pre-prepare `m`. */
  predicate WasPrepared(c: Config, log: seq<Msg>, v: nat, n: int, m: Msg) {
    && m in log && m.PrePrepare? && m.b.seqNum == n && m.b.view == v && m.b.proposal.Some?
    && HasPrePrepare(c, log, v, n, m.b.proposal.value.request)
    && |PrepareSenders(log, v, n, m.b.proposal.value.request)| > 2 * F(c.committee)
  }

  /** `b` is the first logged pre-prepare for its position that was prepared in view `v`. */
  predicate FirstPrepared(c: Config, log: seq<Msg>, v: nat, b: Ballot, k: nat) {
    && k < |log| && log[k] == PrePrepare(b) && WasPrepared(c, log, v, b.seqNum, log[k])
    && forall j :: 0 <= j < k ==> !WasPrepared(c, log, v, b.seqNum, log[j])
  }

  ghost predicate ReportedFirst(c: Config, log: seq<Msg>, v: nat, b: Ballot) {
    exists k: nat :: FirstPrepared(c, log, v, b, k)
  }

  /** `proof` has the first prepared pre-prepare for every position from `lo` up to `hi` that has any. */
  ghost predicate ReportsPrepared(c: Config, log: seq<Msg>, v: nat, lo: int, hi: int, proof: seq<Ballot>) {
    && Ascending(proof)
    && (forall i :: 0 <= i < |proof| ==> lo <= proof[i].seqNum < hi && ReportedFirst(c, log, v, proof[i]))
    && (forall n, m :: lo <= n < hi && WasPrepared(c, log, v, n, m) ==> HasPosition(proof, n))
  }

  predicate HasPosition(bs: seq<Ballot>, n: int) {
    exists b :: b in bs && b.seqNum == n
  }

  /** The search finds the first prepared pre-prepare, if there is any. */
  lemma FindsPrepared(c: Config, log: seq<Msg>, v: nat, n: nat)
    ensures var found := First(log, 0, PreparedHere(c, log, v, n));
      if found.Some? then found.value.PrePrepare? && found.value.b.seqNum == n && ReportedFirst(c, log, v, found.value.b)
      else forall m :: !WasPrepared(c, log, v, n, m)
  {
    var want := PreparedHere(c, log, v, n);
    var found := First(log, 0, want);
    if found.Some? {
      var k := FirstIs(log, 0, want);
      forall j | 0 <= j < k ensures !WasPrepared(c, log, v, n, log[j]) {
        assert !want(log[j]);
      }
      assert FirstPrepared(c, log, v, found.value.b, k);
    } else {
      forall m | m in log ensures !WasPrepared(c, log, v, n, m) {
        var k :| 0 <= k < |log| && log[k] == m;
        assert !want(log[k]);
      }
    }
  }

  lemma ReportNext(c: Config, log: seq<Msg>, v: nat, lo: nat, hi: nat, rest: seq<Ballot>)
    requires lo < hi && ReportsPrepared(c, log, v, lo + 1, hi, rest)
    ensures var found := First(log, 0, PreparedHere(c, log, v, lo));
            ReportsPrepared(c, log, v, lo, hi, (if found.Some? then [found.value.b] else []) + rest)
  {
    var found := First(log, 0, PreparedHere(c, log, v, lo));
    var all := (if found.Some? then [found.value.b] else []) + rest;
    FindsPrepared(c, log, v, lo);
    forall n, m | lo <= n < hi && WasPrepared(c, log, v, n, m) ensures HasPosition(all, n) {
      if n > lo {
        var b :| b in rest && b.seqNum == n;
        assert b in all;
      } else {
        assert found.value.b in all;
      }
    }
  }

  lemma {:induction false} ProofReportsPrepared(c: Config, log: seq<Msg>, v: nat, lo: nat, hi: nat)
    ensures ReportsPrepared(c, log, v, lo, hi, PreparedProof(c, log, v, lo, hi))
    decreases hi - lo
  {
    if lo < hi {
      ProofReportsPrepared(c, log, v, lo + 1, hi);
      ReportNext(c, log, v, lo, hi, PreparedProof(c, log, v, lo + 1, hi));
    }
  }

  /** All that changes when a replica asks for the next view and reports `proof`. */
  predicate Leaves(c: Config, u: Node, round: nat, proof: seq<Ballot>, r: StepResult) {
    var vc := ViewChange(u.lastStable, u.view, u.view + 1, u.lastStable, proof, c.me);
    r == StepResult(u.(view := u.view + 1, anchor := u.lastStable, log := u.log + [vc], timer := round + 10,
                       phase := ViewChanging), [Send(vc)], false)
  }

  /**
   * Whatever it is doing, a replica asks for the next view exactly when its deadline has passed, and
   * then it reports what it has prepared between its stable checkpoint and its next position.
   */
  lemma LeavesExactly(c: Config, s: Node, round: nat)
    ensures var u, r := MaybeStableCheckpoint(c, s), PhaseStep(c, s, round);
      if Expired(s, round) then
        exists proof ::
          && ReportsPrepared(c, u.log, s.view, u.lastStable + 1, |s.confirmed|, proof)
          && Leaves(c, u, round, proof, r)
      else r.node.view == s.view && forall m :: m in SentIn(r.events) ==> !m.ViewChange?
  {
    var u, r := MaybeStableCheckpoint(c, s), PhaseStep(c, s, round);
    CheckpointOnlyPrunes(c, s);
    if Expired(s, round) {
      ProofReportsPrepared(c, u.log, s.view, u.lastStable + 1, |s.confirmed|);
      assert Leaves(c, u, round, PreparedProof(c, u.log, s.view, u.lastStable + 1, |s.confirmed|), r);
    } else {
      StaysInView(c, s, round);
    }
  }

  lemma StaysInView(c: Config, s: Node, round: nat)
    requires !Expired(s, round)
    ensures var r := PhaseStep(c, s, round); r.node.view == s.view && forall m :: m in SentIn(r.events) ==> !m.ViewChange?
  {
    var u, r := MaybeStableCheckpoint(c, s), PhaseStep(c, s, round);
    CheckpointOnlyPrunes(c, s);
    if s.phase.NewViewing? && r.again {
      var proof := First(u.log, 0, NewViewFromLeader(c, u.view, u.anchor)).value.proof;
      ReissuedArePrePrepares(c, u.view, proof);
      OnlySends(c.me, Reissued(c, u.view, proof));
    } else if s.phase.Committing? && r.again {
      CommitExecutes(c, s, round);
      var x := r.node.confirmed[|s.confirmed|];
      DecideThenSends(c.me, Decide(s.view, |s.confirmed|, x), Announcement(c, s.view, s.confirmed + [x]));
    }
  }

  // ---------------------------------------------------------------- announcing a view

  predicate Backed(c: Config, log: seq<Msg>, anchor: int, v: int) {
    |ViewChangeSenders(log, anchor, v)| > 2 * F(c.committee)
  }

  /** The announcement of view `u.view`, with the latest reports of its window, is sent and logged. */
  ghost predicate Announces(c: Config, u: Node, carried: seq<Ballot>, r: StepResult) {
    && CarriesLatest(carried, Reported(u.log, u.anchor, u.view), u.lastStable + 1, u.highWater)
    && var nv := NewView(u.anchor, u.view, u.lastStable, carried, c.me);
       r == StepResult(u.(log := u.log + [nv], phase := NewViewing), [Send(nv)], false)
  }

  /**
   * The leader of a view that more than 2f members ask for announces, for each position in its
   * window, the first ballot of the latest view among all that were reported to it.
   */
  lemma AnnouncesLatest(c: Config, s: Node, round: nat)
    requires s.phase.ViewChanging? && round < s.timer && c.me == LeaderFor(c.committee, s.view)
    ensures var u, r := MaybeStableCheckpoint(c, s), ViewChangeStep(c, s, round);
      if Backed(c, u.log, s.anchor, s.view) then exists carried :: Announces(c, u, carried, r)
      else r == StepResult(u, [], false)
  {
    var u, r := MaybeStableCheckpoint(c, s), ViewChangeStep(c, s, round);
    CheckpointOnlyPrunes(c, s);
    if Backed(c, u.log, s.anchor, s.view) {
      CarriedOverIsLatest(u.log, s.anchor, s.view, u.lastStable + 1, u.highWater);
      assert Announces(c, u, CarriedOver(u.log, s.anchor, s.view, u.lastStable + 1, u.highWater), r);
    }
  }

  /** Any two lists that satisfy this are equal: the announcement is determined by the reports. */
  lemma LatestIsUnique(a: seq<Ballot>, b: seq<Ballot>, reported: seq<Ballot>, lo: int, hi: int)
    requires CarriesLatest(a, reported, lo, hi) && CarriesLatest(b, reported, lo, hi)
    ensures (forall x :: x in a <==> x in b) && a == b
  {
    LatestCovers(a, b, reported, lo, hi);
    LatestCovers(b, a, reported, lo, hi);
    SameAscending(a, b);
  }

  lemma LatestCovers(a: seq<Ballot>, b: seq<Ballot>, reported: seq<Ballot>, lo: int, hi: int)
    requires CarriesLatest(a, reported, lo, hi) && CarriesLatest(b, reported, lo, hi)
    ensures forall x :: x in a ==> x in b
  {
    forall x | x in a ensures x in b {
      var n := x.seqNum;
      assert Carried(x, reported);
      var k :| 0 <= k < |reported| && reported[k] == x && IsLatest(reported, n, k);
      assert reported[k] in reported && HasFit(reported, n);
      var y :| y in b && Fits(y, n);
      assert Carried(y, reported);
      var j :| 0 <= j < |reported| && reported[j] == y && IsLatest(reported, n, j);
      assert j == k;
    }
  }

  lemma {:induction false} SameAscending(a: seq<Ballot>, b: seq<Ballot>)
    requires Ascending(a) && Ascending(b) && forall x :: x in a <==> x in b
    ensures a == b
    decreases |a|
  {
    assert a != [] ==> a[0] in b;
    assert b != [] ==> b[0] in a;
    if a != [] && b != [] {
      assert a[0] == b[0];
      var a', b' := a[1..], b[1..];
      assert a == [a[0]] + a' && b == [b[0]] + b';
      forall x ensures x in a' <==> x in b' {
        assert x in a' ==> x in a && x.seqNum > a[0].seqNum;
        assert x in b' ==> x in b && x.seqNum > b[0].seqNum;
      }
      SameAscending(a', b');
    }
  }

  // ---------------------------------------------------------------- entering a view

  /** The pre-prepare that replica `me` issues in view `v` for a ballot carried over. */
  function Again(me: Id, v: nat, b: Ballot): Msg
    requires b.proposal.Some?
  {
    PrePrepare(Ballot(b.seqNum, v, Some(Proposal(v, b.proposal.value.request)), me))
  }

  /** `ms` are the pre-prepares for exactly those ballots of `proof` that have a proposal, in order. */
  predicate Reissues(me: Id, v: nat, proof: seq<Ballot>, ms: seq<Msg>, at: seq<nat>) {
    && |at| == |ms|
    && (forall j :: 0 <= j < |at| ==> at[j] < |proof| && proof[at[j]].proposal.Some? && ms[j] == Again(me, v, proof[at[j]]))
    && (forall j, k :: 0 <= j < k < |at| ==> at[j] < at[k])
    && (forall i: nat :: i < |proof| && proof[i].proposal.Some? ==> i in at)
  }

  lemma {:induction false} ReissuesAll(c: Config, v: nat, proof: seq<Ballot>) returns (at: seq<nat>)
    ensures Reissues(c.me, v, proof, Reissued(c, v, proof), at)
    decreases |proof|
  {
    at := [];
    if proof != [] {
      var init, b := proof[..|proof| - 1], proof[|proof| - 1];
      var was := ReissuesAll(c, v, init);
      at := was;
      if b.proposal.Some? {
        at := was + [|init|];
        assert at[|was|] == |init|;
      }
      forall i: nat | i < |proof| && proof[i].proposal.Some? ensures i in at {
        if i < |init| {
          assert init[i] == proof[i] && i in was;
        }
      }
    }
  }

  /** Everything that changes when a replica enters the view announced with `proof`. */
  ghost predicate Enters(c: Config, u: Node, round: nat, proof: seq<Ballot>, ms: seq<Msg>, r: StepResult) {
    && (exists at :: Reissues(c.me, u.view, proof, ms, at))
    && r == StepResult(u.(lowWater := u.lastStable, highWater := u.lastStable + 128, log := u.log + ms,
                          timer := round + 10, phase := PrePreparing), Sends(ms), true)
  }

  /**
   * A replica enters the view that its leader announced and more than 2f members ask for. It issues
   * one pre-prepare for each ballot of the announcement, in order, and starts over with a new
   * deadline and a new window.
   */
  lemma EntersExactly(c: Config, s: Node, round: nat)
    requires s.phase.NewViewing? && round < s.timer
    ensures var u, r := MaybeStableCheckpoint(c, s), NewViewStep(c, s, round);
      var found := First(u.log, 0, NewViewFromLeader(c, s.view, s.anchor));
      if found.Some? && Backed(c, u.log, s.anchor, s.view) then
        exists ms :: Enters(c, u, round, found.value.proof, ms, r)
      else r == StepResult(u, [], false)
  {
    var u, r := MaybeStableCheckpoint(c, s), NewViewStep(c, s, round);
    CheckpointOnlyPrunes(c, s);
    var found := First(u.log, 0, NewViewFromLeader(c, s.view, s.anchor));
    if found.Some? && Backed(c, u.log, s.anchor, s.view) {
      var at := ReissuesAll(c, s.view, found.value.proof);
      assert Enters(c, u, round, found.value.proof, Reissued(c, s.view, found.value.proof), r);
    }
  }

  /** The announcement has a report for every position in the window for which something was reported. */
  lemma AnnouncementCovers(leader: Config, at: Node, round: nat, vc: Msg, b: Ballot) returns (i: nat, k: nat)
    requires at.phase.ViewChanging? && round < at.timer && leader.me == LeaderFor(leader.committee, at.view)
    requires var u := MaybeStableCheckpoint(leader, at);
      && Backed(leader, u.log, at.anchor, at.view)
      && vc in u.log && Asks(vc, at.anchor, at.view) && b in vc.proof
      && Fits(b, b.seqNum) && u.lastStable < b.seqNum <= u.highWater
    ensures var e, reported := ViewChangeStep(leader, at, round).events, Reported(MaybeStableCheckpoint(leader, at).log, at.anchor, at.view);
      && |e| == 1 && e[0].Send? && e[0].m.NewView? && i < |e[0].m.proof| && k < |reported| && reported[k] == e[0].m.proof[i]
      && IsLatest(reported, b.seqNum, k) && reported[k].proposal.value.view >= b.proposal.value.view
  {
    var u, r := MaybeStableCheckpoint(leader, at), ViewChangeStep(leader, at, round);
    var reported := Reported(u.log, at.anchor, at.view);
    CheckpointOnlyPrunes(leader, at);
    AnnouncesLatest(leader, at, round);
    var nv := r.events[0].m;
    ReportedIs(u.log, at.anchor, at.view, b);
    assert HasFit(reported, b.seqNum);
    var x :| x in nv.proof && Fits(x, b.seqNum);
    i :| 0 <= i < |nv.proof| && nv.proof[i] == x;
    assert Carried(nv.proof[i], reported);
    k :| 0 <= k < |reported| && reported[k] == x && IsLatest(reported, x.seqNum, k);
    var j :| 0 <= j < |reported| && reported[j] == b;
  }

  lemma EntrySends(c: Config, u: Node, round: nat, proof: seq<Ballot>, ms: seq<Msg>, r: StepResult, i: nat)
    requires Enters(c, u, round, proof, ms, r) && i < |proof| && proof[i].proposal.Some?
    ensures Again(c.me, u.view, proof[i]) in SentIn(r.events)
  {
    var at :| Reissues(c.me, u.view, proof, ms, at);
    var j :| 0 <= j < |at| && at[j] == i;
    OnlySends(c.me, ms);
    assert ms[j] in ms;
  }

  /**
   * From the reports to the re-issued proposals: whatever some member reported to the new leader for
   * a position in its window, every replica that enters on the leader's announcement proposes again
   * a request reported for that position, of the latest view that was reported.
   */
  lemma ReportedIsReissued(leader: Config, at: Node, sentIn: nat, c: Config, s: Node, round: nat, vc: Msg, b: Ballot)
    returns (k: nat)
    requires at.phase.ViewChanging? && sentIn < at.timer && leader.me == LeaderFor(leader.committee, at.view)
    requires var u := MaybeStableCheckpoint(leader, at);
      && Backed(leader, u.log, at.anchor, at.view)
      && vc in u.log && Asks(vc, at.anchor, at.view) && b in vc.proof
      && Fits(b, b.seqNum) && u.lastStable < b.seqNum <= u.highWater
    requires s.phase.NewViewing? && round < s.timer && s.view == at.view && s.anchor == at.anchor
    requires var u, e := MaybeStableCheckpoint(c, s), ViewChangeStep(leader, at, sentIn).events;
      && Backed(c, u.log, s.anchor, s.view)
      && |e| == 1 && e[0].Send? && First(u.log, 0, NewViewFromLeader(c, s.view, s.anchor)) == Some(e[0].m)
    ensures var reported := Reported(MaybeStableCheckpoint(leader, at).log, at.anchor, at.view);
      && k < |reported| && IsLatest(reported, b.seqNum, k)
      && reported[k].proposal.value.view >= b.proposal.value.view
      && Again(c.me, s.view, reported[k]) in SentIn(NewViewStep(c, s, round).events)
  {
    var i;
    i, k := AnnouncementCovers(leader, at, sentIn, vc, b);
    var nv := ViewChangeStep(leader, at, sentIn).events[0].m;
    CheckpointOnlyPrunes(c, s);
    EntersExactly(c, s, round);
    var u, r := MaybeStableCheckpoint(c, s), NewViewStep(c, s, round);
    var ms :| Enters(c, u, round, nv.proof, ms, r);
    EntrySends(c, u, round, nv.proof, ms, r, i);
  }
}
