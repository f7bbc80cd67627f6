/**
 * Checkpoints and leaders: when the stable checkpoint of a replica advances and what that removes,
 * what checkpoint messages say, and how the lead goes round.
 */
module PbftCheckpoints {
  import opened Quorums
  import opened PbftNode
  import opened PbftRuns
  import opened PbftRequests

  // ---------------------------------------------------------------- tallies and pruning

  /** The places of the checkpoint messages with this digest. */
  function Votes(log: seq<Msg>, n: int, v: int, digest: seq<Request>): set<nat> {
    set i: nat | i < |log| && log[i].Checkpoint? && log[i].seqNum == n && log[i].view == v && log[i].digest == digest
  }

  lemma {:induction false} TallyIsVotes(log: seq<Msg>, n: int, v: int, digest: seq<Request>)
    ensures Tally(log, n, v, digest) == |Votes(log, n, v, digest)|
    decreases |log|
  {
    if log != [] {
      var init, last := log[..|log| - 1], log[|log| - 1];
      TallyIsVotes(init, n, v, digest);
      var here := if CheckpointAt(last, n, v) && last.digest == digest then {|init|} else {};
      assert Votes(log, n, v, digest) == Votes(init, n, v, digest) + here;
    }
  }

  /** `part` is what `log` has at the places `at`: those of the messages for positions from `low` on. */
  predicate KeepsFrom(log: seq<Msg>, part: seq<Msg>, low: int, at: seq<nat>) {
    && |at| == |part|
    && (forall j :: 0 <= j < |at| ==> at[j] < |log| && part[j] == log[at[j]])
    && (forall j, k :: 0 <= j < k < |at| ==> at[j] < at[k])
    && (forall i: nat :: i < |log| ==> (i in at <==> log[i].SeqNum() >= low))
  }

  lemma KeepsOneMore(log: seq<Msg>, part: seq<Msg>, low: int, at0: seq<nat>, m: Msg) returns (at: seq<nat>)
    requires KeepsFrom(log, part, low, at0)
    ensures KeepsFrom(log + [m], if m.SeqNum() < low then part else part + [m], low, at)
  {
    var all := log + [m];
    at := at0;
    forall i: nat | i < |log| ensures i in at0 <==> all[i].SeqNum() >= low {
      assert all[i] == log[i];
    }
    assert |log| !in at0;
    if m.SeqNum() >= low {
      at := at0 + [|log|];
      assert at[|at0|] == |log|;
      assert forall i: nat :: i in at <==> i in at0 || i == |log|;
    }
  }

  lemma {:induction false} PruneKeeps(log: seq<Msg>, low: int) returns (at: seq<nat>)
    ensures KeepsFrom(log, Prune(log, low), low, at)
    decreases |log|
  {
    at := [];
    if log != [] {
      var init, last := log[..|log| - 1], log[|log| - 1];
      at := PruneKeeps(init, low);
      assert log == init + [last];
      at := KeepsOneMore(init, Prune(init, low), low, at, last);
    }
  }

  /** More than 2f logged messages agree on one state after `n` requests. */
  predicate Agreed(c: Config, log: seq<Msg>, n: int, v: int) {
    exists i :: 0 <= i < |log| && log[i].Checkpoint? && |Votes(log, n, v, log[i].digest)| > 2 * F(c.committee)
  }

  lemma AgreedIsReady(c: Config, log: seq<Msg>, n: int, v: int)
    requires n % 10 == 0
    ensures Agreed(c, log, n, v) <==> StableReady(c, log, n, v)
  {
    forall i | 0 <= i < |log| && log[i].Checkpoint? && |Votes(log, n, v, log[i].digest)| > 2 * F(c.committee)
      ensures StableReady(c, log, n, v)
    {
      var j := MemberOutside(Votes(log, n, v, log[i].digest), {});
      TallyIsVotes(log, n, v, log[i].digest);
      assert CheckpointAt(log[j], n, v) && Tally(log, n, v, log[j].digest) > Quorum(c.committee);
    }
    forall i | 0 <= i < |log| && CheckpointAt(log[i], n, v) && Tally(log, n, v, log[i].digest) > Quorum(c.committee)
      ensures Agreed(c, log, n, v)
    {
      TallyIsVotes(log, n, v, log[i].digest);
    }
  }

  /**
   * The stable checkpoint advances to the next position exactly when that is a multiple of ten and
   * more than 2f logged messages agree on it. The window moves along, and of the log exactly the
   * messages for earlier positions go.
   */
  lemma AdvancesExactly(c: Config, s: Node) returns (at: seq<nat>)
    ensures var t, n := MaybeStableCheckpoint(c, s), |s.confirmed|;
      if n % 10 == 0 && Agreed(c, s.log, n, s.view)
      then t == s.(lastStable := n, lowWater := n, highWater := n + 128, log := t.log) && KeepsFrom(s.log, t.log, n, at)
      else t == s
  {
    at := [];
    if |s.confirmed| % 10 == 0 {
      AgreedIsReady(c, s.log, |s.confirmed|, s.view);
      at := PruneKeeps(s.log, |s.confirmed|);
    }
  }

  // ---------------------------------------------------------------- whole runs

  /** The window starts at the stable checkpoint, a multiple of ten that has been executed. */
  predicate WindowOk(s: Node) {
    && s.lowWater == s.lastStable && s.highWater == s.lastStable + 128
    && s.lastStable % 10 == 0 && s.lastStable <= |s.confirmed| && s.anchor <= s.lastStable
  }

  /** A checkpoint message says what its sender had executed, at a multiple of ten. */
  predicate SaysExecuted(c: Config, t: Node, m: Msg) {
    m.Checkpoint? ==> m.from == c.me && m.seqNum == |m.digest| && m.seqNum % 10 == 0 && m.digest <= t.confirmed
  }

  predicate Marks(c: Config, s: Node, t: Node, events: seq<Event>) {
    && s.confirmed <= t.confirmed && (WindowOk(s) ==> WindowOk(t))
    && forall m :: m in SentIn(events) ==> SaysExecuted(c, t, m)
  }

  lemma PhaseMarks(c: Config, s: Node, round: nat)
    ensures Marks(c, s, PhaseStep(c, s, round).node, PhaseStep(c, s, round).events)
  {
    var r := PhaseStep(c, s, round);
    CheckpointOnlyPrunes(c, s);
    PhaseKeepsWindow(c, s, round);
    if s.phase.Committing? && r.again {
      CommitMarks(c, s, round);
    } else if s.phase.NewViewing? && r.again {
      NewViewMarks(c, s, round);
    }
  }

  lemma PhaseKeepsWindow(c: Config, s: Node, round: nat)
    ensures var t := PhaseStep(c, s, round).node; s.confirmed <= t.confirmed && (WindowOk(s) ==> WindowOk(t))
  {
    CheckpointOnlyPrunes(c, s);
  }

  lemma CommitMarks(c: Config, s: Node, round: nat)
    requires s.phase.Committing? && CommitStep(c, s, round).again
    ensures var r := CommitStep(c, s, round); forall m :: m in SentIn(r.events) ==> SaysExecuted(c, r.node, m)
  {
    var r, n := CommitStep(c, s, round), |s.confirmed|;
    CheckpointOnlyPrunes(c, s);
    CommitExecutes(c, s, round);
    DecideThenSends(c.me, Decide(s.view, n, r.node.confirmed[n]),
                    Announcement(c, s.view, s.confirmed + [r.node.confirmed[n]]));
  }

  lemma NewViewMarks(c: Config, s: Node, round: nat)
    requires s.phase.NewViewing? && NewViewStep(c, s, round).again
    ensures forall m :: m in SentIn(NewViewStep(c, s, round).events) ==> m.PrePrepare?
  {
    var u := MaybeStableCheckpoint(c, s);
    var proof := First(u.log, 0, NewViewFromLeader(c, u.view, u.anchor)).value.proof;
    ReissuedArePrePrepares(c, u.view, proof);
    OnlySends(c.me, Reissued(c, u.view, proof));
  }

  lemma MarksTransitive(c: Config, s: Node, t: Node, u: Node, e: seq<Event>, e': seq<Event>)
    requires Marks(c, s, t, e) && Marks(c, t, u, e')
    ensures Marks(c, s, u, e + e')
  {
    forall m | m in SentIn(e + e') ensures SaysExecuted(c, u, m) {
      var i :| 0 <= i < |e + e'| && (e + e')[i].Send? && (e + e')[i].m == m;
      if i < |e| {
        assert m in SentIn(e) && SaysExecuted(c, t, m);
      } else {
        assert e'[i - |e|].m == m && m in SentIn(e');
      }
    }
  }

  lemma {:induction false} CallMarks(c: Config, s: Node, round: nat)
    ensures Marks(c, s, RunPhase(c, s, round).node, RunPhase(c, s, round).events)
    decreases Entering(s.phase), |Backlog(c, s)|, Rank(s.phase)
  {
    var r := PhaseStep(c, s, round);
    PhaseMarks(c, s, round);
    if r.again {
      PhaseProgress(c, s, round);
      CallMarks(c, r.node, round);
      var rest := RunPhase(c, r.node, round);
      MarksTransitive(c, s, r.node, rest.node, r.events, rest.events);
    }
  }

  /** In every run every window starts at a stable checkpoint that has been executed. */
  lemma {:induction false} WindowsFollow(w: World, run: seq<System>, steps: seq<Step>, i: nat, p: Id)
    requires Valid(w) && IsRun(w, run, steps) && i < |run| && p in run[i].nodes
    ensures WindowOk(run[i].nodes[p])
    decreases i
  {
    if i > 0 {
      assert StepAt(w, run, steps, i - 1);
      WindowsFollow(w, run, steps, i - 1, p);
      if steps[i - 1].p == p && steps[i - 1].Run? {
        CallMarks(Config(w.committee, p), run[i - 1].nodes[p], steps[i - 1].round);
      }
    }
  }

  /** In every run a checkpoint message of a correct replica is the beginning of what that replica has executed. */
  lemma {:induction false} CheckpointsAreTrue(w: World, run: seq<System>, steps: seq<Step>, i: nat, m: Msg)
    requires Valid(w) && IsRun(w, run, steps) && i < |run| && m in run[i].sent && m.Checkpoint?
    ensures m.from in run[i].nodes && m.seqNum == |m.digest| && m.seqNum % 10 == 0
    ensures m.digest <= run[i].nodes[m.from].confirmed
    decreases i
  {
    if i > 0 {
      assert StepAt(w, run, steps, i - 1);
      var step := steps[i - 1];
      if step.Run? {
        var c, before := Config(w.committee, step.p), run[i - 1].nodes[step.p];
        CallMarks(c, before, step.round);
        if m in run[i - 1].sent {
          CheckpointsAreTrue(w, run, steps, i - 1, m);
        } else {
          assert SaysExecuted(c, run[i].nodes[step.p], m);
        }
      } else {
        CheckpointsAreTrue(w, run, steps, i - 1, m);
      }
    }
  }

  // ---------------------------------------------------------------- leaders

  /** Among as many consecutive views as there are members each member leads exactly one. */
  lemma EachLeadsOnce(committee: seq<Id>, v: nat, p: Id) returns (w: nat)
    requires Increasing(committee) && p in committee
    ensures v <= w < v + |committee| && LeaderFor(committee, w) == p
    ensures forall x: nat :: v <= x < v + |committee| && LeaderFor(committee, x) == p ==> x == w
  {
    var n := |committee|;
    var i :| 0 <= i < n && committee[i] == p;
    w := v + if i >= v % n then i - v % n else i + n - v % n;
    Place(v, n, w - v);
    forall x: nat | v <= x < v + n && LeaderFor(committee, x) == p ensures x == w {
      Place(v, n, x - v);
    }
  }

  lemma {:induction false} Place(v: nat, n: nat, k: nat)
    requires k < n
    ensures (v + k) % n == if v % n + k < n then v % n + k else v % n + k - n
    decreases v
  {
    if v < n {
      OneTurn(v, n);
      OneTurn(v + k, n);
    } else {
      Place(v - n, n, k);
      FullTurn(v - n, n);
      FullTurn(v - n + k, n);
    }
  }

  lemma OneTurn(x: nat, n: nat)
    requires x < 2 * n
    ensures x % n == if x < n then x else x - n
  {
    if x >= n {
      FullTurn(x - n, n);
    }
  }

  lemma FullTurn(x: nat, n: nat)
    requires n > 0
    ensures (x + n) % n == x % n
  {
    var k := (x + n) / n - x / n - 1;
    assert (x + n) / n * n + (x + n) % n == x / n * n + x % n + n;
    assert k * n == x % n - (x + n) % n;
    MultiplesAreFar(k, n);
  }

  lemma MultiplesAreFar(k: int, n: int)
    requires n > 0
    ensures k == 0 || k * n >= n || k * n <= -n
  {
    if k > 0 {
      assert (k - 1) * n >= 0;
    } else if k < 0 {
      assert (-k - 1) * n >= 0;
    }
  }
}
