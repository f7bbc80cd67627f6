/**
 * Runs of a whole Raft group over a network that delays, loses, duplicates, reorders and
 * misdelivers messages, while clients ask any member for anything. A crashed member takes no steps.
 */
module RaftRuns {
  import opened Quorums
  import opened RaftNode
  import opened RaftQueues

  /** `sent` records every message the members ever sent. */
  datatype System = System(nodes: map<Id, Node>, sent: set<Msg>)

  datatype Step = Step(p: Id, e: Event, now: Now)

  ghost predicate IsStart(members: set<Id>, s: System) {
    && NO_PEER_ID !in members && s.nodes.Keys == members && s.sent == {}
    && forall p {:trigger StartsAt(s, p)} :: p in s.nodes ==> StartsAt(s, p)
  }

  predicate StartsAt(s: System, p: Id)
    requires p in s.nodes
  {
    s.nodes[p] == Initial(s.nodes[p].timeOutRound)
  }

  predicate Enabled(s: System, step: Step) {
    && step.p in s.nodes && step.p != NO_PEER_ID
    && (step.e.Receive? ==> step.e.m in s.sent || step.e.m.Client?)
  }

  function SentIn(out: seq<Envelope>): set<Msg> {
    set i | 0 <= i < |out| :: out[i].m
  }

  function Apply(s: System, step: Step): System
    requires Enabled(s, step)
  {
    var r := Handle(Config(s.nodes.Keys, step.p), s.nodes[step.p], step.e, step.now);
    System(s.nodes[step.p := r.node], s.sent + SentIn(r.out))
  }

  ghost predicate StepAt(run: seq<System>, steps: seq<Step>, i: nat)
    requires i < |steps| && |run| == |steps| + 1
  {
    Enabled(run[i], steps[i]) && run[i + 1] == Apply(run[i], steps[i])
  }

  ghost predicate IsRun(members: set<Id>, run: seq<System>, steps: seq<Step>) {
    && |run| == |steps| + 1
    && IsStart(members, run[0])
    && forall i :: 0 <= i < |steps| ==> StepAt(run, steps, i)
  }

  // ---------------------------------------------------------------- what one event does to a member

  /** The event by which a member learns that `k` is committed. */
  predicate Learns(c: Config, s: Node, e: Event, k: Key) {
    && e.Receive?
    && ((e.m.Commit? && k == KeyOf(e.m.request))
        || (e.m.Respond? && k == KeyOf(e.m.request) && Counts(c, s, e.m) && HasQuorum(c, |RepliesFor(s, k)| + 1)))
  }

  /** What a member may send: votes, candidatures and responses carry its own name and state. */
  predicate SendsWell(c: Config, s: Node, e: Event, t: Node, m: Msg) {
    match m
    case Replicate(_, _, _) => true
    case Client(_) => true
    case Respond(r, from, _) => from == c.me && KeyOf(r) in t.known
    case Vote(_, from, term) => from == c.me && s.term < term == t.term
    case Elect(from, term) => from == c.me && s.term < term == t.term
    case Commit(r, _, _, _, _) => Learns(c, s, e, KeyOf(r))
  }

  predicate CountsWell(c: Config, s: Node, e: Event, t: Node, k: Key) {
    || RepliesFor(t, k) == RepliesFor(s, k)
    || RepliesFor(t, k) == []
    || (&& e.Receive? && e.m.Respond? && k == KeyOf(e.m.request) && e.m.from !in RepliesFor(s, k)
        && RepliesFor(t, k) == RepliesFor(s, k) + [e.m.from])
  }

  predicate CommitsWell(c: Config, s: Node, e: Event, t: Node) {
    && s.committed <= t.committed
    && (forall k :: k in t.committed ==> k in s.committed || Learns(c, s, e, k))
    && (forall i :: 0 <= i < |t.confirmed| ==> t.confirmed[i] in s.confirmed || KeyOf(t.confirmed[i].request) in t.committed)
  }

  ghost predicate Outcome(c: Config, s: Node, e: Event, r: Result) {
    && s.term <= r.node.term && s.known <= r.node.known
    && (forall i :: 0 <= i < |r.out| ==> SendsWell(c, s, e, r.node, r.out[i].m))
    && (forall i :: 0 <= i < |r.out| && (r.out[i].m.Vote? || r.out[i].m.Elect?) ==> |r.out| == 1)
    && (forall k :: CountsWell(c, s, e, r.node, k))
    && CommitsWell(c, s, e, r.node)
  }

  lemma QuietOutcome(c: Config, s: Node, e: Event, r: Result)
    requires Quiet(s, r.node) && PassesOn(r.out)
    ensures Outcome(c, s, e, r)
  {
  }

  lemma RespondGoesWell(c: Config, s: Node, m: Msg, now: Now)
    requires m.Respond? && c.me != NO_PEER_ID
    requires s.inFlight.Some? ==> KeyValid(KeyOf(s.inFlight.value))
    ensures Outcome(c, s, Receive(m), HandleRespond(c, s, m, now))
  {
    var submitted := RespondOutcome(c, s, m, now);
    var r, k := HandleRespond(c, s, m, now), KeyOf(m.request);
    if Counts(c, s, m) && HasQuorum(c, |RepliesFor(s, k)| + 1) {
      var mid := AfterConfirm(Counted(s, m), m.request, submitted, now.round);
      assert mid.committed == s.committed + {k};
      forall i | 0 <= i < |r.out| ensures SendsWell(c, s, Receive(m), r.node, r.out[i].m) && !r.out[i].m.Vote? && !r.out[i].m.Elect? {
        if i > 0 {
          assert r.out[i] == r.out[1..][i - 1];
        }
      }
      forall k' ensures CountsWell(c, s, Receive(m), r.node, k') {
        assert RepliesFor(r.node, k') == RepliesFor(mid, k');
      }
    }
  }

  lemma VoteGoesWell(c: Config, s: Node, m: Msg, now: Now)
    requires m.Vote? && c.me != NO_PEER_ID
    ensures Outcome(c, s, Receive(m), HandleVote(c, s, m, now))
  {
    VoteOutcome(c, s, m, now);
  }

  lemma ReplicateGoesWell(c: Config, s: Node, m: Msg, now: Now)
    requires m.Replicate?
    ensures Outcome(c, s, Receive(m), HandleReplicate(c, s, m, now))
  {
  }

  lemma BallotGoesWell(c: Config, s: Node, m: Msg, now: Now)
    ensures m.Elect? ==> Outcome(c, s, Receive(m), HandleElect(c, s, m, now))
    ensures Outcome(c, s, Expire, MaybeStartElection(c, s, now))
  {
  }

  lemma CommitGoesWell(c: Config, s: Node, m: Msg)
    requires m.Commit?
    ensures Outcome(c, s, Receive(m), HandleCommit(c, s, m))
  {
  }

  lemma HandleGoesWell(c: Config, s: Node, e: Event, now: Now)
    requires c.me != NO_PEER_ID
    requires s.inFlight.Some? ==> KeyValid(KeyOf(s.inFlight.value))
    ensures Outcome(c, s, e, Handle(c, s, e, now))
  {
    match e
    case Produce =>
      ClientIsQuiet(c, s.(nextRequestId := s.nextRequestId + 1), OwnRequest(c, s, now), now);
      QuietOutcome(c, s, e, Handle(c, s, e, now));
    case Expire => BallotGoesWell(c, s, Elect(0, 0), now);
    case Flush =>
      ForwardIsQuiet(c, s);
      QuietOutcome(c, s, e, Handle(c, s, e, now));
    case Receive(m) =>
      match m {
        case Respond(_, _, _) => RespondGoesWell(c, s, m, now);
        case Vote(_, _, _) => VoteGoesWell(c, s, m, now);
        case Client(r) =>
          ClientIsQuiet(c, s, r, now);
          QuietOutcome(c, s, e, Handle(c, s, e, now));
        case Replicate(_, _, _) => ReplicateGoesWell(c, s, m, now);
        case Elect(_, _) => BallotGoesWell(c, s, m, now);
        case Commit(_, _, _, _, _) => CommitGoesWell(c, s, m);
      }
  }

  // ---------------------------------------------------------------- the invariant of the group

  function Holders(s: System, k: Key): set<Id> {
    set p | p in s.nodes && k in s.nodes[p].known
  }

  /** More than half of the members know the request. */
  predicate Backed(s: System, k: Key) {
    |Holders(s, k)| > |s.nodes| / 2
  }

  predicate MsgOk(s: System, m: Msg) {
    match m
    case Replicate(_, _, _) => true
    case Client(_) => true
    case Respond(r, from, _) => from in Holders(s, KeyOf(r))
    case Vote(_, from, term) => from in s.nodes && term <= s.nodes[from].term
    case Elect(from, term) => from in s.nodes && term <= s.nodes[from].term
    case Commit(r, _, _, _, _) => Backed(s, KeyOf(r))
  }

  predicate OneVote(sent: set<Msg>) {
    forall a, b :: a in sent && b in sent && a.Vote? && b.Vote? && a.from == b.from && a.term == b.term ==> a == b
  }

  predicate NoVoteWhileStanding(sent: set<Msg>) {
    forall a, b :: a in sent && b in sent && a.Vote? && b.Elect? && a.from == b.from ==> a.term != b.term
  }

  ghost predicate RepliesOk(s: System, n: Node, k: Key) {
    Unique(RepliesFor(n, k)) && Elements(RepliesFor(n, k)) <= Holders(s, k)
  }

  ghost predicate NodeOk(s: System, n: Node) {
    && QueuesOk(n)
    && (forall k :: RepliesOk(s, n, k))
    && (forall k :: k in n.committed ==> Backed(s, k))
    && (forall i :: 0 <= i < |n.confirmed| ==> KeyOf(n.confirmed[i].request) in n.committed)
  }

  ghost predicate Inv(s: System) {
    && NO_PEER_ID !in s.nodes
    && (forall p :: p in s.nodes ==> NodeOk(s, s.nodes[p]))
    && (forall m :: m in s.sent ==> MsgOk(s, m))
    && OneVote(s.sent) && NoVoteWhileStanding(s.sent)
  }

  // ---------------------------------------------------------------- one step

  /** What a step never takes back. */
  ghost predicate Grows(s: System, t: System) {
    && t.nodes.Keys == s.nodes.Keys
    && s.sent <= t.sent
    && forall p :: p in s.nodes ==> NodeGrows(s.nodes[p], t.nodes[p])
  }

  predicate NodeGrows(n: Node, n': Node) {
    && n.term <= n'.term && n.known <= n'.known && n.committed <= n'.committed
  }

  lemma ApplyGrows(s: System, step: Step)
    requires Inv(s) && Enabled(s, step)
    ensures Grows(s, Apply(s, step))
    ensures Outcome(Config(s.nodes.Keys, step.p), s.nodes[step.p], step.e,
                    Handle(Config(s.nodes.Keys, step.p), s.nodes[step.p], step.e, step.now))
  {
    var n := s.nodes[step.p];
    assert NodeOk(s, n);
    if n.inFlight.Some? {
      assert Waiting(n)[0] == KeyOf(n.inFlight.value);
    }
    HandleGoesWell(Config(s.nodes.Keys, step.p), n, step.e, step.now);
  }

  lemma BackingGrows(s: System, t: System, k: Key)
    requires Grows(s, t)
    ensures Holders(s, k) <= Holders(t, k) && (Backed(s, k) ==> Backed(t, k))
  {
    forall p | p in Holders(s, k) ensures p in Holders(t, k) {
      assert NodeGrows(s.nodes[p], t.nodes[p]);
    }
    SubsetSize(Holders(s, k), Holders(t, k));
    assert |s.nodes.Keys| == |t.nodes.Keys|;
  }

  lemma MessagesStayOk(s: System, t: System)
    requires Grows(s, t) && forall m :: m in s.sent ==> MsgOk(s, m)
    ensures forall m :: m in s.sent ==> MsgOk(t, m)
  {
    forall m | m in s.sent ensures MsgOk(t, m) {
      if m.Respond? || m.Commit? {
        BackingGrows(s, t, KeyOf(m.request));
      } else if m.Vote? || m.Elect? {
        assert NodeGrows(s.nodes[m.from], t.nodes[m.from]);
      }
    }
  }

  lemma NodeStaysOk(s: System, t: System, n: Node)
    requires Grows(s, t) && NodeOk(s, n)
    ensures NodeOk(t, n)
  {
    forall k ensures RepliesOk(t, n, k) {
      assert RepliesOk(s, n, k);
      BackingGrows(s, t, k);
    }
    forall k | k in n.committed ensures Backed(t, k) {
      BackingGrows(s, t, k);
    }
  }

  lemma OneMoreReply(s: System, n: Node, k: Key, from: Id)
    requires RepliesOk(s, n, k) && from !in RepliesFor(n, k) && from in Holders(s, k)
    ensures Unique(RepliesFor(n, k) + [from]) && Elements(RepliesFor(n, k) + [from]) <= Holders(s, k)
  {
    UniqueConcat(RepliesFor(n, k), [from]);
  }

  /** The responses that confirm a request come from more than half of the members. */
  lemma LearnedIsBacked(s: System, p: Id, e: Event, k: Key)
    requires Inv(s) && p in s.nodes && (e.Receive? ==> e.m in s.sent || e.m.Client?)
    requires Learns(Config(s.nodes.Keys, p), s.nodes[p], e, k)
    ensures Backed(s, k)
  {
    assert MsgOk(s, e.m);
    if e.m.Respond? {
      var n := s.nodes[p];
      assert NodeOk(s, n);
      var all := RepliesFor(n, k) + [e.m.from];
      assert RepliesOk(s, n, k);
      OneMoreReply(s, n, k, e.m.from);
      UniqueSize(all);
      SubsetSize(Elements(all), Holders(s, k));
    }
  }

  lemma MoverRepliesOk(s: System, t: System, c: Config, n: Node, e: Event, n': Node, k: Key)
    requires Grows(s, t) && RepliesOk(s, n, k) && CountsWell(c, n, e, n', k)
    requires e.Receive? ==> MsgOk(s, e.m)
    ensures RepliesOk(t, n', k)
  {
    BackingGrows(s, t, k);
    if RepliesFor(n', k) != RepliesFor(n, k) && RepliesFor(n', k) != [] {
      OneMoreReply(s, n, k, e.m.from);
    }
  }

  lemma MoverStaysOk(s: System, step: Step)
    requires Inv(s) && Enabled(s, step)
    ensures NodeOk(Apply(s, step), Apply(s, step).nodes[step.p])
  {
    var t, n, c := Apply(s, step), s.nodes[step.p], Config(s.nodes.Keys, step.p);
    var n' := t.nodes[step.p];
    ApplyGrows(s, step);
    assert NodeOk(s, n);
    HandleKeepsQueues(c, n, step.e, step.now);
    forall k ensures RepliesOk(t, n', k) {
      assert RepliesOk(s, n, k) && CountsWell(c, n, step.e, n', k);
      MoverRepliesOk(s, t, c, n, step.e, n', k);
    }
    forall k | k in n'.committed ensures Backed(t, k) {
      if k !in n.committed {
        LearnedIsBacked(s, step.p, step.e, k);
      }
      BackingGrows(s, t, k);
    }
  }

  lemma NewMessagesOk(s: System, step: Step, m: Msg)
    requires Inv(s) && Enabled(s, step) && m in Apply(s, step).sent && m !in s.sent
    ensures MsgOk(Apply(s, step), m)
  {
    var t, c := Apply(s, step), Config(s.nodes.Keys, step.p);
    ApplyGrows(s, step);
    assert SendsWell(c, s.nodes[step.p], step.e, t.nodes[step.p], m);
    if m.Commit? {
      LearnedIsBacked(s, step.p, step.e, KeyOf(m.request));
      BackingGrows(s, t, KeyOf(m.request));
    }
  }

  /** A vote or a candidature opens a term its sender had not reached. */
  lemma NewBallotsAreFresh(s: System, step: Step, m: Msg, old': Msg)
    requires Inv(s) && Enabled(s, step) && m in Apply(s, step).sent && m !in s.sent && (m.Vote? || m.Elect?)
    requires old' in Apply(s, step).sent && old' != m && (old'.Vote? || old'.Elect?) && old'.from == m.from
    ensures old'.term < m.term
  {
    var t, c := Apply(s, step), Config(s.nodes.Keys, step.p);
    ApplyGrows(s, step);
    var r := Handle(c, s.nodes[step.p], step.e, step.now);
    var i :| 0 <= i < |r.out| && r.out[i].m == m;
    assert |r.out| == 1 && SendsWell(c, s.nodes[step.p], step.e, r.node, m);
    assert old' in s.sent && MsgOk(s, old');
  }

  lemma InvKept(s: System, step: Step)
    requires Inv(s) && Enabled(s, step)
    ensures Inv(Apply(s, step)) && Grows(s, Apply(s, step))
  {
    var t := Apply(s, step);
    ApplyGrows(s, step);
    forall p | p in t.nodes ensures NodeOk(t, t.nodes[p]) {
      if p == step.p {
        MoverStaysOk(s, step);
      } else {
        NodeStaysOk(s, t, s.nodes[p]);
      }
    }
    MessagesStayOk(s, t);
    forall m | m in t.sent ensures MsgOk(t, m) {
      if m !in s.sent {
        NewMessagesOk(s, step, m);
      }
    }
    BallotsKept(s, step);
  }

  lemma BallotsKept(s: System, step: Step)
    requires Inv(s) && Enabled(s, step)
    ensures OneVote(Apply(s, step).sent) && NoVoteWhileStanding(Apply(s, step).sent)
  {
    var t := Apply(s, step);
    forall a, b | a in t.sent && b in t.sent && a.Vote? && (b.Vote? || b.Elect?) && a.from == b.from && a.term == b.term
      ensures a == b
    {
      if a != b {
        if a !in s.sent {
          NewBallotsAreFresh(s, step, a, b);
        } else if b !in s.sent {
          NewBallotsAreFresh(s, step, b, a);
        }
      }
    }
  }

  // ---------------------------------------------------------------- whole runs

  lemma StartInv(members: set<Id>, s: System)
    requires IsStart(members, s)
    ensures Inv(s)
  {
    forall p | p in s.nodes ensures NodeOk(s, s.nodes[p]) {
      var n := s.nodes[p];
      assert StartsAt(s, p);
      assert Waiting(n) == [];
      forall k ensures RepliesOk(s, n, k) {
        assert Elements(RepliesFor(n, k)) == {};
      }
    }
  }

  lemma {:induction false} RunInv(members: set<Id>, run: seq<System>, steps: seq<Step>, i: nat)
    requires IsRun(members, run, steps) && i < |run|
    ensures Inv(run[i]) && run[i].nodes.Keys == members
    decreases i
  {
    if i == 0 {
      StartInv(members, run[0]);
    } else {
      RunInv(members, run, steps, i - 1);
      assert StepAt(run, steps, i - 1);
      InvKept(run[i - 1], steps[i - 1]);
    }
  }

  lemma GrowsTransitive(s: System, t: System, u: System)
    requires Grows(s, t) && Grows(t, u)
    ensures Grows(s, u)
  {
    forall p | p in s.nodes ensures NodeGrows(s.nodes[p], u.nodes[p]) {
      assert NodeGrows(s.nodes[p], t.nodes[p]) && NodeGrows(t.nodes[p], u.nodes[p]);
    }
  }

  lemma StepGrows(members: set<Id>, run: seq<System>, steps: seq<Step>, i: nat)
    requires IsRun(members, run, steps) && i < |steps|
    ensures Grows(run[i], run[i + 1])
  {
    RunInv(members, run, steps, i);
    assert StepAt(run, steps, i);
    InvKept(run[i], steps[i]);
  }

  /** Terms, known requests and committed requests only grow. */
  lemma {:induction false} StatesOnlyGrow(members: set<Id>, run: seq<System>, steps: seq<Step>, i: nat, j: nat)
    requires IsRun(members, run, steps) && i <= j < |run|
    ensures Grows(run[i], run[j])
    decreases j
  {
    if i < j {
      StatesOnlyGrow(members, run, steps, i, j - 1);
      StepGrows(members, run, steps, j - 1);
      GrowsTransitive(run[i], run[j - 1], run[j]);
    }
  }

  // ---------------------------------------------------------------- vote safety

  /** The members that ever voted for `candidate` in `term`. */
  function Voters(s: System, candidate: Id, term: int): set<Id> {
    set m | m in s.sent && m.Vote? && m.candidate == candidate && m.term == term :: m.from
  }

  /** At most one vote per member and term, and none in a term in which the member stood itself. */
  lemma VotesAreUnique(members: set<Id>, run: seq<System>, steps: seq<Step>, i: nat, a: Msg, b: Msg)
    requires IsRun(members, run, steps) && i < |run|
    requires a in run[i].sent && b in run[i].sent && a.Vote? && a.from in members
    ensures b.Vote? && b.from == a.from && b.term == a.term ==> b.candidate == a.candidate
    ensures b.Elect? && b.from == a.from ==> b.term != a.term
  {
    RunInv(members, run, steps, i);
  }

  /** In each term at most one candidate can ever be backed by more than half of the members. */
  lemma OneWinnerPerTerm(members: set<Id>, run: seq<System>, steps: seq<Step>, i: nat, a: Id, b: Id, term: int)
    requires IsRun(members, run, steps) && i < |run|
    requires |Voters(run[i], a, term)| > |members| / 2 && |Voters(run[i], b, term)| > |members| / 2
    ensures a == b
  {
    RunInv(members, run, steps, i);
    var s := run[i];
    forall q | q in Voters(s, a, term) + Voters(s, b, term) ensures q in members {
      var m :| m in s.sent && m.Vote? && m.from == q;
      assert MsgOk(s, m);
    }
    var v := MajoritiesMeet(Voters(s, a, term), Voters(s, b, term), members);
    var x :| x in s.sent && x.Vote? && x.candidate == a && x.term == term && x.from == v;
    var y :| y in s.sent && y.Vote? && y.candidate == b && y.term == term && y.from == v;
    assert OneVote(s.sent);
  }

  // ---------------------------------------------------------------- durability

  predicate ConfirmedAt(s: System, p: Id, k: Key) {
    p in s.nodes && exists i :: 0 <= i < |s.nodes[p].confirmed| && KeyOf(s.nodes[p].confirmed[i].request) == k
  }

  /** Once confirmed anywhere, a request is known to more than half of the members for ever after. */
  lemma ConfirmedIsDurable(members: set<Id>, run: seq<System>, steps: seq<Step>, i: nat, j: nat, p: Id, k: Key)
    requires IsRun(members, run, steps) && i <= j < |run| && ConfirmedAt(run[i], p, k)
    ensures Backed(run[j], k) && Holders(run[i], k) <= Holders(run[j], k) <= members
  {
    RunInv(members, run, steps, i);
    RunInv(members, run, steps, j);
    assert NodeOk(run[i], run[i].nodes[p]);
    StatesOnlyGrow(members, run, steps, i, j);
    BackingGrows(run[i], run[j], k);
  }

  /** Every later majority contains, for each confirmed request, a member that knows it. */
  lemma MajoritiesRemember(members: set<Id>, run: seq<System>, steps: seq<Step>, i: nat, j: nat, p: Id, k: Key,
                           majority: set<Id>) returns (q: Id)
    requires IsRun(members, run, steps) && i <= j < |run| && ConfirmedAt(run[i], p, k)
    requires majority <= members && |majority| > |members| / 2
    ensures q in majority && q in run[j].nodes && k in run[j].nodes[q].known
  {
    RunInv(members, run, steps, j);
    ConfirmedIsDurable(members, run, steps, i, j, p, k);
    q := MajoritiesMeet(majority, Holders(run[j], k), members);
  }

  // ---------------------------------------------------------------- queues

  /** In every reachable state every member's queues are sound and its latency is accounted for. */
  lemma QueuesStaySound(members: set<Id>, run: seq<System>, steps: seq<Step>, i: nat, p: Id)
    requires IsRun(members, run, steps) && i < |run| && p in members
    ensures p in run[i].nodes && QueuesOk(run[i].nodes[p])
  {
    RunInv(members, run, steps, i);
    assert NodeOk(run[i], run[i].nodes[p]);
  }

  lemma StepMoves(s: System, step: Step, p: Id)
    requires Enabled(s, step) && p in s.nodes
    ensures Moves(s.nodes[p], Apply(s, step).nodes[p])
  {
    if p == step.p {
      HandleMoves(Config(s.nodes.Keys, p), s.nodes[p], step.e, step.now);
    } else {
      SameQueuesMoves(s.nodes[p], s.nodes[p]);
    }
  }

  lemma RunStepMoves(members: set<Id>, run: seq<System>, steps: seq<Step>, i: nat, p: Id)
    requires IsRun(members, run, steps) && i < |steps| && p in members
    ensures p in run[i].nodes && p in run[i + 1].nodes && Moves(run[i].nodes[p], run[i + 1].nodes[p])
  {
    MembersStay(members, run, steps, i);
    assert StepAt(run, steps, i);
    StepMoves(run[i], steps[i], p);
  }

  lemma MembersStay(members: set<Id>, run: seq<System>, steps: seq<Step>, i: nat)
    requires IsRun(members, run, steps) && i < |run|
    ensures run[i].nodes.Keys == members
  {
    RunInv(members, run, steps, i);
  }

  /** Between any two points of a run a member's waiting requests never overtake each other. */
  lemma {:induction false} RequestsKeepTheirOrder(members: set<Id>, run: seq<System>, steps: seq<Step>, i: nat, j: nat, p: Id)
    requires IsRun(members, run, steps) && i <= j < |run| && p in members
    ensures p in run[i].nodes && p in run[j].nodes && Moves(run[i].nodes[p], run[j].nodes[p])
    decreases j
  {
    if i == j {
      MembersStay(members, run, steps, i);
      SameQueuesMoves(run[i].nodes[p], run[i].nodes[p]);
    } else {
      RequestsKeepTheirOrder(members, run, steps, i, j - 1, p);
      RunStepMoves(members, run, steps, j - 1, p);
      MovesTransitive(run[i].nodes[p], run[j - 1].nodes[p], run[j].nodes[p]);
    }
  }
}
