/**
 * One PBFT replica as a value: its message log, its votes and the five phase bodies.
 *
 * Every insertion into the replica's log files a message under the message's own
 * sequence number, view and type, so the log is the sequence of those messages in
 * arrival order, and reading one bucket of it is a search with a test on those fields.
 */
module PbftNode {
  import opened Quorums

  type Id = int

  const NO_PEER_ID: Id := -1
  const CHECKPOINT_INTERVAL: nat := 10
  const VIEW_CHANGE_DELAY: nat := 10
  const WINDOW: nat := 128

  datatype Request = Request(requestId: int, submitterId: Id, roundSubmitted: int, faultFlip: bool)

  /** The digest of a request is injective, so the request stands for its digest. */
  datatype Proposal = Proposal(view: int, request: Request)

  /** The body shared by pre-prepare, prepare and commit; a malformed one has no proposal. */
  datatype Ballot = Ballot(seqNum: int, view: int, proposal: Option<Proposal>, from: Id)

  datatype Msg =
    | PrePrepare(b: Ballot)
    | Prepare(b: Ballot)
    | Commit(b: Ballot)
    | Checkpoint(seqNum: int, view: int, digest: seq<Request>, from: Id)
    | ViewChange(seqNum: int, view: int, newView: int, lastStable: int, proof: seq<Ballot>, from: Id)
    | NewView(seqNum: int, view: int, lastStable: int, proof: seq<Ballot>, from: Id)
  {
    function Sender(): Id {
      if PrePrepare? || Prepare? || Commit? then b.from else from
    }

    function SeqNum(): int {
      if PrePrepare? || Prepare? || Commit? then b.seqNum else seqNum
    }
  }

  datatype Phase = PrePreparing | Preparing | Committing | ViewChanging | NewViewing

  datatype Config = Config(committee: seq<Id>, me: Id)

  datatype Node = Node(
    view: nat,
    phase: Phase,
    timer: nat,
    log: seq<Msg>,
    confirmed: seq<Request>,
    unhandled: seq<(nat, Request)>,
    nextRequestId: int,
    latency: int,
    lastStable: nat,
    lowWater: nat,
    highWater: nat,
    anchor: nat)

  datatype Event = Send(m: Msg) | SendRequest(r: Request) | Decide(view: nat, position: nat, request: Request)

  datatype StepResult = StepResult(node: Node, events: seq<Event>, again: bool)
  datatype RunResult = RunResult(node: Node, events: seq<Event>)

  function Initial(): Node {
    Node(0, PrePreparing, 10, [], [], [], 0, 0, 0, 0, WINDOW, 0)
  }

  // ---------------------------------------------------------------- quorums

  function F(committee: seq<Id>): nat {
    if committee == [] then 0 else (|committee| - 1) / 3
  }

  function Quorum(committee: seq<Id>): nat {
    2 * F(committee)
  }

  function LeaderFor(committee: seq<Id>, v: nat): Id {
    if committee == [] then NO_PEER_ID else committee[v % |committee|]
  }

  // ---------------------------------------------------------------- reading the log

  /** `b` is a well-formed ballot for request `r` in slot (`v`, `n`). */
  predicate BallotFor(b: Ballot, v: int, n: int, r: Request) {
    b.seqNum == n && b.view == v && b.proposal == Some(Proposal(v, r))
  }

  predicate SupportsPrePrepare(c: Config, m: Msg, v: nat, n: int, r: Request) {
    m.PrePrepare? && BallotFor(m.b, v, n, r) && m.b.from == LeaderFor(c.committee, v)
  }

  predicate HasPrePrepare(c: Config, log: seq<Msg>, v: nat, n: int, r: Request) {
    exists i :: 0 <= i < |log| && SupportsPrePrepare(c, log[i], v, n, r)
  }

  function PrepareSenders(log: seq<Msg>, v: int, n: int, r: Request): set<Id> {
    set i | 0 <= i < |log| && log[i].Prepare? && BallotFor(log[i].b, v, n, r) :: log[i].b.from
  }

  function CommitSenders(log: seq<Msg>, v: int, n: int, r: Request): set<Id> {
    set i | 0 <= i < |log| && log[i].Commit? && BallotFor(log[i].b, v, n, r) :: log[i].b.from
  }

  predicate IsPrepared(c: Config, log: seq<Msg>, v: nat, n: int, r: Request) {
    HasPrePrepare(c, log, v, n, r) && |PrepareSenders(log, v, n, r)| > Quorum(c.committee)
  }

  predicate IsCommitted(c: Config, log: seq<Msg>, v: nat, n: int, r: Request) {
    |CommitSenders(log, v, n, r)| > Quorum(c.committee)
  }

  function ViewChangeSenders(log: seq<Msg>, anchor: int, v: int): set<Id> {
    set i | 0 <= i < |log| && log[i].ViewChange? && log[i].seqNum == anchor && log[i].view == v - 1
            && log[i].newView == v :: log[i].from
  }

  /** The first logged message at or after index `i` that `want` accepts. */
  function First(log: seq<Msg>, i: nat, want: Msg -> bool): (r: Option<Msg>)
    requires i <= |log|
    ensures r.Some? ==> r.value in log && want(r.value)
    ensures r.None? ==> forall k :: i <= k < |log| ==> !want(log[k])
    decreases |log| - i
  {
    if i == |log| then None
    else if want(log[i]) then Some(log[i])
    else First(log, i + 1, want)
  }

  predicate PrePrepareAt(m: Msg, v: int, n: int) {
    m.PrePrepare? && m.b.seqNum == n && m.b.view == v && m.b.proposal.Some?
  }

  /** What a backup answers with a prepare. */
  function Acceptable(c: Config, v: nat, n: int): Msg -> bool {
    (m: Msg) => PrePrepareAt(m, v, n) && m.b.from == LeaderFor(c.committee, v)
  }

  /** What a replica answers with a commit; the ballot's own author is not checked. */
  function PreparedHere(c: Config, log: seq<Msg>, v: nat, n: int): Msg -> bool {
    (m: Msg) => PrePrepareAt(m, v, n) && IsPrepared(c, log, v, n, m.b.proposal.value.request)
  }

  /** What a replica executes. */
  function CommittedHere(c: Config, log: seq<Msg>, v: nat, n: int): Msg -> bool {
    (m: Msg) => PrePrepareAt(m, v, n) && m.b.from == LeaderFor(c.committee, v)
         && IsCommitted(c, log, v, n, m.b.proposal.value.request)
  }

  function NewViewFromLeader(c: Config, v: nat, anchor: int): Msg -> bool {
    (m: Msg) => m.NewView? && m.seqNum == anchor && m.view == v && m.from == LeaderFor(c.committee, v)
  }

  // ---------------------------------------------------------------- checkpoints

  predicate CheckpointAt(m: Msg, n: int, v: int) {
    m.Checkpoint? && m.seqNum == n && m.view == v
  }

  /** Checkpoint messages are tallied per digest, one per message and not per sender. */
  function Tally(log: seq<Msg>, n: int, v: int, digest: seq<Request>): nat {
    if log == [] then 0 else
      Tally(log[..|log| - 1], n, v, digest)
      + (var m := log[|log| - 1]; if CheckpointAt(m, n, v) && m.digest == digest then 1 else 0)
  }

  predicate StableReady(c: Config, log: seq<Msg>, n: int, v: int) {
    n % CHECKPOINT_INTERVAL == 0
    && exists i :: 0 <= i < |log| && CheckpointAt(log[i], n, v)
                   && Tally(log, n, v, log[i].digest) > Quorum(c.committee)
  }

  function Prune(log: seq<Msg>, low: int): (r: seq<Msg>)
    ensures forall m :: m in r ==> m in log
    ensures forall m :: m in log && m.SeqNum() >= low ==> m in r
  {
    if log == [] then []
    else
      var rest := Prune(log[..|log| - 1], low);
      var m := log[|log| - 1];
      if m.SeqNum() < low then rest else rest + [m]
  }

  function MaybeStableCheckpoint(c: Config, s: Node): Node {
    var n := |s.confirmed|;
    if n % CHECKPOINT_INTERVAL == 0 && StableReady(c, s.log, n, s.view) then
      s.(lastStable := n, lowWater := n, highWater := n + WINDOW, log := Prune(s.log, n))
    else s
  }

  // ---------------------------------------------------------------- client requests

  /** Insertion into a multimap keyed by round: after every entry with an equal or smaller key. */
  function InsertByRound(u: seq<(nat, Request)>, round: nat, r: Request): (w: seq<(nat, Request)>)
    ensures |w| == |u| + 1
    ensures multiset(w) == multiset(u) + multiset{(round, r)}
  {
    if u == [] || u[|u| - 1].0 <= round then u + [(round, r)]
    else
      var last := u[|u| - 1];
      assert u == u[..|u| - 1] + [last];
      InsertByRound(u[..|u| - 1], round, r) + [last]
  }

  function RemoveRequest(u: seq<(nat, Request)>, r: Request): seq<(nat, Request)> {
    if u == [] then []
    else if u[0].1 == r then u[1..]
    else [u[0]] + RemoveRequest(u[1..], r)
  }

  // ---------------------------------------------------------------- view changes

  /** The pre-prepares of view `v` that are prepared at positions `lo` up to `hi`. */
  function PreparedProof(c: Config, log: seq<Msg>, v: nat, lo: nat, hi: nat): seq<Ballot>
    decreases hi - lo
  {
    if lo >= hi then [] else
      var found := First(log, 0, PreparedHere(c, log, v, lo));
      (if found.Some? then [found.value.b] else []) + PreparedProof(c, log, v, lo + 1, hi)
  }

  function RequestViewChange(c: Config, s: Node, round: nat): StepResult {
    var vc := ViewChange(s.lastStable, s.view, s.view + 1, s.lastStable,
                         PreparedProof(c, s.log, s.view, s.lastStable + 1, |s.confirmed|), c.me);
    StepResult(
      s.(view := s.view + 1, anchor := s.lastStable, log := s.log + [vc],
         timer := round + VIEW_CHANGE_DELAY, phase := ViewChanging),
      [Send(vc)], false)
  }

  /** The better of the ballot held so far and `b` for position `n`: a strictly later view wins. */
  function Better(best: Option<Ballot>, b: Ballot, n: int): Option<Ballot> {
    if b.seqNum == n && b.proposal.Some?
       && b.proposal.value.view > (if best.Some? && best.value.proposal.Some? then best.value.proposal.value.view else -1)
    then Some(b) else best
  }

  function BestInProof(best: Option<Ballot>, proof: seq<Ballot>, n: int): Option<Ballot> {
    if proof == [] then best
    else Better(BestInProof(best, proof[..|proof| - 1], n), proof[|proof| - 1], n)
  }

  function BestInLog(log: seq<Msg>, anchor: int, v: int, n: int): Option<Ballot> {
    if log == [] then None
    else
      var m := log[|log| - 1];
      var best := BestInLog(log[..|log| - 1], anchor, v, n);
      if m.ViewChange? && m.seqNum == anchor && m.view == v - 1 && m.newView == v
      then BestInProof(best, m.proof, n) else best
  }

  /** The ballots the new leader carries over, one per position from `lo` to `hi` that has any. */
  function CarriedOver(log: seq<Msg>, anchor: int, v: int, lo: nat, hi: nat): seq<Ballot>
    decreases hi - lo
  {
    if lo > hi then [] else
      var best := BestInLog(log, anchor, v, lo);
      (if best.Some? then [best.value] else []) + CarriedOver(log, anchor, v, lo + 1, hi)
  }

  /** The pre-prepares re-issued on entering view `v`; every replica issues them in its own name. */
  function Reissued(c: Config, v: nat, proof: seq<Ballot>): seq<Msg> {
    if proof == [] then []
    else
      var b := proof[|proof| - 1];
      Reissued(c, v, proof[..|proof| - 1])
      + (if b.proposal.Some?
         then [PrePrepare(Ballot(b.seqNum, v, Some(Proposal(v, b.proposal.value.request)), c.me))]
         else [])
  }

  function Sends(ms: seq<Msg>): seq<Event> {
    seq(|ms|, i requires 0 <= i < |ms| => Send(ms[i]))
  }

  // ---------------------------------------------------------------- the five phases

  function PrePrepareStep(c: Config, s0: Node, round: nat): StepResult {
    var s := MaybeStableCheckpoint(c, s0);
    var n := |s.confirmed|;
    if s.timer < round then RequestViewChange(c, s, round)
    else if c.me == LeaderFor(c.committee, s.view) then
      var own := Request(s.nextRequestId, c.me, round, false);
      var idle := s.unhandled == [];
      var t := if idle then s.(unhandled := InsertByRound([], round, own), nextRequestId := s.nextRequestId + 1)
               else s;
      var m := PrePrepare(Ballot(n, s.view, Some(Proposal(s.view, t.unhandled[0].1)), c.me));
      StepResult(t.(log := t.log + [m], phase := Preparing),
                 (if idle then [SendRequest(own)] else []) + [Send(m)], false)
    else
      var found := First(s.log, 0, Acceptable(c, s.view, n));
      if found.None? then StepResult(s, [], false)
      else
        var m := Prepare(found.value.b.(from := c.me));
        StepResult(s.(log := s.log + [m], phase := Preparing), [Send(m)], true)
  }

  function PrepareStep(c: Config, s0: Node, round: nat): StepResult {
    var s := MaybeStableCheckpoint(c, s0);
    var n := |s.confirmed|;
    if s.timer < round then RequestViewChange(c, s, round)
    else
      var found := First(s.log, 0, PreparedHere(c, s.log, s.view, n));
      if found.None? then StepResult(s, [], false)
      else
        var m := Commit(found.value.b.(from := c.me));
        StepResult(s.(log := s.log + [m], phase := Committing), [Send(m)], true)
  }

  function CommitStep(c: Config, s0: Node, round: nat): StepResult {
    var s := MaybeStableCheckpoint(c, s0);
    var n := |s.confirmed|;
    if s.timer < round then RequestViewChange(c, s, round)
    else
      var found := First(s.log, 0, CommittedHere(c, s.log, s.view, n));
      if found.None? then StepResult(s, [], false)
      else
        var r := found.value.b.proposal.value.request;
        var done := s.confirmed + [r];
        var mark := Checkpoint(|done|, s.view, done, c.me);
        var marks := if |done| % CHECKPOINT_INTERVAL == 0 then [mark] else [];
        StepResult(
          s.(confirmed := done, latency := s.latency + round - r.roundSubmitted,
             timer := round + VIEW_CHANGE_DELAY, log := s.log + marks,
             unhandled := RemoveRequest(s.unhandled, r), phase := PrePreparing),
          [Decide(s.view, n, r)] + Sends(marks), true)
  }

  function ViewChangeStep(c: Config, s0: Node, round: nat): StepResult {
    var s := MaybeStableCheckpoint(c, s0);
    if round >= s.timer then RequestViewChange(c, s, round)
    else if |ViewChangeSenders(s.log, s.anchor, s.view)| <= Quorum(c.committee) then StepResult(s, [], false)
    else if c.me == LeaderFor(c.committee, s.view) then
      var nv := NewView(s.anchor, s.view, s.lastStable,
                        CarriedOver(s.log, s.anchor, s.view, s.lastStable + 1, s.highWater), c.me);
      StepResult(s.(log := s.log + [nv], phase := NewViewing), [Send(nv)], false)
    else StepResult(s.(phase := NewViewing), [], false)
  }

  function NewViewStep(c: Config, s0: Node, round: nat): StepResult {
    var s := MaybeStableCheckpoint(c, s0);
    if round >= s.timer then RequestViewChange(c, s, round)
    else
      var found := First(s.log, 0, NewViewFromLeader(c, s.view, s.anchor));
      if found.None? || |ViewChangeSenders(s.log, s.anchor, s.view)| <= Quorum(c.committee)
      then StepResult(s, [], false)
      else
        var ms := Reissued(c, s.view, found.value.proof);
        StepResult(
          s.(lowWater := s.lastStable, highWater := s.lastStable + WINDOW, log := s.log + ms,
             timer := round + VIEW_CHANGE_DELAY, phase := PrePreparing),
          Sends(ms), true)
  }

  function PhaseStep(c: Config, s: Node, round: nat): StepResult {
    match s.phase
    case PrePreparing => PrePrepareStep(c, s, round)
    case Preparing => PrepareStep(c, s, round)
    case Committing => CommitStep(c, s, round)
    case ViewChanging => ViewChangeStep(c, s, round)
    case NewViewing => NewViewStep(c, s, round)
  }

  // ---------------------------------------------------------------- termination of the phase recursion

  /** Positions not yet executed for which the current leader's pre-prepare is logged. */
  function Backlog(c: Config, s: Node): set<int> {
    set i | 0 <= i < |s.log| && s.log[i].PrePrepare? && s.log[i].b.view == s.view
            && s.log[i].b.from == LeaderFor(c.committee, s.view)
            && s.log[i].b.seqNum >= |s.confirmed| :: s.log[i].b.seqNum
  }

  function Rank(p: Phase): nat {
    match p
    case NewViewing => 4
    case ViewChanging => 0
    case PrePreparing => 3
    case Preparing => 2
    case Committing => 1
  }

  function Entering(p: Phase): nat {
    if p.NewViewing? then 1 else 0
  }

  lemma CheckpointOnlyPrunes(c: Config, s: Node)
    ensures var t := MaybeStableCheckpoint(c, s);
      && (forall m :: m in t.log ==> m in s.log)
      && t.view == s.view && t.phase == s.phase && t.timer == s.timer && t.confirmed == s.confirmed
      && t.anchor == s.anchor
  {
  }

  lemma BacklogShrinks(c: Config, s: Node, t: Node)
    requires t.view == s.view && |t.confirmed| >= |s.confirmed|
    requires forall m :: m in t.log && m.PrePrepare? ==> m in s.log
    ensures Backlog(c, t) <= Backlog(c, s) && |Backlog(c, t)| <= |Backlog(c, s)|
  {
    forall x | x in Backlog(c, t) ensures x in Backlog(c, s) {
      var i :| 0 <= i < |t.log| && t.log[i].PrePrepare? && t.log[i].b.seqNum == x
               && t.log[i].b.view == s.view && t.log[i].b.from == LeaderFor(c.committee, s.view)
               && x >= |t.confirmed|;
      assert t.log[i] in s.log;
    }
    SubsetSize(Backlog(c, t), Backlog(c, s));
  }

  lemma CommitUsesBacklog(c: Config, s: Node, round: nat)
    requires CommitStep(c, s, round).again
    ensures var t := CommitStep(c, s, round).node;
      t.phase.PrePreparing? && |Backlog(c, t)| < |Backlog(c, s)|
  {
    var t, u := CommitStep(c, s, round).node, MaybeStableCheckpoint(c, s);
    CheckpointOnlyPrunes(c, s);
    BacklogShrinks(c, s, t);
    var m := First(u.log, 0, CommittedHere(c, u.log, u.view, |u.confirmed|)).value;
    assert m in s.log && m.b.seqNum == |s.confirmed|;
    assert |s.confirmed| in Backlog(c, s) && |s.confirmed| !in Backlog(c, t);
    SubsetSize(Backlog(c, t), Backlog(c, s) - {|s.confirmed|});
  }

  /** A phase that runs another one in the same call makes progress: positions are used up one by one. */
  lemma PhaseProgress(c: Config, s: Node, round: nat)
    requires PhaseStep(c, s, round).again
    ensures var t := PhaseStep(c, s, round).node;
      || Entering(t.phase) < Entering(s.phase)
      || (Entering(t.phase) == Entering(s.phase) && |Backlog(c, t)| < |Backlog(c, s)|)
      || (Entering(t.phase) == Entering(s.phase) && |Backlog(c, t)| == |Backlog(c, s)|
          && Rank(t.phase) < Rank(s.phase))
  {
    var t := PhaseStep(c, s, round).node;
    CheckpointOnlyPrunes(c, s);
    match s.phase
    case PrePreparing =>
      BacklogShrinks(c, s, t);
    case Preparing =>
      BacklogShrinks(c, s, t);
    case Committing =>
      CommitUsesBacklog(c, s, round);
    case ViewChanging =>
    case NewViewing =>
  }

  /** One call of the replica's current phase, with every phase it goes on to in the same call. */
  function RunPhase(c: Config, s: Node, round: nat): RunResult
    decreases Entering(s.phase), |Backlog(c, s)|, Rank(s.phase)
  {
    var r := PhaseStep(c, s, round);
    if !r.again then RunResult(r.node, r.events)
    else
      PhaseProgress(c, s, round);
      var rest := RunPhase(c, r.node, round);
      RunResult(rest.node, r.events + rest.events)
  }
}
