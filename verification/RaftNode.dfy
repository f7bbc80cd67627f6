/**
 * One member of the Raft-style replication group as a value: terms, votes, replies and the
 * three places where a client request can wait (deferred, pending, in flight).
 *
 * The current round and the deadline drawn by the election timer are parameters.
 */
module RaftNode {
  import opened Quorums

  type Id = int
  const NO_PEER_ID: Id := -1

  /** The identity of a request: who submitted it, and its number there. */
  type Key = (Id, int)

  /** A client request; each field may be missing from the message that carries it. */
  datatype Request = Request(
    submitterId: Option<Id>,
    clientSeq: Option<int>,
    roundSubmitted: Option<int>,
    forwardedTo: Option<Id>)

  function OrElse<T>(o: Option<T>, d: T): T {
    if o.Some? then o.value else d
  }

  function KeyOf(r: Request): Key {
    (OrElse(r.submitterId, NO_PEER_ID), OrElse(r.clientSeq, -1))
  }

  predicate KeyValid(k: Key) {
    k.0 != NO_PEER_ID && k.1 >= 0
  }

  datatype Msg =
    | Replicate(request: Request, from: Id, term: int)
    | Respond(request: Request, from: Id, term: int)
    | Vote(candidate: Id, from: Id, term: int)
    | Elect(from: Id, term: int)
    | Commit(request: Request, from: Id, term: int, roundSubmitted: int, roundCommitted: int)
    | Client(request: Request)

  datatype Envelope = Unicast(to: Id, m: Msg) | Multicast(m: Msg)

  datatype Confirmation = Confirmation(request: Request, roundSubmitted: int, roundCommitted: int, term: int)

  datatype Node = Node(
    candidate: Id,
    leader: Id,
    term: int,
    votes: seq<Id>,
    replies: map<Key, seq<Id>>,
    submittedRound: map<Key, int>,
    committed: set<Key>,
    known: set<Key>,
    pending: seq<Request>,
    deferred: seq<Request>,
    inFlight: Option<Request>,
    leaderChanges: nat,
    timeOutRound: int,
    nextRequestId: nat,
    confirmed: seq<Confirmation>,
    latency: int)

  datatype Config = Config(members: set<Id>, me: Id)

  datatype Now = Now(round: int, deadline: int)

  datatype Result = Result(node: Node, out: seq<Envelope>)

  function Initial(deadline: int): Node {
    Node(NO_PEER_ID, 0, 0, [], map[], map[], {}, {}, [], [], None, 0, deadline, 0, [], 0)
  }

  function HasQuorum(c: Config, count: nat): bool {
    count > |c.members| / 2
  }

  // ---------------------------------------------------------------- queues

  predicate Live(committed: set<Key>, r: Request) {
    KeyValid(KeyOf(r)) && KeyOf(r) !in committed
  }

  /** The requests that are well formed and not committed yet, in order. */
  function LiveOnly(committed: set<Key>, q: seq<Request>): seq<Request> {
    if q == [] then []
    else (if Live(committed, q[0]) then [q[0]] else []) + LiveOnly(committed, q[1..])
  }

  function Without(k: Key, q: seq<Request>): seq<Request> {
    if q == [] then []
    else (if KeyOf(q[0]) == k then [] else [q[0]]) + Without(k, q[1..])
  }

  function Unmark(q: seq<Request>): seq<Request> {
    seq(|q|, i requires 0 <= i < |q| => q[i].(forwardedTo := None))
  }

  function Mark(q: seq<Request>, leader: Id): seq<Request> {
    seq(|q|, i requires 0 <= i < |q| => q[i].(forwardedTo := Some(leader)))
  }

  /** Each request goes to each leader once: those already forwarded to this one stay silent. */
  function Outbound(q: seq<Request>, leader: Id): seq<Envelope> {
    if q == [] then []
    else (if OrElse(q[0].forwardedTo, NO_PEER_ID) == leader then [] else [Unicast(leader, Client(q[0]))])
         + Outbound(q[1..], leader)
  }

  function Enqueue(s: Node, r: Request): Node {
    if !KeyValid(KeyOf(r)) || KeyOf(r) in s.known then s
    else s.(known := s.known + {KeyOf(r)}, deferred := s.deferred + [r])
  }

  function ForwardDeferred(c: Config, s: Node): Result {
    var live := LiveOnly(s.committed, s.deferred);
    if s.leader == c.me then
      Result(s.(deferred := [], pending := s.pending + Unmark(live)), [])
    else if s.leader != NO_PEER_ID then
      Result(s.(deferred := Mark(live, s.leader)), Outbound(live, s.leader))
    else
      Result(s.(deferred := live), [])
  }

  /** The first two steps of a client request, before replication is attempted. */
  function Submit(c: Config, s: Node, r: Request): Result {
    ForwardDeferred(c, Enqueue(s, r))
  }

  /** Puts the first live pending request in flight and drops the dead ones before it. */
  function TakePending(c: Config, s: Node, now: Now): Result
    decreases |s.pending|
  {
    if s.pending == [] then Result(s, [])
    else
      var r, rest := s.pending[0], s.pending[1..];
      if !Live(s.committed, r) then TakePending(c, s.(pending := rest), now)
      else
        var k, sent := KeyOf(r), r.(roundSubmitted := Some(now.round));
        Result(s.(pending := rest,
                  inFlight := Some(sent),
                  replies := if k in s.replies then s.replies else s.replies[k := []],
                  submittedRound := s.submittedRound[k := now.round],
                  timeOutRound := now.deadline),
               [Multicast(Replicate(sent, c.me, s.term))])
  }

  function OwnKey(c: Config, s: Node): Key {
    (c.me, s.nextRequestId)
  }

  function OwnRequest(c: Config, s: Node, now: Now): Request {
    Request(Some(c.me), Some(s.nextRequestId), Some(now.round), None)
  }

  /** The member's own numbers, from the next one on, that are already taken. */
  ghost function Taken(c: Config, s: Node): set<Key> {
    set k | k in s.known + s.committed && k.0 == c.me && k.1 >= s.nextRequestId
  }

  ghost function Idle(s: Node): nat {
    if s.pending == [] then 1 else 0
  }

  /** The state in which an idle leader asks itself for a request. */
  function SelfSubmit(c: Config, s: Node, now: Now): Result {
    Submit(c, s.(nextRequestId := s.nextRequestId + 1), OwnRequest(c, s, now))
  }

  lemma SelfSubmitProgress(c: Config, s: Node, now: Now)
    requires c.me != NO_PEER_ID && s.leader == c.me && s.pending == []
    ensures var t := SelfSubmit(c, s, now).node;
            |Taken(c, t)| < |Taken(c, s)| || (|Taken(c, t)| == |Taken(c, s)| && Idle(t) < Idle(s))
  {
    var t := SelfSubmit(c, s, now).node;
    var k := OwnKey(c, s);
    assert KeyOf(OwnRequest(c, s, now)) == k;
    assert Taken(c, t) == Taken(c, s) - {k};
    if k !in Taken(c, s) {
      assert Taken(c, t) == Taken(c, s);
      var r := OwnRequest(c, s, now);
      LiveOnlyAppend(s.committed, s.deferred, r);
    }
  }

  lemma {:induction false} LiveOnlyAppend(committed: set<Key>, q: seq<Request>, r: Request)
    ensures LiveOnly(committed, q + [r]) == LiveOnly(committed, q) + if Live(committed, r) then [r] else []
  {
    if q != [] {
      LiveOnlyAppend(committed, q[1..], r);
      assert (q + [r])[1..] == q[1..] + [r];
    }
  }

  /**
   * An idle leader first submits a request of its own, which starts replication in a nested
   * call; the outer call then takes one more pending request if there is one.
   */
  function StartReplication(c: Config, s: Node, now: Now): Result
    requires c.me != NO_PEER_ID
    decreases |Taken(c, s)|, Idle(s)
  {
    if s.leader != c.me || s.inFlight.Some? then Result(s, [])
    else if s.pending == [] then
      SelfSubmitProgress(c, s, now);
      var submitted := SelfSubmit(c, s, now);
      var nested := StartReplication(c, submitted.node, now);
      var taken := TakePending(c, nested.node, now);
      Result(taken.node, submitted.out + nested.out + taken.out)
    else TakePending(c, s, now)
  }

  // ---------------------------------------------------------------- handlers

  /** A request without a round, a submitter or a number gets the missing ones here. */
  function Fill(c: Config, s: Node, r: Request, now: Now): Request {
    Request(
      Some(OrElse(r.submitterId, c.me)),
      Some(OrElse(r.clientSeq, s.nextRequestId)),
      Some(OrElse(r.roundSubmitted, now.round)),
      r.forwardedTo)
  }

  function OnClientRequest(c: Config, s: Node, r: Request, now: Now): Result
    requires c.me != NO_PEER_ID
  {
    var numbered := if r.clientSeq.None? then s.(nextRequestId := s.nextRequestId + 1) else s;
    var submitted := Submit(c, numbered, Fill(c, s, r, now));
    var started := StartReplication(c, submitted.node, now);
    Result(started.node, submitted.out + started.out)
  }

  function ResetReplication(s: Node, requeue: bool): Node {
    if s.inFlight.None? then s
    else
      var r := s.inFlight.value;
      var k := KeyOf(r);
      s.(pending := if requeue && Live(s.committed, r) then [r] + s.pending else s.pending,
         replies := if KeyValid(k) then s.replies - {k} else s.replies,
         submittedRound := if KeyValid(k) then s.submittedRound - {k} else s.submittedRound,
         inFlight := None)
  }

  function HandleReplicate(c: Config, s: Node, m: Msg, now: Now): Result
    requires m.Replicate?
  {
    if m.term < 0 || m.from == NO_PEER_ID then Result(s, [])
    else
      var s1 := if s.term > m.term then s
                else (if s.leader != m.from then ResetReplication(s, false) else s)
                     .(term := m.term, leader := m.from, votes := [], candidate := NO_PEER_ID,
                       timeOutRound := now.deadline);
      if !KeyValid(KeyOf(m.request)) then Result(s1, [])
      else Result(Enqueue(s1, m.request), [Unicast(m.from, Respond(m.request, c.me, s1.term))])
  }

  function Record(s: Node, r: Request, submitted: int, committed: int): Node {
    s.(confirmed := s.confirmed + [Confirmation(r, submitted, committed, s.term)],
       latency := s.latency + (committed - submitted))
  }

  function ApplyCommit(s: Node, r: Request, submitted: int, committed: int, skipMetrics: bool): Node {
    var k := KeyOf(r);
    if !KeyValid(k) then s
    else
      var s1 := s.(committed := s.committed + {k},
                   submittedRound := s.submittedRound - {k},
                   replies := s.replies - {k},
                   deferred := Without(k, s.deferred),
                   pending := Without(k, s.pending));
      if skipMetrics then s1 else Record(s1, r, submitted, committed)
  }

  function Confirm(c: Config, s: Node, r: Request, submitted: int, now: Now): Result
    requires c.me != NO_PEER_ID
  {
    var done := ApplyCommit(Record(s, r, submitted, now.round), r, submitted, now.round, true).(inFlight := None);
    var started := StartReplication(c, done, now);
    Result(started.node, [Multicast(Commit(r, c.me, s.term, submitted, now.round))] + started.out)
  }

  /** The members counted for `k` so far. */
  function RepliesFor(s: Node, k: Key): seq<Id> {
    if k in s.replies then s.replies[k] else []
  }

  function HandleRespond(c: Config, s: Node, m: Msg, now: Now): Result
    requires m.Respond? && c.me != NO_PEER_ID
  {
    var k := KeyOf(m.request);
    if s.leader != c.me || s.inFlight.None? || k != KeyOf(s.inFlight.value) || m.from == NO_PEER_ID
       || m.from in RepliesFor(s, k) then
      Result(s, [])
    else
      var responders := RepliesFor(s, k) + [m.from];
      var s1 := s.(replies := s.replies[k := responders]);
      if !HasQuorum(c, |responders|) then Result(s1, [])
      else
        var submitted := if k in s.submittedRound then s.submittedRound[k]
                         else OrElse(m.request.roundSubmitted, now.round);
        Confirm(c, s1, m.request, submitted, now)
  }

  /** A new leader puts its request in flight back in the queue. */
  function TakeLead(c: Config, s: Node, now: Now): Node {
    ResetReplication(s, true).(leader := c.me, candidate := NO_PEER_ID, votes := [],
                               leaderChanges := s.leaderChanges + 1, timeOutRound := now.deadline)
  }

  function BecomeLeader(c: Config, s: Node, now: Now): Result
    requires c.me != NO_PEER_ID
  {
    var forwarded := ForwardDeferred(c, TakeLead(c, s, now));
    var started := StartReplication(c, forwarded.node, now);
    Result(started.node, forwarded.out + started.out)
  }

  function HandleVote(c: Config, s: Node, m: Msg, now: Now): Result
    requires m.Vote? && c.me != NO_PEER_ID
  {
    if s.leader == c.me || m.candidate != c.me || m.from == NO_PEER_ID || m.from in s.votes then
      Result(s, [])
    else
      var s1 := s.(votes := s.votes + [m.from]);
      if HasQuorum(c, |s1.votes|) then BecomeLeader(c, s1, now) else Result(s1, [])
  }

  function HandleElect(c: Config, s: Node, m: Msg, now: Now): Result
    requires m.Elect?
  {
    if m.term <= s.term || m.from == NO_PEER_ID then Result(s, [])
    else
      var s1 := ResetReplication(s, true).(term := m.term, leader := NO_PEER_ID, votes := [], candidate := m.from,
                                           timeOutRound := now.deadline);
      Result(s1, [Unicast(m.from, Vote(m.from, c.me, m.term))])
  }

  function HandleCommit(c: Config, s: Node, m: Msg): Result
    requires m.Commit?
  {
    if m.from == c.me then Result(s, [])
    else
      var s1 := if m.term > s.term then s.(term := m.term) else s;
      Result(ApplyCommit(s1, m.request, m.roundSubmitted, m.roundCommitted, false), [])
  }

  /** A new request of the member's own. */
  function Generate(c: Config, s: Node, now: Now): Result
    requires c.me != NO_PEER_ID
  {
    OnClientRequest(c, s.(nextRequestId := s.nextRequestId + 1), OwnRequest(c, s, now), now)
  }

  function MaybeStartElection(c: Config, s: Node, now: Now): Result {
    if s.timeOutRound > now.round then Result(s, [])
    else
      var s1 := ResetReplication(s, true).(candidate := c.me, leader := NO_PEER_ID, term := s.term + 1, votes := [],
                                           timeOutRound := now.deadline);
      Result(s1, [Multicast(Elect(c.me, s.term + 1))])
  }

  /** What can happen to a member: a message, the three parts of its own tick. */
  datatype Event = Receive(m: Msg) | Produce | Expire | Flush

  function Handle(c: Config, s: Node, e: Event, now: Now): Result
    requires c.me != NO_PEER_ID
  {
    match e
    case Produce => Generate(c, s, now)
    case Expire => MaybeStartElection(c, s, now)
    case Flush => ForwardDeferred(c, s)
    case Receive(m) =>
      match m {
        case Replicate(_, _, _) => HandleReplicate(c, s, m, now)
        case Respond(_, _, _) => HandleRespond(c, s, m, now)
        case Vote(_, _, _) => HandleVote(c, s, m, now)
        case Elect(_, _) => HandleElect(c, s, m, now)
        case Commit(_, _, _, _, _) => HandleCommit(c, s, m)
        case Client(r) => OnClientRequest(c, s, r, now)
      }
  }
}
