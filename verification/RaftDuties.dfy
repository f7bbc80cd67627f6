/**
 * What a member owes the requests it holds: who is sent which request, what goes in flight, what a
 * confirmation records, and over a run, that every recorded delay runs from a round in which a
 * leader really sent the request out.
 */
module RaftDuties {
  import opened Quorums
  import opened RaftNode
  import opened RaftQueues
  import opened RaftRuns
  import opened RaftLosses
  import opened RaftTimers

  // ---------------------------------------------------------------- passing requests on

  /** How often `x` occurs. */
  function Count<T(==)>(q: seq<T>, x: T): nat {
    multiset(q)[x]
  }

  lemma CountCons<T>(q: seq<T>, x: T)
    requires q != []
    ensures Count(q, x) == (if q[0] == x then 1 else 0) + Count(q[1..], x)
  {
    assert q == [q[0]] + q[1..];
  }

  /** The live requests stay, each as often as before and in order, and the dead ones go. */
  lemma {:induction false} LiveOnlyIs(committed: set<Key>, q: seq<Request>)
    ensures Sub(LiveOnly(committed, q), q)
    ensures forall x :: Count(LiveOnly(committed, q), x) == if Live(committed, x) then Count(q, x) else 0
    decreases |q|
  {
    if q != [] {
      var rest, l := LiveOnly(committed, q[1..]), LiveOnly(committed, q);
      LiveOnlyIs(committed, q[1..]);
      assert if Live(committed, q[0]) then l == [q[0]] + rest && l[1..] == rest else l == [] + rest == rest;
      forall x ensures Count(l, x) == if Live(committed, x) then Count(q, x) else 0 {
        CountCons(q, x);
        if Live(committed, q[0]) {
          CountCons(l, x);
        } else {
          assert l == rest;
        }
      }
    }
  }

  /** The request still has to be sent to this leader. */
  predicate Owes(x: Request, leader: Id) {
    OrElse(x.forwardedTo, NO_PEER_ID) != leader
  }

  function Messages(q: seq<Request>, leader: Id): seq<Envelope> {
    seq(|q|, i requires 0 <= i < |q| => Unicast(leader, Client(q[i])))
  }

  /** `out` sends the leader the requests of `q` that it was not sent yet, each once and in order. */
  ghost predicate SendsOwed(q: seq<Request>, leader: Id, out: seq<Envelope>) {
    && Sub(out, Messages(q, leader))
    && forall x :: Count(out, Unicast(leader, Client(x))) == if Owes(x, leader) then Count(q, x) else 0
  }

  lemma {:induction false} OutboundSendsOwed(q: seq<Request>, leader: Id)
    ensures SendsOwed(q, leader, Outbound(q, leader))
    decreases |q|
  {
    if q != [] {
      var rest, out := Outbound(q[1..], leader), Outbound(q, leader);
      OutboundSendsOwed(q[1..], leader);
      assert Messages(q, leader)[1..] == Messages(q[1..], leader);
      assert if Owes(q[0], leader) then out == [Unicast(leader, Client(q[0]))] + rest && out[1..] == rest else out == [] + rest == rest;
      forall x ensures Count(out, Unicast(leader, Client(x))) == if Owes(x, leader) then Count(q, x) else 0 {
        CountCons(q, x);
        if Owes(q[0], leader) {
          CountCons(out, Unicast(leader, Client(x)));
        } else {
          assert out == rest;
        }
      }
    }
  }

  /** `t` is `q` with every request marked as sent to `mark`. */
  predicate Marked(q: seq<Request>, t: seq<Request>, mark: Option<Id>) {
    |t| == |q| && forall i :: 0 <= i < |q| ==> t[i] == q[i].(forwardedTo := mark)
  }

  /** `live` are the requests of `q` that are well formed and not committed. */
  ghost predicate Survive(committed: set<Key>, q: seq<Request>, live: seq<Request>) {
    && Sub(live, q)
    && forall x :: Count(live, x) == if Live(committed, x) then Count(q, x) else 0
  }

  /** The live deferred requests join the pending ones, unmarked. */
  predicate BecomePending(s: Node, live: seq<Request>, t: Node) {
    && t.deferred == [] && |t.pending| == |s.pending| + |live| && t.pending[..|s.pending|] == s.pending
    && Marked(live, t.pending[|s.pending|..], None)
  }

  /**
   * Flushing sends a follower's live deferred requests to its leader, each once; a leader makes
   * them pending instead, and without a leader they wait. The committed ones are dropped.
   */
  ghost predicate Flushes(c: Config, s: Node, live: seq<Request>, r: Result) {
    var t := r.node;
    && Survive(s.committed, s.deferred, live)
    && t == s.(deferred := t.deferred, pending := t.pending)
    && if s.leader == c.me then BecomePending(s, live, t) && r.out == []
       else if s.leader != NO_PEER_ID then
         t.pending == s.pending && SendsOwed(live, s.leader, r.out) && Marked(live, t.deferred, Some(s.leader))
       else t.pending == s.pending && t.deferred == live && r.out == []
  }

  lemma LeaderTakes(s: Node, live: seq<Request>)
    ensures BecomePending(s, live, s.(deferred := [], pending := s.pending + Unmark(live)))
  {
  }

  lemma FlushesExactly(c: Config, s: Node, now: Now) returns (live: seq<Request>)
    requires c.me != NO_PEER_ID
    ensures Flushes(c, s, live, Handle(c, s, Flush, now))
  {
    live := LiveOnly(s.committed, s.deferred);
    LiveOnlyIs(s.committed, s.deferred);
    if s.leader == c.me {
      LeaderTakes(s, live);
    } else {
      OutboundSendsOwed(live, s.leader);
    }
  }

  lemma {:induction false} AllMarked(committed: set<Key>, q: seq<Request>, leader: Id)
    requires forall i :: 0 <= i < |q| ==> Live(committed, q[i]) && q[i].forwardedTo == Some(leader)
    ensures LiveOnly(committed, q) == q && Outbound(q, leader) == []
    decreases |q|
  {
    if q != [] {
      AllMarked(committed, q[1..], leader);
    }
  }

  /** A second flush under the same leader sends nothing and changes nothing. */
  lemma FlushTwice(c: Config, s: Node, now: Now, later: Now)
    requires c.me != NO_PEER_ID && s.leader != c.me && s.leader != NO_PEER_ID
    ensures var t := Handle(c, s, Flush, now).node; Handle(c, t, Flush, later) == Result(t, [])
  {
    var t := Handle(c, s, Flush, now).node;
    LiveOnlyIsSub(s.committed, s.deferred);
    AllMarked(t.committed, t.deferred, t.leader);
    assert Mark(t.deferred, t.leader) == t.deferred;
  }

  // ---------------------------------------------------------------- sending a request out

  /**
   * The first `i` pending requests are dead and dropped; the next one goes in flight and to the
   * group, stamped with the current round, unless there is none.
   */
  ghost predicate Launches(c: Config, s: Node, now: Now, i: nat, r: Result) {
    var t := r.node;
    && i <= |s.pending| && (forall j :: 0 <= j < i ==> !Live(s.committed, s.pending[j]))
    && t.deferred == s.deferred && t.known == s.known && t.committed == s.committed && t.nextRequestId == s.nextRequestId
    && if i == |s.pending| then t.pending == [] && t.inFlight == s.inFlight && t.submittedRound == s.submittedRound && r.out == []
       else
         && Live(s.committed, s.pending[i])
         && t.pending == s.pending[i + 1..]
         && t.inFlight == Some(s.pending[i].(roundSubmitted := Some(now.round)))
         && t.submittedRound == s.submittedRound[KeyOf(s.pending[i]) := now.round]
         && r.out == [Multicast(Replicate(t.inFlight.value, c.me, s.term))]
  }

  lemma {:induction false} TakesFirstLive(c: Config, s: Node, now: Now) returns (i: nat)
    ensures Launches(c, s, now, i, TakePending(c, s, now))
    decreases |s.pending|
  {
    if s.pending == [] || Live(s.committed, s.pending[0]) {
      i := 0;
    } else {
      var rest := s.(pending := s.pending[1..]);
      var h := TakesFirstLive(c, rest, now);
      i := h + 1;
      assert h < |rest.pending| ==> rest.pending[h] == s.pending[i] && rest.pending[h + 1..] == s.pending[i + 1..];
      forall j | 0 <= j < i ensures !Live(s.committed, s.pending[j]) {
        if j > 0 {
          assert s.pending[j] == rest.pending[j - 1];
        }
      }
    }
  }

  // ---------------------------------------------------------------- a client's request

  /** The identity that a request without a submitter or a number gets from the member that hears it. */
  function Named(c: Config, s: Node, r: Request): Key {
    (OrElse(r.submitterId, c.me), OrElse(r.clientSeq, s.nextRequestId))
  }

  /**
   * A new request becomes known and waits; a number that the member gave itself is not given again;
   * what is already known, or has no valid identity, changes nothing but the numbering.
   */
  lemma ClientIsHeard(c: Config, s: Node, r: Request, now: Now)
    requires c.me != NO_PEER_ID && QueuesOk(s)
    ensures var t, k := Handle(c, s, Receive(Client(r)), now).node, Named(c, s, r);
      && (KeyValid(k) ==> k in t.known)
      && (KeyValid(k) && k !in s.known && k !in s.committed ==> k in Waiting(t))
      && (r.clientSeq.None? ==> t.nextRequestId > s.nextRequestId)
  {
    var s1 := if r.clientSeq.None? then s.(nextRequestId := s.nextRequestId + 1) else s;
    var full, k := Fill(c, s, r, now), Named(c, s, r);
    var s2 := Enqueue(s1, full);
    var s3 := ForwardDeferred(c, s2).node;
    NumberedKeeps(s, s1, full);
    ForwardAndStartKeeps(c, s2, now);
    ForwardIsQuiet(c, s2);
    StartIsQuiet(c, s3, now);
    NumbersGrow(c, s3, now);
    assert Handle(c, s, Receive(Client(r)), now).node == StartReplication(c, s3, now).node;
    if KeyValid(k) && k !in s.known && k !in s.committed {
      assert Keys(s2.deferred) == Keys(s.deferred) + [k];
      assert k in Waiting(s2);
    }
  }

  /** The request with what was missing: the submitter, a number and the current round. */
  function Completed(c: Config, s: Node, r: Request, now: Now): Request {
    Request(Some(Named(c, s, r).0), Some(Named(c, s, r).1), Some(OrElse(r.roundSubmitted, now.round)), r.forwardedTo)
  }

  /** A follower sends a new request on at once, completed, unless it came marked as sent there. */
  lemma ClientIsForwarded(c: Config, s: Node, r: Request, now: Now)
    requires c.me != NO_PEER_ID && s.leader != c.me && s.leader != NO_PEER_ID
    requires KeyValid(Named(c, s, r)) && Named(c, s, r) !in s.known && Named(c, s, r) !in s.committed
    requires r.forwardedTo != Some(s.leader)
    ensures Unicast(s.leader, Client(Completed(c, s, r, now))) in Handle(c, s, Receive(Client(r)), now).out
  {
    var s1 := if r.clientSeq.None? then s.(nextRequestId := s.nextRequestId + 1) else s;
    var full := Completed(c, s, r, now);
    var s2 := Enqueue(s1, full);
    assert s2.deferred[|s.deferred|] == full;
    OwedIsSent(s2.committed, s2.deferred, full, s.leader);
    StartsWith(c, s, r, now, s2);
  }

  lemma OwedIsSent(committed: set<Key>, q: seq<Request>, x: Request, leader: Id)
    requires x in q && Live(committed, x) && Owes(x, leader)
    ensures Unicast(leader, Client(x)) in Outbound(LiveOnly(committed, q), leader)
  {
    LiveOnlyIs(committed, q);
    assert Count(LiveOnly(committed, q), x) > 0;
    OutboundSendsOwed(LiveOnly(committed, q), leader);
    assert Count(Outbound(LiveOnly(committed, q), leader), Unicast(leader, Client(x))) > 0;
  }

  /** Whatever else a client's request sets off, the deferred requests are forwarded first. */
  lemma StartsWith(c: Config, s: Node, r: Request, now: Now, s2: Node)
    requires c.me != NO_PEER_ID
    requires s2 == Enqueue(if r.clientSeq.None? then s.(nextRequestId := s.nextRequestId + 1) else s, Fill(c, s, r, now))
    ensures ForwardDeferred(c, s2).out <= Handle(c, s, Receive(Client(r)), now).out
  {
  }

  lemma {:induction false} NumbersGrow(c: Config, s: Node, now: Now)
    requires c.me != NO_PEER_ID
    ensures StartReplication(c, s, now).node.nextRequestId >= s.nextRequestId
    decreases |Taken(c, s)|, Idle(s)
  {
    if s.leader == c.me && s.inFlight.None? {
      if s.pending == [] {
        SelfSubmitProgress(c, s, now);
        var s1 := SelfSubmit(c, s, now).node;
        NumbersGrow(c, s1, now);
        var i := TakesFirstLive(c, StartReplication(c, s1, now).node, now);
      } else {
        var i := TakesFirstLive(c, s, now);
      }
    }
  }

  /** A request of the member's own carries its next number, which is spent. */
  lemma ProduceIsHeard(c: Config, s: Node, now: Now)
    requires c.me != NO_PEER_ID && QueuesOk(s)
    ensures var t, k := Handle(c, s, Produce, now).node, (c.me, s.nextRequestId);
      && k in t.known && t.nextRequestId > s.nextRequestId
      && (k !in s.known && k !in s.committed ==> k in Waiting(t))
  {
    var s1, own := s.(nextRequestId := s.nextRequestId + 1), OwnRequest(c, s, now);
    SameQueuesAreOk(s, s1);
    ClientIsHeard(c, s1, own, now);
    var s2 := Enqueue(s1, own);
    assert Fill(c, s1, own, now) == own;
    NumbersGrow(c, ForwardDeferred(c, s2).node, now);
  }

  // ---------------------------------------------------------------- answering a leader

  /** Every well-formed request of a leader is learned, and answered with the member's own term. */
  lemma LeaderIsAnswered(c: Config, s: Node, m: Msg, now: Now)
    requires m.Replicate? && c.me != NO_PEER_ID
    ensures var r, k := Handle(c, s, Receive(m), now), KeyOf(m.request);
      if m.term < 0 || m.from == NO_PEER_ID then r == Result(s, [])
      else if !KeyValid(k) then r.out == []
      else
        && r.out == [Unicast(m.from, Respond(m.request, c.me, if m.term > s.term then m.term else s.term))]
        && r.node.known == s.known + {k}
        && (k !in s.known ==> r.node.deferred == s.deferred + [m.request])
        && (k in s.known ==> r.node.deferred == s.deferred)
  {
  }

  /** Whoever stands, votes or is elected keeps its request, as the next to send, and counts afresh. */
  lemma BackInTheQueue(c: Config, s: Node, now: Now)
    requires c.me != NO_PEER_ID && QueuesOk(s) && s.inFlight.Some? && now.round >= s.timeOutRound
    ensures var t, x := Handle(c, s, Expire, now).node, s.inFlight.value;
      && t.inFlight.None? && RepliesFor(t, KeyOf(x)) == [] && KeyOf(x) !in t.submittedRound
      && t.pending == if KeyOf(x) in s.committed then s.pending else [x] + s.pending
  {
    assert FlightKeys(s)[0] in Waiting(s);
  }

  /** The same on voting for another. */
  lemma BackInTheQueueOnVoting(c: Config, s: Node, m: Msg, now: Now)
    requires c.me != NO_PEER_ID && QueuesOk(s) && s.inFlight.Some? && Calls(s, Receive(m))
    ensures var t, x := Handle(c, s, Receive(m), now).node, s.inFlight.value;
      && t.inFlight.None? && RepliesFor(t, KeyOf(x)) == [] && KeyOf(x) !in t.submittedRound
      && t.pending == if KeyOf(x) in s.committed then s.pending else [x] + s.pending
  {
    assert FlightKeys(s)[0] in Waiting(s);
  }

  /** Following another leader lets go of the request in flight and its count. */
  lemma FollowingLetsGo(c: Config, s: Node, m: Msg, now: Now)
    requires c.me != NO_PEER_ID && QueuesOk(s) && s.inFlight.Some? && HearsLeader(s, Receive(m))
    ensures var t, x := Handle(c, s, Receive(m), now).node, s.inFlight.value;
      && (m.from != s.leader ==> t.inFlight.None? && RepliesFor(t, KeyOf(x)) == [] && KeyOf(x) !in t.submittedRound)
      && (m.from == s.leader ==> t.inFlight == s.inFlight && t.replies == s.replies && t.submittedRound == s.submittedRound)
      && t.pending == s.pending
  {
    assert FlightKeys(s)[0] in Waiting(s);
  }

  // ---------------------------------------------------------------- confirmations

  /** The response with which more than half of the members have answered for the request in flight. */
  predicate Decides(c: Config, s: Node, e: Event) {
    && e.Receive? && e.m.Respond? && s.leader == c.me && s.inFlight.Some? && KeyOf(e.m.request) == KeyOf(s.inFlight.value)
    && e.m.from != NO_PEER_ID && e.m.from !in RepliesFor(s, KeyOf(e.m.request))
    && 2 * (|RepliesFor(s, KeyOf(e.m.request))| + 1) > |c.members|
  }

  /** News of a commit from another member. */
  predicate HearsCommit(c: Config, e: Event) {
    e.Receive? && e.m.Commit? && e.m.from != c.me && KeyValid(KeyOf(e.m.request))
  }

  /** The round since which the leader counts the request as waiting. */
  function Since(s: Node, r: Request, now: Now): int {
    if KeyOf(r) in s.submittedRound then s.submittedRound[KeyOf(r)] else OrElse(r.roundSubmitted, now.round)
  }

  /** One confirmation is recorded, with its delay. */
  predicate Records(s: Node, t: Node, x: Confirmation) {
    t.confirmed == s.confirmed + [x] && t.latency == s.latency + (x.roundCommitted - x.roundSubmitted)
  }

  /** What is recorded, committed and announced: on a decision, on its news, and at no other time. */
  ghost predicate Confirming(c: Config, s: Node, e: Event, now: Now, r: Result) {
    var t := r.node;
    if Decides(c, s, e) then
      var since := Since(s, e.m.request, now);
      && Records(s, t, Confirmation(e.m.request, since, now.round, s.term))
      && t.committed == s.committed + {KeyOf(e.m.request)}
      && r.out != [] && r.out[0] == Multicast(Commit(e.m.request, c.me, s.term, since, now.round)) && PassesOn(r.out[1..])
    else if HearsCommit(c, e) then
      && Records(s, t, Confirmation(e.m.request, e.m.roundSubmitted, e.m.roundCommitted,
                                    if e.m.term > s.term then e.m.term else s.term))
      && t.committed == s.committed + {KeyOf(e.m.request)} && r.out == []
    else
      && t.confirmed == s.confirmed && t.latency == s.latency && t.committed == s.committed
      && forall i :: 0 <= i < |r.out| ==> !r.out[i].m.Commit?
  }

  lemma RespondConfirms(c: Config, s: Node, m: Msg, now: Now)
    requires m.Respond? && c.me != NO_PEER_ID && QueuesOk(s)
    ensures Confirming(c, s, Receive(m), now, HandleRespond(c, s, m, now))
  {
    if s.inFlight.Some? {
      assert FlightKeys(s)[0] in Waiting(s);
    }
    var since := Since(s, m.request, now);
    var s1 := AfterConfirm(Counted(s, m), m.request, since, now.round);
    StartIsQuiet(c, s1, now);
    if Decides(c, s, Receive(m)) {
      var r := HandleRespond(c, s, m, now);
      assert r.out[1..] == StartReplication(c, s1, now).out;
    }
  }

  lemma ConfirmsExactly(c: Config, s: Node, e: Event, now: Now)
    requires c.me != NO_PEER_ID && QueuesOk(s)
    ensures Confirming(c, s, e, now, Handle(c, s, e, now))
  {
    match e
    case Produce => ClientIsQuiet(c, s.(nextRequestId := s.nextRequestId + 1), OwnRequest(c, s, now), now);
    case Expire =>
    case Flush => ForwardIsQuiet(c, s);
    case Receive(m) =>
      match m {
        case Respond(_, _, _) => RespondConfirms(c, s, m, now);
        case Vote(_, _, _) => VoteOutcome(c, s, m, now);
        case Client(r) => ClientIsQuiet(c, s, r, now);
        case _ => WordConfirms(c, s, m, now);
      }
  }

  lemma WordConfirms(c: Config, s: Node, m: Msg, now: Now)
    requires m.Replicate? || m.Elect? || m.Commit?
    requires c.me != NO_PEER_ID
    ensures Confirming(c, s, Receive(m), now, Handle(c, s, Receive(m), now))
  {
  }
}
