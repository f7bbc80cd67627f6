/**
 * The Raft member as the mutable object the simulator runs: fields updated in place, deques
 * rotated by loops, replication started by nested calls. Each method is tied to the value-level
 * function it computes.
 */
module RaftReplica {
  import opened Quorums
  import opened RaftNode

  // ---------------------------------------------------------------- appending to the queue functions

  lemma MarkAppend(q: seq<Request>, r: Request, leader: Id)
    ensures Mark(q + [r], leader) == Mark(q, leader) + [r.(forwardedTo := Some(leader))]
    ensures Unmark(q + [r]) == Unmark(q) + [r.(forwardedTo := None)]
  {
  }

  lemma {:induction false} OutboundAppend(q: seq<Request>, r: Request, leader: Id)
    ensures Outbound(q + [r], leader)
         == Outbound(q, leader) + if OrElse(r.forwardedTo, NO_PEER_ID) == leader then [] else [Unicast(leader, Client(r))]
  {
    if q == [] {
      assert q + [r] == [r] && Outbound([r][1..], leader) == [];
    } else {
      OutboundAppend(q[1..], r, leader);
      assert (q + [r])[1..] == q[1..] + [r];
    }
  }

  lemma {:induction false} WithoutAppend(k: Key, q: seq<Request>, r: Request)
    ensures Without(k, q + [r]) == Without(k, q) + if KeyOf(r) == k then [] else [r]
  {
    if q != [] {
      WithoutAppend(k, q[1..], r);
      assert (q + [r])[1..] == q[1..] + [r];
    }
  }

  /** Copies a deque and leaves out the requests with the given key. */
  method DropRequest(queue: seq<Request>, key: Key) returns (kept: seq<Request>)
    ensures kept == Without(key, queue)
  {
    kept := [];
    var rest := queue;
    while rest != []
      invariant |rest| <= |queue| && rest == queue[|queue| - |rest|..]
      invariant kept == Without(key, queue[..|queue| - |rest|])
    {
      ghost var i := |queue| - |rest|;
      var request := rest[0];
      rest := rest[1..];
      WithoutAppend(key, queue[..i], request);
      assert queue[..i + 1] == queue[..i] + [request];
      if KeyOf(request) != key {
        kept := kept + [request];
      }
    }
    assert queue[..|queue|] == queue;
  }

  /** One pass over the deferred requests of a member that follows `leader`, or nobody. */
  method Redirect(queue: seq<Request>, committed: set<Key>, leader: Id)
    returns (kept: seq<Request>, out: seq<Envelope>)
    ensures var live := LiveOnly(committed, queue);
            if leader == NO_PEER_ID then kept == live && out == []
            else kept == Mark(live, leader) && out == Outbound(live, leader)
  {
    kept, out := [], [];
    for i := 0 to |queue|
      invariant leader == NO_PEER_ID ==> kept == LiveOnly(committed, queue[..i]) && out == []
      invariant leader != NO_PEER_ID ==> kept == Mark(LiveOnly(committed, queue[..i]), leader)
      invariant leader != NO_PEER_ID ==> out == Outbound(LiveOnly(committed, queue[..i]), leader)
    {
      var request := queue[i];
      ghost var live := LiveOnly(committed, queue[..i]);
      assert queue[..i + 1] == queue[..i] + [request];
      LiveOnlyAppend(committed, queue[..i], request);
      assert live + [] == live && out + [] == out;
      if !KeyValid(KeyOf(request)) || KeyOf(request) in committed {
        continue;
      }
      MarkAppend(live, request, leader);
      OutboundAppend(live, request, leader);
      if leader != NO_PEER_ID && OrElse(request.forwardedTo, NO_PEER_ID) != leader {
        out := out + [Unicast(leader, Client(request))];
        request := request.(forwardedTo := Some(leader));
      }
      kept := kept + [request];
    }
    assert queue[..|queue|] == queue;
  }

  /** One pass over the deferred requests of the leader itself. */
  method Adopt(queue: seq<Request>, committed: set<Key>) returns (moved: seq<Request>)
    ensures moved == Unmark(LiveOnly(committed, queue))
  {
    moved := [];
    for i := 0 to |queue|
      invariant moved == Unmark(LiveOnly(committed, queue[..i]))
    {
      var request := queue[i];
      assert queue[..i + 1] == queue[..i] + [request];
      LiveOnlyAppend(committed, queue[..i], request);
      if KeyValid(KeyOf(request)) && KeyOf(request) !in committed {
        MarkAppend(LiveOnly(committed, queue[..i]), request, 0);
        moved := moved + [request.(forwardedTo := None)];
      }
    }
    assert queue[..|queue|] == queue;
  }

  // ---------------------------------------------------------------- the member

  class Replica {
    const c: Config
    var candidate: Id
    var leader: Id
    var term: int
    var votes: seq<Id>
    var replies: map<Key, seq<Id>>
    var submittedRound: map<Key, int>
    var committed: set<Key>
    var known: set<Key>
    var pending: seq<Request>
    var deferred: seq<Request>
    var inFlight: Option<Request>
    var leaderChanges: nat
    var timeOutRound: int
    var nextRequestId: nat
    var confirmed: seq<Confirmation>
    var latency: int

    function Snapshot(): Node
      reads this
    {
      Node(candidate, leader, term, votes, replies, submittedRound, committed, known, pending, deferred,
           inFlight, leaderChanges, timeOutRound, nextRequestId, confirmed, latency)
    }

    constructor (config: Config, deadline: int)
      ensures c == config && Snapshot() == Initial(deadline)
    {
      c := config;
      candidate, leader, term, votes := NO_PEER_ID, 0, 0, [];
      replies, submittedRound, committed, known := map[], map[], {}, {};
      pending, deferred, inFlight := [], [], None;
      leaderChanges, timeOutRound, nextRequestId, confirmed, latency := 0, deadline, 0, [], 0;
    }

    method EnqueueDeferred(request: Request)
      modifies this
      ensures Snapshot() == Enqueue(old(Snapshot()), request)
    {
      if !KeyValid(KeyOf(request)) || KeyOf(request) in known {
        return;
      }
      known := known + {KeyOf(request)};
      deferred := deferred + [request];
    }

    method TryForwardDeferredRequests() returns (out: seq<Envelope>)
      modifies this
      ensures Result(Snapshot(), out) == ForwardDeferred(c, old(Snapshot()))
    {
      out := [];
      if leader == c.me {
        var moved := Adopt(deferred, committed);
        deferred, pending := [], pending + moved;
      } else {
        deferred, out := Redirect(deferred, committed, leader);
      }
    }

    method TakeNext(now: Now) returns (out: seq<Envelope>)
      modifies this
      ensures Result(Snapshot(), out) == TakePending(c, old(Snapshot()), now)
    {
      ghost var start := Snapshot();
      while pending != [] && (!KeyValid(KeyOf(pending[0])) || KeyOf(pending[0]) in committed)
        invariant Snapshot() == start.(pending := pending)
        invariant TakePending(c, start, now) == TakePending(c, Snapshot(), now)
        decreases |pending|
      {
        pending := pending[1..];
      }
      if pending == [] {
        return [];
      }
      out := Launch(now);
    }

    /** Puts the first pending request in flight. */
    method Launch(now: Now) returns (out: seq<Envelope>)
      requires pending != [] && Live(committed, pending[0])
      modifies this
      ensures Result(Snapshot(), out) == TakePending(c, old(Snapshot()), now)
    {
      var request := pending[0].(roundSubmitted := Some(now.round));
      var key := KeyOf(request);
      pending := pending[1..];
      inFlight := Some(request);
      if key !in replies {
        replies := replies[key := []];
      }
      submittedRound := submittedRound[key := now.round];
      timeOutRound := now.deadline;
      return [Multicast(Replicate(request, c.me, term))];
    }

    /** Replication starts again inside the client request that an idle leader makes of itself. */
    method TryStartReplication(now: Now) returns (out: seq<Envelope>)
      requires c.me != NO_PEER_ID
      modifies this
      ensures Result(Snapshot(), out) == StartReplication(c, old(Snapshot()), now)
      decreases |Taken(c, Snapshot())|, Idle(Snapshot()), 0
    {
      if leader != c.me || inFlight.Some? {
        return [];
      }
      out := [];
      if pending == [] {
        ghost var start := Snapshot();
        SelfSubmitProgress(c, start, now);
        var request := Request(Some(c.me), Some(nextRequestId), Some(now.round), None);
        nextRequestId := nextRequestId + 1;
        out := OnClientRequest(request, now);
      }
      var more := TakeNext(now);
      out := out + more;
    }

    ghost function Submitted(r: Request, now: Now): Node
      reads this
    {
      var s := Snapshot();
      var numbered := if r.clientSeq.None? then s.(nextRequestId := s.nextRequestId + 1) else s;
      Submit(c, numbered, Fill(c, s, r, now)).node
    }

    /** Supplies whatever the request lacks. */
    method Complete(r: Request, now: Now) returns (request: Request)
      modifies this
      ensures request == Fill(c, old(Snapshot()), r, now)
      ensures Snapshot() == old(Snapshot()).(nextRequestId := old(nextRequestId) + if r.clientSeq.None? then 1 else 0)
    {
      request := r;
      if request.roundSubmitted.None? {
        request := request.(roundSubmitted := Some(now.round));
      }
      if request.submitterId.None? {
        request := request.(submitterId := Some(c.me));
      }
      if request.clientSeq.None? {
        request := request.(clientSeq := Some(nextRequestId));
        nextRequestId := nextRequestId + 1;
      }
    }

    method OnClientRequest(r: Request, now: Now) returns (out: seq<Envelope>)
      requires c.me != NO_PEER_ID
      modifies this
      ensures Result(Snapshot(), out) == RaftNode.OnClientRequest(c, old(Snapshot()), r, now)
      decreases |Taken(c, Submitted(r, now))|, Idle(Submitted(r, now)), 1
    {
      ghost var submitted := Submitted(r, now);
      var request := Complete(r, now);
      EnqueueDeferred(request);
      out := TryForwardDeferredRequests();
      assert Snapshot() == submitted;
      if leader == c.me {
        var more := TryStartReplication(now);
        out := out + more;
      }
    }

    method ResetReplicationState(requeue: bool)
      modifies this
      ensures Snapshot() == ResetReplication(old(Snapshot()), requeue)
    {
      if inFlight.Some? {
        var key := KeyOf(inFlight.value);
        if requeue && KeyValid(key) && key !in committed {
          pending := [inFlight.value] + pending;
        }
        if KeyValid(key) {
          replies := replies - {key};
          submittedRound := submittedRound - {key};
        }
      }
      inFlight := None;
    }

    method Settle(key: Key)
      modifies this
      ensures Snapshot() == old(Snapshot()).(
                committed := old(committed) + {key}, submittedRound := old(submittedRound) - {key},
                replies := old(replies) - {key}, deferred := Without(key, old(deferred)),
                pending := Without(key, old(pending)))
    {
      var keptDeferred := DropRequest(deferred, key);
      var keptPending := DropRequest(pending, key);
      committed := committed + {key};
      submittedRound := submittedRound - {key};
      replies := replies - {key};
      deferred, pending := keptDeferred, keptPending;
    }

    method ApplyCommit(request: Request, submitted: int, round: int, skipMetrics: bool)
      modifies this
      ensures Snapshot() == RaftNode.ApplyCommit(old(Snapshot()), request, submitted, round, skipMetrics)
    {
      if !KeyValid(KeyOf(request)) {
        return;
      }
      Settle(KeyOf(request));
      if !skipMetrics {
        confirmed := confirmed + [Confirmation(request, submitted, round, term)];
        latency := latency + (round - submitted);
      }
    }

    method ConfirmRequest(request: Request, submitted: int, now: Now) returns (out: seq<Envelope>)
      requires c.me != NO_PEER_ID
      modifies this
      ensures Result(Snapshot(), out) == Confirm(c, old(Snapshot()), request, submitted, now)
    {
      confirmed := confirmed + [Confirmation(request, submitted, now.round, term)];
      latency := latency + (now.round - submitted);
      ApplyCommit(request, submitted, now.round, true);
      out := [Multicast(Commit(request, c.me, term, submitted, now.round))];
      inFlight := None;
      var more := TryStartReplication(now);
      out := out + more;
    }

    // -------------------------------------------------------------- handlers

    method OnRequest(m: Msg, now: Now) returns (out: seq<Envelope>)
      requires m.Replicate?
      modifies this
      ensures Result(Snapshot(), out) == HandleReplicate(c, old(Snapshot()), m, now)
    {
      if m.term < 0 || m.from == NO_PEER_ID {
        return [];
      }
      if term <= m.term {
        var leaderChanged := leader != m.from;
        TakePosition(m.from, NO_PEER_ID, m.term, now);
        if leaderChanged {
          ResetReplicationState(false);
        }
      }
      if !KeyValid(KeyOf(m.request)) {
        return [];
      }
      EnqueueDeferred(m.request);
      return [Unicast(m.from, Respond(m.request, c.me, term))];
    }

    method OnRespond(m: Msg, now: Now) returns (out: seq<Envelope>)
      requires m.Respond? && c.me != NO_PEER_ID
      modifies this
      ensures Result(Snapshot(), out) == HandleRespond(c, old(Snapshot()), m, now)
    {
      var key := KeyOf(m.request);
      if leader != c.me || inFlight.None? || key != KeyOf(inFlight.value) || m.from == NO_PEER_ID {
        return [];
      }
      var responders := if key in replies then replies[key] else [];
      if m.from in responders {
        return [];
      }
      replies := replies[key := responders + [m.from]];
      if |responders| + 1 > |c.members| / 2 {
        var submitted := if key in submittedRound then submittedRound[key] else OrElse(m.request.roundSubmitted, now.round);
        out := ConfirmRequest(m.request, submitted, now);
      } else {
        out := [];
      }
    }

    method OnVote(m: Msg, now: Now) returns (out: seq<Envelope>)
      requires m.Vote? && c.me != NO_PEER_ID
      modifies this
      ensures Result(Snapshot(), out) == HandleVote(c, old(Snapshot()), m, now)
    {
      out := [];
      if leader == c.me || m.candidate != c.me || m.from == NO_PEER_ID || m.from in votes {
        return;
      }
      votes := votes + [m.from];
      if |votes| > |c.members| / 2 {
        out := Lead(now);
      }
    }

    method Lead(now: Now) returns (out: seq<Envelope>)
      requires c.me != NO_PEER_ID
      modifies this
      ensures Result(Snapshot(), out) == BecomeLeader(c, old(Snapshot()), now)
    {
      TakePosition(c.me, NO_PEER_ID, term, now);
      ResetReplicationState(true);
      leaderChanges := leaderChanges + 1;
      assert Snapshot() == TakeLead(c, old(Snapshot()), now);
      out := TryForwardDeferredRequests();
      var more := TryStartReplication(now);
      out := out + more;
    }

    /** Takes up a new position in the group, with no votes and a new deadline. */
    method TakePosition(newLeader: Id, newCandidate: Id, newTerm: int, now: Now)
      modifies this`leader, this`candidate, this`term, this`votes, this`timeOutRound
      ensures Snapshot() == old(Snapshot()).(leader := newLeader, candidate := newCandidate, term := newTerm, votes := [],
                                             timeOutRound := now.deadline)
    {
      leader, candidate, term, votes, timeOutRound := newLeader, newCandidate, newTerm, [], now.deadline;
    }

    method OnElect(m: Msg, now: Now) returns (out: seq<Envelope>)
      requires m.Elect?
      modifies this
      ensures Result(Snapshot(), out) == HandleElect(c, old(Snapshot()), m, now)
    {
      if m.term <= term || m.from == NO_PEER_ID {
        return [];
      }
      TakePosition(NO_PEER_ID, m.from, m.term, now);
      ResetReplicationState(true);
      return [Unicast(m.from, Vote(m.from, c.me, term))];
    }

    method OnCommit(m: Msg)
      requires m.Commit?
      modifies this
      ensures Result(Snapshot(), []) == HandleCommit(c, old(Snapshot()), m)
    {
      if m.from == c.me {
        return;
      }
      if m.term > term {
        term := m.term;
      }
      ApplyCommit(m.request, m.roundSubmitted, m.roundCommitted, false);
    }

    method OnMessage(m: Msg, now: Now) returns (out: seq<Envelope>)
      requires c.me != NO_PEER_ID
      modifies this
      ensures Result(Snapshot(), out) == Handle(c, old(Snapshot()), Receive(m), now)
    {
      match m
      case Replicate(_, _, _) => out := OnRequest(m, now);
      case Respond(_, _, _) => out := OnRespond(m, now);
      case Vote(_, _, _) => out := OnVote(m, now);
      case Elect(_, _) => out := OnElect(m, now);
      case Commit(_, _, _, _, _) =>
        OnCommit(m);
        out := [];
      case Client(r) => out := OnClientRequest(r, now);
    }

    // -------------------------------------------------------------- the member's own clock

    method GenerateClientRequest(now: Now) returns (out: seq<Envelope>)
      requires c.me != NO_PEER_ID
      modifies this
      ensures Result(Snapshot(), out) == Handle(c, old(Snapshot()), Produce, now)
    {
      var request := Request(Some(c.me), Some(nextRequestId), Some(now.round), None);
      nextRequestId := nextRequestId + 1;
      out := OnClientRequest(request, now);
    }

    method MaybeStartElection(now: Now) returns (out: seq<Envelope>)
      requires c.me != NO_PEER_ID
      modifies this
      ensures Result(Snapshot(), out) == Handle(c, old(Snapshot()), Expire, now)
    {
      if timeOutRound > now.round {
        return [];
      }
      ResetReplicationState(true);
      TakePosition(NO_PEER_ID, c.me, term + 1, now);
      return [Multicast(Elect(c.me, term))];
    }

    /** One round: perhaps a new request, perhaps an election, then the deferred requests. */
    method Tick(generate: bool, first: Now, second: Now) returns (out: seq<Envelope>)
      requires c.me != NO_PEER_ID
      modifies this
      ensures var start := if generate then Handle(c, old(Snapshot()), Produce, first) else Result(old(Snapshot()), []);
              var elected := Handle(c, start.node, Expire, second);
              var flushed := Handle(c, elected.node, Flush, second);
              Snapshot() == flushed.node && out == start.out + elected.out + flushed.out
    {
      out := [];
      if generate {
        out := GenerateClientRequest(first);
      }
      var elected := MaybeStartElection(second);
      var flushed := TryForwardDeferredRequests();
      out := out + elected + flushed;
    }
  }
}
