/**
 * When a member loses a request that was waiting: exactly for two kinds of event, a request of a
 * new leader while one's own is in flight, and a confirmation after which two deferred requests
 * are started at once.
 */
module RaftLosses {
  import opened Quorums
  import opened RaftNode
  import opened RaftQueues

  // ---------------------------------------------------------------- the nested call overwrites

  /** An uncommitted request waited before and waits nowhere after. */
  ghost predicate Loses(s: Node, t: Node) {
    exists k :: k in Waiting(s) && k !in s.committed && k !in Waiting(t)
  }

  /** The pending requests once an idle leader has submitted its own. */
  function Queued(c: Config, s: Node, now: Now): seq<Request> {
    SelfSubmit(c, s, now).node.pending
  }

  predicate OwnNumberFree(c: Config, s: Node) {
    OwnKey(c, s) !in s.known && OwnKey(c, s) !in s.committed
  }

  lemma UnmarkKeepsKeys(q: seq<Request>)
    ensures Keys(Unmark(q)) == Keys(q)
  {
  }

  lemma QueuedIs(c: Config, s: Node, now: Now)
    requires c.me != NO_PEER_ID && s.leader == c.me && s.pending == []
    ensures var live := Keys(LiveOnly(s.committed, s.deferred));
            Keys(Queued(c, s, now)) == if OwnNumberFree(c, s) then live + [OwnKey(c, s)] else live
  {
    var r, live := OwnRequest(c, s, now), LiveOnly(s.committed, s.deferred);
    var s1 := s.(nextRequestId := s.nextRequestId + 1);
    var all := LiveOnly(s.committed, Enqueue(s1, r).deferred);
    UnmarkKeepsKeys(all);
    assert Queued(c, s, now) == [] + Unmark(all) == Unmark(all);
    LiveOnlyAppend(s.committed, s.deferred, r);
    assert Keys(live + [r]) == Keys(live) + [OwnKey(c, s)];
  }

  lemma {:induction false} LiveOnlyHas(committed: set<Key>, q: seq<Request>, k: Key)
    requires k in Keys(q) && KeyValid(k) && k !in committed
    ensures k in Keys(LiveOnly(committed, q))
    decreases |q|
  {
    var l, rest := LiveOnly(committed, q), LiveOnly(committed, q[1..]);
    if KeyOf(q[0]) == k {
      assert Keys(l)[0] == k;
    } else {
      assert Keys(q)[1..] == Keys(q[1..]);
      LiveOnlyHas(committed, q[1..], k);
      var i :| 0 <= i < |rest| && Keys(rest)[i] == k;
      var j := if Live(committed, q[0]) then i + 1 else i;
      assert l[j] == rest[i] && Keys(l)[j] == k;
    }
  }

  lemma SelfSubmitKeepsQueues(c: Config, s: Node, now: Now)
    requires QueuesOk(s)
    ensures QueuesOk(SelfSubmit(c, s, now).node)
  {
    SelfSubmitMoves(c, s, now);
    ForwardIsQuiet(c, Enqueue(s.(nextRequestId := s.nextRequestId + 1), OwnRequest(c, s, now)));
    MovesKeepsQueues(s, SelfSubmit(c, s, now).node);
  }

  lemma TakeFirst(c: Config, s: Node, now: Now)
    requires QueuesOk(s) && s.pending != []
    ensures var t := TakePending(c, s, now).node;
            && FlightKeys(t) == [Keys(s.pending)[0]] && t.pending == s.pending[1..] && t.deferred == s.deferred
            && t.committed == s.committed && t.inFlight.Some?
  {
    assert Keys(s.pending)[0] in Waiting(s);
  }

  lemma OtherCallsKeepAll(c: Config, s: Node, now: Now)
    requires c.me != NO_PEER_ID && QueuesOk(s)
    requires s.leader != c.me || s.inFlight.Some? || s.pending != []
    ensures Waiting(StartReplication(c, s, now).node) == Waiting(s)
  {
    if s.leader == c.me && s.inFlight.None? {
      TakeFirst(c, s, now);
      assert Keys(s.pending) == [Keys(s.pending)[0]] + Keys(s.pending[1..]);
    }
  }

  /** Taking twice in a row leaves only the second request in flight. */
  lemma TakeTwice(c: Config, s: Node, now: Now)
    requires QueuesOk(s) && s.inFlight.None? && |s.pending| > 1 && s.deferred == []
    ensures Waiting(TakePending(c, TakePending(c, s, now).node, now).node) == Keys(s.pending)[1..]
  {
    var t, q := TakePending(c, s, now).node, s.pending;
    TakeFirst(c, s, now);
    TakeMoves(c, s, now);
    TakeIsQuiet(c, s, now);
    MovesKeepsQueues(s, t);
    TakeFirst(c, t, now);
    assert Keys(q)[1..] == Keys(q[1..]) == [Keys(q[1..])[0]] + Keys(q[1..][1..]);
  }

  /** What an idle leader ends with: of two or more queued requests the first is overwritten. */
  lemma IdleEndsWith(c: Config, s: Node, now: Now)
    requires c.me != NO_PEER_ID && QueuesOk(s)
    requires s.leader == c.me && s.inFlight.None? && s.pending == [] && Queued(c, s, now) != []
    ensures Waiting(StartReplication(c, s, now).node)
         == if |Queued(c, s, now)| == 1 then Keys(Queued(c, s, now)) else Keys(Queued(c, s, now))[1..]
  {
    var s1, q := SelfSubmit(c, s, now).node, Queued(c, s, now);
    SelfSubmitKeepsQueues(c, s, now);
    assert s1.inFlight.None? && s1.leader == c.me && s1.deferred == [];
    assert StartReplication(c, s1, now).node == TakePending(c, s1, now).node;
    if |q| > 1 {
      TakeTwice(c, s1, now);
    } else {
      TakeFirst(c, s1, now);
      assert Keys(q) == [Keys(q)[0]] + Keys(q[1..]);
    }
  }

  /** Exactly when starting replication loses a request that was waiting. */
  predicate Overwrites(c: Config, s: Node) {
    && s.leader == c.me && s.inFlight.None? && s.pending == []
    && var live := LiveOnly(s.committed, s.deferred);
       live != [] && (|live| > 1 || OwnNumberFree(c, s))
  }

  lemma OverwriteExactly(c: Config, s: Node, now: Now)
    requires c.me != NO_PEER_ID && QueuesOk(s)
    ensures Loses(s, StartReplication(c, s, now).node) <==> Overwrites(c, s)
  {
    var t := StartReplication(c, s, now).node;
    if s.leader != c.me || s.inFlight.Some? || s.pending != [] {
      OtherCallsKeepAll(c, s, now);
    } else {
      var live, q := LiveOnly(s.committed, s.deferred), Queued(c, s, now);
      QueuedIs(c, s, now);
      assert Waiting(s) == Keys(s.deferred);
      assert |q| == |Keys(q)| && |live| == |Keys(live)|;
      forall k | k in Waiting(s) && k !in s.committed ensures k in Keys(live) {
        LiveOnlyHas(s.committed, s.deferred, k);
      }
      if q != [] {
        IdleEndsWith(c, s, now);
      }
      if Overwrites(c, s) {
        FirstIsLost(c, s, now);
      }
    }
  }

  lemma FirstIsLost(c: Config, s: Node, now: Now)
    requires c.me != NO_PEER_ID && QueuesOk(s) && Overwrites(c, s)
    ensures Loses(s, StartReplication(c, s, now).node)
  {
    var live, q := LiveOnly(s.committed, s.deferred), Queued(c, s, now);
    QueuedIs(c, s, now);
    assert |q| == |Keys(q)| && |live| == |Keys(live)|;
    IdleEndsWith(c, s, now);
    SelfSubmitKeepsQueues(c, s, now);
    var s1 := SelfSubmit(c, s, now).node;
    assert Waiting(s1) == Keys(q);
    var k := Keys(live)[0];
    assert Keys(q)[0] == k && k !in Keys(q)[1..];
    LiveOnlyIsSub(s.committed, s.deferred);
    assert Live(s.committed, live[0]);
    SubElement(Keys(live), Keys(s.deferred), k);
    assert Waiting(s) == Keys(s.deferred);
  }

  // ---------------------------------------------------------------- keeping what waits

  /** Whatever waited and is not committed still waits. */
  ghost predicate Keeps(s: Node, t: Node) {
    s.committed <= t.committed && forall k :: k in Waiting(s) && k !in t.committed ==> k in Waiting(t)
  }

  lemma KeepsTransitive(s: Node, t: Node, u: Node)
    requires Keeps(s, t) && Keeps(t, u)
    ensures Keeps(s, u)
  {
  }

  lemma SameQueuesKeeps(s: Node, t: Node)
    requires SameQueues(s, t)
    ensures Keeps(s, t)
  {
  }

  lemma EnqueueKeeps(s: Node, r: Request)
    ensures Keeps(s, Enqueue(s, r))
  {
    var t := Enqueue(s, r);
    if t != s {
      assert Keys(t.deferred) == Keys(s.deferred) + [KeyOf(r)];
    }
  }

  lemma ForwardKeeps(c: Config, s: Node)
    requires QueuesOk(s)
    ensures Keeps(s, ForwardDeferred(c, s).node)
  {
    ForwardKeepsWaiting(c, s);
    forall k | k in Keys(s.deferred) && k !in s.committed ensures k in Keys(LiveOnly(s.committed, s.deferred)) {
      assert k in Waiting(s);
      LiveOnlyHas(s.committed, s.deferred, k);
    }
  }

  lemma RequeueKeeps(s: Node)
    requires QueuesOk(s)
    ensures Keeps(s, ResetReplication(s, true))
  {
    if s.inFlight.Some? {
      assert FlightKeys(s)[0] in Waiting(s);
      assert Keys([s.inFlight.value] + s.pending) == FlightKeys(s) + Keys(s.pending);
    }
  }

  /** With nothing deferred, starting replication loses nothing. */
  lemma StartKeeps(c: Config, s: Node, now: Now)
    requires c.me != NO_PEER_ID && QueuesOk(s) && !Overwrites(c, s)
    ensures Keeps(s, StartReplication(c, s, now).node)
  {
    OverwriteExactly(c, s, now);
    StartIsQuiet(c, s, now);
  }

  lemma QuietKeepsQueues(s: Node, t: Node)
    requires QueuesOk(s) && Moves(s, t) && PendingOk(t) && t.confirmed == s.confirmed && t.latency == s.latency
    ensures QueuesOk(t)
  {
    MovesKeepsQueues(s, t);
  }

  /** A leader that forwards has nothing deferred left, so nothing is lost when it starts. */
  lemma ForwardAndStartKeeps(c: Config, s: Node, now: Now)
    requires c.me != NO_PEER_ID && QueuesOk(s)
    ensures Keeps(s, StartReplication(c, ForwardDeferred(c, s).node, now).node)
  {
    var t := ForwardDeferred(c, s).node;
    ForwardKeeps(c, s);
    ForwardMoves(c, s);
    ForwardIsQuiet(c, s);
    QuietKeepsQueues(s, t);
    StartKeeps(c, t, now);
    KeepsTransitive(s, t, StartReplication(c, t, now).node);
  }

  lemma EnqueueKeepsQueues(s: Node, r: Request)
    requires QueuesOk(s)
    ensures QueuesOk(Enqueue(s, r))
  {
    EnqueueMoves(s, r);
    QuietKeepsQueues(s, Enqueue(s, r));
  }

  lemma ClientKeeps(c: Config, s: Node, r: Request, now: Now)
    requires c.me != NO_PEER_ID && QueuesOk(s)
    ensures Keeps(s, OnClientRequest(c, s, r, now).node)
  {
    var s1 := if r.clientSeq.None? then s.(nextRequestId := s.nextRequestId + 1) else s;
    var s2 := Enqueue(s1, Fill(c, s, r, now));
    assert OnClientRequest(c, s, r, now).node == StartReplication(c, ForwardDeferred(c, s2).node, now).node;
    NumberedKeeps(s, s1, Fill(c, s, r, now));
    ForwardAndStartKeeps(c, s2, now);
    KeepsTransitive(s, s2, StartReplication(c, ForwardDeferred(c, s2).node, now).node);
  }

  lemma NumberedKeeps(s: Node, s1: Node, r: Request)
    requires QueuesOk(s) && SameQueues(s, s1) && s1.confirmed == s.confirmed && s1.latency == s.latency
    ensures Keeps(s, Enqueue(s1, r)) && QueuesOk(Enqueue(s1, r))
  {
    SameQueuesAreOk(s, s1);
    EnqueueKeeps(s1, r);
    EnqueueKeepsQueues(s1, r);
    KeepsTransitive(s, s1, Enqueue(s1, r));
  }

  lemma TakeLeadKeeps(c: Config, s: Node, now: Now)
    requires QueuesOk(s)
    ensures Keeps(s, TakeLead(c, s, now)) && QueuesOk(TakeLead(c, s, now))
  {
    RequeueKeeps(s);
    SameQueuesKeeps(ResetReplication(s, true), TakeLead(c, s, now));
    KeepsTransitive(s, ResetReplication(s, true), TakeLead(c, s, now));
    RequeueMoves(s, TakeLead(c, s, now));
    QuietKeepsQueues(s, TakeLead(c, s, now));
  }

  lemma VoteKeeps(c: Config, s: Node, m: Msg, now: Now)
    requires m.Vote? && c.me != NO_PEER_ID && QueuesOk(s)
    ensures Keeps(s, HandleVote(c, s, m, now).node)
  {
    var s1 := s.(votes := s.votes + [m.from]);
    SameQueuesKeeps(s, s);
    SameQueuesKeeps(s, s1);
    SameQueuesMoves(s, s1);
    QuietKeepsQueues(s, s1);
    var s2 := TakeLead(c, s1, now);
    TakeLeadKeeps(c, s1, now);
    ForwardAndStartKeeps(c, s2, now);
    KeepsTransitive(s, s1, s2);
    KeepsTransitive(s, s2, StartReplication(c, ForwardDeferred(c, s2).node, now).node);
  }

  lemma BallotKeeps(s: Node, t: Node)
    requires QueuesOk(s) && SameQueues(ResetReplication(s, true), t)
    ensures Keeps(s, t)
  {
    RequeueKeeps(s);
    SameQueuesKeeps(ResetReplication(s, true), t);
    KeepsTransitive(s, ResetReplication(s, true), t);
  }

  lemma {:induction false} WithoutHas(k: Key, q: seq<Request>, x: Key)
    requires x in Keys(q) && x != k
    ensures x in Keys(Without(k, q))
    decreases |q|
  {
    var w, rest := Without(k, q), Without(k, q[1..]);
    if KeyOf(q[0]) == x {
      assert Keys(w)[0] == x;
    } else {
      assert Keys(q)[1..] == Keys(q[1..]);
      WithoutHas(k, q[1..], x);
      var i :| 0 <= i < |rest| && Keys(rest)[i] == x;
      var j := if KeyOf(q[0]) == k then i else i + 1;
      assert w[j] == rest[i] && Keys(w)[j] == x;
    }
  }

  lemma ApplyKeeps(s: Node, r: Request, submitted: int, round: int, skip: bool)
    ensures Keeps(s, ApplyCommit(s, r, submitted, round, skip))
  {
    var t, k := ApplyCommit(s, r, submitted, round, skip), KeyOf(r);
    if KeyValid(k) {
      forall x | x in Waiting(s) && x !in t.committed ensures x in Waiting(t) {
        if x in Keys(s.pending) {
          WithoutHas(k, s.pending, x);
        } else if x in Keys(s.deferred) {
          WithoutHas(k, s.deferred, x);
        }
      }
    }
  }

  // ---------------------------------------------------------------- exactly when an event loses a request

  /** An uncommitted request waited before the event and waits nowhere after it. */
  ghost predicate LosesAt(c: Config, s: Node, e: Event, now: Now)
    requires c.me != NO_PEER_ID
  {
    !Keeps(s, Handle(c, s, e, now).node)
  }

  /** The request of a new leader arrives while an uncommitted one is in flight. */
  predicate DropsFlight(s: Node, e: Event) {
    && e.Receive? && e.m.Replicate? && e.m.term >= 0 && e.m.from != NO_PEER_ID
    && s.term <= e.m.term && s.leader != e.m.from
    && s.inFlight.Some? && KeyOf(s.inFlight.value) !in s.committed
  }

  /** The response that confirms the request in flight. */
  predicate Confirms(c: Config, s: Node, e: Event) {
    && e.Receive? && e.m.Respond? && Counts(c, s, e.m)
    && HasQuorum(c, |RepliesFor(s, KeyOf(e.m.request))| + 1)
  }

  /** A request is confirmed, nothing is pending, and two or more requests are started at once. */
  predicate OverwritesAt(c: Config, s: Node, e: Event) {
    && Confirms(c, s, e) && s.pending == []
    && var live := LiveOnly(s.committed + {KeyOf(e.m.request)}, s.deferred);
       live != [] && (|live| > 1 || OwnNumberFree(c, s))
  }

  lemma EnqueueAddsOnly(s: Node, r: Request)
    ensures forall k :: k in Waiting(Enqueue(s, r)) && k in s.known ==> k in Waiting(s)
  {
    if Enqueue(s, r) != s {
      assert Keys(s.deferred + [r]) == Keys(s.deferred) + [KeyOf(r)];
    }
  }

  lemma ReplicateLoses(c: Config, s: Node, m: Msg, now: Now)
    requires m.Replicate? && c.me != NO_PEER_ID && QueuesOk(s)
    ensures Keeps(s, HandleReplicate(c, s, m, now).node) <==> !DropsFlight(s, Receive(m))
  {
    var t := HandleReplicate(c, s, m, now).node;
    EnqueueKeeps(s, m.request);
    SameQueuesKeeps(s, s);
    if m.term >= 0 && m.from != NO_PEER_ID && s.term <= m.term {
      var s1 := if s.leader != m.from then ResetReplication(s, false) else s;
      var s2 := s1.(term := m.term, leader := m.from, votes := [], candidate := NO_PEER_ID, timeOutRound := now.deadline);
      EnqueueKeeps(s2, m.request);
      if s.inFlight.Some? {
        FlightIsAlone(s);
        assert Waiting(s)[0] == FlightKeys(s)[0];
        EnqueueAddsOnly(s2, m.request);
      }
    }
  }

  lemma FlightIsAlone(s: Node)
    requires QueuesOk(s) && s.inFlight.Some?
    ensures FlightKeys(s)[0] !in Keys(s.pending) && FlightKeys(s)[0] !in Keys(s.deferred) && FlightKeys(s)[0] in s.known
  {
    var k := FlightKeys(s)[0];
    assert Waiting(s)[0] == k;
    forall i | 0 <= i < |s.pending| ensures Keys(s.pending)[i] != k {
      assert Waiting(s)[1 + i] == Keys(s.pending)[i];
    }
    forall i | 0 <= i < |s.deferred| ensures Keys(s.deferred)[i] != k {
      assert Waiting(s)[1 + |s.pending| + i] == Keys(s.deferred)[i];
    }
  }

  lemma {:induction false} WithoutSame(k: Key, q: seq<Request>)
    requires k !in Keys(q)
    ensures Without(k, q) == q
    decreases |q|
  {
    if q != [] {
      assert Keys(q)[0] == KeyOf(q[0]) && Keys(q)[1..] == Keys(q[1..]);
      WithoutSame(k, q[1..]);
    }
  }

  /** What the confirmation itself does to the queues: only the request in flight leaves. */
  lemma AfterConfirmIs(c: Config, s: Node, m: Msg, submitted: int, round: int)
    requires QueuesOk(s) && Confirms(c, s, Receive(m))
    ensures var t := AfterConfirm(Counted(s, m), m.request, submitted, round);
      && t.pending == s.pending && t.deferred == s.deferred && t.committed == s.committed + {KeyOf(m.request)}
      && t.known == s.known && t.nextRequestId == s.nextRequestId && t.leader == c.me && t.inFlight.None?
      && QueuesOk(t) && Keeps(s, t) && (forall k :: k in Waiting(t) ==> k in Waiting(s))
      && KeyOf(m.request) in s.known
  {
    var s1 := Counted(s, m);
    var t := AfterConfirm(s1, m.request, submitted, round);
    FlightIsAlone(s);
    assert Waiting(s)[0] == KeyOf(m.request);
    WithoutSame(KeyOf(m.request), s.pending);
    WithoutSame(KeyOf(m.request), s.deferred);
    SameQueuesMoves(s, s1);
    QuietKeepsQueues(s, s1);
    AfterConfirmMoves(s1, m.request, submitted, round);
    MovesKeepsQueues(s1, t);
  }

  lemma ConfirmLoses(c: Config, s: Node, m: Msg, now: Now)
    requires c.me != NO_PEER_ID && QueuesOk(s) && Confirms(c, s, Receive(m))
    ensures Keeps(s, HandleRespond(c, s, m, now).node) <==> !OverwritesAt(c, s, Receive(m))
  {
    var k := KeyOf(m.request);
    var submitted := if k in s.submittedRound then s.submittedRound[k] else OrElse(m.request.roundSubmitted, now.round);
    var s1 := AfterConfirm(Counted(s, m), m.request, submitted, now.round);
    var t := StartReplication(c, s1, now).node;
    assert HandleRespond(c, s, m, now).node == t;
    AfterConfirmIs(c, s, m, submitted, now.round);
    assert Overwrites(c, s1) <==> OverwritesAt(c, s, Receive(m));
    OverwriteExactly(c, s1, now);
    StartIsQuiet(c, s1, now);
    if Loses(s1, t) {
      var x :| x in Waiting(s1) && x !in s1.committed && x !in Waiting(t);
      assert x in Waiting(s);
    } else {
      assert Keeps(s1, t);
    }
  }

  /** Of all events, exactly these two kinds lose a request that was waiting. */
  lemma LossExactly(c: Config, s: Node, e: Event, now: Now)
    requires c.me != NO_PEER_ID && QueuesOk(s)
    ensures LosesAt(c, s, e, now) <==> DropsFlight(s, e) || OverwritesAt(c, s, e)
  {
    if e.Receive? && e.m.Replicate? {
      ReplicateLoses(c, s, e.m, now);
    } else if e.Receive? && e.m.Respond? {
      RespondLoses(c, s, e.m, now);
    } else {
      OthersKeep(c, s, e, now);
    }
  }

  lemma RespondLoses(c: Config, s: Node, m: Msg, now: Now)
    requires m.Respond? && c.me != NO_PEER_ID && QueuesOk(s)
    ensures Keeps(s, HandleRespond(c, s, m, now).node) <==> !OverwritesAt(c, s, Receive(m))
  {
    if Confirms(c, s, Receive(m)) {
      ConfirmLoses(c, s, m, now);
    } else {
      CountingKeeps(c, s, m, now);
    }
  }

  lemma ProduceKeeps(c: Config, s: Node, now: Now)
    requires c.me != NO_PEER_ID && QueuesOk(s)
    ensures Keeps(s, Generate(c, s, now).node)
  {
    var s1, r := s.(nextRequestId := s.nextRequestId + 1), OwnRequest(c, s, now);
    SameQueuesAreOk(s, s1);
    ClientKeeps(c, s1, r, now);
    var t := OnClientRequest(c, s1, r, now).node;
    KeepsTransitive(s, s1, t);
    assert Generate(c, s, now).node == t;
  }

  lemma SameQueuesAreOk(s: Node, t: Node)
    requires QueuesOk(s) && SameQueues(s, t) && t.confirmed == s.confirmed && t.latency == s.latency
    ensures Keeps(s, t) && QueuesOk(t)
  {
    SameQueuesKeeps(s, t);
    SameQueuesMoves(s, t);
    QuietKeepsQueues(s, t);
  }

  lemma ElectionKeeps(c: Config, s: Node, m: Msg, now: Now)
    requires QueuesOk(s)
    ensures Keeps(s, MaybeStartElection(c, s, now).node)
    ensures m.Elect? ==> Keeps(s, HandleElect(c, s, m, now).node)
  {
    SameQueuesKeeps(s, s);
    if s.timeOutRound <= now.round {
      BallotKeeps(s, MaybeStartElection(c, s, now).node);
    }
    if m.Elect? && m.term > s.term && m.from != NO_PEER_ID {
      BallotKeeps(s, HandleElect(c, s, m, now).node);
    }
  }

  lemma OthersKeep(c: Config, s: Node, e: Event, now: Now)
    requires c.me != NO_PEER_ID && QueuesOk(s) && !(e.Receive? && (e.m.Replicate? || e.m.Respond?))
    ensures Keeps(s, Handle(c, s, e, now).node)
  {
    match e
    case Produce => ProduceKeeps(c, s, now);
    case Expire => ElectionKeeps(c, s, Elect(0, 0), now);
    case Flush => ForwardKeeps(c, s);
    case Receive(m) =>
      if m.Vote? {
        VoteKeeps(c, s, m, now);
      } else if m.Elect? {
        ElectionKeeps(c, s, m, now);
      } else if m.Commit? {
        CommitKeeps(c, s, m);
      } else {
        ClientKeeps(c, s, m.request, now);
      }
  }

  lemma CountingKeeps(c: Config, s: Node, m: Msg, now: Now)
    requires m.Respond? && c.me != NO_PEER_ID && !Confirms(c, s, Receive(m))
    ensures Keeps(s, HandleRespond(c, s, m, now).node)
  {
    var _ := RespondOutcome(c, s, m, now);
    SameQueuesKeeps(s, s);
    SameQueuesKeeps(s, Counted(s, m));
  }

  lemma CommitKeeps(c: Config, s: Node, m: Msg)
    requires m.Commit?
    ensures Keeps(s, HandleCommit(c, s, m).node)
  {
    var s1 := if m.term > s.term then s.(term := m.term) else s;
    SameQueuesKeeps(s, s);
    SameQueuesKeeps(s, s1);
    ApplyKeeps(s1, m.request, m.roundSubmitted, m.roundCommitted, false);
    KeepsTransitive(s, s1, HandleCommit(c, s, m).node);
  }
}
