/**
 * What every handler of a Raft member keeps about its requests: each key waits in at most one
 * place, the waiting requests keep the order in which they became known, and nothing committed
 * is pending.
 */
module RaftQueues {
  import opened Quorums
  import opened RaftNode

  // ---------------------------------------------------------------- subsequences

  /** `a` is `b` with some elements left out. */
  ghost predicate Sub<T>(a: seq<T>, b: seq<T>)
    decreases |b|
  {
    a == [] || (b != [] && ((a[0] == b[0] && Sub(a[1..], b[1..])) || Sub(a, b[1..])))
  }

  lemma {:induction false} SubSelf<T>(a: seq<T>)
    ensures Sub(a, a)
    decreases |a|
  {
    if a != [] {
      SubSelf(a[1..]);
    }
  }

  lemma {:induction false} SubTransitive<T>(a: seq<T>, b: seq<T>, c: seq<T>)
    requires Sub(a, b) && Sub(b, c)
    ensures Sub(a, c)
    decreases |c|
  {
    if a != [] {
      if b[0] == c[0] && Sub(b[1..], c[1..]) {
        if a[0] == b[0] && Sub(a[1..], b[1..]) {
          SubTransitive(a[1..], b[1..], c[1..]);
        } else {
          SubTransitive(a, b[1..], c[1..]);
        }
      } else {
        SubTransitive(a, b, c[1..]);
      }
    }
  }

  lemma {:induction false} SubConcat<T>(a: seq<T>, b: seq<T>, c: seq<T>, d: seq<T>)
    requires Sub(a, b) && Sub(c, d)
    ensures Sub(a + c, b + d)
    decreases |b|
  {
    if b == [] {
      assert a + c == c && b + d == d;
    } else {
      assert (b + d)[1..] == b[1..] + d;
      if a == [] {
        assert a + c == c;
        SubConcat([], b[1..], c, d);
        assert [] + c == c;
      } else if a[0] == b[0] && Sub(a[1..], b[1..]) {
        SubConcat(a[1..], b[1..], c, d);
        assert (a + c)[1..] == a[1..] + c;
      } else {
        SubConcat(a, b[1..], c, d);
      }
    }
  }

  lemma {:induction false} SubElement<T>(a: seq<T>, b: seq<T>, x: T)
    requires Sub(a, b) && x in a
    ensures x in b
    decreases |b|
  {
    if a[0] == b[0] && Sub(a[1..], b[1..]) {
      if x != a[0] {
        SubElement(a[1..], b[1..], x);
      }
    } else {
      SubElement(a, b[1..], x);
    }
  }

  lemma {:induction false} SubUnique<T>(a: seq<T>, b: seq<T>)
    requires Sub(a, b) && Unique(b)
    ensures Unique(a)
    decreases |b|
  {
    if a != [] {
      if a[0] == b[0] && Sub(a[1..], b[1..]) {
        SubUnique(a[1..], b[1..]);
        forall j | 0 < j < |a| ensures a[j] != a[0] {
          assert a[1..][j - 1] == a[j];
          SubElement(a[1..], b[1..], a[j]);
        }
        forall i, j | 0 <= i < j < |a| ensures a[i] != a[j] {
          if i > 0 {
            assert a[1..][i - 1] == a[i] && a[1..][j - 1] == a[j];
          }
        }
      } else {
        SubUnique(a, b[1..]);
      }
    }
  }

  // ---------------------------------------------------------------- waiting requests

  function Keys(q: seq<Request>): seq<Key> {
    seq(|q|, i requires 0 <= i < |q| => KeyOf(q[i]))
  }

  function FlightKeys(s: Node): seq<Key> {
    if s.inFlight.Some? then [KeyOf(s.inFlight.value)] else []
  }

  /** Every waiting key: the one in flight, then the pending, then the deferred ones. */
  function Waiting(s: Node): seq<Key> {
    FlightKeys(s) + Keys(s.pending) + Keys(s.deferred)
  }

  ghost predicate NewKeys(s: Node, t: Node, added: seq<Key>) {
    Unique(added) && forall k :: k in added ==> KeyValid(k) && k !in s.known && k in t.known
  }

  /**
   * From `s` to `t` the waiting requests only leave or join at the end, in the order in which
   * they became known, and a request joins only when its key was not known before.
   */
  ghost predicate Moves(s: Node, t: Node) {
    s.known <= t.known && exists added :: NewKeys(s, t, added) && Sub(Waiting(t), Waiting(s) + added)
  }

  lemma Stays(s: Node, t: Node)
    requires s.known <= t.known && Sub(Waiting(t), Waiting(s))
    ensures Moves(s, t)
  {
    assert NewKeys(s, t, []) && Waiting(s) + [] == Waiting(s);
  }

  lemma MovesTransitive(s: Node, t: Node, u: Node)
    requires Moves(s, t) && Moves(t, u)
    ensures Moves(s, u)
  {
    var a :| NewKeys(s, t, a) && Sub(Waiting(t), Waiting(s) + a);
    var b :| NewKeys(t, u, b) && Sub(Waiting(u), Waiting(t) + b);
    SubSelf(b);
    SubConcat(Waiting(t), Waiting(s) + a, b, b);
    SubTransitive(Waiting(u), Waiting(t) + b, Waiting(s) + a + b);
    assert Waiting(s) + a + b == Waiting(s) + (a + b);
    UniqueConcat(a, b);
    assert NewKeys(s, u, a + b);
  }

  lemma MovesTwice(s: Node, t: Node, u: Node, v: Node)
    requires Moves(s, t) && Moves(t, u) && Moves(u, v)
    ensures Moves(s, v)
  {
    MovesTransitive(s, t, u);
    MovesTransitive(s, u, v);
  }

  // ---------------------------------------------------------------- the invariant of one member

  function LatencySum(confirmed: seq<Confirmation>): int {
    if confirmed == [] then 0
    else
      var last := confirmed[|confirmed| - 1];
      LatencySum(confirmed[..|confirmed| - 1]) + (last.roundCommitted - last.roundSubmitted)
  }

  predicate PendingOk(s: Node) {
    forall i :: 0 <= i < |s.pending| ==> KeyOf(s.pending[i]) !in s.committed
  }

  ghost predicate QueuesOk(s: Node) {
    && Unique(Waiting(s))
    && (forall k :: k in Waiting(s) ==> KeyValid(k) && k in s.known)
    && PendingOk(s)
    && s.latency == LatencySum(s.confirmed)
  }

  lemma MovesKeepsQueues(s: Node, t: Node)
    requires QueuesOk(s) && Moves(s, t) && PendingOk(t) && t.latency == LatencySum(t.confirmed)
    ensures QueuesOk(t)
  {
    var a :| NewKeys(s, t, a) && Sub(Waiting(t), Waiting(s) + a);
    UniqueConcat(Waiting(s), a);
    SubUnique(Waiting(t), Waiting(s) + a);
    forall k | k in Waiting(t) ensures KeyValid(k) && k in t.known {
      SubElement(Waiting(t), Waiting(s) + a, k);
    }
  }

  // ---------------------------------------------------------------- filters keep the order

  lemma {:induction false} LiveOnlyIsSub(committed: set<Key>, q: seq<Request>)
    ensures Sub(Keys(LiveOnly(committed, q)), Keys(q))
    ensures forall i :: 0 <= i < |LiveOnly(committed, q)| ==> Live(committed, LiveOnly(committed, q)[i])
    decreases |q|
  {
    if q != [] {
      LiveOnlyIsSub(committed, q[1..]);
      assert Keys(q)[1..] == Keys(q[1..]);
      var l := LiveOnly(committed, q);
      if Live(committed, q[0]) {
        assert Keys(l)[1..] == Keys(LiveOnly(committed, q[1..]));
      } else {
        assert l == LiveOnly(committed, q[1..]);
      }
    }
  }

  lemma {:induction false} WithoutIsSub(k: Key, q: seq<Request>)
    ensures Sub(Keys(Without(k, q)), Keys(q))
    ensures forall i :: 0 <= i < |Without(k, q)| ==> Without(k, q)[i] in q && KeyOf(Without(k, q)[i]) != k
    decreases |q|
  {
    if q != [] {
      WithoutIsSub(k, q[1..]);
      assert Keys(q)[1..] == Keys(q[1..]);
      var w := Without(k, q);
      if KeyOf(q[0]) != k {
        assert Keys(w)[1..] == Keys(Without(k, q[1..]));
      } else {
        assert w == Without(k, q[1..]);
      }
    }
  }

  lemma WaitingSub(s: Node, t: Node)
    requires Sub(FlightKeys(t), FlightKeys(s)) && Sub(Keys(t.pending), Keys(s.pending))
    requires Sub(Keys(t.deferred), Keys(s.deferred))
    ensures Sub(Waiting(t), Waiting(s))
  {
    SubConcat(FlightKeys(t), FlightKeys(s), Keys(t.pending), Keys(s.pending));
    SubConcat(FlightKeys(t) + Keys(t.pending), FlightKeys(s) + Keys(s.pending), Keys(t.deferred), Keys(s.deferred));
  }

  // ---------------------------------------------------------------- the parts of a handler

  lemma EnqueueMoves(s: Node, r: Request)
    ensures Moves(s, Enqueue(s, r))
  {
    var t := Enqueue(s, r);
    if t == s {
      SubSelf(Waiting(s));
      Stays(s, s);
    } else {
      assert Keys(t.deferred) == Keys(s.deferred) + [KeyOf(r)];
      assert Waiting(t) == Waiting(s) + [KeyOf(r)];
      SubSelf(Waiting(t));
      assert NewKeys(s, t, [KeyOf(r)]);
    }
  }

  lemma ForwardKeepsWaiting(c: Config, s: Node)
    ensures Waiting(ForwardDeferred(c, s).node)
         == FlightKeys(s) + Keys(s.pending) + Keys(LiveOnly(s.committed, s.deferred))
  {
    var t := ForwardDeferred(c, s).node;
    var live := LiveOnly(s.committed, s.deferred);
    assert Keys(Unmark(live)) == Keys(live) && Keys(Mark(live, s.leader)) == Keys(live);
    if s.leader == c.me {
      assert Keys(s.pending + Unmark(live)) == Keys(s.pending) + Keys(live);
      assert Keys(t.deferred) == [];
    }
  }

  lemma ForwardKeepsPending(c: Config, s: Node)
    requires PendingOk(s)
    ensures PendingOk(ForwardDeferred(c, s).node)
  {
    LiveOnlyIsSub(s.committed, s.deferred);
  }

  lemma FrontSub<T>(front: seq<T>, a: seq<T>, b: seq<T>)
    requires Sub(a, b)
    ensures Sub(front + a, front + b)
  {
    SubSelf(front);
    SubConcat(front, front, a, b);
  }

  lemma ForwardMoves(c: Config, s: Node)
    ensures Moves(s, ForwardDeferred(c, s).node)
    ensures PendingOk(s) ==> PendingOk(ForwardDeferred(c, s).node)
  {
    LiveOnlyIsSub(s.committed, s.deferred);
    FrontSub(FlightKeys(s) + Keys(s.pending), Keys(LiveOnly(s.committed, s.deferred)), Keys(s.deferred));
    ForwardKeepsWaiting(c, s);
    Stays(s, ForwardDeferred(c, s).node);
    if PendingOk(s) {
      ForwardKeepsPending(c, s);
    }
  }

  lemma SubmitMoves(c: Config, s: Node, r: Request)
    ensures Moves(s, Submit(c, s, r).node)
    ensures PendingOk(s) ==> PendingOk(Submit(c, s, r).node)
  {
    EnqueueMoves(s, r);
    ForwardMoves(c, Enqueue(s, r));
    MovesTransitive(s, Enqueue(s, r), Submit(c, s, r).node);
  }

  lemma SubTail<T>(a: seq<T>, b: seq<T>)
    ensures Sub(b, a + b)
  {
    SubSelf(b);
    SubConcat([], a, b, b);
    assert [] + b == b;
  }

  lemma TakeFirstWaiting(s: Node, t: Node)
    requires s.pending != [] && t.pending == s.pending[1..] && t.deferred == s.deferred
    ensures Waiting(s) == FlightKeys(s) + ([KeyOf(s.pending[0])] + (Keys(t.pending) + Keys(t.deferred)))
    ensures Waiting(t) == FlightKeys(t) + (Keys(t.pending) + Keys(t.deferred))
  {
    assert Keys(s.pending) == [KeyOf(s.pending[0])] + Keys(t.pending);
  }

  lemma TakeFirstMoves(s: Node, t: Node)
    requires s.pending != [] && t.pending == s.pending[1..] && t.deferred == s.deferred && t.known == s.known
    requires FlightKeys(t) == [KeyOf(s.pending[0])] || FlightKeys(t) == FlightKeys(s)
    ensures Moves(s, t)
  {
    var head, rest := [KeyOf(s.pending[0])], Keys(t.pending) + Keys(t.deferred);
    TakeFirstWaiting(s, t);
    SubTail(FlightKeys(s), head + rest);
    SubTail(head, rest);
    FrontSub(FlightKeys(s), rest, head + rest);
    Stays(s, t);
  }

  lemma {:induction false} TakeMoves(c: Config, s: Node, now: Now)
    ensures Moves(s, TakePending(c, s, now).node)
    ensures PendingOk(s) ==> PendingOk(TakePending(c, s, now).node)
    decreases |s.pending|
  {
    if s.pending == [] {
      SubSelf(Waiting(s));
      Stays(s, s);
    } else {
      var rest := s.(pending := s.pending[1..]);
      if Live(s.committed, s.pending[0]) {
        TakeFirstMoves(s, TakePending(c, s, now).node);
      } else {
        TakeFirstMoves(s, rest);
        TakeMoves(c, rest, now);
        MovesTransitive(s, rest, TakePending(c, rest, now).node);
      }
    }
  }

  lemma NumberedSubmitMoves(c: Config, s: Node, s1: Node, r: Request)
    requires SameQueues(s, s1)
    ensures Moves(s, Submit(c, s1, r).node)
    ensures PendingOk(s) ==> PendingOk(Submit(c, s1, r).node)
  {
    var t := Submit(c, s1, r).node;
    SameQueuesMoves(s, s1);
    SubmitMoves(c, s1, r);
    MovesTransitive(s, s1, t);
  }

  lemma SelfSubmitMoves(c: Config, s: Node, now: Now)
    ensures Moves(s, SelfSubmit(c, s, now).node)
    ensures PendingOk(s) ==> PendingOk(SelfSubmit(c, s, now).node)
  {
    var s1, r := s.(nextRequestId := s.nextRequestId + 1), OwnRequest(c, s, now);
    assert SelfSubmit(c, s, now) == Submit(c, s1, r);
    NumberedSubmitMoves(c, s, s1, r);
  }

  lemma {:induction false} StartMoves(c: Config, s: Node, now: Now)
    requires c.me != NO_PEER_ID
    ensures Moves(s, StartReplication(c, s, now).node)
    ensures PendingOk(s) ==> PendingOk(StartReplication(c, s, now).node)
    decreases |Taken(c, s)|, Idle(s)
  {
    if s.leader != c.me || s.inFlight.Some? {
      SubSelf(Waiting(s));
      Stays(s, s);
    } else if s.pending == [] {
      SelfSubmitProgress(c, s, now);
      SelfSubmitMoves(c, s, now);
      var s1 := SelfSubmit(c, s, now).node;
      StartMoves(c, s1, now);
      var s2 := StartReplication(c, s1, now).node;
      TakeMoves(c, s2, now);
      MovesTwice(s, s1, s2, TakePending(c, s2, now).node);
    } else {
      TakeMoves(c, s, now);
    }
  }

  lemma ResetWaiting(s: Node, requeue: bool)
    ensures Waiting(ResetReplication(s, requeue)) == Waiting(s)
         || FlightKeys(s) + Waiting(ResetReplication(s, requeue)) == Waiting(s)
  {
    var t := ResetReplication(s, requeue);
    if s.inFlight.Some? {
      assert Keys([s.inFlight.value] + s.pending) == FlightKeys(s) + Keys(s.pending);
    }
  }

  lemma ResetMoves(s: Node, requeue: bool)
    ensures Moves(s, ResetReplication(s, requeue))
    ensures PendingOk(s) ==> PendingOk(ResetReplication(s, requeue))
  {
    var t := ResetReplication(s, requeue);
    ResetWaiting(s, requeue);
    SubSelf(Waiting(t));
    SubConcat([], FlightKeys(s), Waiting(t), Waiting(t));
    assert [] + Waiting(t) == Waiting(t);
    Stays(s, t);
  }

  lemma ApplyMoves(s: Node, r: Request, submitted: int, committed: int, skip: bool)
    ensures Moves(s, ApplyCommit(s, r, submitted, committed, skip))
    ensures PendingOk(s) ==> PendingOk(ApplyCommit(s, r, submitted, committed, skip))
  {
    var t := ApplyCommit(s, r, submitted, committed, skip);
    SubSelf(Waiting(s));
    if KeyValid(KeyOf(r)) {
      WithoutIsSub(KeyOf(r), s.pending);
      WithoutIsSub(KeyOf(r), s.deferred);
      SubSelf(FlightKeys(s));
      WaitingSub(s, t);
    }
    Stays(s, t);
  }

  // ---------------------------------------------------------------- what moving requests leaves alone

  /** Only queues, request numbers, empty reply lists and the timer may differ. */
  ghost predicate Quiet(s: Node, t: Node) {
    && t.term == s.term && t.leader == s.leader && t.candidate == s.candidate && t.votes == s.votes
    && t.committed == s.committed && t.confirmed == s.confirmed && t.latency == s.latency
    && t.leaderChanges == s.leaderChanges && s.known <= t.known
    && forall k :: RepliesFor(t, k) == RepliesFor(s, k)
  }

  /** Messages that only pass requests on. */
  predicate PassesOn(out: seq<Envelope>) {
    forall i :: 0 <= i < |out| ==> out[i].m.Replicate? || out[i].m.Client?
  }

  lemma {:induction false} OutboundPassesOn(q: seq<Request>, leader: Id)
    ensures PassesOn(Outbound(q, leader))
  {
    if q != [] {
      OutboundPassesOn(q[1..], leader);
    }
  }

  lemma ForwardIsQuiet(c: Config, s: Node)
    ensures Quiet(s, ForwardDeferred(c, s).node) && PassesOn(ForwardDeferred(c, s).out)
  {
    OutboundPassesOn(LiveOnly(s.committed, s.deferred), s.leader);
  }

  lemma {:induction false} TakeIsQuiet(c: Config, s: Node, now: Now)
    ensures Quiet(s, TakePending(c, s, now).node) && PassesOn(TakePending(c, s, now).out)
    decreases |s.pending|
  {
    if s.pending != [] && !Live(s.committed, s.pending[0]) {
      TakeIsQuiet(c, s.(pending := s.pending[1..]), now);
    }
  }

  lemma {:induction false} StartIsQuiet(c: Config, s: Node, now: Now)
    requires c.me != NO_PEER_ID
    ensures Quiet(s, StartReplication(c, s, now).node) && PassesOn(StartReplication(c, s, now).out)
    decreases |Taken(c, s)|, Idle(s)
  {
    if s.leader == c.me && s.inFlight.None? {
      if s.pending == [] {
        SelfSubmitProgress(c, s, now);
        var s2 := SelfSubmit(c, s, now).node;
        ForwardIsQuiet(c, Enqueue(s.(nextRequestId := s.nextRequestId + 1), OwnRequest(c, s, now)));
        StartIsQuiet(c, s2, now);
        TakeIsQuiet(c, StartReplication(c, s2, now).node, now);
      } else {
        TakeIsQuiet(c, s, now);
      }
    }
  }

  lemma ClientIsQuiet(c: Config, s: Node, r: Request, now: Now)
    requires c.me != NO_PEER_ID
    ensures Quiet(s, OnClientRequest(c, s, r, now).node) && PassesOn(OnClientRequest(c, s, r, now).out)
  {
    var s1 := if r.clientSeq.None? then s.(nextRequestId := s.nextRequestId + 1) else s;
    var full := Fill(c, s, r, now);
    ForwardIsQuiet(c, Enqueue(s1, full));
    StartIsQuiet(c, Submit(c, s1, full).node, now);
  }

  // ---------------------------------------------------------------- the handlers

  /** The same requests wait in the same places. */
  predicate SameQueues(s: Node, t: Node) {
    && t.known == s.known && t.pending == s.pending && t.deferred == s.deferred && t.inFlight == s.inFlight
    && t.committed == s.committed
  }

  lemma SameQueuesMoves(s: Node, t: Node)
    requires SameQueues(s, t)
    ensures Moves(s, t) && (PendingOk(s) ==> PendingOk(t))
  {
    SubSelf(Waiting(s));
    Stays(s, t);
  }

  lemma ClientMoves(c: Config, s: Node, r: Request, now: Now)
    requires c.me != NO_PEER_ID
    ensures Moves(s, OnClientRequest(c, s, r, now).node)
    ensures PendingOk(s) ==> PendingOk(OnClientRequest(c, s, r, now).node)
  {
    var s1 := if r.clientSeq.None? then s.(nextRequestId := s.nextRequestId + 1) else s;
    var full := Fill(c, s, r, now);
    NumberedSubmitMoves(c, s, s1, full);
    var s2 := Submit(c, s1, full).node;
    StartMoves(c, s2, now);
    MovesTransitive(s, s2, StartReplication(c, s2, now).node);
  }

  lemma ReplicateMoves(c: Config, s: Node, m: Msg, now: Now)
    requires m.Replicate?
    ensures Moves(s, HandleReplicate(c, s, m, now).node)
    ensures PendingOk(s) ==> PendingOk(HandleReplicate(c, s, m, now).node)
  {
    var s1 := if s.leader != m.from then ResetReplication(s, false) else s;
    SameQueuesMoves(s, s);
    ResetMoves(s, false);
    var s2 := s1.(term := m.term, leader := m.from, votes := [], candidate := NO_PEER_ID, timeOutRound := now.deadline);
    SameQueuesMoves(s1, s2);
    EnqueueMoves(s, m.request);
    EnqueueMoves(s2, m.request);
    MovesTransitive(s, s1, s2);
    MovesTwice(s, s1, s2, Enqueue(s2, m.request));
  }

  /** The state right after a request was confirmed and before the next one starts. */
  function AfterConfirm(s: Node, r: Request, submitted: int, round: int): Node {
    ApplyCommit(Record(s, r, submitted, round), r, submitted, round, true).(inFlight := None)
  }

  lemma AfterConfirmMoves(s: Node, r: Request, submitted: int, round: int)
    ensures Moves(s, AfterConfirm(s, r, submitted, round))
    ensures PendingOk(s) ==> PendingOk(AfterConfirm(s, r, submitted, round))
  {
    var s1 := Record(s, r, submitted, round);
    SameQueuesMoves(s, s1);
    ApplyMoves(s1, r, submitted, round, true);
    var s2 := ApplyCommit(s1, r, submitted, round, true);
    var s3 := s2.(inFlight := None);
    SubSelf(Keys(s2.pending));
    SubSelf(Keys(s2.deferred));
    WaitingSub(s2, s3);
    Stays(s2, s3);
    MovesTwice(s, s1, s2, s3);
  }

  lemma ConfirmMoves(c: Config, s: Node, r: Request, submitted: int, now: Now)
    requires c.me != NO_PEER_ID
    ensures Moves(s, Confirm(c, s, r, submitted, now).node)
    ensures PendingOk(s) ==> PendingOk(Confirm(c, s, r, submitted, now).node)
  {
    var s1 := AfterConfirm(s, r, submitted, now.round);
    AfterConfirmMoves(s, r, submitted, now.round);
    StartMoves(c, s1, now);
    MovesTransitive(s, s1, StartReplication(c, s1, now).node);
  }

  lemma RespondMoves(c: Config, s: Node, m: Msg, now: Now)
    requires m.Respond? && c.me != NO_PEER_ID
    ensures Moves(s, HandleRespond(c, s, m, now).node)
    ensures PendingOk(s) ==> PendingOk(HandleRespond(c, s, m, now).node)
  {
    var k := KeyOf(m.request);
    var s1 := s.(replies := s.replies[k := RepliesFor(s, k) + [m.from]]);
    SameQueuesMoves(s, s);
    SameQueuesMoves(s, s1);
    var submitted := if k in s.submittedRound then s.submittedRound[k] else OrElse(m.request.roundSubmitted, now.round);
    ConfirmMoves(c, s1, m.request, submitted, now);
    MovesTransitive(s, s1, Confirm(c, s1, m.request, submitted, now).node);
  }

  /** Standing down or standing for election puts the request in flight back at the front. */
  lemma RequeueMoves(s: Node, t: Node)
    requires SameQueues(ResetReplication(s, true), t)
    ensures Moves(s, t) && (PendingOk(s) ==> PendingOk(t))
  {
    ResetMoves(s, true);
    SameQueuesMoves(ResetReplication(s, true), t);
    MovesTransitive(s, ResetReplication(s, true), t);
  }

  lemma LeaderMoves(c: Config, s: Node, now: Now)
    requires c.me != NO_PEER_ID
    ensures Moves(s, BecomeLeader(c, s, now).node)
    ensures PendingOk(s) ==> PendingOk(BecomeLeader(c, s, now).node)
  {
    var s1 := TakeLead(c, s, now);
    RequeueMoves(s, s1);
    ForwardMoves(c, s1);
    var s2 := ForwardDeferred(c, s1).node;
    StartMoves(c, s2, now);
    MovesTwice(s, s1, s2, StartReplication(c, s2, now).node);
  }

  lemma VoteMoves(c: Config, s: Node, m: Msg, now: Now)
    requires m.Vote? && c.me != NO_PEER_ID
    ensures Moves(s, HandleVote(c, s, m, now).node)
    ensures PendingOk(s) ==> PendingOk(HandleVote(c, s, m, now).node)
  {
    var s1 := s.(votes := s.votes + [m.from]);
    SameQueuesMoves(s, s);
    SameQueuesMoves(s, s1);
    LeaderMoves(c, s1, now);
    MovesTransitive(s, s1, BecomeLeader(c, s1, now).node);
  }

  lemma CommitMoves(c: Config, s: Node, m: Msg)
    requires m.Commit?
    ensures Moves(s, HandleCommit(c, s, m).node)
    ensures PendingOk(s) ==> PendingOk(HandleCommit(c, s, m).node)
  {
    var s1 := if m.term > s.term then s.(term := m.term) else s;
    SameQueuesMoves(s, s);
    SameQueuesMoves(s, s1);
    ApplyMoves(s1, m.request, m.roundSubmitted, m.roundCommitted, false);
    MovesTransitive(s, s1, HandleCommit(c, s, m).node);
  }

  /** Whatever happens to a member, its waiting requests keep their order and none is doubled. */
  lemma HandleMoves(c: Config, s: Node, e: Event, now: Now)
    requires c.me != NO_PEER_ID
    ensures Moves(s, Handle(c, s, e, now).node)
    ensures PendingOk(s) ==> PendingOk(Handle(c, s, e, now).node)
  {
    match e
    case Produce =>
      var s1 := s.(nextRequestId := s.nextRequestId + 1);
      SameQueuesMoves(s, s1);
      ClientMoves(c, s1, OwnRequest(c, s, now), now);
      MovesTransitive(s, s1, Generate(c, s, now).node);
    case Expire =>
      SameQueuesMoves(s, s);
      if s.timeOutRound <= now.round {
        RequeueMoves(s, MaybeStartElection(c, s, now).node);
      }
    case Flush => ForwardMoves(c, s);
    case Receive(m) =>
      match m {
        case Replicate(_, _, _) => ReplicateMoves(c, s, m, now);
        case Respond(_, _, _) => RespondMoves(c, s, m, now);
        case Vote(_, _, _) => VoteMoves(c, s, m, now);
        case Elect(_, _) =>
          SameQueuesMoves(s, s);
          if m.term > s.term && m.from != NO_PEER_ID {
            RequeueMoves(s, HandleElect(c, s, m, now).node);
          }
        case Commit(_, _, _, _, _) => CommitMoves(c, s, m);
        case Client(r) => ClientMoves(c, s, r, now);
      }
  }

  // ---------------------------------------------------------------- latency

  /** The confirmations grow by at most one, and the latency by its delay. */
  predicate Tallies(s: Node, t: Node) {
    || (t.confirmed == s.confirmed && t.latency == s.latency)
    || (&& |t.confirmed| == |s.confirmed| + 1 && t.confirmed[..|s.confirmed|] == s.confirmed
        && t.latency == s.latency + (t.confirmed[|s.confirmed|].roundCommitted - t.confirmed[|s.confirmed|].roundSubmitted))
  }

  lemma RespondTallies(c: Config, s: Node, m: Msg, now: Now)
    requires m.Respond? && c.me != NO_PEER_ID
    ensures Tallies(s, HandleRespond(c, s, m, now).node)
  {
    var _ := RespondOutcome(c, s, m, now);
  }

  lemma HandleTallies(c: Config, s: Node, e: Event, now: Now)
    requires c.me != NO_PEER_ID
    ensures Tallies(s, Handle(c, s, e, now).node)
  {
    match e
    case Produce => ClientIsQuiet(c, s.(nextRequestId := s.nextRequestId + 1), OwnRequest(c, s, now), now);
    case Expire =>
    case Flush => ForwardIsQuiet(c, s);
    case Receive(m) =>
      match m {
        case Respond(_, _, _) => RespondTallies(c, s, m, now);
        case Vote(_, _, _) => VoteOutcome(c, s, m, now);
        case Client(r) => ClientIsQuiet(c, s, r, now);
        case _ =>
      }
  }

  /** The state in which a response is counted. */
  function Counted(s: Node, m: Msg): Node
    requires m.Respond?
  {
    var k := KeyOf(m.request);
    s.(replies := s.replies[k := RepliesFor(s, k) + [m.from]])
  }

  predicate Counts(c: Config, s: Node, m: Msg)
    requires m.Respond?
  {
    && s.leader == c.me && s.inFlight.Some? && KeyOf(m.request) == KeyOf(s.inFlight.value)
    && m.from != NO_PEER_ID && m.from !in RepliesFor(s, KeyOf(m.request))
  }

  lemma RespondOutcome(c: Config, s: Node, m: Msg, now: Now) returns (submitted: int)
    requires m.Respond? && c.me != NO_PEER_ID
    ensures var t, k := HandleRespond(c, s, m, now), KeyOf(m.request);
            if !Counts(c, s, m) then t == Result(s, [])
            else if !HasQuorum(c, |RepliesFor(s, k)| + 1) then t == Result(Counted(s, m), [])
            else
              && Quiet(AfterConfirm(Counted(s, m), m.request, submitted, now.round), t.node)
              && t.out != [] && t.out[0] == Multicast(Commit(m.request, c.me, s.term, submitted, now.round))
              && PassesOn(t.out[1..])
  {
    var k := KeyOf(m.request);
    submitted := if k in s.submittedRound then s.submittedRound[k] else OrElse(m.request.roundSubmitted, now.round);
    var s1 := AfterConfirm(Counted(s, m), m.request, submitted, now.round);
    StartIsQuiet(c, s1, now);
    var started := StartReplication(c, s1, now);
    var out := [Multicast(Commit(m.request, c.me, s.term, submitted, now.round))] + started.out;
    assert out[1..] == started.out;
  }

  lemma VoteOutcome(c: Config, s: Node, m: Msg, now: Now)
    requires m.Vote? && c.me != NO_PEER_ID
    ensures var t := HandleVote(c, s, m, now);
            && PassesOn(t.out) && t.node.term == s.term && s.known <= t.node.known
            && t.node.committed == s.committed && t.node.confirmed == s.confirmed && t.node.latency == s.latency
            && forall k :: RepliesFor(t.node, k) == RepliesFor(s, k) || RepliesFor(t.node, k) == []
  {
    var s2 := TakeLead(c, s.(votes := s.votes + [m.from]), now);
    ForwardIsQuiet(c, s2);
    StartIsQuiet(c, ForwardDeferred(c, s2).node, now);
  }

  lemma TalliesKeepsSum(s: Node, t: Node)
    requires Tallies(s, t) && s.latency == LatencySum(s.confirmed)
    ensures t.latency == LatencySum(t.confirmed)
  {
  }

  /** Every event keeps the queues sound. */
  lemma HandleKeepsQueues(c: Config, s: Node, e: Event, now: Now)
    requires c.me != NO_PEER_ID && QueuesOk(s)
    ensures QueuesOk(Handle(c, s, e, now).node)
  {
    var t := Handle(c, s, e, now).node;
    HandleMoves(c, s, e, now);
    HandleTallies(c, s, e, now);
    TalliesKeepsSum(s, t);
    MovesKeepsQueues(s, t);
  }
}
