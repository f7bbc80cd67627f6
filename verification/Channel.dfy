/**
 * The abstract channel between two peers: bounded, with a budget of messages, and free to drop,
 * duplicate, delay and reorder. Every random draw is a parameter of the value-level functions
 * and an open choice in the methods.
 */
module Channel {
  datatype Packet<+M> = Packet(body: M, round: int, delay: int)

  /** A negative `size` compares as a huge unsigned number; a negative budget is never used up. */
  datatype Chan<+M> = Chan(size: int, maxMsgsRec: int, throughputLeft: int, queue: seq<Packet<M>>)

  function Created<M>(size: int, maxMsgsRec: int, lastRound: int, currentRound: int): Chan<M> {
    Chan(size, maxMsgsRec, maxMsgsRec * (lastRound - currentRound), [])
  }

  predicate CanSend<M>(c: Chan<M>) {
    c.throughputLeft != 0 && (c.size < 0 || c.size > |c.queue|)
  }

  function Consumed(left: int): int {
    if left > 0 then left - 1 else left
  }

  /** A drawn delay below one round becomes one round. */
  function SetDelay(d: int): int {
    if d < 1 then 1 else d
  }

  function Enqueued<M>(c: Chan<M>, body: M, round: int, d: int): Chan<M> {
    c.(throughputLeft := Consumed(c.throughputLeft), queue := c.queue + [Packet(body, round, SetDelay(d))])
  }

  /** One copy for each drawn delay, as long as the channel can take it. */
  function PushCopies<M>(c: Chan<M>, body: M, round: int, delays: seq<int>): Chan<M>
    decreases |delays|
  {
    if delays == [] || !CanSend(c) then c
    else PushCopies(Enqueued(c, body, round, delays[0]), body, round, delays[1..])
  }

  function Push<M>(c: Chan<M>, body: M, round: int, drop: bool, delays: seq<int>): Chan<M> {
    if drop then c else PushCopies(c, body, round, delays)
  }

  predicate HasArrived<M>(p: Packet<M>, round: int) {
    round >= p.round + p.delay
  }

  /** How many packets at the front have arrived, at most `limit`. */
  function ArrivedCount<M>(q: seq<Packet<M>>, round: int, limit: int): (k: nat)
    ensures k <= |q| && (limit <= 0 ==> k == 0) && (limit > 0 ==> k <= limit)
    ensures forall i :: 0 <= i < k ==> q[i].round + q[i].delay <= round
    ensures k < |q| && k < limit ==> round < q[k].round + q[k].delay
  {
    if q == [] || limit <= 0 || !HasArrived(q[0], round) then 0
    else 1 + ArrivedCount(q[1..], round, limit - 1)
  }

  // ---------------------------------------------------------------- the object

  lemma {:induction false} PushOneMore<M>(c: Chan<M>, body: M, round: int, delays: seq<int>, d: int)
    ensures PushCopies(c, body, round, delays + [d]) == PushCopies(PushCopies(c, body, round, delays), body, round, [d])
    decreases |delays|
  {
    if delays == [] {
      assert delays + [d] == [d];
    } else if CanSend(c) {
      PushOneMore(Enqueued(c, body, round, delays[0]), body, round, delays[1..], d);
      assert (delays + [d])[1..] == delays[1..] + [d];
    }
  }

  lemma ArrivedCountIs<M>(q: seq<Packet<M>>, round: int, limit: int, k: nat)
    requires k <= |q| && (k == 0 || k <= limit) && (forall i :: 0 <= i < k ==> q[i].round + q[i].delay <= round)
    requires k < |q| && k < limit ==> round < q[k].round + q[k].delay
    ensures k == ArrivedCount(q, round, limit)
  {
  }

  predicate AllArrived<M>(ps: seq<Packet<M>>, round: int) {
    forall i :: 0 <= i < |ps| ==> ps[i].round + ps[i].delay <= round
  }

  lemma FrontIs<T>(a: seq<T>, b: seq<T>, all: seq<T>)
    requires a + b == all
    ensures forall i :: 0 <= i < |a| ==> all[i] == a[i]
    ensures b != [] ==> all[|a|] == b[0]
  {
  }

  class ChannelObject<M(==)> {
    const size: int
    const maxMsgsRec: int
    var throughputLeft: int
    var queue: seq<Packet<M>>

    function Snapshot(): Chan<M>
      reads this
    {
      Chan(size, maxMsgsRec, throughputLeft, queue)
    }

    constructor (bound: int, rate: int, lastRound: int, currentRound: int)
      ensures Snapshot() == Created(bound, rate, lastRound, currentRound)
    {
      size, maxMsgsRec := bound, rate;
      throughputLeft, queue := rate * (lastRound - currentRound), [];
    }

    /** Returns whatever the duplicate draws are; they would only go on for ever if nothing bounded the channel. */
    method PushPacket(body: M, round: int) returns (ghost drop: bool, ghost delays: seq<int>)
      requires size >= 0 || throughputLeft >= 0
      modifies this
      ensures Snapshot() == Push(old(Snapshot()), body, round, drop, delays)
    {
      ghost var start := Snapshot();
      delays := [];
      var dropped: bool := *;
      drop := dropped;
      if dropped {
        return;
      }
      var duplicate := true;
      while duplicate && throughputLeft != 0 && (size < 0 || size > |queue|)
        invariant size >= 0 || throughputLeft >= 0
        invariant Snapshot() == PushCopies(start, body, round, delays)
        decreases if size >= 0 then size - |queue| else throughputLeft
      {
        if throughputLeft > 0 {
          throughputLeft := throughputLeft - 1;
        }
        var d: int := *;
        PushOneMore(start, body, round, delays, d);
        delays := delays + [d];
        queue := queue + [Packet(body, round, if d < 1 then 1 else d)];
        duplicate := *;
      }
    }

    method PopPacket() returns (p: Packet<M>)
      requires queue != []
      modifies this`queue
      ensures [p] + queue == old(queue)
    {
      p := queue[0];
      queue := queue[1..];
    }

    /** Moves what has arrived to the receiver, after a possible shuffle. */
    method Receive(round: int, order: seq<Packet<M>>) returns (got: seq<Packet<M>>)
      requires multiset(order) == multiset(queue)
      modifies this`queue
      ensures got + queue == order && |got| == ArrivedCount(order, round, maxMsgsRec)
      ensures AllArrived(got, round)
      ensures queue == [] || |got| >= maxMsgsRec || round < queue[0].round + queue[0].delay
    {
      queue := order;
      got := [];
      while queue != [] && HasArrived(queue[0], round) && |got| < maxMsgsRec
        invariant got + queue == order && (got == [] || |got| <= maxMsgsRec)
        invariant AllArrived(got, round)
        decreases |queue|
      {
        var p := PopPacket();
        got := got + [p];
      }
      FrontIs(got, queue, order);
      ArrivedCountIs(order, round, maxMsgsRec, |got|);
    }
  }

  // ---------------------------------------------------------------- whole runs

  datatype Delivery<+M> = Delivery(packet: Packet<M>, round: int)

  /** The channel with its past: everything accepted and everything delivered, in order. */
  datatype History<+M> = History(chan: Chan<M>, accepted: seq<Packet<M>>, delivered: seq<Delivery<M>>)

  datatype Step<+M> =
    | Send(body: M, round: int, drop: bool, delays: seq<int>)
    | Take(round: int, order: seq<Packet<M>>)

  predicate Enabled<M(==)>(h: History<M>, step: Step<M>) {
    step.Take? ==> multiset(step.order) == multiset(h.chan.queue)
  }

  function Stamped<M>(got: seq<Packet<M>>, round: int): seq<Delivery<M>> {
    seq(|got|, i requires 0 <= i < |got| => Delivery(got[i], round))
  }

  function Unstamped<M>(ds: seq<Delivery<M>>): seq<Packet<M>> {
    seq(|ds|, i requires 0 <= i < |ds| => ds[i].packet)
  }

  lemma UnstampedAppend<M>(ds: seq<Delivery<M>>, got: seq<Packet<M>>, round: int)
    ensures Unstamped(ds + Stamped(got, round)) == Unstamped(ds) + got
  {
  }

  function Apply<M(==)>(h: History<M>, step: Step<M>): History<M> {
    match step
    case Send(body, round, drop, delays) =>
      var c := Push(h.chan, body, round, drop, delays);
      var n := |h.chan.queue|;
      h.(chan := c, accepted := h.accepted + if n <= |c.queue| then c.queue[n..] else [])
    case Take(round, order) =>
      var k := ArrivedCount(order, round, h.chan.maxMsgsRec);
      h.(chan := h.chan.(queue := order[k..]), delivered := h.delivered + Stamped(order[..k], round))
  }

  ghost predicate StepAt<M>(run: seq<History<M>>, steps: seq<Step<M>>, i: nat)
    requires i < |steps| && |run| == |steps| + 1
  {
    Enabled(run[i], steps[i]) && run[i + 1] == Apply(run[i], steps[i])
  }

  ghost predicate IsRun<M>(start: Chan<M>, run: seq<History<M>>, steps: seq<Step<M>>) {
    && |run| == |steps| + 1 && start.queue == [] && run[0] == History(start, [], [])
    && forall i :: 0 <= i < |steps| ==> StepAt(run, steps, i)
  }

  /** What a push adds: copies of one body, sent in one round, each at least one round away. */
  predicate IsCopy<M(==)>(p: Packet<M>, body: M, round: int) {
    p.body == body && p.round == round && p.delay >= 1
  }

  lemma {:induction false} PushAdds<M>(c: Chan<M>, body: M, round: int, delays: seq<int>)
    ensures var d := PushCopies(c, body, round, delays);
            && d.size == c.size && d.maxMsgsRec == c.maxMsgsRec
            && |d.queue| >= |c.queue| && d.queue[..|c.queue|] == c.queue
            && (forall i :: |c.queue| <= i < |d.queue| ==> IsCopy(d.queue[i], body, round))
            && (c.throughputLeft >= 0 ==> d.throughputLeft + |d.queue| == c.throughputLeft + |c.queue| && d.throughputLeft >= 0)
            && (0 <= c.size && |c.queue| <= c.size ==> |d.queue| <= c.size)
    decreases |delays|
  {
    if delays != [] && CanSend(c) {
      PushAdds(Enqueued(c, body, round, delays[0]), body, round, delays[1..]);
    }
  }

  /**
   * Exactly what a push that is not dropped appends: for each drawn delay, in order, one copy that
   * waits so many rounds, but at least one, until the channel is full or its budget is used up.
   */
  lemma {:induction false} PushIsExact<M>(c: Chan<M>, body: M, round: int, delays: seq<int>)
    ensures var d := PushCopies(c, body, round, delays);
            var k := |d.queue| - |c.queue|;
            && 0 <= k <= |delays| && d.queue[..|c.queue|] == c.queue
            && (forall i :: 0 <= i < k ==>
                  d.queue[|c.queue| + i] == Packet(body, round, if delays[i] < 1 then 1 else delays[i]))
            && (k < |delays| <==> Exhausted(c, |delays|))
            && (k < |delays| ==> d.throughputLeft == 0 || (d.size >= 0 && |d.queue| >= d.size))
            && d.throughputLeft == (if c.throughputLeft >= 0 then c.throughputLeft - k else c.throughputLeft)
    decreases |delays|
  {
    if delays != [] && CanSend(c) {
      var next := Enqueued(c, body, round, delays[0]);
      PushIsExact(next, body, round, delays[1..]);
      var d := PushCopies(c, body, round, delays);
      assert next.queue == d.queue[..|next.queue|];
    }
  }

  /** The channel has neither the room nor the budget for `n` more packets. */
  predicate Exhausted<M>(c: Chan<M>, n: nat) {
    n > 0 && (0 <= c.throughputLeft < n || (c.size >= 0 && c.size < |c.queue| + n))
  }

  /** Delivered when its whole delay has passed, which is at least one round. */
  predicate InTime<M>(d: Delivery<M>) {
    d.packet.delay >= 1 && d.packet.round + d.packet.delay <= d.round
  }

  /** The discipline of a channel that started with the budget `budget`. */
  ghost predicate Inv<M>(start: Chan<M>, h: History<M>) {
    && h.chan.size == start.size && h.chan.maxMsgsRec == start.maxMsgsRec
    && (start.size >= 0 ==> |h.chan.queue| <= start.size)
    && (start.throughputLeft >= 0 ==> h.chan.throughputLeft >= 0 && |h.accepted| + h.chan.throughputLeft == start.throughputLeft)
    && multiset(h.accepted) == multiset(Unstamped(h.delivered)) + multiset(h.chan.queue)
    && (forall i :: 0 <= i < |h.chan.queue| ==> h.chan.queue[i].delay >= 1)
    && (forall i :: 0 <= i < |h.delivered| ==> InTime(h.delivered[i]))
  }

  lemma SendKeeps<M>(start: Chan<M>, h: History<M>, step: Step<M>)
    requires Inv(start, h) && step.Send?
    ensures Inv(start, Apply(h, step))
  {
    var c := Push(h.chan, step.body, step.round, step.drop, step.delays);
    PushAdds(h.chan, step.body, step.round, step.delays);
    var n := |h.chan.queue|;
    assert c.queue == h.chan.queue + c.queue[n..];
  }

  lemma TakeKeeps<M>(start: Chan<M>, h: History<M>, step: Step<M>)
    requires Inv(start, h) && step.Take? && Enabled(h, step)
    ensures Inv(start, Apply(h, step))
  {
    var h', order := Apply(h, step), step.order;
    var k := ArrivedCount(order, step.round, h.chan.maxMsgsRec);
    UnstampedAppend(h.delivered, order[..k], step.round);
    BagMoves(h.accepted, Unstamped(h.delivered), h.chan.queue, order, k);
    SameBagSameSize(order, h.chan.queue);
    DelaysStay(order, h.chan.queue);
  }

  lemma DelaysStay<M>(a: seq<Packet<M>>, b: seq<Packet<M>>)
    requires multiset(a) == multiset(b) && forall i :: 0 <= i < |b| ==> b[i].delay >= 1
    ensures forall i :: 0 <= i < |a| ==> a[i].delay >= 1
  {
    forall i | 0 <= i < |a| ensures a[i].delay >= 1 {
      assert a[i] in multiset(b);
    }
  }

  lemma BagMoves<T>(all: seq<T>, gone: seq<T>, queue: seq<T>, order: seq<T>, k: nat)
    requires multiset(all) == multiset(gone) + multiset(queue) && multiset(order) == multiset(queue) && k <= |order|
    ensures multiset(all) == multiset(gone + order[..k]) + multiset(order[k..])
  {
    SplitAt(order, k);
  }

  lemma SplitAt<T>(s: seq<T>, k: nat)
    requires k <= |s|
    ensures s == s[..k] + s[k..] && multiset(s) == multiset(s[..k]) + multiset(s[k..])
  {
    assert s == s[..k] + s[k..];
  }

  lemma SameBagSameSize<T>(a: seq<T>, b: seq<T>)
    requires multiset(a) == multiset(b)
    ensures |a| == |b|
  {
    assert |multiset(a)| == |a| && |multiset(b)| == |b|;
  }

  /** In every run: bounded queue, bounded budget, nothing lost or made up, nothing received before its delay has passed. */
  lemma {:induction false} ChannelDiscipline<M>(start: Chan<M>, run: seq<History<M>>, steps: seq<Step<M>>, i: nat)
    requires IsRun(start, run, steps) && i < |run|
    ensures Inv(start, run[i])
    decreases i
  {
    if i > 0 {
      ChannelDiscipline(start, run, steps, i - 1);
      assert StepAt(run, steps, i - 1);
      if steps[i - 1].Send? {
        SendKeeps(start, run[i - 1], steps[i - 1]);
      } else {
        TakeKeeps(start, run[i - 1], steps[i - 1]);
      }
    }
  }

  /** From its set-up on a channel takes at most what its receiver can take off it in the rounds that are left. */
  lemma AcceptsAtItsRate<M>(size: int, rate: nat, last: int, current: int, run: seq<History<M>>, steps: seq<Step<M>>, i: nat)
    requires current <= last && IsRun(Created(size, rate, last, current), run, steps) && i < |run|
    ensures |run[i].accepted| <= rate * (last - current)
    ensures run[i].chan.throughputLeft == rate * (last - current) - |run[i].accepted|
  {
    ChannelDiscipline(Created(size, rate, last, current), run, steps, i);
    assert rate * (last - current) >= 0;
  }

  ghost predicate InOrder<M>(h: History<M>) {
    h.accepted == Unstamped(h.delivered) + h.chan.queue
  }

  lemma SendKeepsOrder<M>(h: History<M>, step: Step<M>)
    requires InOrder(h) && step.Send?
    ensures InOrder(Apply(h, step))
  {
    var q, q' := h.chan.queue, Apply(h, step).chan.queue;
    PushAdds(h.chan, step.body, step.round, step.delays);
    assert q' == q + q'[|q|..];
  }

  lemma TakeKeepsOrder<M>(h: History<M>, step: Step<M>)
    requires InOrder(h) && step.Take? && step.order == h.chan.queue
    ensures InOrder(Apply(h, step))
  {
    var k := ArrivedCount(step.order, step.round, h.chan.maxMsgsRec);
    SplitAt(step.order, k);
    UnstampedAppend(h.delivered, step.order[..k], step.round);
  }

  /** Without a reorder draw, what is delivered is exactly the front of what was accepted. */
  lemma {:induction false} FirstInFirstOut<M>(start: Chan<M>, run: seq<History<M>>, steps: seq<Step<M>>, i: nat)
    requires IsRun(start, run, steps) && i < |run|
    requires forall j :: 0 <= j < |steps| && steps[j].Take? ==> steps[j].order == run[j].chan.queue
    ensures InOrder(run[i])
    decreases i
  {
    if i > 0 {
      FirstInFirstOut(start, run, steps, i - 1);
      assert StepAt(run, steps, i - 1);
      if steps[i - 1].Send? {
        SendKeepsOrder(run[i - 1], steps[i - 1]);
      } else {
        TakeKeepsOrder(run[i - 1], steps[i - 1]);
      }
    }
  }
}
