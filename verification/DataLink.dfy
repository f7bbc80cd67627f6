/**
 * The stable data link: a stop-and-wait sender (peer 0) and a receiver (peer 1) joined by two
 * channels that drop, duplicate, delay and reorder.
 */
module DataLink {
  import opened Quorums
  import Channel

  const TIMEOUT_RATE: int := 4

  datatype Msg = Data(num: int) | Ack(num: int)

  datatype Peer = Peer(
    id: int,
    awaitingAck: bool,
    nextMessageNum: int,
    lastSent: int,
    lastDelivered: int,
    requestsSatisfied: int,
    messagesSent: nat,
    previousMessageRound: int)

  datatype Result = Result(peer: Peer, out: Option<Msg>)

  function Initial(id: int): Peer {
    Peer(id, false, 1, 0, 0, 0, 0, 0)
  }

  function Sent(p: Peer, m: Msg, round: int): Result {
    Result(p.(messagesSent := p.messagesSent + 1, previousMessageRound := round), Some(m))
  }

  function SubmitTrans(p: Peer, round: int): Result {
    if p.id != 0 then Result(p, None)
    else
      Sent(p.(lastSent := p.nextMessageNum, awaitingAck := true, nextMessageNum := p.nextMessageNum + 1),
           Data(p.nextMessageNum), round)
  }

  function HandleAck(p: Peer, num: int, round: int): Result {
    if p.id != 0 || !p.awaitingAck || num != p.lastSent then Result(p, None)
    else
      SubmitTrans(p.(previousMessageRound := round, awaitingAck := false, requestsSatisfied := p.requestsSatisfied + 1),
                  round)
  }

  function HandleData(p: Peer, num: int, round: int): Result {
    if num < 0 then Result(p, None)
    else Sent(p.(lastDelivered := if num > p.lastDelivered then num else p.lastDelivered), Ack(num), round)
  }

  function HandleMessage(p: Peer, m: Msg, round: int): Result {
    if m.Ack? then HandleAck(p, m.num, round) else HandleData(p, m.num, round)
  }

  function FirstSubmission(p: Peer, round: int): Result {
    if p.id == 0 && !p.awaitingAck && p.nextMessageNum == 1 then SubmitTrans(p, round) else Result(p, None)
  }

  function Resend(p: Peer, round: int): Result {
    if p.id == 0 && p.awaitingAck && p.previousMessageRound + TIMEOUT_RATE < round && p.lastSent > 0
    then Sent(p, Data(p.lastSent), round)
    else Result(p, None)
  }

  // ---------------------------------------------------------------- the object

  class StableDataLinkPeer {
    const id: int
    var awaitingAck: bool
    var nextMessageNum: int
    var lastSent: int
    var lastDelivered: int
    var requestsSatisfied: int
    var messagesSent: nat
    var previousMessageRound: int

    function Snapshot(): Peer
      reads this
    {
      Peer(id, awaitingAck, nextMessageNum, lastSent, lastDelivered, requestsSatisfied, messagesSent, previousMessageRound)
    }

    constructor (publicId: int)
      ensures Snapshot() == Initial(publicId)
    {
      id, awaitingAck, nextMessageNum, lastSent, lastDelivered := publicId, false, 1, 0, 0;
      requestsSatisfied, messagesSent, previousMessageRound := 0, 0, 0;
    }

    method SendMessage(m: Msg, round: int) returns (out: Option<Msg>)
      modifies this
      ensures Result(Snapshot(), out) == Sent(old(Snapshot()), m, round)
    {
      messagesSent := messagesSent + 1;
      previousMessageRound := round;
      out := Some(m);
    }

    method SubmitTransaction(round: int) returns (out: Option<Msg>)
      modifies this
      ensures Result(Snapshot(), out) == SubmitTrans(old(Snapshot()), round)
    {
      if id != 0 {
        return None;
      }
      lastSent := nextMessageNum;
      awaitingAck := true;
      out := SendMessage(Data(nextMessageNum), round);
      nextMessageNum := nextMessageNum + 1;
    }

    method OnAck(num: int, round: int) returns (out: Option<Msg>)
      modifies this
      ensures Result(Snapshot(), out) == HandleAck(old(Snapshot()), num, round)
    {
      if id != 0 || !awaitingAck || num != lastSent {
        return None;
      }
      previousMessageRound := round;
      awaitingAck := false;
      requestsSatisfied := requestsSatisfied + 1;
      out := SubmitTransaction(round);
    }

    method OnData(num: int, round: int) returns (out: Option<Msg>)
      modifies this
      ensures Result(Snapshot(), out) == HandleData(old(Snapshot()), num, round)
    {
      if num < 0 {
        return None;
      }
      previousMessageRound := round;
      if num > lastDelivered {
        lastDelivered := num;
      }
      out := SendMessage(Ack(num), round);
    }

    method OnMessage(m: Msg, round: int) returns (out: Option<Msg>)
      modifies this
      ensures Result(Snapshot(), out) == HandleMessage(old(Snapshot()), m, round)
    {
      if m.Ack? {
        out := OnAck(m.num, round);
      } else {
        out := OnData(m.num, round);
      }
    }

    method DrainInStream(inStream: seq<Msg>, round: int) returns (out: seq<Msg>)
      modifies this
      ensures (Snapshot(), out) == HandleFirst(old(Snapshot()), inStream, |inStream|, round)
    {
      out := [];
      for i := 0 to |inStream|
        invariant (Snapshot(), out) == HandleFirst(old(Snapshot()), inStream, i, round)
      {
        var sent := OnMessage(inStream[i], round);
        out := out + AsSeq(sent);
      }
    }

    /** One round: a first submission, then everything received, then a resend when it is due. */
    method PerformComputation(inStream: seq<Msg>, round: int) returns (out: seq<Msg>)
      modifies this
      ensures (Snapshot(), out) == Round(old(Snapshot()), inStream, round)
    {
      var first: Option<Msg>, last: Option<Msg> := None, None;
      if id == 0 && !awaitingAck && nextMessageNum == 1 {
        first := SubmitTransaction(round);
      }
      var handled := DrainInStream(inStream, round);
      if id == 0 && awaitingAck && previousMessageRound + TIMEOUT_RATE < round && lastSent > 0 {
        last := SendMessage(Data(lastSent), round);
      }
      out := AsSeq(first) + handled + AsSeq(last);
    }
  }

  function AsSeq(o: Option<Msg>): seq<Msg> {
    if o.Some? then [o.value] else []
  }

  /** Handles the first `n` messages of an input stream, in order. */
  function HandleFirst(p: Peer, ms: seq<Msg>, n: nat, round: int): (Peer, seq<Msg>)
    requires n <= |ms|
  {
    if n == 0 then (p, [])
    else
      var before := HandleFirst(p, ms, n - 1, round);
      var r := HandleMessage(before.0, ms[n - 1], round);
      (r.peer, before.1 + AsSeq(r.out))
  }

  /** A peer and what it sends in one round. */
  function Round(p: Peer, inStream: seq<Msg>, round: int): (Peer, seq<Msg>) {
    var first := FirstSubmission(p, round);
    var handled := HandleFirst(first.peer, inStream, |inStream|, round);
    var last := Resend(handled.0, round);
    (last.peer, AsSeq(first.out) + handled.1 + AsSeq(last.out))
  }

  // ---------------------------------------------------------------- runs

  /** `there` carries from the sender to the receiver, `back` the other way. */
  datatype System = System(
    sender: Peer,
    receiver: Peer,
    there: Channel.Chan<Msg>,
    back: Channel.Chan<Msg>,
    inSender: seq<Msg>,
    inReceiver: seq<Msg>)

  datatype Draw = Draw(drop: bool, delays: seq<int>)

  datatype Step =
    | Begin(round: int, draw: Draw)
    | SenderTakes(round: int, order: seq<Channel.Packet<Msg>>)
    | ReceiverTakes(round: int, order: seq<Channel.Packet<Msg>>)
    | SenderHandles(round: int, draw: Draw)
    | ReceiverHandles(round: int, draw: Draw)
    | TimeOut(round: int, draw: Draw)

  function PushAny(c: Channel.Chan<Msg>, out: Option<Msg>, round: int, draw: Draw): Channel.Chan<Msg> {
    if out.None? then c else Channel.Push(c, out.value, round, draw.drop, draw.delays)
  }

  function FromSender(s: System, r: Result, round: int, draw: Draw): System {
    s.(sender := r.peer, there := PushAny(s.there, r.out, round, draw))
  }

  function FromReceiver(s: System, r: Result, round: int, draw: Draw): System {
    s.(receiver := r.peer, back := PushAny(s.back, r.out, round, draw))
  }

  function Bodies(ps: seq<Channel.Packet<Msg>>): seq<Msg> {
    seq(|ps|, i requires 0 <= i < |ps| => ps[i].body)
  }

  predicate Enabled(s: System, step: Step) {
    match step
    case SenderTakes(_, order) => multiset(order) == multiset(s.back.queue)
    case ReceiverTakes(_, order) => multiset(order) == multiset(s.there.queue)
    case SenderHandles(_, _) => s.inSender != []
    case ReceiverHandles(_, _) => s.inReceiver != []
    case _ => true
  }

  function Apply(s: System, step: Step): System
    requires Enabled(s, step)
  {
    match step
    case Begin(round, draw) => FromSender(s, FirstSubmission(s.sender, round), round, draw)
    case TimeOut(round, draw) => FromSender(s, Resend(s.sender, round), round, draw)
    case SenderTakes(round, order) =>
      var k := Channel.ArrivedCount(order, round, s.back.maxMsgsRec);
      s.(back := s.back.(queue := order[k..]), inSender := s.inSender + Bodies(order[..k]))
    case ReceiverTakes(round, order) =>
      var k := Channel.ArrivedCount(order, round, s.there.maxMsgsRec);
      s.(there := s.there.(queue := order[k..]), inReceiver := s.inReceiver + Bodies(order[..k]))
    case SenderHandles(round, draw) =>
      FromSender(s.(inSender := s.inSender[1..]), HandleMessage(s.sender, s.inSender[0], round), round, draw)
    case ReceiverHandles(round, draw) =>
      FromReceiver(s.(inReceiver := s.inReceiver[1..]), HandleMessage(s.receiver, s.inReceiver[0], round), round, draw)
  }

  predicate IsStart(s: System) {
    && s.sender == Initial(0) && s.receiver == Initial(1)
    && s.there.queue == [] && s.back.queue == [] && s.inSender == [] && s.inReceiver == []
  }

  ghost predicate StepAt(run: seq<System>, steps: seq<Step>, i: nat)
    requires i < |steps| && |run| == |steps| + 1
  {
    Enabled(run[i], steps[i]) && run[i + 1] == Apply(run[i], steps[i])
  }

  ghost predicate IsRun(run: seq<System>, steps: seq<Step>) {
    |run| == |steps| + 1 && IsStart(run[0]) && forall i :: 0 <= i < |steps| ==> StepAt(run, steps, i)
  }

  // ---------------------------------------------------------------- safety

  /** A message that may be under way to the receiver. */
  predicate DataOk(s: System, m: Msg) {
    m.Data? && 1 <= m.num <= s.sender.lastSent
  }

  /** A message that may be under way to the sender: no ack for anything undelivered. */
  predicate AckOk(s: System, m: Msg) {
    m.Ack? && 1 <= m.num <= s.receiver.lastDelivered
  }

  predicate InTransitOk(s: System) {
    && (forall p :: p in s.there.queue ==> DataOk(s, p.body))
    && (forall m :: m in s.inReceiver ==> DataOk(s, m))
    && (forall p :: p in s.back.queue ==> AckOk(s, p.body))
    && (forall m :: m in s.inSender ==> AckOk(s, m))
  }

  /** The numbers of the two peers, one step apart at most. */
  predicate NumbersOk(s: System) {
    && s.sender.id == 0 && s.receiver.id != 0
    && s.sender.nextMessageNum == s.sender.lastSent + 1 && s.sender.lastSent >= 0
    && s.sender.awaitingAck == (s.sender.lastSent > 0)
    && s.sender.requestsSatisfied == (if s.sender.lastSent > 0 then s.sender.lastSent - 1 else 0)
    && s.sender.requestsSatisfied <= s.receiver.lastDelivered <= s.sender.lastSent
  }

  predicate Inv(s: System) {
    NumbersOk(s) && InTransitOk(s)
  }

  /** Whatever the channel does with a message, only copies of it are added. */
  lemma PushAnyOk(c: Channel.Chan<Msg>, out: Option<Msg>, round: int, draw: Draw, p: Channel.Packet<Msg>)
    requires p in PushAny(c, out, round, draw).queue
    ensures p in c.queue || out == Some(p.body)
  {
    if out.Some? {
      Channel.PushAdds(c, out.value, round, draw.delays);
      var q, n := PushAny(c, out, round, draw).queue, |c.queue|;
      var i :| 0 <= i < |q| && q[i] == p;
      if i < n {
        assert q[..n][i] == p;
      }
    }
  }

  lemma SenderSends(s: System, r: Result, round: int, draw: Draw)
    requires Inv(s) && NumbersOk(s.(sender := r.peer)) && s.sender.lastSent <= r.peer.lastSent
    requires r.out.Some? ==> r.out.value.Data? && 1 <= r.out.value.num <= r.peer.lastSent
    ensures Inv(FromSender(s, r, round, draw))
  {
    var t := FromSender(s, r, round, draw);
    forall p | p in t.there.queue ensures DataOk(t, p.body) {
      PushAnyOk(s.there, r.out, round, draw, p);
    }
  }

  lemma ReceiverSends(s: System, r: Result, round: int, draw: Draw)
    requires Inv(s) && NumbersOk(s.(receiver := r.peer)) && s.receiver.lastDelivered <= r.peer.lastDelivered
    requires r.out.Some? ==> r.out.value.Ack? && 1 <= r.out.value.num <= r.peer.lastDelivered
    ensures Inv(FromReceiver(s, r, round, draw))
  {
    var t := FromReceiver(s, r, round, draw);
    forall p | p in t.back.queue ensures AckOk(t, p.body) {
      PushAnyOk(s.back, r.out, round, draw, p);
    }
  }

  /** What is taken off a channel, and what stays, was on it before. */
  lemma TakenWasThere(order: seq<Channel.Packet<Msg>>, queue: seq<Channel.Packet<Msg>>, k: nat)
    requires multiset(order) == multiset(queue) && k <= |order|
    ensures forall p :: p in order[k..] ==> p in queue
    ensures forall m :: m in Bodies(order[..k]) ==> exists p :: p in queue && p.body == m
  {
    forall p | p in order ensures p in queue {
      assert p in multiset(order);
    }
    forall m | m in Bodies(order[..k]) ensures exists p :: p in queue && p.body == m {
      var i :| 0 <= i < k && Bodies(order[..k])[i] == m;
      assert order[i] in queue;
    }
  }

  lemma InvKept(s: System, step: Step)
    requires Inv(s) && Enabled(s, step)
    ensures Inv(Apply(s, step))
  {
    match step
    case Begin(round, draw) => SenderSends(s, FirstSubmission(s.sender, round), round, draw);
    case TimeOut(round, draw) => SenderSends(s, Resend(s.sender, round), round, draw);
    case SenderTakes(round, order) => SenderTakesOk(s, step);
    case ReceiverTakes(round, order) => ReceiverTakesOk(s, step);
    case SenderHandles(round, draw) => SenderHandlesOk(s, round, draw);
    case ReceiverHandles(round, draw) => ReceiverHandlesOk(s, round, draw);
  }

  lemma PopKeeps(s: System)
    requires Inv(s)
    ensures s.inSender != [] ==> Inv(s.(inSender := s.inSender[1..]))
    ensures s.inReceiver != [] ==> Inv(s.(inReceiver := s.inReceiver[1..]))
  {
    assert s.inSender != [] ==> forall m :: m in s.inSender[1..] ==> m in s.inSender;
    assert s.inReceiver != [] ==> forall m :: m in s.inReceiver[1..] ==> m in s.inReceiver;
  }

  lemma SenderHandlesOk(s: System, round: int, draw: Draw)
    requires Inv(s) && s.inSender != []
    ensures Inv(Apply(s, SenderHandles(round, draw)))
  {
    var m := s.inSender[0];
    assert AckOk(s, m);
    PopKeeps(s);
    SenderSends(s.(inSender := s.inSender[1..]), HandleMessage(s.sender, m, round), round, draw);
  }

  lemma ReceiverHandlesOk(s: System, round: int, draw: Draw)
    requires Inv(s) && s.inReceiver != []
    ensures Inv(Apply(s, ReceiverHandles(round, draw)))
  {
    var m := s.inReceiver[0];
    assert DataOk(s, m);
    PopKeeps(s);
    ReceiverSends(s.(inReceiver := s.inReceiver[1..]), HandleMessage(s.receiver, m, round), round, draw);
  }

  lemma SenderTakesOk(s: System, step: Step)
    requires Inv(s) && Enabled(s, step) && step.SenderTakes?
    ensures Inv(Apply(s, step))
  {
    TakenWasThere(step.order, s.back.queue, Channel.ArrivedCount(step.order, step.round, s.back.maxMsgsRec));
  }

  lemma ReceiverTakesOk(s: System, step: Step)
    requires Inv(s) && Enabled(s, step) && step.ReceiverTakes?
    ensures Inv(Apply(s, step))
  {
    TakenWasThere(step.order, s.there.queue, Channel.ArrivedCount(step.order, step.round, s.there.maxMsgsRec));
  }

  lemma {:induction false} RunInv(run: seq<System>, steps: seq<Step>, i: nat)
    requires IsRun(run, steps) && i < |run|
    ensures Inv(run[i])
    decreases i
  {
    if i > 0 {
      RunInv(run, steps, i - 1);
      assert StepAt(run, steps, i - 1);
      InvKept(run[i - 1], steps[i - 1]);
    }
  }

  /** In every reachable state the sender counts what was delivered, and is at most one behind. */
  lemma SatisfiedIsDelivered(run: seq<System>, steps: seq<Step>, i: nat)
    requires IsRun(run, steps) && i < |run|
    ensures run[i].sender.requestsSatisfied <= run[i].receiver.lastDelivered <= run[i].sender.requestsSatisfied + 1
    ensures InTransitOk(run[i])
  {
    RunInv(run, steps, i);
  }

  /** Deliveries come one at a time and in order: each step delivers nothing or exactly the next message. */
  lemma DeliveredInOrder(run: seq<System>, steps: seq<Step>, i: nat)
    requires IsRun(run, steps) && i < |steps|
    ensures var before, after := run[i].receiver.lastDelivered, run[i + 1].receiver.lastDelivered;
            after == before || after == before + 1
  {
    RunInv(run, steps, i);
    RunInv(run, steps, i + 1);
    assert StepAt(run, steps, i);
    if steps[i].ReceiverHandles? {
      assert DataOk(run[i], run[i].inReceiver[0]);
    }
  }

  // ---------------------------------------------------------------- what the handlers answer

  /** Handling message number `k` delivers it if it is new, and sends exactly the ack for `k`. */
  lemma AnswersExactly(p: Peer, k: int, round: int)
    ensures HandleMessage(p, Data(k), round)
         == if k < 0 then Result(p, None)
            else Result(p.(lastDelivered := if p.lastDelivered < k then k else p.lastDelivered,
                           messagesSent := p.messagesSent + 1, previousMessageRound := round), Some(Ack(k)))
  {
  }

  /** An ack counts exactly for the message the sender waits for; then the next number is sent. */
  lemma CountsExactly(p: Peer, k: int, round: int)
    ensures var r := HandleMessage(p, Ack(k), round);
      if p.id == 0 && p.awaitingAck && k == p.lastSent then
        && r.out == Some(Data(p.nextMessageNum))
        && r.peer == p.(requestsSatisfied := p.requestsSatisfied + 1, lastSent := p.nextMessageNum,
                        nextMessageNum := p.nextMessageNum + 1, messagesSent := p.messagesSent + 1,
                        previousMessageRound := round)
      else r == Result(p, None)
  {
  }

  /** A sender resends exactly what it waits for, exactly when nothing has happened for more than four rounds. */
  lemma ResendsExactly(p: Peer, round: int)
    ensures Resend(p, round)
         == if p.id == 0 && p.awaitingAck && p.lastSent > 0 && round - p.previousMessageRound > 4
            then Result(p.(messagesSent := p.messagesSent + 1, previousMessageRound := round), Some(Data(p.lastSent)))
            else Result(p, None)
  {
  }

  /** The receiver's answer to the outstanding message satisfies the request and brings out the next one. */
  lemma RoundTrip(sender: Peer, receiver: Peer, there: int, back: int)
    requires sender.id == 0 && sender.awaitingAck && sender.lastSent >= 0
    ensures var answer := HandleMessage(receiver, Data(sender.lastSent), there).out;
      && answer.Some?
      && var r := HandleMessage(sender, answer.value, back);
         && r.peer.requestsSatisfied == sender.requestsSatisfied + 1
         && r.out == Some(Data(sender.nextMessageNum)) && r.peer.lastSent == sender.nextMessageNum && r.peer.awaitingAck
  {
    AnswersExactly(receiver, sender.lastSent, there);
    CountsExactly(sender, sender.lastSent, back);
  }

  // ---------------------------------------------------------------- the link is never stuck

  /** Steps in rounds that never go back, all of them between `from` and `to`. */
  ghost predicate IsChain(run: seq<System>, steps: seq<Step>, from: int, to: int) {
    && |run| == |steps| + 1 && from <= to
    && (forall i :: 0 <= i < |steps| ==> StepAt(run, steps, i))
    && (forall i :: 0 <= i < |steps| ==> from <= steps[i].round <= to)
    && (forall i, j :: 0 <= i < j < |steps| ==> steps[i].round <= steps[j].round)
  }

  /** Some sequence of steps, in these rounds, takes the link from `s` to `t`. */
  ghost predicate Leads(s: System, t: System, from: int, to: int) {
    exists run, steps :: IsChain(run, steps, from, to) && run[0] == s && run[|steps|] == t
  }

  lemma LeadsToItself(s: System, from: int)
    ensures Leads(s, s, from, from)
  {
    assert IsChain([s], [], from, from);
  }

  lemma LeadsOn(s: System, t: System, from: int, to: int, step: Step)
    requires Leads(s, t, from, to) && Enabled(t, step) && to <= step.round
    ensures Leads(s, Apply(t, step), from, step.round)
  {
    var run, steps :| IsChain(run, steps, from, to) && run[0] == s && run[|steps|] == t;
    var run', steps' := run + [Apply(t, step)], steps + [step];
    forall i | 0 <= i < |steps'| ensures StepAt(run', steps', i) {
      if i < |steps| {
        assert StepAt(run, steps, i);
      }
    }
    assert IsChain(run', steps', from, step.round) && run'[|steps'|] == Apply(t, step);
  }

  // ---------------------------------------------------------------- a round is a stretch of a run

  /** All of `out` sent in one round, one after the other. */
  function PushEach(c: Channel.Chan<Msg>, out: seq<Msg>, round: int, draw: Draw): Channel.Chan<Msg> {
    if out == [] then c
    else PushAny(PushEach(c, out[..|out| - 1], round, draw), Some(out[|out| - 1]), round, draw)
  }

  lemma PushOneMore(c: Channel.Chan<Msg>, out: seq<Msg>, o: Option<Msg>, round: int, draw: Draw)
    ensures PushEach(c, out + AsSeq(o), round, draw) == PushAny(PushEach(c, out, round, draw), o, round, draw)
  {
    if o.Some? {
      assert (out + [o.value])[..|out|] == out;
    } else {
      assert out + [] == out;
    }
  }

  lemma {:induction false} SenderDrains(s0: System, s: System, from: int, now: int, n: nat, draw: Draw) returns (t: System)
    requires Leads(s0, s, from, now) && n <= |s.inSender|
    ensures var h := HandleFirst(s.sender, s.inSender, n, now);
      && Leads(s0, t, from, now)
      && t == s.(sender := h.0, there := PushEach(s.there, h.1, now, draw), inSender := s.inSender[n..])
    decreases n
  {
    t := s;
    if n > 0 {
      t := SenderDrains(s0, s, from, now, n - 1, draw);
      LeadsOn(s0, t, from, now, SenderHandles(now, draw));
      var h := HandleFirst(s.sender, s.inSender, n - 1, now);
      var r := HandleMessage(h.0, s.inSender[n - 1], now);
      PushOneMore(s.there, h.1, r.out, now, draw);
      t := Apply(t, SenderHandles(now, draw));
    }
  }

  lemma {:induction false} ReceiverDrains(s0: System, s: System, from: int, now: int, n: nat, draw: Draw) returns (t: System)
    requires Leads(s0, s, from, now) && n <= |s.inReceiver|
    ensures var h := HandleFirst(s.receiver, s.inReceiver, n, now);
      && Leads(s0, t, from, now)
      && t == s.(receiver := h.0, back := PushEach(s.back, h.1, now, draw), inReceiver := s.inReceiver[n..])
    decreases n
  {
    t := s;
    if n > 0 {
      t := ReceiverDrains(s0, s, from, now, n - 1, draw);
      LeadsOn(s0, t, from, now, ReceiverHandles(now, draw));
      var h := HandleFirst(s.receiver, s.inReceiver, n - 1, now);
      var r := HandleMessage(h.0, s.inReceiver[n - 1], now);
      PushOneMore(s.back, h.1, r.out, now, draw);
      t := Apply(t, ReceiverHandles(now, draw));
    }
  }

  /** What the sender's object does in one round, the steps of a run do, and the channel takes what it sends. */
  lemma SenderRoundIsRun(s: System, now: int, draw: Draw) returns (t: System)
    ensures var h := Round(s.sender, s.inSender, now);
      && Leads(s, t, now, now)
      && t == s.(sender := h.0, there := PushEach(s.there, h.1, now, draw), inSender := [])
  {
    LeadsToItself(s, now);
    LeadsOn(s, s, now, now, Begin(now, draw));
    var first := FirstSubmission(s.sender, now);
    var u := Apply(s, Begin(now, draw));
    t := SenderDrains(s, u, now, now, |s.inSender|, draw);
    var handled := HandleFirst(first.peer, s.inSender, |s.inSender|, now);
    LeadsOn(s, t, now, now, TimeOut(now, draw));
    t := Apply(t, TimeOut(now, draw));
    PushOneMore(s.there, [], first.out, now, draw);
    PushAfter(s.there, AsSeq(first.out), handled.1, now, draw);
    PushOneMore(s.there, AsSeq(first.out) + handled.1, Resend(handled.0, now).out, now, draw);
    assert [] + AsSeq(first.out) == AsSeq(first.out);
  }

  /** The receiver has nothing to send of its own: its round is the answers to what it received. */
  lemma ReceiverRoundIsRun(s: System, now: int, draw: Draw) returns (t: System)
    requires s.receiver.id != 0
    ensures var h := Round(s.receiver, s.inReceiver, now);
      && Leads(s, t, now, now)
      && t == s.(receiver := h.0, back := PushEach(s.back, h.1, now, draw), inReceiver := [])
  {
    LeadsToItself(s, now);
    t := ReceiverDrains(s, s, now, now, |s.inReceiver|, draw);
    var handled := HandleFirst(s.receiver, s.inReceiver, |s.inReceiver|, now);
    HandlingKeepsId(s.receiver, s.inReceiver, |s.inReceiver|, now);
    assert [] + handled.1 + [] == handled.1;
  }

  lemma {:induction false} HandlingKeepsId(p: Peer, ms: seq<Msg>, n: nat, round: int)
    requires n <= |ms|
    ensures HandleFirst(p, ms, n, round).0.id == p.id
  {
    if n > 0 {
      HandlingKeepsId(p, ms, n - 1, round);
    }
  }

  lemma {:induction false} PushAfter(c: Channel.Chan<Msg>, a: seq<Msg>, b: seq<Msg>, round: int, draw: Draw)
    ensures PushEach(PushEach(c, a, round, draw), b, round, draw) == PushEach(c, a + b, round, draw)
    decreases |b|
  {
    if b == [] {
      assert a + b == a;
    } else {
      PushAfter(c, a, b[..|b| - 1], round, draw);
      assert (a + b)[..|a + b| - 1] == a + b[..|b| - 1];
    }
  }

  // ---------------------------------------------------------------- there is always a way on

  /** A channel that takes one more packet, and whose receiver takes packets off it. */
  predicate Open(c: Channel.Chan<Msg>) {
    Channel.CanSend(c) && c.maxMsgsRec >= 1
  }

  const KEEP: Draw := Draw(false, [1])
  const LOSE: Draw := Draw(true, [])

  predicate OnTheWay(c: Channel.Chan<Msg>, m: Msg) {
    exists i :: 0 <= i < |c.queue| && c.queue[i].body == m
  }

  lemma KeptIsOnTheWay(c: Channel.Chan<Msg>, m: Msg, round: int)
    requires Open(c)
    ensures OnTheWay(PushAny(c, Some(m), round, KEEP), m)
  {
    Channel.PushIsExact(c, m, round, KEEP.delays);
    var d := PushAny(c, Some(m), round, KEEP);
    assert d.queue[|c.queue|].body == m;
  }

  /** A packet on its way can be taken first, in some later round. */
  lemma CanTake(c: Channel.Chan<Msg>, m: Msg, from: int) returns (round: int, order: seq<Channel.Packet<Msg>>)
    requires OnTheWay(c, m) && c.maxMsgsRec >= 1
    ensures round >= from && multiset(order) == multiset(c.queue)
    ensures var k := Channel.ArrivedCount(order, round, c.maxMsgsRec); k >= 1 && Bodies(order[..k])[0] == m
  {
    var i :| 0 <= i < |c.queue| && c.queue[i].body == m;
    var p := c.queue[i];
    order := [p] + c.queue[..i] + c.queue[i + 1..];
    assert c.queue == c.queue[..i] + [p] + c.queue[i + 1..];
    round := if p.round + p.delay < from then from else p.round + p.delay;
  }

  /** The sender waits for number `n`, having satisfied `base` requests, or it has already satisfied more. */
  predicate WaitsOr(p: Peer, n: int, base: int) {
    p.id == 0 && (p.requestsSatisfied > base || (p.requestsSatisfied == base && p.awaitingAck && p.lastSent == n))
  }

  /** Whatever is in the sender's input, it satisfies the request on the way to the ack at place `j`. */
  lemma {:induction false} SenderGetsThere(s0: System, s: System, from: int, now: int, n: int, base: int, j: nat)
    returns (t: System)
    requires Leads(s0, s, from, now) && WaitsOr(s.sender, n, base) && j < |s.inSender| && s.inSender[j] == Ack(n)
    ensures Leads(s0, t, from, now) && t.sender.requestsSatisfied > base
    decreases j
  {
    var step := SenderHandles(now, LOSE);
    LeadsOn(s0, s, from, now, step);
    t := Apply(s, step);
    var m := s.inSender[0];
    if m.Ack? {
      CountsExactly(s.sender, m.num, now);
    } else {
      AnswersExactly(s.sender, m.num, now);
    }
    if j > 0 {
      t := SenderGetsThere(s0, t, from, now, n, base, j - 1);
    }
  }

  /** The receiver works off its input up to the message at place `j`, and its ack gets on the way. */
  lemma {:induction false} ReceiverGetsThere(s0: System, s: System, from: int, now: int, n: int, j: nat) returns (t: System)
    requires Leads(s0, s, from, now)
    requires s.receiver.id != 0 && n >= 0 && Open(s.back) && j < |s.inReceiver| && s.inReceiver[j] == Data(n)
    ensures Leads(s0, t, from, now) && t.sender == s.sender && t.inSender == s.inSender
    ensures OnTheWay(t.back, Ack(n)) && t.back.maxMsgsRec >= 1
    decreases j
  {
    var step := ReceiverHandles(now, if j == 0 then KEEP else LOSE);
    LeadsOn(s0, s, from, now, step);
    t := Apply(s, step);
    var m := s.inReceiver[0];
    if m.Ack? {
      CountsExactly(s.receiver, m.num, now);
    } else {
      AnswersExactly(s.receiver, m.num, now);
    }
    if j > 0 {
      t := ReceiverGetsThere(s0, t, from, now, n, j - 1);
    } else {
      KeptIsOnTheWay(s.back, Ack(n), now);
      Channel.PushAdds(s.back, Ack(n), now, KEEP.delays);
    }
  }

  /** The outstanding message, sent for the first time or once more, gets on the way. */
  lemma SenderSpeaks(s: System, from: int) returns (t: System, now: int)
    requires Inv(s) && Open(s.there)
    ensures Leads(s, t, from, now) && t.sender.awaitingAck && t.sender.lastSent > 0 && t.sender.id == 0
    ensures t.sender.requestsSatisfied == s.sender.requestsSatisfied
    ensures OnTheWay(t.there, Data(t.sender.lastSent)) && t.there.maxMsgsRec >= 1
    ensures t.back == s.back && t.receiver == s.receiver && t.inSender == s.inSender
  {
    LeadsToItself(s, from);
    var due := s.sender.previousMessageRound + 5;
    now := if due < from then from else due;
    var step := if s.sender.awaitingAck then TimeOut(now, KEEP) else Begin(now, KEEP);
    ResendsExactly(s.sender, now);
    LeadsOn(s, s, from, from, step);
    t := Apply(s, step);
    var n := t.sender.lastSent;
    KeptIsOnTheWay(s.there, Data(n), now);
    Channel.PushAdds(s.there, Data(n), now, KEEP.delays);
  }

  /**
   * From every reachable state, whatever has been lost, duplicated or reordered before, some
   * continuation in the rounds from `from` on satisfies one more request, as long as both channels
   * take one more packet.
   */
  lemma NeverStuck(run: seq<System>, steps: seq<Step>, i: nat, from: int) returns (t: System, to: int)
    requires IsRun(run, steps) && i < |run| && Open(run[i].there) && Open(run[i].back)
    ensures Leads(run[i], t, from, to) && t.sender.requestsSatisfied > run[i].sender.requestsSatisfied
  {
    RunInv(run, steps, i);
    var s := run[i];
    t, to := SenderSpeaks(s, from);
    var n, base := t.sender.lastSent, t.sender.requestsSatisfied;
    var u, now, j := MessageArrives(s, t, from, to, n);
    u := ReceiverGetsThere(s, u, from, now, n, j);
    t, to, j := AckArrives(s, u, from, now, n);
    t := SenderGetsThere(s, t, from, to, n, base, j);
  }

  lemma MessageArrives(s0: System, s: System, from: int, to: int, n: int) returns (t: System, now: int, j: nat)
    requires Leads(s0, s, from, to) && OnTheWay(s.there, Data(n)) && s.there.maxMsgsRec >= 1
    ensures Leads(s0, t, from, now) && t == s.(there := t.there, inReceiver := t.inReceiver)
    ensures j < |t.inReceiver| && t.inReceiver[j] == Data(n)
  {
    var order;
    now, order := CanTake(s.there, Data(n), to);
    LeadsOn(s0, s, from, to, ReceiverTakes(now, order));
    t, j := Apply(s, ReceiverTakes(now, order)), |s.inReceiver|;
  }

  lemma AckArrives(s0: System, s: System, from: int, to: int, n: int) returns (t: System, now: int, j: nat)
    requires Leads(s0, s, from, to) && OnTheWay(s.back, Ack(n)) && s.back.maxMsgsRec >= 1
    ensures Leads(s0, t, from, now) && t == s.(back := t.back, inSender := t.inSender)
    ensures j < |t.inSender| && t.inSender[j] == Ack(n)
  {
    var order;
    now, order := CanTake(s.back, Ack(n), to);
    LeadsOn(s0, s, from, to, SenderTakes(now, order));
    t, j := Apply(s, SenderTakes(now, order)), |s.inSender|;
  }
}
