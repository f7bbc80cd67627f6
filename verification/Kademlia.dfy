/**
 * Kademlia routing: binary identifiers, one finger per bit group, and greedy forwarding by XOR
 * distance. Random choices among equal candidates are left open.
 */
module Kademlia {
  import opened Quorums
  import opened Bits

  // ---------------------------------------------------------------- binary identifiers

  /** The lowest `bits` bits of an identifier, most significant first. */
  function BinaryId(id: nat, bits: nat): string {
    seq(bits, i requires 0 <= i < bits => if Bit(id, bits - 1 - i) then '1' else '0')
  }

  predicate AgreeUpTo(a: string, b: string, k: nat) {
    k <= |a| && k <= |b| && forall i :: 0 <= i < k ==> a[i] == b[i]
  }

  /** The first index from `i` on at which two strings differ, or -1. */
  function FirstDifferent(a: string, b: string, i: nat): (g: int)
    ensures g == -1 || i <= g
    ensures g >= 0 ==> g < |a| && g < |b| && a[g] != b[g]
    ensures AgreeUpTo(a, b, i) ==> AgreeUpTo(a, b, if g >= 0 then g else if |a| <= |b| then |a| else |b|)
    decreases |a| - i
  {
    if i >= |a| || i >= |b| then -1
    else if a[i] != b[i] then i
    else FirstDifferent(a, b, i + 1)
  }

  /** The group of one peer as seen from another. */
  function Group(bits: nat, a: nat, b: nat): int {
    FirstDifferent(BinaryId(a, bits), BinaryId(b, bits), 0)
  }

  lemma {:induction false} SamePrefix(a: nat, b: nat, bits: nat, k: nat)
    requires a < Pow2(bits) && b < Pow2(bits) && k <= bits
    ensures AgreeUpTo(BinaryId(a, bits), BinaryId(b, bits), k) <==> Shift(a, bits - k) == Shift(b, bits - k)
    decreases k
  {
    if k == 0 {
      ShiftedAway(a, bits);
      ShiftedAway(b, bits);
    } else {
      SamePrefix(a, b, bits, k - 1);
      ShiftOneMore(a, bits - k);
      ShiftOneMore(b, bits - k);
      var x, y := BinaryId(a, bits), BinaryId(b, bits);
      assert x[k - 1] == y[k - 1] <==> Bit(a, bits - k) == Bit(b, bits - k);
    }
  }

  /** The group says how far apart two peers are, to within a factor of two. */
  lemma GroupIsDistance(bits: nat, a: nat, b: nat)
    requires a < Pow2(bits) && b < Pow2(bits)
    ensures var g := Group(bits, a, b);
            if g < 0 then a == b
            else g < bits && Pow2(bits - 1 - g) <= Xor(a, b) < Pow2(bits - g)
  {
    var g := Group(bits, a, b);
    if g < 0 {
      SamePrefix(a, b, bits, bits);
    } else {
      SamePrefix(a, b, bits, g);
      SamePrefix(a, b, bits, g + 1);
      CloseMeansSamePrefix(a, b, bits - g);
      CloseMeansSamePrefix(a, b, bits - 1 - g);
    }
  }

  /** Peers of one group, seen from a third peer, share one more leading bit with each other. */
  lemma SameGroupIsClose(bits: nat, me: nat, a: nat, b: nat)
    requires me < Pow2(bits) && a < Pow2(bits) && b < Pow2(bits)
    requires Group(bits, a, me) == Group(bits, b, me) >= 0
    ensures Xor(a, b) < Pow2(bits - 1 - Group(bits, a, me))
  {
    var g := Group(bits, a, me);
    var x, y := BinaryId(a, bits), BinaryId(b, bits);
    assert AgreeUpTo(x, y, g + 1);
    SamePrefix(a, b, bits, g + 1);
    CloseMeansSamePrefix(a, b, bits - 1 - g);
  }

  // ---------------------------------------------------------------- tables and forwarding

  datatype Finger = Finger(id: nat, group: int)

  /** Every finger is filed under its group, whoever the neighbours were when it was filed. */
  predicate TableOk(bits: nat, me: nat, fingers: seq<Finger>) {
    forall i :: 0 <= i < |fingers| ==> fingers[i].group >= 0 && fingers[i].group == Group(bits, fingers[i].id, me)
  }

  predicate Usable(fingers: seq<Finger>, neighbors: set<nat>, group: int, id: nat) {
    Finger(id, group) in fingers && id in neighbors
  }

  predicate HasUsable(fingers: seq<Finger>, neighbors: set<nat>, group: int) {
    exists i :: 0 <= i < |fingers| && fingers[i].group == group && fingers[i].id in neighbors
  }

  predicate Closest(me: nat, neighbors: set<nat>, target: nat, next: nat) {
    && next in neighbors && next != me && Xor(next, target) < Xor(me, target)
    && forall n :: n in neighbors && n != me ==> Xor(next, target) <= Xor(n, target)
  }

  predicate NoneCloser(me: nat, neighbors: set<nat>, target: nat) {
    forall n :: n in neighbors && n != me ==> Xor(me, target) <= Xor(n, target)
  }

  /** The peers to which a lookup for `target` may be handed on. */
  predicate MayForward(bits: nat, me: nat, fingers: seq<Finger>, neighbors: set<nat>, target: nat, next: nat) {
    var g := Group(bits, target, me);
    if g >= 0 && HasUsable(fingers, neighbors, g) then Usable(fingers, neighbors, g, next)
    else Closest(me, neighbors, target, next)
  }

  /** Every hop, by finger or by fallback, goes to a neighbour that is strictly closer. */
  lemma HopIsCloser(bits: nat, me: nat, fingers: seq<Finger>, neighbors: set<nat>, target: nat, next: nat)
    requires me < Pow2(bits) && target < Pow2(bits) && forall n :: n in neighbors ==> n < Pow2(bits)
    requires TableOk(bits, me, fingers) && MayForward(bits, me, fingers, neighbors, target, next)
    ensures next in neighbors && Xor(next, target) < Xor(me, target)
  {
    var g := Group(bits, target, me);
    if g >= 0 && HasUsable(fingers, neighbors, g) {
      FingerHop(bits, me, fingers, neighbors, target, next);
      GroupIsDistance(bits, target, me);
      XorCommutes(me, target);
    }
  }

  lemma FingerHop(bits: nat, me: nat, fingers: seq<Finger>, neighbors: set<nat>, target: nat, next: nat)
    requires me < Pow2(bits) && target < Pow2(bits) && forall n :: n in neighbors ==> n < Pow2(bits)
    requires TableOk(bits, me, fingers) && Group(bits, target, me) >= 0
    requires Usable(fingers, neighbors, Group(bits, target, me), next)
    ensures Group(bits, target, me) < bits && Xor(next, target) < Pow2(bits - 1 - Group(bits, target, me))
  {
    SameGroupIsClose(bits, me, next, target);
  }

  // ---------------------------------------------------------------- whole lookups

  datatype Hop = Hop(fingers: seq<Finger>, neighbors: set<nat>)

  /** `path` is the way of a lookup for `target`; each peer used the table and neighbours it had then. */
  ghost predicate IsRoute(bits: nat, ids: set<nat>, target: nat, path: seq<nat>, hops: seq<Hop>) {
    && |path| == |hops| + 1 && path[0] in ids && target in ids && (forall x :: x in ids ==> x < Pow2(bits))
    && forall i :: 0 <= i < |hops| ==> HopAt(bits, ids, target, path, hops, i)
  }

  ghost predicate HopAt(bits: nat, ids: set<nat>, target: nat, path: seq<nat>, hops: seq<Hop>, i: nat)
    requires i < |hops| && |path| == |hops| + 1
  {
    && path[i] != target && TableOk(bits, path[i], hops[i].fingers) && hops[i].neighbors <= ids
    && MayForward(bits, path[i], hops[i].fingers, hops[i].neighbors, target, path[i + 1])
  }

  lemma {:induction false} RouteStays(bits: nat, ids: set<nat>, target: nat, path: seq<nat>, hops: seq<Hop>, i: nat)
    requires IsRoute(bits, ids, target, path, hops) && i < |path|
    ensures path[i] in ids
    ensures i < |hops| ==> Xor(path[i + 1], target) < Xor(path[i], target)
    decreases i
  {
    if i > 0 {
      RouteStays(bits, ids, target, path, hops, i - 1);
      assert HopAt(bits, ids, target, path, hops, i - 1);
      HopIsCloser(bits, path[i - 1], hops[i - 1].fingers, hops[i - 1].neighbors, target, path[i]);
    }
    if i < |hops| {
      assert HopAt(bits, ids, target, path, hops, i);
      HopIsCloser(bits, path[i], hops[i].fingers, hops[i].neighbors, target, path[i + 1]);
    }
  }

  /** A lookup never comes back to a peer, whatever happens to tables and neighbours on the way. */
  lemma {:induction false} LookupsNeverLoop(bits: nat, ids: set<nat>, target: nat, path: seq<nat>, hops: seq<Hop>, i: nat, j: nat)
    requires IsRoute(bits, ids, target, path, hops) && i < j < |path|
    ensures Xor(path[j], target) + (j - i) <= Xor(path[i], target) && path[i] != path[j]
    decreases j
  {
    RouteStays(bits, ids, target, path, hops, j - 1);
    if i < j - 1 {
      LookupsNeverLoop(bits, ids, target, path, hops, i, j - 1);
    }
  }

  /** Every peer on the way has all the others as neighbours. */
  predicate CompleteAt(ids: set<nat>, path: seq<nat>, hops: seq<Hop>, i: nat)
    requires i < |hops| && |path| == |hops| + 1
  {
    hops[i].neighbors == ids - {path[i]}
  }

  lemma CompleteHop(bits: nat, ids: set<nat>, target: nat, path: seq<nat>, hops: seq<Hop>, i: nat, k: nat)
    requires IsRoute(bits, ids, target, path, hops) && i < |hops| && CompleteAt(ids, path, hops, i)
    requires Xor(path[i], target) < Pow2(k)
    ensures k > 0 && Xor(path[i + 1], target) < Pow2(k - 1)
  {
    RouteStays(bits, ids, target, path, hops, i);
    assert HopAt(bits, ids, target, path, hops, i);
    var me, next, hop := path[i], path[i + 1], hops[i];
    XorZero(me, target);
    XorZero(target, target);
    XorCommutes(me, target);
    GroupIsDistance(bits, target, me);
    var g := Group(bits, target, me);
    if k <= bits - 1 - g {
      Pow2Grows(k, bits - 1 - g);
    } else {
      Pow2Grows(bits - 1 - g, k - 1);
      if HasUsable(hop.fingers, hop.neighbors, g) {
        FingerHop(bits, me, hop.fingers, hop.neighbors, target, next);
      } else {
        assert target in hop.neighbors;
      }
    }
  }

  lemma {:induction false} CompleteRoute(bits: nat, ids: set<nat>, target: nat, path: seq<nat>, hops: seq<Hop>, i: nat)
    requires IsRoute(bits, ids, target, path, hops) && i < |path|
    requires forall j :: 0 <= j < |hops| ==> CompleteAt(ids, path, hops, j)
    ensures i <= bits && Xor(path[i], target) < Pow2(bits - i)
    decreases i
  {
    if i == 0 {
      ShiftedAway(path[0], bits);
      ShiftedAway(target, bits);
      CloseMeansSamePrefix(path[0], target, bits);
    } else {
      CompleteRoute(bits, ids, target, path, hops, i - 1);
      CompleteHop(bits, ids, target, path, hops, i - 1, bits - (i - 1));
    }
  }

  /** The width of identifiers for `n` peers. */
  function BinaryIdSize(n: nat): nat {
    var k := CeilLog2(if n == 0 then 1 else n);
    if k == 0 then 1 else if k > 64 then 64 else k
  }

  /** With all the others as neighbours, no peer but the target keeps a lookup. */
  lemma NeverStuck(ids: set<nat>, me: nat, target: nat)
    requires me in ids && target in ids && me != target
    ensures !NoneCloser(me, ids - {me}, target)
  {
    XorZero(me, target);
    XorZero(target, target);
    assert target in ids - {me};
  }

  /**
   * In a complete topology of `n` peers a lookup takes at most ceil(log2 n) hops, with fresh,
   * stale or empty tables alike, and where it stops is the target.
   */
  lemma LookupsAreLogarithmic(n: nat, ids: set<nat>, target: nat, path: seq<nat>, hops: seq<Hop>)
    requires 2 <= n && CeilLog2(n) <= 64 && (forall x :: x in ids <==> x < n)
    requires |path| == |hops| + 1 && path[0] in ids && target in ids
    requires forall i :: 0 <= i < |hops| ==> CompleteAt(ids, path, hops, i)
    requires forall i :: 0 <= i < |hops| ==> HopAt(BinaryIdSize(n), ids, target, path, hops, i)
    ensures |hops| <= CeilLog2(n)
    ensures var last := path[|hops|];
            last in ids && (NoneCloser(last, ids - {last}, target) ==> last == target)
  {
    CeilLog2IsLeast(n);
    CompleteRoute(BinaryIdSize(n), ids, target, path, hops, |hops|);
    var last := path[|hops|];
    RouteStays(BinaryIdSize(n), ids, target, path, hops, |hops|);
    if last != target {
      NeverStuck(ids, last, target);
    }
  }

  // ---------------------------------------------------------------- the peer

  method FirstDifferentBit(lhs: string, rhs: string) returns (g: int)
    ensures g == FirstDifferent(lhs, rhs, 0)
  {
    var limit := if |lhs| <= |rhs| then |lhs| else |rhs|;
    for i := 0 to limit
      invariant FirstDifferent(lhs, rhs, 0) == FirstDifferent(lhs, rhs, i)
    {
      if lhs[i] != rhs[i] {
        return i;
      }
    }
    return -1;
  }

  datatype Lookup = Lookup(
    transactionId: int,
    originId: nat,
    targetId: Option<nat>,
    targetBinaryId: string,
    roundSubmitted: int,
    hops: int,
    lastHop: Option<nat>)

  function Fresh(bits: nat, origin: nat, target: nat, transactionId: int, round: int): Lookup {
    Lookup(transactionId, origin, Some(target), BinaryId(target, bits), round, 0, None)
  }

  /** The lookup as peer `me` sends it on: one more hop, the binary identifier filled in, all else as received. */
  function Passed(bits: nat, me: nat, msg: Lookup): Lookup
    requires msg.targetId.Some?
  {
    msg.(hops := msg.hops + 1, lastHop := Some(me),
         targetBinaryId := if msg.targetBinaryId == "" then BinaryId(msg.targetId.value, bits) else msg.targetBinaryId)
  }

  datatype Account = Account(requestsSatisfied: nat, totalHops: int, latency: int)

  /** The account of a peer at which a lookup has arrived. */
  function Arrived(a: Account, msg: Lookup, round: int): Account {
    Account(a.requestsSatisfied + 1, a.totalHops + msg.hops, a.latency + (round - msg.roundSubmitted))
  }

  /** `msgs[i]` is the lookup before the peer `path[i]` sends it on. */
  predicate IsTrip(bits: nat, target: nat, transactionId: int, round: int, path: seq<nat>, msgs: seq<Lookup>) {
    && |msgs| == |path| + 1 && msgs[0] == Fresh(bits, if path == [] then target else path[0], target, transactionId, round)
    && forall i :: 0 <= i < |path| ==> msgs[i].targetId == Some(target) && msgs[i + 1] == Passed(bits, path[i], msgs[i])
  }

  /** On its way a lookup changes nothing but its hop count and its last hop. */
  lemma {:induction false} TripKeeps(bits: nat, target: nat, transactionId: int, round: int, path: seq<nat>, msgs: seq<Lookup>, i: nat)
    requires IsTrip(bits, target, transactionId, round, path, msgs) && i < |msgs|
    ensures msgs[i] == Lookup(transactionId, msgs[0].originId, Some(target), BinaryId(target, bits), round, i,
                              if i == 0 then None else Some(path[i - 1]))
    decreases i
  {
    if i > 0 {
      TripKeeps(bits, target, transactionId, round, path, msgs, i - 1);
      assert msgs[i] == Passed(bits, path[i - 1], msgs[i - 1]);
    }
  }

  /**
   * A lookup that arrives after any number of hops adds that number to the hops of its target, and
   * the rounds from its first submission to its arrival to the latency.
   */
  lemma ArrivalIsAccounted(bits: nat, target: nat, transactionId: int, round: int, path: seq<nat>, msgs: seq<Lookup>,
                           account: Account, arrival: int)
    requires IsTrip(bits, target, transactionId, round, path, msgs)
    ensures Arrived(account, msgs[|path|], arrival)
         == Account(account.requestsSatisfied + 1, account.totalHops + |path|, account.latency + (arrival - round))
  {
    TripKeeps(bits, target, transactionId, round, path, msgs, |path|);
  }

  class KademliaPeer {
    const me: nat
    const bits: nat
    const binaryId: string
    var fingers: seq<Finger>
    var requestsSatisfied: nat
    var totalHops: int
    var latency: int

    ghost predicate Valid()
      reads this
    {
      binaryId == BinaryId(me, bits) && TableOk(bits, me, fingers)
    }

    constructor (id: nat, size: nat)
      ensures Valid() && me == id && bits == size && fingers == []
    {
      me, bits, fingers, requestsSatisfied, totalHops, latency := id, size, [], 0, 0, 0;
      binaryId := BinaryId(id, size);
    }

    method GetBinaryId(id: nat) returns (result: string)
      ensures result == BinaryId(id, bits)
    {
      result := "";
      var bit := bits;
      while bit > 0
        invariant 0 <= bit <= bits && |result| == bits - bit
        invariant forall i :: 0 <= i < |result| ==> result[i] == BinaryId(id, bits)[i]
      {
        bit := bit - 1;
        result := result + [if Bit(id, bit) then '1' else '0'];
      }
    }

    /** The neighbours by group, in any order. */
    method GroupNeighbors(neighbors: set<nat>) returns (grouped: seq<seq<Finger>>)
      requires Valid()
      ensures |grouped| == bits
      ensures forall g, i :: 0 <= g < bits && 0 <= i < |grouped[g]| ==> FiledAt(neighbors, g, grouped[g][i])
      ensures forall n :: n in neighbors ==> Filed(grouped, n)
    {
      grouped := seq(bits, i => []);
      var todo := neighbors;
      while todo != {}
        invariant todo <= neighbors && |grouped| == bits
        invariant forall g, i :: 0 <= g < bits && 0 <= i < |grouped[g]| ==> FiledAt(neighbors, g, grouped[g][i])
        invariant forall n :: n in neighbors && n !in todo ==> Filed(grouped, n)
        decreases |todo|
      {
        var neighbor :| neighbor in todo;
        todo := todo - {neighbor};
        if neighbor != me {
          var binId := GetBinaryId(neighbor);
          var group := FirstDifferentBit(binId, binaryId);
          if group >= 0 {
            var entry := Finger(neighbor, group);
            ghost var before := grouped;
            grouped := grouped[group := grouped[group] + [entry]];
            assert grouped[group][|grouped[group]| - 1] == entry;
            forall n | n in neighbors && n !in todo ensures Filed(grouped, n) {
              if n != neighbor {
                assert Filed(before, n);
              }
            }
          }
        }
      }
    }

    predicate FiledAt(neighbors: set<nat>, g: int, f: Finger) {
      f.group == g == Group(bits, f.id, me) && f.id in neighbors && f.id != me
    }

    predicate Filed(grouped: seq<seq<Finger>>, n: nat) {
      var g := Group(bits, n, me);
      n == me || g < 0 || (g < |grouped| && Finger(n, g) in grouped[g])
    }

    /** One finger from each of the first `g` groups that have a neighbour. */
    ghost predicate Picked(neighbors: set<nat>, grouped: seq<seq<Finger>>, g: nat, table: seq<Finger>) {
      && (forall i :: 0 <= i < |table| ==> 0 <= table[i].group < g && FiledAt(neighbors, table[i].group, table[i]))
      && (forall i, j :: 0 <= i < j < |table| ==> table[i].group < table[j].group)
      && (forall h :: 0 <= h < g && h < |grouped| && grouped[h] != [] ==> HasUsable(table, neighbors, h))
    }

    lemma PickOne(neighbors: set<nat>, grouped: seq<seq<Finger>>, g: nat, table: seq<Finger>, f: Finger)
      requires g < |grouped| && Picked(neighbors, grouped, g, table)
      ensures grouped[g] == [] ==> Picked(neighbors, grouped, g + 1, table)
      ensures FiledAt(neighbors, g, f) ==> Picked(neighbors, grouped, g + 1, table + [f])
    {
      if FiledAt(neighbors, g, f) {
        forall h | 0 <= h <= g && grouped[h] != [] ensures HasUsable(table + [f], neighbors, h) {
          if h < g {
            var i :| 0 <= i < |table| && table[i].group == h && table[i].id in neighbors;
            assert (table + [f])[i] == table[i];
          } else {
            assert (table + [f])[|table|] == f;
          }
        }
      }
    }

    method PickFingers(neighbors: set<nat>, grouped: seq<seq<Finger>>) returns (table: seq<Finger>)
      requires forall g, i :: 0 <= g < |grouped| && 0 <= i < |grouped[g]| ==> FiledAt(neighbors, g, grouped[g][i])
      ensures Picked(neighbors, grouped, |grouped|, table)
    {
      table := [];
      for g := 0 to |grouped|
        invariant Picked(neighbors, grouped, g, table)
      {
        var bucket := grouped[g];
        if bucket == [] {
          PickOne(neighbors, grouped, g, table, Finger(0, 0));
        } else {
          var chosen :| 0 <= chosen < |bucket|;
          PickOne(neighbors, grouped, g, table, bucket[chosen]);
          table := table + [bucket[chosen]];
        }
      }
    }

    /** One finger for every group that has a neighbour, in the order of the groups. */
    method RebuildFingerTable(neighbors: set<nat>)
      requires Valid()
      modifies this`fingers
      ensures Valid()
      ensures forall i, j :: 0 <= i < j < |fingers| ==> fingers[i].group < fingers[j].group
      ensures forall i :: 0 <= i < |fingers| ==> fingers[i].id in neighbors && fingers[i].id != me
      ensures forall n :: n in neighbors && n != me && Group(bits, n, me) >= 0 ==> HasUsable(fingers, neighbors, Group(bits, n, me))
    {
      var grouped := GroupNeighbors(neighbors);
      fingers := PickFingers(neighbors, grouped);
      forall n | n in neighbors && n != me && Group(bits, n, me) >= 0
        ensures HasUsable(fingers, neighbors, Group(bits, n, me))
      {
        assert Filed(grouped, n);
      }
    }

    method SelectFingerForGroup(group: int, neighbors: set<nat>) returns (r: Option<nat>)
      ensures r.Some? <==> HasUsable(fingers, neighbors, group)
      ensures r.Some? ==> Usable(fingers, neighbors, group, r.value)
    {
      var candidates: seq<nat> := [];
      for i := 0 to |fingers|
        invariant forall k :: 0 <= k < |candidates| ==> Usable(fingers, neighbors, group, candidates[k])
        invariant candidates == [] ==> forall k :: 0 <= k < i ==> !(fingers[k].group == group && fingers[k].id in neighbors)
      {
        if fingers[i].group == group && fingers[i].id in neighbors {
          assert fingers[i] == Finger(fingers[i].id, group);
          candidates := candidates + [fingers[i].id];
        }
      }
      if candidates == [] {
        return None;
      }
      var index :| 0 <= index < |candidates|;
      return Some(candidates[index]);
    }

    method SelectClosestByDistance(target: nat, neighbors: set<nat>) returns (r: Option<nat>)
      ensures r.Some? ==> Closest(me, neighbors, target, r.value)
      ensures r.None? ==> NoneCloser(me, neighbors, target)
    {
      var bestDistance := Xor(me, target);
      r := None;
      var todo := neighbors;
      while todo != {}
        invariant todo <= neighbors
        invariant r.None? ==> bestDistance == Xor(me, target)
        invariant r.Some? ==> r.value in neighbors && r.value != me && bestDistance == Xor(r.value, target) < Xor(me, target)
        invariant forall n :: n in neighbors && n !in todo && n != me ==> bestDistance <= Xor(n, target)
        decreases |todo|
      {
        var neighbor :| neighbor in todo;
        todo := todo - {neighbor};
        if neighbor != me {
          var distance := Xor(neighbor, target);
          if distance < bestDistance {
            bestDistance, r := distance, Some(neighbor);
          }
        }
      }
    }

    method FindRoute(targetBinaryId: string, target: nat, neighbors: set<nat>) returns (r: Option<nat>)
      requires Valid()
      ensures targetBinaryId == BinaryId(target, bits) && r.Some? ==> MayForward(bits, me, fingers, neighbors, target, r.value)
      ensures r.None? ==> NoneCloser(me, neighbors, target)
      ensures r.Some? ==> r.value in neighbors && r.value != me
    {
      if targetBinaryId == "" || binaryId == "" {
        r := SelectClosestByDistance(target, neighbors);
        return;
      }
      var group := FirstDifferentBit(targetBinaryId, binaryId);
      if group >= 0 {
        r := SelectFingerForGroup(group, neighbors);
        if r.Some? {
          assert Finger(r.value, group) in fingers;
          return;
        }
      }
      r := SelectClosestByDistance(target, neighbors);
    }

    function Totals(): Account
      reads this
    {
      Account(requestsSatisfied, totalHops, latency)
    }

    /** A peer to hand the lookup on to, unless nobody is closer. */
    method PassOn(msg: Lookup, target: nat, neighbors: set<nat>) returns (sent: Option<(Lookup, nat)>)
      requires Valid() && msg.targetId == Some(target) && target != me
      ensures sent.Some? ==> sent.value.0 == Passed(bits, me, msg) && sent.value.1 in neighbors && sent.value.1 != me
      ensures sent.Some? && sent.value.0.targetBinaryId == BinaryId(target, bits)
              ==> MayForward(bits, me, fingers, neighbors, target, sent.value.1)
      ensures sent.None? ==> NoneCloser(me, neighbors, target)
    {
      if neighbors == {} {
        return None;
      }
      var targetBinary := msg.targetBinaryId;
      if targetBinary == "" {
        targetBinary := GetBinaryId(target);
      }
      var next := FindRoute(targetBinary, target, neighbors);
      if next.None? || next.value == me {
        return None;
      }
      sent := Some((msg.(targetBinaryId := targetBinary, hops := msg.hops + 1, lastHop := Some(me)), next.value));
    }

    /** Either the lookup has arrived and is accounted for, or it goes on with one more hop, or it dies here. */
    method HandleLookup(msg: Lookup, neighbors: set<nat>, round: int) returns (sent: Option<(Lookup, nat)>)
      requires Valid()
      modifies this`requestsSatisfied, this`totalHops, this`latency
      ensures Valid()
      ensures Totals() == if msg.targetId == Some(me) then Arrived(old(Totals()), msg, round) else old(Totals())
      ensures sent.Some? ==> msg.targetId.Some? && msg.targetId != Some(me)
      ensures sent.Some? ==> sent.value.0 == Passed(bits, me, msg) && sent.value.1 in neighbors && sent.value.1 != me
      ensures sent.Some? && sent.value.0.targetBinaryId == BinaryId(msg.targetId.value, bits)
              ==> MayForward(bits, me, fingers, neighbors, msg.targetId.value, sent.value.1)
      ensures sent.None? && msg.targetId.Some? && msg.targetId != Some(me) ==> NoneCloser(me, neighbors, msg.targetId.value)
    {
      if msg.targetId.None? {
        return None;
      }
      if msg.targetId.value == me {
        requestsSatisfied := requestsSatisfied + 1;
        totalHops := totalHops + msg.hops;
        latency := latency + (round - msg.roundSubmitted);
        return None;
      }
      sent := PassOn(msg, msg.targetId.value, neighbors);
    }

    /** A lookup for the peer itself is satisfied on the spot; any other one starts out from here. */
    method SubmitLookup(transactionId: int, target: nat, neighbors: set<nat>, round: int) returns (sent: Option<(Lookup, nat)>)
      requires Valid()
      modifies this`requestsSatisfied
      ensures Valid() && requestsSatisfied == old(requestsSatisfied) + if target == me then 1 else 0
      ensures target == me ==> sent.None?
      ensures sent.Some? ==> sent.value.0 == Passed(bits, me, Fresh(bits, me, target, transactionId, round))
      ensures sent.Some? ==> MayForward(bits, me, fingers, neighbors, target, sent.value.1)
      ensures sent.None? && target != me ==> NoneCloser(me, neighbors, target)
    {
      var targetBinary := GetBinaryId(target);
      var msg := Lookup(transactionId, me, Some(target), targetBinary, round, 0, None);
      if target == me {
        requestsSatisfied := requestsSatisfied + 1;
        return None;
      }
      sent := PassOn(msg, target, neighbors);
    }
  }
}
