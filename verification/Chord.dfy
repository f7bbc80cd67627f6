/**
 * Chord routing on a ring: fingers at power-of-two distances, greedy forwarding by the longest
 * finger that does not pass the target, and a clockwise fallback.
 */
module Chord {
  import opened Quorums
  import opened Bits

  // ---------------------------------------------------------------- the ring

  /** Clockwise distance from index `a` to index `b` on a ring of `n`. */
  function Distance(n: nat, a: nat, b: nat): nat
    requires a < n && b < n
  {
    if b >= a then b - a else b + n - a
  }

  function Clockwise(n: nat, a: nat, skip: nat): (r: nat)
    requires a < n && skip < n
    ensures r < n && Distance(n, a, r) == skip
  {
    if a + skip < n then a + skip else a + skip - n
  }

  lemma ModOnce(x: nat, n: nat)
    requires 0 < n && x < 2 * n
    ensures x % n == if x < n then x else x - n
  {
    if x >= n {
      assert (x - n) % n == x - n;
      assert x == (x - n) + 1 * n;
    }
  }

  /** The source computes both with a remainder. */
  lemma RingArithmetic(n: nat, a: nat, b: nat, skip: nat)
    requires a < n && b < n && skip < n
    ensures (b + n - a) % n == Distance(n, a, b) && (a + skip) % n == Clockwise(n, a, skip)
  {
    ModOnce(b + n - a, n);
    ModOnce(a + skip, n);
  }

  /** Going on to a peer that is not past the target leaves exactly the rest of the way. */
  lemma StepsAddUp(n: nat, a: nat, b: nat, c: nat)
    requires a < n && b < n && c < n && Distance(n, a, b) <= Distance(n, a, c)
    ensures Distance(n, b, c) == Distance(n, a, c) - Distance(n, a, b)
  {
  }

  /** Distinct identifiers, sorted, around the ring. */
  predicate IsRing(ring: seq<int>) {
    forall i, j :: 0 <= i < j < |ring| ==> ring[i] < ring[j]
  }

  lemma DifferentPlaces(ring: seq<int>, i: nat, j: nat)
    requires IsRing(ring) && i < |ring| && j < |ring| && i != j
    ensures ring[i] != ring[j]
  {
  }

  /** The index map built from the ring. */
  predicate IsIndex(ring: seq<int>, index: map<int, nat>) {
    && (forall i :: 0 <= i < |ring| ==> ring[i] in index && index[ring[i]] == i)
    && (forall id {:trigger index[id]} :: id in index ==> index[id] < |ring| && ring[index[id]] == id)
  }

  /** How far on the ring an indexed peer is. */
  function StepsTo(ring: seq<int>, index: map<int, nat>, self: nat, id: int): (d: nat)
    requires IsIndex(ring, index) && self < |ring| && id in index
    ensures d < |ring| && ring[Clockwise(|ring|, self, d)] == id
  {
    Distance(|ring|, self, index[id])
  }

  // ---------------------------------------------------------------- the finger table

  datatype Finger = Finger(nodeId: int, ringIndex: nat, skip: nat, skipNormalized: nat)

  /** The finger `2^k` steps on. */
  function FingerAt(ring: seq<int>, self: nat, k: nat): Finger
    requires self < |ring| && Pow2(k) < |ring|
  {
    var idx := Clockwise(|ring|, self, Pow2(k));
    Finger(ring[idx], idx, Pow2(k), Pow2(k))
  }

  /** One finger for every power of two below the size of the ring. */
  predicate IsFingerTable(ring: seq<int>, self: nat, fingers: seq<Finger>)
    requires self < |ring|
  {
    && |fingers| == BitLength(|ring| - 1)
    && forall k :: 0 <= k < |fingers| ==> Pow2(k) < |ring| && fingers[k] == FingerAt(ring, self, k)
  }

  lemma FingerIsThere(ring: seq<int>, self: nat, fingers: seq<Finger>, k: nat)
    requires self < |ring| && IsFingerTable(ring, self, fingers)
    ensures k < |fingers| <==> Pow2(k) < |ring|
  {
    PowersWithin(|ring| - 1, k);
  }

  // ---------------------------------------------------------------- one hop

  /** `next` is a neighbour on the ring, `e` steps on, and not the peer itself. */
  ghost predicate Ahead(ring: seq<int>, self: nat, neighbors: set<int>, next: int, e: nat)
    requires self < |ring|
  {
    next in neighbors && 0 < e < |ring| && next == ring[Clockwise(|ring|, self, e)]
  }

  ghost predicate IsFinger(ring: seq<int>, self: nat, neighbors: set<int>, next: int, k: nat)
    requires self < |ring|
  {
    Pow2(k) < |ring| && Ahead(ring, self, neighbors, next, Pow2(k))
  }

  /** The best finger for a target `d` steps on: the longest usable one that does not pass it. */
  ghost predicate BestFinger(ring: seq<int>, self: nat, neighbors: set<int>, d: nat, next: int, k: nat)
    requires self < |ring|
  {
    && IsFinger(ring, self, neighbors, next, k) && Pow2(k) <= d
    && forall id, j: nat {:trigger IsFinger(ring, self, neighbors, id, j)} ::
         IsFinger(ring, self, neighbors, id, j) && Pow2(j) <= d ==> Pow2(j) <= Pow2(k)
  }

  ghost predicate NoFinger(ring: seq<int>, self: nat, neighbors: set<int>, d: nat)
    requires self < |ring|
  {
    forall id, j: nat {:trigger IsFinger(ring, self, neighbors, id, j)} :: IsFinger(ring, self, neighbors, id, j) ==> Pow2(j) > d
  }

  /** The nearest of all neighbours ahead. */
  ghost predicate Nearest(ring: seq<int>, self: nat, neighbors: set<int>, next: int, e: nat)
    requires self < |ring|
  {
    && Ahead(ring, self, neighbors, next, e)
    && forall id, j: nat {:trigger Ahead(ring, self, neighbors, id, j)} :: Ahead(ring, self, neighbors, id, j) ==> e <= j
  }

  /** Where a lookup for a target `d` steps on may go next, `e` steps on. */
  ghost predicate MayForward(ring: seq<int>, self: nat, neighbors: set<int>, d: nat, next: int, e: nat)
    requires self < |ring|
  {
    || (exists k: nat :: e == Pow2(k) && BestFinger(ring, self, neighbors, d, next, k))
    || (NoFinger(ring, self, neighbors, d) && Nearest(ring, self, neighbors, next, e))
  }

  /** A hop makes progress without passing the target exactly when some neighbour lies on the way. */
  lemma ProgressExactly(ring: seq<int>, self: nat, target: nat, neighbors: set<int>, next: int, e: nat)
    requires self < |ring| && target < |ring| && self != target
    requires MayForward(ring, self, neighbors, Distance(|ring|, self, target), next, e)
    ensures (exists id, j: nat :: Ahead(ring, self, neighbors, id, j) && j <= Distance(|ring|, self, target))
       <==> Distance(|ring|, Clockwise(|ring|, self, e), target) == Distance(|ring|, self, target) - e
            < Distance(|ring|, self, target)
  {
    var n, d := |ring|, Distance(|ring|, self, target);
    assert Ahead(ring, self, neighbors, next, e);
    if e <= d {
      StepsAddUp(n, self, Clockwise(n, self, e), target);
    }
  }

  /** The successor on the ring. */
  ghost predicate KnowsSuccessor(ring: seq<int>, self: nat, neighbors: set<int>)
    requires self < |ring|
  {
    |ring| > 1 ==> ring[Clockwise(|ring|, self, 1)] in neighbors
  }

  ghost predicate KnowsFingers(ring: seq<int>, self: nat, neighbors: set<int>)
    requires self < |ring|
  {
    forall k: nat :: Pow2(k) < |ring| ==> ring[Clockwise(|ring|, self, Pow2(k))] in neighbors
  }

  /** With its successor as a neighbour a peer always makes progress and never overshoots. */
  lemma SuccessorSuffices(ring: seq<int>, self: nat, target: nat, neighbors: set<int>, next: int, e: nat)
    requires self < |ring| && target < |ring| && self != target && KnowsSuccessor(ring, self, neighbors)
    requires MayForward(ring, self, neighbors, Distance(|ring|, self, target), next, e)
    ensures 0 < e <= Distance(|ring|, self, target)
    ensures Distance(|ring|, Clockwise(|ring|, self, e), target) == Distance(|ring|, self, target) - e
  {
    var s := ring[Clockwise(|ring|, self, 1)];
    assert Ahead(ring, self, neighbors, s, 1);
    assert Ahead(ring, self, neighbors, next, e);
    StepsAddUp(|ring|, self, Clockwise(|ring|, self, e), target);
  }

  /** With all fingers as neighbours a hop takes away exactly the leading bit of the distance. */
  lemma FingersTakeTheLeadingBit(ring: seq<int>, self: nat, target: nat, neighbors: set<int>, next: int, e: nat)
    requires self < |ring| && target < |ring| && self != target && KnowsFingers(ring, self, neighbors)
    requires MayForward(ring, self, neighbors, Distance(|ring|, self, target), next, e)
    ensures e == Top(Distance(|ring|, self, target))
  {
    var d := Distance(|ring|, self, target);
    TopIsPower(d);
    var k := BitLength(d) - 1;
    assert IsFinger(ring, self, neighbors, ring[Clockwise(|ring|, self, Pow2(k))], k);
    var j: nat :| e == Pow2(j) && BestFinger(ring, self, neighbors, d, next, j);
    if j > k {
      Pow2Grows(k, j);
    } else if j < k {
      Pow2Grows(j, k);
    }
  }

  // ---------------------------------------------------------------- whole lookups

  /** `path` holds ring indices, one per peer the lookup visits. */
  ghost predicate IsRoute(ring: seq<int>, target: nat, path: seq<nat>, nbrs: seq<set<int>>) {
    && target < |ring| && |path| == |nbrs| + 1 && path[0] < |ring|
    && forall i :: 0 <= i < |nbrs| ==> HopAt(ring, target, path, nbrs, i)
  }

  ghost predicate HopAt(ring: seq<int>, target: nat, path: seq<nat>, nbrs: seq<set<int>>, i: nat)
    requires i < |nbrs| && |path| == |nbrs| + 1
  {
    && path[i] < |ring| && target < |ring| && path[i + 1] < |ring| && path[i] != target
    && MayForward(ring, path[i], nbrs[i], Distance(|ring|, path[i], target), ring[path[i + 1]],
                  Distance(|ring|, path[i], path[i + 1]))
  }

  lemma HopLeaves(ring: seq<int>, target: nat, path: seq<nat>, nbrs: seq<set<int>>, i: nat)
    requires IsRing(ring) && IsRoute(ring, target, path, nbrs) && i < |nbrs|
    ensures path[i] < |ring| && path[i + 1] < |ring|
    ensures KnowsSuccessor(ring, path[i], nbrs[i])
            ==> Distance(|ring|, path[i + 1], target) < Distance(|ring|, path[i], target)
    ensures KnowsFingers(ring, path[i], nbrs[i])
            ==> OneBits(Distance(|ring|, path[i], target)) == 1 + OneBits(Distance(|ring|, path[i + 1], target))
  {
    assert HopAt(ring, target, path, nbrs, i);
    var n, d, e := |ring|, Distance(|ring|, path[i], target), Distance(|ring|, path[i], path[i + 1]);
    if KnowsSuccessor(ring, path[i], nbrs[i]) {
      SuccessorSuffices(ring, path[i], target, nbrs[i], ring[path[i + 1]], e);
      StepsAddUp(n, path[i], path[i + 1], target);
    }
    if KnowsFingers(ring, path[i], nbrs[i]) {
      FingersTakeTheLeadingBit(ring, path[i], target, nbrs[i], ring[path[i + 1]], e);
      StepsAddUp(n, path[i], path[i + 1], target);
      LeadingBit(d);
    }
  }

  /** If every peer knows its successor, a lookup never comes back and takes at most the distance. */
  lemma {:induction false} LookupsNeverLoop(ring: seq<int>, target: nat, path: seq<nat>, nbrs: seq<set<int>>, i: nat, j: nat)
    requires IsRing(ring) && IsRoute(ring, target, path, nbrs) && i < j < |path|
    requires forall k :: 0 <= k < |nbrs| ==> path[k] < |ring| && KnowsSuccessor(ring, path[k], nbrs[k])
    ensures path[i] < |ring| && path[j] < |ring| && path[i] != path[j]
    ensures Distance(|ring|, path[j], target) + (j - i) <= Distance(|ring|, path[i], target)
    decreases j
  {
    HopLeaves(ring, target, path, nbrs, j - 1);
    if i < j - 1 {
      LookupsNeverLoop(ring, target, path, nbrs, i, j - 1);
    }
  }

  /** If every peer knows its fingers, the one bits of the distance count the hops still to go. */
  lemma {:induction false} HopsAreOneBits(ring: seq<int>, target: nat, path: seq<nat>, nbrs: seq<set<int>>, i: nat)
    requires IsRing(ring) && IsRoute(ring, target, path, nbrs) && i < |path|
    requires forall k :: 0 <= k < |nbrs| ==> path[k] < |ring| && KnowsFingers(ring, path[k], nbrs[k])
    ensures path[i] < |ring|
    ensures OneBits(Distance(|ring|, path[0], target)) == i + OneBits(Distance(|ring|, path[i], target))
    decreases i
  {
    if i > 0 {
      HopsAreOneBits(ring, target, path, nbrs, i - 1);
      HopLeaves(ring, target, path, nbrs, i - 1);
    }
  }

  /** A lookup that arrives took exactly as many hops as the distance has one bits. */
  lemma ArrivalCountsOneBits(ring: seq<int>, target: nat, path: seq<nat>, nbrs: seq<set<int>>)
    requires IsRing(ring) && IsRoute(ring, target, path, nbrs) && path[|nbrs|] == target
    requires forall k :: 0 <= k < |nbrs| ==> path[k] < |ring| && KnowsFingers(ring, path[k], nbrs[k])
    ensures |nbrs| == OneBits(Distance(|ring|, path[0], target)) <= BitLength(|ring| - 1)
  {
    HopsAreOneBits(ring, target, path, nbrs, |nbrs|);
    var d := Distance(|ring|, path[0], target);
    OneBitsBound(d, |ring| - 1);
  }

  /** A peer that knows its successor never keeps a lookup for somebody else. */
  lemma NeverStuck(ring: seq<int>, self: nat, neighbors: set<int>)
    requires self < |ring| && |ring| > 1 && KnowsSuccessor(ring, self, neighbors)
    ensures !NobodyAhead(ring, self, neighbors)
  {
    assert Ahead(ring, self, neighbors, ring[Clockwise(|ring|, self, 1)], 1);
  }

  // ---------------------------------------------------------------- the peer

  ghost predicate NobodyAhead(ring: seq<int>, self: nat, neighbors: set<int>)
    requires self < |ring|
  {
    forall id, e: nat {:trigger Ahead(ring, self, neighbors, id, e)} :: !Ahead(ring, self, neighbors, id, e)
  }

  /** A neighbour is ahead exactly at the distance of its index. */
  lemma AheadByIndex(ring: seq<int>, index: map<int, nat>, self: nat, neighbors: set<int>, id: int, e: nat)
    requires IsRing(ring) && IsIndex(ring, index) && self < |ring|
    ensures Ahead(ring, self, neighbors, id, e)
       <==> id in neighbors && id in index && 0 < e == StepsTo(ring, index, self, id)
  {
    if e < |ring| && id == ring[Clockwise(|ring|, self, e)] {
      assert index[id] == Clockwise(|ring|, self, e);
    }
  }

  /** The neighbours handled so far, seen through the index. */
  ghost predicate NearestSoFar(ring: seq<int>, index: map<int, nat>, self: nat, done: set<int>, limit: nat,
                               best: Option<int>, bestDistance: nat)
    requires self < |ring| && IsIndex(ring, index)
  {
    && (best.None? ==> bestDistance == |ring|)
    && (best.Some? ==> best.value in done && best.value in index
                       && 0 < bestDistance == StepsTo(ring, index, self, best.value) <= limit)
    && forall id :: id in done && id in index && 0 < StepsTo(ring, index, self, id) <= limit
         ==> bestDistance <= StepsTo(ring, index, self, id)
  }

  /** The nearest neighbour ahead that is at most `limit` steps on. */
  method NearestWithin(ring: seq<int>, index: map<int, nat>, self: nat, neighbors: set<int>, limit: nat)
    returns (best: Option<int>, bestDistance: nat)
    requires IsRing(ring) && IsIndex(ring, index) && self < |ring|
    ensures NearestSoFar(ring, index, self, neighbors, limit, best, bestDistance)
  {
    var n := |ring|;
    best, bestDistance := None, n;
    var todo := neighbors;
    while todo != {}
      invariant todo <= neighbors
      invariant NearestSoFar(ring, index, self, neighbors - todo, limit, best, bestDistance)
      decreases |todo|
    {
      ghost var some := MemberOutside(todo, {});
      var neighbor :| neighbor in todo;
      todo := todo - {neighbor};
      if neighbor in index {
        var distance := (index[neighbor] + n - self) % n;
        RingArithmetic(n, self, index[neighbor], 0);
        assert distance == StepsTo(ring, index, self, neighbor);
        if distance != 0 && distance <= limit && distance < bestDistance {
          bestDistance, best := distance, Some(neighbor);
        }
      }
    }
    assert neighbors - todo == neighbors;
  }

  // ---------------------------------------------------------------- what a lookup carries

  datatype Lookup = Lookup(
    transactionId: int,
    originId: int,
    targetId: Option<int>,
    roundSubmitted: int,
    hops: int,
    lastHop: Option<int>)

  /** The lookup as its origin writes it. */
  function Fresh(origin: int, target: int, transactionId: int, round: int): Lookup {
    Lookup(transactionId, origin, Some(target), round, 0, None)
  }

  /** The lookup as `me` hands it on: one more hop, and nothing else new but the name of the sender. */
  function Passed(me: int, msg: Lookup): Lookup {
    msg.(hops := msg.hops + 1, lastHop := Some(me))
  }

  /** What a peer counts of the lookups that reached it. */
  datatype Account = Account(requestsSatisfied: nat, totalHops: int, totalLatency: int)

  function Arrived(a: Account, msg: Lookup, round: int): Account {
    Account(a.requestsSatisfied + 1, a.totalHops + msg.hops, a.totalLatency + (round - msg.roundSubmitted))
  }

  /** A lookup on its way along a route: `msgs[i]` is what the peer at `path[i]` holds. */
  ghost predicate IsTrip(ring: seq<int>, path: seq<nat>, transactionId: int, round: int, msgs: seq<Lookup>) {
    && path != [] && |msgs| == |path| && (forall i :: 0 <= i < |path| ==> path[i] < |ring|)
    && msgs[0] == Fresh(ring[path[0]], ring[path[|path| - 1]], transactionId, round)
    && forall i :: 0 <= i < |path| - 1 ==> msgs[i + 1] == Passed(ring[path[i]], msgs[i])
  }

  lemma {:induction false} TripKeeps(ring: seq<int>, path: seq<nat>, transactionId: int, round: int, msgs: seq<Lookup>, i: nat)
    requires IsTrip(ring, path, transactionId, round, msgs) && i < |path|
    ensures msgs[i] == Lookup(transactionId, ring[path[0]], Some(ring[path[|path| - 1]]), round, i,
                              if i == 0 then None else Some(ring[path[i - 1]]))
    decreases i
  {
    if i > 0 {
      TripKeeps(ring, path, transactionId, round, msgs, i - 1);
      assert msgs[i] == Passed(ring[path[i - 1]], msgs[i - 1]);
    }
  }

  /**
   * With every finger in place, a lookup that arrives adds to the hops of its target the number of
   * one bits in the clockwise distance from its origin, and to the latency the rounds it was under way.
   */
  lemma ArrivalIsAccounted(ring: seq<int>, path: seq<nat>, nbrs: seq<set<int>>, transactionId: int, round: int,
                           msgs: seq<Lookup>, account: Account, arrival: int)
    requires IsRing(ring) && IsTrip(ring, path, transactionId, round, msgs) && IsRoute(ring, path[|path| - 1], path, nbrs)
    requires forall i :: 0 <= i < |nbrs| ==> KnowsFingers(ring, path[i], nbrs[i])
    ensures Arrived(account, msgs[|path| - 1], arrival)
         == Account(account.requestsSatisfied + 1,
                    account.totalHops + OneBits(Distance(|ring|, path[0], path[|path| - 1])),
                    account.totalLatency + (arrival - round))
  {
    TripKeeps(ring, path, transactionId, round, msgs, |path| - 1);
    ArrivalCountsOneBits(ring, path[|path| - 1], path, nbrs);
  }

  class ChordPeer {
    const me: int
    const ring: seq<int>
    const index: map<int, nat>
    const self: nat
    var fingers: seq<Finger>
    var requestsSatisfied: nat
    var totalHops: int
    var totalLatency: int

    ghost predicate OnRing() {
      self < |ring| && ring[self] == me && IsRing(ring) && IsIndex(ring, index)
    }

    ghost predicate Valid()
      reads this
    {
      OnRing() && IsFingerTable(ring, self, fingers)
    }

    constructor (id: int, order: seq<int>, indexById: map<int, nat>)
      requires IsRing(order) && IsIndex(order, indexById) && id in order
      ensures Valid() && me == id && ring == order && index == indexById
    {
      me, ring, index, self := id, order, indexById, indexById[id];
      requestsSatisfied, totalHops, totalLatency := 0, 0, 0;
      fingers := [];
      new;
      BuildFingerTable();
    }

    method CountBits(maxSkip: nat) returns (bits: nat)
      ensures bits == BitLength(maxSkip)
    {
      bits := 0;
      PowersWithin(maxSkip, 0);
      while Pow2(bits) <= maxSkip
        invariant bits <= BitLength(maxSkip)
        invariant bits < BitLength(maxSkip) <==> Pow2(bits) <= maxSkip
        decreases BitLength(maxSkip) - bits
      {
        bits := bits + 1;
        PowersWithin(maxSkip, bits);
      }
    }

    ghost predicate FirstFingers(k: nat, table: seq<Finger>)
      requires OnRing()
    {
      |table| == k && forall i :: 0 <= i < k ==> Pow2(i) < |ring| && table[i] == FingerAt(ring, self, i)
    }

    method Skip(k: nat) returns (skip: nat, normalized: nat, idx: nat)
      requires OnRing() && Pow2(k) < |ring|
      ensures skip == normalized == Pow2(k) && idx == FingerAt(ring, self, k).ringIndex
    {
      skip := Pow2(k);
      ModOnce(skip, |ring|);
      RingArithmetic(|ring|, self, self, skip);
      normalized := skip % |ring|;
      idx := (self + skip) % |ring|;
    }

    /** No finger is the peer itself, and no two in a row are the same peer. */
    lemma NextFinger(k: nat, table: seq<Finger>)
      requires OnRing() && Pow2(k) < |ring| && FirstFingers(k, table)
      ensures FingerAt(ring, self, k).nodeId != me
      ensures table == [] || table[|table| - 1].nodeId != FingerAt(ring, self, k).nodeId
      ensures FirstFingers(k + 1, table + [FingerAt(ring, self, k)])
    {
      var idx := Clockwise(|ring|, self, Pow2(k));
      DifferentPlaces(ring, idx, self);
      if k > 0 {
        DifferentPlaces(ring, Clockwise(|ring|, self, Pow2(k - 1)), idx);
      }
    }

    method BuildFingerTable()
      requires OnRing()
      modifies this`fingers
      ensures Valid()
    {
      fingers := ListFingers();
    }

    method ListFingers() returns (table: seq<Finger>)
      requires OnRing()
      ensures IsFingerTable(ring, self, table)
    {
      table := [];
      var n := |ring|;
      if n <= 1 {
        return;
      }
      var bits := CountBits(n - 1);
      for k := 0 to bits
        invariant FirstFingers(k, table)
      {
        PowersWithin(n - 1, k);
        NextFinger(k, table);
        var skip, normalized, idx := Skip(k);
        var nodeId := ring[idx];
        if normalized != 0 && nodeId != me && (table == [] || table[|table| - 1].nodeId != nodeId) {
          table := table + [Finger(nodeId, idx, skip, normalized)];
        }
      }
    }

    /** The best of the first `i` fingers. */
    ghost predicate BestOf(i: nat, neighbors: set<int>, d: nat, best: Option<int>, bestSkip: nat, k: nat)
      reads this
      requires Valid() && i <= |fingers|
    {
      && (best.None? ==> bestSkip == 0)
      && (best.Some? ==> k < i && fingers[k].nodeId == best.value && best.value in neighbors && fingers[k].skipNormalized == bestSkip <= d)
      && forall j :: 0 <= j < i && fingers[j].nodeId in neighbors && fingers[j].skipNormalized <= d
           ==> best.Some? && fingers[j].skipNormalized <= bestSkip
    }

    lemma BestOfAll(neighbors: set<int>, d: nat, best: Option<int>, bestSkip: nat, k: nat)
      requires Valid() && BestOf(|fingers|, neighbors, d, best, bestSkip, k)
      ensures best.Some? ==> BestFinger(ring, self, neighbors, d, best.value, k)
      ensures best.None? ==> NoFinger(ring, self, neighbors, d)
    {
      forall id, j: nat | IsFinger(ring, self, neighbors, id, j) && Pow2(j) <= d
        ensures best.Some? && Pow2(j) <= bestSkip
      {
        FingerIsThere(ring, self, fingers, j);
        assert fingers[j].nodeId == id;
      }
    }

    method SelectFinger(target: int, neighbors: set<int>) returns (best: Option<int>, ghost k: nat)
      requires Valid()
      ensures best.Some? ==> target in index && BestFinger(ring, self, neighbors, StepsTo(ring, index, self, target), best.value, k)
      ensures best.None? && target in index ==> NoFinger(ring, self, neighbors, StepsTo(ring, index, self, target))
    {
      k := 0;
      var n := |ring|;
      if n <= 1 || target !in index {
        return None, 0;
      }
      var d := (index[target] + n - self) % n;
      RingArithmetic(n, self, index[target], 0);
      if d == 0 {
        return None, 0;
      }
      best := None;
      var bestSkip := 0;
      for i := 0 to |fingers|
        invariant BestOf(i, neighbors, d, best, bestSkip, k)
      {
        var entry := fingers[i];
        if entry.nodeId in neighbors && entry.skipNormalized != 0 && entry.skipNormalized <= d && entry.skipNormalized > bestSkip {
          best, bestSkip, k := Some(entry.nodeId), entry.skipNormalized, i;
        }
      }
      BestOfAll(neighbors, d, best, bestSkip, k);
    }

    method ChooseClockwiseNeighbor(target: int, neighbors: set<int>) returns (best: Option<int>, ghost e: nat)
      requires Valid()
      ensures best.Some? ==> target in index && Nearest(ring, self, neighbors, best.value, e)
      ensures best.None? && target in index && target != me ==> NobodyAhead(ring, self, neighbors)
    {
      var n := |ring|;
      if n <= 1 || neighbors == {} || target !in index {
        return None, 0;
      }
      var d := (index[target] + n - self) % n;
      RingArithmetic(n, self, index[target], 0);
      if d == 0 {
        return None, 0;
      }
      var distance;
      best, distance := NearestWithin(ring, index, self, neighbors, d);
      if best.None? {
        best, distance := NearestWithin(ring, index, self, neighbors, n);
      }
      e := distance;
      forall id, j: nat ensures Ahead(ring, self, neighbors, id, j)
                           <==> id in neighbors && id in index && 0 < j == StepsTo(ring, index, self, id) {
        AheadByIndex(ring, index, self, neighbors, id, j);
      }
    }

    function Totals(): Account
      reads this
    {
      Account(requestsSatisfied, totalHops, totalLatency)
    }

    /** The finger that covers most of the way, or else the nearest neighbour ahead. */
    method PassOn(msg: Lookup, target: int, neighbors: set<int>) returns (sent: Option<(Lookup, int)>, ghost e: nat)
      requires Valid()
      ensures sent.Some? ==> sent.value.0 == Passed(me, msg) && target in index
      ensures sent.Some? ==> MayForward(ring, self, neighbors, StepsTo(ring, index, self, target), sent.value.1, e)
      ensures sent.None? && target != me && target in index ==> NobodyAhead(ring, self, neighbors)
    {
      sent := None;
      ghost var k: nat;
      var next;
      next, k := SelectFinger(target, neighbors);
      e := Pow2(k);
      if next.None? {
        next, e := ChooseClockwiseNeighbor(target, neighbors);
      }
      if next.Some? && next.value != me && next.value in neighbors {
        sent := Some((msg.(hops := msg.hops + 1, lastHop := Some(me)), next.value));
      }
    }

    /** Either the lookup has arrived and is accounted for, or it goes on with one more hop, or it dies here. */
    method HandleLookup(msg: Lookup, neighbors: set<int>, round: int) returns (sent: Option<(Lookup, int)>, ghost e: nat)
      requires Valid()
      modifies this`requestsSatisfied, this`totalHops, this`totalLatency
      ensures Valid()
      ensures Totals() == if msg.targetId == Some(me) then Arrived(old(Totals()), msg, round) else old(Totals())
      ensures msg.targetId == Some(me) ==> sent.None?
      ensures sent.Some? ==> sent.value.0 == Passed(me, msg) && msg.targetId.Some? && msg.targetId.value in index
      ensures sent.Some? ==> MayForward(ring, self, neighbors, StepsTo(ring, index, self, msg.targetId.value), sent.value.1, e)
      ensures sent.None? && msg.targetId.Some? && msg.targetId.value != me && msg.targetId.value in index
              ==> NobodyAhead(ring, self, neighbors)
    {
      sent, e := None, 0;
      if msg.targetId.None? {
        return;
      }
      var target := msg.targetId.value;
      if target == me {
        requestsSatisfied := requestsSatisfied + 1;
        totalHops := totalHops + msg.hops;
        totalLatency := totalLatency + (round - msg.roundSubmitted);
        return;
      }
      sent, e := PassOn(msg, target, neighbors);
    }

    /** A lookup for the peer itself is satisfied on the spot; any other one starts out from here. */
    method SubmitLookup(transactionId: int, target: int, neighbors: set<int>, round: int)
      returns (sent: Option<(Lookup, int)>, ghost e: nat)
      requires Valid()
      modifies this`requestsSatisfied
      ensures Valid() && requestsSatisfied == old(requestsSatisfied) + if target == me then 1 else 0
      ensures target == me ==> sent.None?
      ensures sent.Some? ==> sent.value.0 == Passed(me, Fresh(me, target, transactionId, round)) && target in index
      ensures sent.Some? ==> MayForward(ring, self, neighbors, StepsTo(ring, index, self, target), sent.value.1, e)
      ensures sent.None? && target != me && target in index ==> NobodyAhead(ring, self, neighbors)
    {
      sent, e := None, 0;
      var msg := Lookup(transactionId, me, Some(target), round, 0, None);
      if target == me {
        requestsSatisfied := requestsSatisfied + 1;
        return;
      }
      sent, e := PassOn(msg, target, neighbors);
    }
  }
}
