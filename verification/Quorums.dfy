/** Counting arguments shared by the two consensus protocols. */
module Quorums {

  datatype Option<+T> = None | Some(value: T)

  /** A committee is the iteration order of a `std::set`: strictly increasing identifiers. */
  predicate Increasing(s: seq<int>) {
    forall i, j :: 0 <= i < j < |s| ==> s[i] < s[j]
  }

  function Elements<T>(s: seq<T>): (r: set<T>) {
    set x | x in s
  }

  lemma {:induction false} IncreasingSize(s: seq<int>)
    requires Increasing(s)
    ensures |Elements(s)| == |s|
  {
    if s == [] {
      assert Elements(s) == {};
    } else {
      var init, last := s[..|s| - 1], s[|s| - 1];
      IncreasingSize(init);
      assert Elements(s) == Elements(init) + {last};
    }
  }

  lemma SubsetSize<T>(a: set<T>, b: set<T>)
    requires a <= b
    ensures |a| <= |b|
  {
    assert b == a + (b - a);
  }

  /** Inclusion and exclusion inside a committee `all`. */
  lemma Overlap<T>(a: set<T>, b: set<T>, all: set<T>)
    requires a <= all && b <= all
    ensures |a * b| >= |a| + |b| - |all|
  {
    assert |a + b| == |a| + |b| - |a * b|;
    SubsetSize(a + b, all);
  }

  lemma MemberOutside<T>(a: set<T>, bad: set<T>) returns (x: T)
    requires |a| > |bad|
    ensures x in a && x !in bad
  {
    if a <= bad {
      SubsetSize(a, bad);
    }
    x :| x in a && x !in bad;
  }

  /** The number of members of `a` outside `bad`. */
  lemma OutsideSize<T>(a: set<T>, bad: set<T>)
    ensures |a - bad| >= |a| - |bad|
  {
    assert a == (a - bad) + (a * bad);
    SubsetSize(a * bad, bad);
  }

  /** Two majorities of one committee share a member. */
  lemma MajoritiesMeet<T>(a: set<T>, b: set<T>, all: set<T>) returns (x: T)
    requires a <= all && b <= all
    requires |a| > |all| / 2 && |b| > |all| / 2
    ensures x in a && x in b
  {
    Overlap(a, b, all);
    x := MemberOutside(a * b, {});
  }

  // ---------------------------------------------------------------- lists without repetition

  predicate Unique<T(==)>(a: seq<T>) {
    forall i, j :: 0 <= i < j < |a| ==> a[i] != a[j]
  }

  lemma UniqueConcat<T>(a: seq<T>, b: seq<T>)
    requires Unique(a) && Unique(b) && forall x :: x in a ==> x !in b
    ensures Unique(a + b)
  {
    forall i, j | 0 <= i < j < |a + b| ensures (a + b)[i] != (a + b)[j] {
      if i < |a| <= j {
        assert a[i] in a && b[j - |a|] in b;
      }
    }
  }

  lemma {:induction false} UniqueSize<T>(a: seq<T>)
    requires Unique(a)
    ensures |Elements(a)| == |a|
    decreases |a|
  {
    if a == [] {
      assert Elements(a) == {};
    } else {
      var init, last := a[..|a| - 1], a[|a| - 1];
      UniqueSize(init);
      assert Elements(a) == Elements(init) + {last};
    }
  }

  /** The list without `x`. */
  function Besides<T(==)>(ids: seq<T>, x: T): seq<T> {
    if ids == [] then []
    else Besides(ids[..|ids| - 1], x) + if ids[|ids| - 1] == x then [] else [ids[|ids| - 1]]
  }

  lemma {:induction false} BesidesHas<T>(ids: seq<T>, x: T)
    ensures forall y :: y in Besides(ids, x) <==> y in ids && y != x
    ensures Unique(ids) ==> Unique(Besides(ids, x))
    ensures Unique(ids) ==> |Besides(ids, x)| == if x in ids then |ids| - 1 else |ids|
    decreases |ids|
  {
    if ids != [] {
      var init, last := ids[..|ids| - 1], ids[|ids| - 1];
      BesidesHas(init, x);
      assert ids == init + [last];
      if Unique(ids) {
        assert last !in init;
        if last != x {
          UniqueConcat(Besides(init, x), [last]);
        } else {
          assert Besides(ids, x) == Besides(init, x);
        }
      }
    }
  }

  /** Any set can be listed. */
  lemma {:induction false} Listed<T>(s: set<T>) returns (ids: seq<T>)
    ensures Unique(ids) && |ids| == |s| && forall x :: x in ids <==> x in s
    decreases |s|
  {
    if s == {} {
      ids := [];
    } else {
      var x :| x in s;
      ids := Listed(s - {x});
      UniqueConcat(ids, [x]);
      ids := ids + [x];
    }
  }

  /** Any set has subsets of every smaller size. */
  lemma {:induction false} Part<T>(s: set<T>, k: nat) returns (t: set<T>)
    requires k <= |s|
    ensures t <= s && |t| == k
    decreases |s| - k
  {
    t := s;
    if k < |s| {
      var x :| x in s;
      t := Part(s - {x}, k);
    }
  }

  /** The members `lo` up to, but without, `hi`. */
  function Span(lo: nat, hi: nat): (ids: seq<int>)
    requires lo <= hi
    ensures |ids| == hi - lo && Increasing(ids) && Unique(ids) && forall x :: x in ids <==> lo <= x < hi
  {
    var ids := seq(hi - lo, i requires 0 <= i < hi - lo => lo + i);
    InSpan(ids, lo, hi);
    ids
  }

  lemma InSpan(ids: seq<int>, lo: nat, hi: nat)
    requires lo <= hi && |ids| == hi - lo && forall i :: 0 <= i < |ids| ==> ids[i] == lo + i
    ensures forall x :: x in ids <==> lo <= x < hi
  {
    forall x | lo <= x < hi ensures x in ids {
      assert ids[x - lo] == x;
    }
  }
}
