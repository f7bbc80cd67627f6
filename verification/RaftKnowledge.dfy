/** What majorities know: how many confirmed requests a single member of every majority can know. */
module RaftKnowledge {
  import opened Quorums
  import opened RaftNode
  import opened RaftQueues
  import opened RaftRuns
  import opened RaftScenes

  /** The members that know every one of the given requests. */
  function KnowAll(s: System, keys: set<Key>): set<Id> {
    set p | p in s.nodes && keys <= s.nodes[p].known
  }

  ghost predicate EveryMajorityKnows(s: System, keys: set<Key>) {
    forall v :: v <= s.nodes.Keys && |v| > |s.nodes| / 2 ==> v * KnowAll(s, keys) != {}
  }

  ghost predicate AllConfirmed(s: System, keys: set<Key>) {
    forall k :: k in keys ==> exists p :: ConfirmedAt(s, p, k)
  }

  lemma EveryMajorityKnowsIf(s: System, keys: set<Key>)
    requires Lack(s, keys) <= |s.nodes| / 2
    ensures EveryMajorityKnows(s, keys)
  {
    var rest := s.nodes.Keys - KnowAll(s, keys);
    forall v | v <= s.nodes.Keys && |v| > |s.nodes| / 2 ensures v * KnowAll(s, keys) != {} {
      if v <= rest {
        SubsetSize(v, rest);
      }
      var x := MemberOutside(v, rest);
      assert x in v * KnowAll(s, keys);
    }
  }

  /** If `c` members at most lack each request, then at most `c` times their number lack one of them. */
  lemma {:induction false} LackingBound(s: System, keys: set<Key>, n: nat, c: nat)
    requires |keys| == n && forall k :: k in keys ==> LackOne(s, k) <= c
    ensures Lack(s, keys) <= n * c
    decreases n
  {
    if n == 0 {
      LackingNothing(s, keys);
    } else {
      var k :| k in keys;
      LackingBound(s, keys - {k}, n - 1, c);
      LackingOneMore(s, keys, k);
      OneMoreTime(n, c, Lack(s, keys - {k}), LackOne(s, k), Lack(s, keys));
    }
  }

  lemma LackingNothing(s: System, keys: set<Key>)
    requires keys == {}
    ensures Lack(s, keys) == 0
  {
    assert s.nodes.Keys - KnowAll(s, keys) == {};
  }

  function LackOne(s: System, k: Key): nat {
    |s.nodes.Keys - Holders(s, k)|
  }

  /** How many members lack at least one of the requests. */
  function Lack(s: System, keys: set<Key>): nat {
    |s.nodes.Keys - KnowAll(s, keys)|
  }

  lemma LackingOneMore(s: System, keys: set<Key>, k: Key)
    requires k in keys
    ensures Lack(s, keys) <= Lack(s, keys - {k}) + LackOne(s, k)
  {
    var all, a, b := s.nodes.Keys - KnowAll(s, keys), s.nodes.Keys - KnowAll(s, keys - {k}), s.nodes.Keys - Holders(s, k);
    forall p | p in all ensures p in a + b {
      assert keys <= s.nodes[p].known <==> keys - {k} <= s.nodes[p].known && k in s.nodes[p].known;
    }
    SubsetSize(all, a + b);
    assert |a + b| == |a| + |b| - |a * b|;
  }

  lemma OneMoreTime(n: nat, c: nat, x: nat, y: nat, z: nat)
    requires n > 0 && x <= (n - 1) * c && y <= c && z <= x + y
    ensures z <= n * c
  {
    assert (n - 1) * c + c == n * c;
  }

  lemma Lacking(s: System, k: Key)
    ensures LackOne(s, k) == |s.nodes| - |Holders(s, k)|
  {
    assert s.nodes.Keys == Holders(s, k) + (s.nodes.Keys - Holders(s, k));
  }

  /** Few requests among enough members: somebody in every majority knows them all. */
  lemma FewAreKnown(s: System, keys: set<Key>, c: int, m: nat)
    requires |keys| <= m && m * c <= |s.nodes| / 2
    requires forall k :: k in keys ==> |s.nodes| - |Holders(s, k)| <= c
    ensures EveryMajorityKnows(s, keys)
  {
    forall k | k in keys ensures LackOne(s, k) <= c {
      Lacking(s, k);
    }
    if keys == {} {
      LackingBound(s, keys, 0, 0);
    } else {
      var k :| k in keys;
      Lacking(s, k);
      LackingBound(s, keys, |keys|, c);
      MulGrows(|keys|, m, c);
    }
    EveryMajorityKnowsIf(s, keys);
  }

  lemma MulGrows(a: nat, b: nat, c: nat)
    requires a <= b
    ensures a * c <= b * c
  {
  }

  /** In every run: with m confirmed requests, every majority has a member that knows all of them
      as long as m * (N - N/2 - 1) <= N/2. */
  lemma FewConfirmedAreKnown(members: set<Id>, run: seq<System>, steps: seq<Step>, i: nat, keys: set<Key>)
    requires IsRun(members, run, steps) && i < |run| && AllConfirmed(run[i], keys)
    requires |keys| * (|members| - |members| / 2 - 1) <= |members| / 2
    ensures EveryMajorityKnows(run[i], keys)
  {
    var s := run[i];
    MembersStay(members, run, steps, i);
    assert |s.nodes| == |s.nodes.Keys| == |members|;
    forall k | k in keys ensures |s.nodes| - |Holders(s, k)| <= |members| - |members| / 2 - 1 {
      var p :| ConfirmedAt(s, p, k);
      ConfirmedIsDurable(members, run, steps, i, i, p, k);
    }
    FewAreKnown(s, keys, |members| - |members| / 2 - 1, |keys|);
  }

  // ---------------------------------------------------------------- without echoes

  /** One member more than a majority knows the request. */
  predicate Wide(s: System, k: Key) {
    |Holders(s, k)| > |s.nodes| / 2 + 1
  }

  ghost predicate WideNode(s: System, p: Id, n: Node) {
    (forall k :: p !in RepliesFor(n, k)) && (forall k :: k in n.committed ==> Wide(s, k))
  }

  /** A leader that does not hear itself counts only others, and knows the request besides. */
  ghost predicate WideInv(s: System) {
    && Inv(s)
    && (forall p :: p in s.nodes ==> WideNode(s, p, s.nodes[p]))
    && (forall m :: m in s.sent && m.Commit? ==> Wide(s, KeyOf(m.request)))
  }

  lemma WideGrows(s: System, t: System, k: Key)
    requires Grows(s, t) && Wide(s, k)
    ensures Wide(t, k)
  {
    BackingGrows(s, t, k);
    SubsetSize(Holders(s, k), Holders(t, k));
    assert |s.nodes.Keys| == |t.nodes.Keys|;
  }

  lemma LearnedIsWide(s: System, step: Step, k: Key)
    requires WideInv(s) && Enabled(s, step) && !Echoes(step)
    requires Learns(Config(s.nodes.Keys, step.p), s.nodes[step.p], step.e, k)
    ensures Wide(s, k)
  {
    var p, m := step.p, step.e.m;
    var n := s.nodes[p];
    if m.Respond? {
      assert NodeOk(s, n) && MsgOk(s, m) && WideNode(s, p, n) && RepliesOk(s, n, k);
      var all := RepliesFor(n, k) + [m.from];
      OneMoreReply(s, n, k, m.from);
      UniqueConcat(all, [p]);
      UniqueSize(all + [p]);
      assert Waiting(n)[0] == k;
      assert p in Holders(s, k);
      SubsetSize(Elements(all + [p]), Holders(s, k));
    }
  }

  lemma MoverIsWide(s: System, step: Step, t: System)
    requires WideInv(s) && Enabled(s, step) && !Echoes(step) && t == Apply(s, step) && Grows(s, t)
    requires Outcome(Config(s.nodes.Keys, step.p), s.nodes[step.p], step.e,
                     Handle(Config(s.nodes.Keys, step.p), s.nodes[step.p], step.e, step.now))
    ensures WideNode(t, step.p, t.nodes[step.p])
  {
    var p, c := step.p, Config(s.nodes.Keys, step.p);
    var n, n' := s.nodes[p], t.nodes[p];
    assert WideNode(s, p, n);
    forall k ensures p !in RepliesFor(n', k) {
      assert CountsWell(c, n, step.e, n', k);
    }
    forall k | k in n'.committed ensures Wide(t, k) {
      if k !in n.committed {
        LearnedIsWide(s, step, k);
      }
      WideGrows(s, t, k);
    }
  }

  lemma WideKept(s: System, step: Step)
    requires WideInv(s) && Enabled(s, step) && !Echoes(step)
    ensures WideInv(Apply(s, step))
  {
    var t := Apply(s, step);
    InvKept(s, step);
    ApplyGrows(s, step);
    forall q | q in t.nodes ensures WideNode(t, q, t.nodes[q]) {
      if q == step.p {
        MoverIsWide(s, step, t);
      } else {
        OtherIsWide(s, t, q);
      }
    }
    forall m | m in t.sent && m.Commit? ensures Wide(t, KeyOf(m.request)) {
      CommitIsWide(s, step, t, m);
    }
  }

  lemma OtherIsWide(s: System, t: System, q: Id)
    requires WideInv(s) && Grows(s, t) && q in s.nodes && t.nodes[q] == s.nodes[q]
    ensures WideNode(t, q, t.nodes[q])
  {
    assert WideNode(s, q, s.nodes[q]);
    forall k | k in t.nodes[q].committed ensures Wide(t, k) {
      WideGrows(s, t, k);
    }
  }

  lemma CommitIsWide(s: System, step: Step, t: System, m: Msg)
    requires WideInv(s) && Enabled(s, step) && !Echoes(step) && t == Apply(s, step) && Grows(s, t) && m in t.sent && m.Commit?
    requires Outcome(Config(s.nodes.Keys, step.p), s.nodes[step.p], step.e,
                     Handle(Config(s.nodes.Keys, step.p), s.nodes[step.p], step.e, step.now))
    ensures Wide(t, KeyOf(m.request))
  {
    if m !in s.sent {
      assert SendsWell(Config(s.nodes.Keys, step.p), s.nodes[step.p], step.e, t.nodes[step.p], m);
      LearnedIsWide(s, step, KeyOf(m.request));
    }
    WideGrows(s, t, KeyOf(m.request));
  }

  lemma StartIsWide(members: set<Id>, s: System)
    requires IsStart(members, s)
    ensures WideInv(s)
  {
    StartInv(members, s);
    forall p | p in s.nodes ensures WideNode(s, p, s.nodes[p]) {
      assert StartsAt(s, p);
    }
  }

  lemma {:induction false} RunIsWide(members: set<Id>, run: seq<System>, steps: seq<Step>, i: nat)
    requires IsPlainRun(members, run, steps) && i < |run|
    ensures WideInv(run[i])
    decreases i
  {
    if i == 0 {
      StartIsWide(members, run[0]);
    } else {
      RunIsWide(members, run, steps, i - 1);
      assert StepAt(run, steps, i - 1);
      WideKept(run[i - 1], steps[i - 1]);
    }
  }

  /** Where nobody hears itself, one more member knows each request and more of them are covered. */
  lemma FewConfirmedAreWidelyKnown(members: set<Id>, s: System, keys: set<Key>, m: nat, c: int)
    requires Reachable(members, s) && AllConfirmed(s, keys) && |keys| <= m
    requires c == |members| - |members| / 2 - 2 && m * c <= |members| / 2
    ensures EveryMajorityKnows(s, keys)
  {
    var run, steps :| IsPlainRun(members, run, steps) && run[|steps|] == s;
    RunIsWide(members, run, steps, |steps|);
    MembersStay(members, run, steps, |steps|);
    assert |s.nodes| == |s.nodes.Keys| == |members|;
    forall k | k in keys ensures |s.nodes| - |Holders(s, k)| <= c {
      var p :| ConfirmedAt(s, p, k);
      assert NodeOk(s, s.nodes[p]) && WideNode(s, p, s.nodes[p]);
    }
    FewAreKnown(s, keys, c, m);
  }
}
