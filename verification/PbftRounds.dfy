/**
 * One round of the replica object is a stretch of a run of the committee, so whatever holds of all
 * runs holds of the objects.
 */
module PbftRounds {
  import opened Quorums
  import opened PbftNode
  import opened PbftRuns
  import PbftReplica

  /** The run goes on at `p` alone: its state becomes `node`, and everything sent stays sent. */
  ghost predicate GoesOn(w: World, run: seq<System>, steps: seq<Step>, run': seq<System>, steps': seq<Step>, p: Id, node: Node) {
    && IsRun(w, run, steps) && IsRun(w, run', steps') && run <= run' && steps <= steps'
    && var s, t := run[|steps|], run'[|steps'|];
       p in s.nodes && t.nodes == s.nodes[p := node] && s.sent <= t.sent
  }

  function Deliveries(p: Id, arrived: seq<Msg>): seq<Step> {
    seq(|arrived|, i requires 0 <= i < |arrived| => Deliver(p, arrived[i]))
  }

  function Asked(p: Id, round: nat, requests: seq<Request>): seq<Step> {
    seq(|requests|, i requires 0 <= i < |requests| => Client(p, round, requests[i]))
  }

  lemma OneStep(w: World, run: seq<System>, steps: seq<Step>, run1: seq<System>, steps1: seq<Step>, p: Id, node: Node, step: Step)
    returns (run': seq<System>, steps': seq<Step>)
    requires GoesOn(w, run, steps, run1, steps1, p, node) && step.p == p && Enabled(w, run1[|steps1|], step)
    ensures run' == run1 + [Apply(w, run1[|steps1|], step)] && steps' == steps1 + [step]
    ensures GoesOn(w, run, steps, run', steps', p, Apply(w, run1[|steps1|], step).nodes[p])
  {
    var t := run1[|steps1|];
    run', steps' := run1 + [Apply(w, t, step)], steps1 + [step];
    forall i | 0 <= i < |steps'| ensures StepAt(w, run', steps', i) {
      if i < |steps1| {
        assert StepAt(w, run1, steps1, i);
      }
    }
  }

  lemma {:induction false} MessagesArrive(w: World, run: seq<System>, steps: seq<Step>, p: Id, arrived: seq<Msg>)
    returns (run': seq<System>, steps': seq<Step>)
    requires IsRun(w, run, steps) && p in run[|steps|].nodes
    requires forall i :: 0 <= i < |arrived| ==> Deliverable(w, run[|steps|].sent, arrived[i])
    ensures var n := run[|steps|].nodes[p]; GoesOn(w, run, steps, run', steps', p, n.(log := n.log + arrived))
    ensures steps' == steps + Deliveries(p, arrived)
    decreases |arrived|
  {
    var s := run[|steps|];
    var n := s.nodes[p];
    if arrived == [] {
      run', steps' := run, steps;
      assert s.nodes[p := n] == s.nodes && n.log + arrived == n.log;
    } else {
      var init, m := arrived[..|arrived| - 1], arrived[|arrived| - 1];
      run', steps' := MessagesArrive(w, run, steps, p, init);
      assert Deliverable(w, run'[|steps'|].sent, m);
      run', steps' := OneStep(w, run, steps, run', steps', p, n.(log := n.log + init), Deliver(p, m));
      assert n.log + init + [m] == n.log + arrived;
      assert Deliveries(p, arrived) == Deliveries(p, init) + [Deliver(p, m)];
    }
  }

  lemma {:induction false} RequestsArrive(w: World, run: seq<System>, steps: seq<Step>, run1: seq<System>, steps1: seq<Step>,
                                          p: Id, node: Node, requests: seq<Request>, round: nat)
    returns (run': seq<System>, steps': seq<Step>)
    requires GoesOn(w, run, steps, run1, steps1, p, node)
    ensures GoesOn(w, run, steps, run', steps', p,
                   node.(unhandled := PbftReplica.InsertAll(node.unhandled, requests, round)))
    ensures steps' == steps1 + Asked(p, round, requests)
    decreases |requests|
  {
    if requests == [] {
      run', steps' := run1, steps1;
    } else {
      var init, r := requests[..|requests| - 1], requests[|requests| - 1];
      run', steps' := RequestsArrive(w, run, steps, run1, steps1, p, node, init, round);
      run', steps' := OneStep(w, run, steps, run', steps', p,
                              node.(unhandled := PbftReplica.InsertAll(node.unhandled, init, round)), Client(p, round, r));
      assert Asked(p, round, requests) == Asked(p, round, init) + [Client(p, round, r)];
    }
  }

  /**
   * What the object does in one round, with any messages that can reach it and any requests of
   * clients, the steps of a run do to the replica: one delivery for each message, one client step
   * for each request, in order, and one call of the phase.
   */
  lemma RoundIsRun(w: World, run: seq<System>, steps: seq<Step>, p: Id, arrived: seq<Msg>, requests: seq<Request>, round: nat)
    returns (run': seq<System>, steps': seq<Step>)
    requires IsRun(w, run, steps) && p in run[|steps|].nodes
    requires forall i :: 0 <= i < |arrived| ==> Deliverable(w, run[|steps|].sent, arrived[i])
    ensures var r := RunPhase(Config(w.committee, p), PbftReplica.File(run[|steps|].nodes[p], arrived, requests, round), round);
      && GoesOn(w, run, steps, run', steps', p, r.node)
      && SentIn(r.events) <= run'[|steps'|].sent
    ensures steps' == steps + Deliveries(p, arrived) + Asked(p, round, requests) + [Run(p, round)]
  {
    var n := run[|steps|].nodes[p];
    run', steps' := MessagesArrive(w, run, steps, p, arrived);
    run', steps' := RequestsArrive(w, run, steps, run', steps', p, n.(log := n.log + arrived), requests, round);
    run', steps' := OneStep(w, run, steps, run', steps', p, PbftReplica.File(n, arrived, requests, round), Run(p, round));
  }
}
