/** A stretch of a cluster run in which a node does not crash, seen as a run of that node alone. */
module Stretches {
  import opened Types
  import opened NodeSpec
  import opened NodeFacts
  import opened Cluster
  import opened ElectionTheorems
  import opened LogMatching
  import opened Replies
  import opened Replay

  ghost predicate Member(cs: seq<State>, n: NodeId) {
    forall k :: 0 <= k < |cs| ==> n in cs[k].nodes
  }

  predicate ActsIn(es: seq<Event>, k: nat, n: NodeId)
    requires k < |es|
  {
    es[k].Act? && es[k].n == n
  }

  /** Between the moments i and j the node neither crashes nor is cut off in a step. */
  predicate Uninterrupted(es: seq<Event>, n: NodeId, i: nat, j: nat)
    requires j <= |es|
  {
    forall k :: i <= k < j && es[k].n == n ==> es[k].Act?
  }

  /** What the node handles in the stretch. */
  function Inputs(es: seq<Event>, n: NodeId, i: nat, j: nat): seq<Input>
    requires i <= j <= |es|
    decreases j - i
  {
    if i == j then [] else Inputs(es, n, i, j - 1) + if ActsIn(es, j - 1, n) then [es[j - 1].input] else []
  }

  /** The states it goes through. */
  ghost function States(cs: seq<State>, es: seq<Event>, n: NodeId, i: nat, j: nat): (ss: seq<Node>)
    requires i <= j <= |es| && j < |cs| && Member(cs, n)
    ensures |ss| == |Inputs(es, n, i, j)| + 1
    decreases j - i
  {
    if i == j then [cs[i].nodes[n]]
    else States(cs, es, n, i, j - 1) + if ActsIn(es, j - 1, n) then [cs[j].nodes[n]] else []
  }

  lemma MemberAlways(cs: seq<State>, es: seq<Event>, i: nat, n: NodeId)
    requires Run(cs, es) && i < |cs| && n in cs[i].nodes
    ensures Member(cs, n)
  {
    hide Run, NodeInv;
    RunBase(cs, es, i);
    forall k | 0 <= k < |cs| ensures n in cs[k].nodes { RunBase(cs, es, k); }
  }

  lemma OtherStep(c: State, e: Event, n: NodeId)
    requires Enabled(c, e) && n in c.nodes && e.n != n
    ensures n in Next(c, e).nodes && Next(c, e).nodes[n] == c.nodes[n]
  {
    hide Handle;
  }

  lemma OwnStep(c: State, e: Event, n: NodeId)
    requires Enabled(c, e) && n in c.nodes && e.Act? && e.n == n
    ensures n in Next(c, e).nodes && Next(c, e).nodes[n] == Handle(c.nodes[n], e.input)
  {
    hide Handle;
  }

  /** The stretch is a run of the node, from its state at i to its state at j. */
  lemma {:induction false} StretchIsNodeRun(cs: seq<State>, es: seq<Event>, n: NodeId, i: nat, j: nat)
    requires Run(cs, es) && i <= j < |cs| && j <= |es| && Member(cs, n) && Uninterrupted(es, n, i, j)
    ensures var ss, ins := States(cs, es, n, i, j), Inputs(es, n, i, j);
            && NodeRun(ss, ins) && ss[0] == cs[i].nodes[n] && ss[|ss| - 1] == cs[j].nodes[n]
            && (SparingRun(cs, es) ==> SpareRun(ss, ins))
    decreases j - i
  {
    hide Run, SparingRun, Handle, Next, Enabled, NodeInv, LeaderSpared, NodeRun, SpareRun;
    if i == j {
      RunBase(cs, es, i);
      Standstill(cs[i].nodes[n]);
    } else {
      StretchIsNodeRun(cs, es, n, i, j - 1);
      RunStep(cs, es, j - 1);
      if ActsIn(es, j - 1, n) {
        OwnStep(cs[j - 1], es[j - 1], n);
        if SparingRun(cs, es) { SpareStep(cs, es, j - 1); }
        var before, ins := States(cs, es, n, i, j - 1), Inputs(es, n, i, j - 1);
        assert ins == Inputs(es, n, i, j)[..|ins|] && before == States(cs, es, n, i, j)[..|before|];
        Prolonged(before, ins, es[j - 1].input, cs[j].nodes[n], SparingRun(cs, es));
      } else {
        OtherStep(cs[j - 1], es[j - 1], n);
        assert Inputs(es, n, i, j) == Inputs(es, n, i, j - 1);
        assert States(cs, es, n, i, j) == States(cs, es, n, i, j - 1);
      }
    }
  }

  lemma Standstill(s: Node)
    requires NodeInv(s)
    ensures NodeRun([s], []) && SpareRun([s], [])
  {
  }

  lemma Prolonged(ss: seq<Node>, ins: seq<Input>, input: Input, t: Node, spared: bool)
    requires NodeRun(ss, ins) && t == Handle(ss[|ss| - 1], input)
    requires spared ==> SpareRun(ss, ins) && LeaderSpared(ss[|ss| - 1], input)
    ensures NodeRun(ss + [t], ins + [input]) && (spared ==> SpareRun(ss + [t], ins + [input]))
  {
    hide Handle, NodeInv, LeaderSpared;
    var ss', ins' := ss + [t], ins + [input];
    forall k {:trigger ins'[k]} | 0 <= k < |ins'|
      ensures ss'[k + 1] == Handle(ss'[k], ins'[k]) && (spared ==> LeaderSpared(ss'[k], ins'[k]))
    {
      if k < |ins| { assert ins'[k] == ins[k] && ss'[k] == ss[k] && ss'[k + 1] == ss[k + 1]; }
    }
  }

  /** Under (A), between any two moments of a cluster run without a crash of the node: every promise it had open or was
      given is resolved once, or open. */
  lemma PromisesInCluster(cs: seq<State>, es: seq<Event>, n: NodeId, i: nat, j: nat, promise: nat)
    requires SparingRun(cs, es) && i <= j < |cs| && j <= |es| && n in cs[i].nodes && Uninterrupted(es, n, i, j)
    ensures Member(cs, n)
    ensures var ss, ins := States(cs, es, n, i, j), Inputs(es, n, i, j);
            Resolutions(ss, |ins|, promise) + Open(cs[j].nodes[n], promise)
            == Open(cs[i].nodes[n], promise) + Submitted(ins, |ins|, promise)
  {
    hide SparingRun, Run, BaseInv, MatchInv, NodeRun, SpareRun, States, Inputs, Uninterrupted;
    SparingIsRun(cs, es);
    MemberAlways(cs, es, i, n);
    StretchIsNodeRun(cs, es, n, i, j);
    TwoMoments(cs, es, i, i, n);
    NodeLogFacts(cs[i], n);
    PromisesConserved(States(cs, es, n, i, j), Inputs(es, n, i, j), |Inputs(es, n, i, j)|, promise);
  }

  /** Under (A), between any two such moments: an observer that starts from the log of the node and listens to its
      callbacks has a list that the node's log is a prefix of. */
  lemma ObserverInCluster(cs: seq<State>, es: seq<Event>, n: NodeId, i: nat, j: nat)
    requires SparingRun(cs, es) && i <= j < |cs| && j <= |es| && n in cs[i].nodes && Uninterrupted(es, n, i, j)
    ensures Member(cs, n)
    ensures var ss, ins := States(cs, es, n, i, j), Inputs(es, n, i, j);
            var seen := Seen(ss, Commands(cs[i].nodes[n].p.log), |ins|);
            && Commands(cs[j].nodes[n].p.log) <= seen
            && (|ins| > 0 && Notified(ss[|ins|].calls) ==> Commands(cs[j].nodes[n].p.log) == seen)
  {
    hide SparingRun, Run, BaseInv, MatchInv, NodeRun, SpareRun, States, Inputs, Uninterrupted, Commands, Seen;
    SparingIsRun(cs, es);
    MemberAlways(cs, es, i, n);
    StretchIsNodeRun(cs, es, n, i, j);
    TwoMoments(cs, es, i, i, n);
    NodeLogFacts(cs[i], n);
    var ss, ins := States(cs, es, n, i, j), Inputs(es, n, i, j);
    ObserverFollows(ss, ins, Commands(cs[i].nodes[n].p.log), |ins|);
  }
}
