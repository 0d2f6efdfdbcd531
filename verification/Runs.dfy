/** Building runs: prefixes of a run, and a run continued by one more step. */
module Runs {
  import opened Types
  import opened NodeSpec
  import opened Cluster

  /** A run, sparing if asked for. */
  ghost predicate RunOf(cs: seq<State>, es: seq<Event>, spared: bool) {
    if spared then SparingRun(cs, es) else Run(cs, es)
  }

  ghost function Final(cs: seq<State>): State
    requires cs != []
  {
    cs[|cs| - 1]
  }

  lemma RunOfShape(cs: seq<State>, es: seq<Event>, spared: bool)
    requires RunOf(cs, es, spared)
    ensures Run(cs, es) && |cs| == |es| + 1
  {
  }

  lemma EmptyRun(c: State, spared: bool)
    requires Init(c)
    ensures RunOf([c], [], spared)
  {
  }

  lemma RunPrefix(cs: seq<State>, es: seq<Event>, spared: bool, i: nat)
    requires RunOf(cs, es, spared) && i < |cs|
    ensures RunOf(cs[..i + 1], es[..i], spared)
  {
    hide Init, Enabled, Next, Spares;
    var cs', es' := cs[..i + 1], es[..i];
    forall j {:trigger es'[j]} | 0 <= j < |es'|
      ensures Enabled(cs'[j], es'[j]) && cs'[j + 1] == Next(cs'[j], es'[j]) && (spared ==> Spares(cs'[j], es'[j]))
    {
      assert es'[j] == es[j] && cs'[j] == cs[j] && cs'[j + 1] == cs[j + 1];
    }
  }

  /** A run goes on with a node that handles an input. */
  lemma Continue(cs: seq<State>, es: seq<Event>, spared: bool, n: NodeId, input: Input)
    returns (cs': seq<State>, es': seq<Event>)
    requires RunOf(cs, es, spared) && cs != [] && CanHandle(Final(cs), n, input)
    requires spared ==> LeaderSpared(Final(cs).nodes[n], input)
    ensures RunOf(cs', es', spared)
    ensures es' == es + [Act(n, input)] && |cs'| == |cs| + 1 && cs <= cs'
    ensures var c, c' := Final(cs), Final(cs');
            var t := Handle(c.nodes[n], input);
            && c'.ids == c.ids && c'.nodes == c.nodes[n := t] && c'.net == (c.net - Consumed(input)) + t.sends
  {
    hide Init, Handle, LeaderSpared;
    assert n in Final(cs).nodes;
    hide CanHandle;
    var e := Act(n, input);
    es' := es + [e];
    cs' := cs + [Advance(Final(cs), n, input, Handle(Final(cs).nodes[n], input))];
    assert Enabled(Final(cs), e) && (spared ==> Spares(Final(cs), e));
    hide Enabled, Spares;
    forall j {:trigger es'[j]} | 0 <= j < |es'|
      ensures Enabled(cs'[j], es'[j]) && cs'[j + 1] == Next(cs'[j], es'[j]) && (spared ==> Spares(cs'[j], es'[j]))
    {
      if j < |es| { assert es'[j] == es[j] && cs'[j] == cs[j] && cs'[j + 1] == cs[j + 1]; }
    }
  }
}
