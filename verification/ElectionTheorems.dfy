/** What elections guarantee over whole runs. */
module ElectionTheorems {
  import opened Types
  import opened NodeSpec
  import opened NodeFacts
  import opened Cluster
  import opened Elections

  // ----- history only grows, terms only rise -----

  ghost predicate Extends(h: History, h': History) {
    && h.ballots <= h'.ballots && h.leaders <= h'.leaders && h.created <= h'.created
  }

  lemma NextMonotone(c: State, e: Event, n: NodeId)
    requires BaseInv(c) && Enabled(c, e) && n in c.nodes
    ensures Extends(c.h, Next(c, e).h)
    ensures n in Next(c, e).nodes && c.nodes[n].p.term <= Next(c, e).nodes[n].p.term
  {
    hide Handle, NodeInv;
    match e
    case Act(k, input) =>
      ActAdvances(c, k, input);
      AdvanceMonotone(c, k, input, Handle(c.nodes[k], input));
    case Crash(k) =>
    case Interrupt(k, input, writes) => InterruptFinds(c, k, input, writes);
  }

  lemma AdvanceMonotone(c: State, n: NodeId, input: Input, t: Node)
    requires Advances(c, n, input, t)
    ensures Extends(c.h, Advance(c, n, input, t).h) && c.nodes[n].p.term <= t.p.term
  {
  }

  lemma RunBase(cs: seq<State>, es: seq<Event>, i: nat)
    requires Run(cs, es) && i < |cs|
    ensures BaseInv(cs[i]) && cs[i].ids == cs[0].ids
  {
    hide Run;
    RunShape(cs, es);
    RunElection(cs, es, i);
  }

  lemma RunMonotone(cs: seq<State>, es: seq<Event>, i: nat, n: NodeId)
    requires Run(cs, es) && i < |es| && n in cs[i].nodes
    ensures Extends(cs[i].h, cs[i + 1].h)
    ensures n in cs[i + 1].nodes && cs[i].nodes[n].p.term <= cs[i + 1].nodes[n].p.term
  {
    hide Run;
    RunShape(cs, es);
    RunBase(cs, es, i);
    RunStep(cs, es, i);
    NextMonotone(cs[i], es[i], n);
  }

  /** The current term of a node never decreases, crashes included. */
  lemma {:induction false} TermsRise(cs: seq<State>, es: seq<Event>, i: nat, j: nat, n: NodeId)
    requires Run(cs, es) && i <= j < |cs| && n in cs[i].nodes
    ensures Extends(cs[i].h, cs[j].h)
    ensures n in cs[j].nodes && cs[i].nodes[n].p.term <= cs[j].nodes[n].p.term
  {
    hide Run;
    RunShape(cs, es);
    if i < j {
      TermsRise(cs, es, i, j - 1, n);
      RunMonotone(cs, es, j - 1, n);
    }
  }

  // ----- election safety -----

  /** Two majorities of the same cluster have a member in common. */
  lemma QuorumsMeet(ids: set<NodeId>, a: set<NodeId>, b: set<NodeId>) returns (x: NodeId)
    requires a <= ids && b <= ids
    requires |a| >= |ids| / 2 + 1 && |b| >= |ids| / 2 + 1
    ensures x in a && x in b
  {
    SubsetSize(a + b, ids);
    assert |a + b| + |a * b| == |a| + |b|;
    x :| x in a * b;
  }

  lemma OneLeaderPerTerm(c: State, term: nat, a: NodeId, b: NodeId)
    requires ElectionInv(c) && (term, a) in c.h.leaders && (term, b) in c.h.leaders
    ensures a == b
  {
    assert Supported(c, (term, a)) && Supported(c, (term, b));
    forall v | v in Supporters(c.h.ballots, term, a) + Supporters(c.h.ballots, term, b) ensures v in c.ids {
      var x :| x in c.h.ballots && x.voter == v;
      assert Cast(c, x);
    }
    var v := QuorumsMeet(c.ids, Supporters(c.h.ballots, term, a), Supporters(c.h.ballots, term, b));
  }

  ghost predicate Leads(c: State, n: NodeId, term: nat) {
    n in c.nodes && c.nodes[n].role.Leader? && c.nodes[n].p.term == term
  }

  lemma LeaderRemembered(cs: seq<State>, es: seq<Event>, i: nat, j: nat, n: NodeId, term: nat)
    requires Run(cs, es) && i <= j < |cs| && Leads(cs[i], n, term)
    ensures (term, n) in cs[j].h.leaders
  {
    hide Run;
    RunShape(cs, es);
    RunElection(cs, es, i);
    TermsRise(cs, es, i, j, n);
  }

  /** Election Safety: in a whole run at most one node is ever leader of a term. */
  lemma ElectionSafety(cs: seq<State>, es: seq<Event>, i: nat, j: nat, a: NodeId, b: NodeId, term: nat)
    requires Run(cs, es) && i < |cs| && j < |cs|
    requires Leads(cs[i], a, term) && Leads(cs[j], b, term)
    ensures a == b
  {
    hide Run;
    RunShape(cs, es);
    var k := if i < j then j else i;
    LeaderRemembered(cs, es, i, k, a, term);
    LeaderRemembered(cs, es, j, k, b, term);
    RunElection(cs, es, k);
    OneLeaderPerTerm(cs[k], term, a, b);
  }

  /** Step i makes node n the leader of the term. */
  ghost predicate Wins(cs: seq<State>, i: nat, n: NodeId, term: nat) {
    && i + 1 < |cs| && n in cs[i].nodes
    && !cs[i].nodes[n].role.Leader? && Leads(cs[i + 1], n, term)
  }

  /** A node that once led the term does not win it again. */
  lemma NoSecondWin(c: State, e: Event, n: NodeId, term: nat)
    requires ElectionInv(c) && Enabled(c, e) && n in c.nodes && (term, n) in c.h.leaders
    requires !c.nodes[n].role.Leader?
    ensures !Leads(Next(c, e), n, term)
  {
    hide Handle, NodeInv, BallotInv, CountInv, Supporters;
    assert Supported(c, (term, n));
    if e.Act? {
      ActAdvances(c, e.n, e.input);
      if e.n == n { PastLeader(c.nodes[n], e.input, Handle(c.nodes[n], e.input), term); }
    }
  }

  lemma PastLeader(s: Node, input: Input, t: Node, term: nat)
    requires NodeInv(s) && Step(s, input, t) && term <= s.p.term
    requires !s.role.Leader? && (term == s.p.term ==> !s.role.Candidate?)
    ensures !(t.role.Leader? && t.p.term == term)
  {
    hide LogStep, SendStep, TrailStep;
  }

  /** A term is won in at most one step of a run, even by the same node. */
  lemma TermWonOnce(cs: seq<State>, es: seq<Event>, i: nat, j: nat, a: NodeId, b: NodeId, term: nat)
    requires Run(cs, es) && Wins(cs, i, a, term) && Wins(cs, j, b, term)
    ensures i == j && a == b
  {
    hide Run, Next, Enabled, ElectionInv, Leads;
    RunShape(cs, es);
    ElectionSafety(cs, es, i + 1, j + 1, a, b, term);
    var first, second := if i < j then i else j, if i < j then j else i;
    if first < second {
      LeaderRemembered(cs, es, first + 1, second, a, term);
      RunElection(cs, es, second);
      RunStep(cs, es, second);
      NoSecondWin(cs[second], es[second], a, term);
    }
  }

  lemma LeaderStepInRun(cs: seq<State>, es: seq<Event>, i: nat, n: NodeId)
    requires Run(cs, es) && i < |es| && n in cs[i].nodes && n in cs[i + 1].nodes
    requires cs[i].nodes[n].role.Leader? && cs[i + 1].nodes[n].role.Leader?
    ensures cs[i].nodes[n].p.term == cs[i + 1].nodes[n].p.term
  {
    hide Run;
    RunShape(cs, es);
    RunBase(cs, es, i);
    RunStep(cs, es, i);
    LeaderStepKeepsTerm(cs[i], es[i], n);
  }

  /** While a node leads it keeps one term. */
  lemma {:induction false} LeadershipKeepsTerm(cs: seq<State>, es: seq<Event>, i: nat, j: nat, n: NodeId)
    requires Run(cs, es) && i <= j < |cs|
    requires forall k :: i <= k <= j ==> n in cs[k].nodes && cs[k].nodes[n].role.Leader?
    ensures cs[i].nodes[n].p.term == cs[j].nodes[n].p.term
  {
    hide Run;
    RunShape(cs, es);
    if i < j {
      LeadershipKeepsTerm(cs, es, i, j - 1, n);
      LeaderStepInRun(cs, es, j - 1, n);
    }
  }

  lemma LeaderStepKeepsTerm(c: State, e: Event, n: NodeId)
    requires BaseInv(c) && Enabled(c, e) && n in c.nodes && n in Next(c, e).nodes
    requires c.nodes[n].role.Leader? && Next(c, e).nodes[n].role.Leader?
    ensures Next(c, e).nodes[n].p.term == c.nodes[n].p.term
  {
    match e
    case Act(k, input) => ActAdvances(c, k, input);
    case Crash(k) =>
    case Interrupt(k, input, writes) =>
  }

  // ----- votes -----

  /** In step i node v grants its vote, or counts its own vote, for a candidate. */
  ghost predicate VotesIn(cs: seq<State>, es: seq<Event>, i: nat, v: NodeId, term: nat, candidate: NodeId)
  {
    && i < |es| && i + 1 < |cs|
    && es[i].Act? && es[i].n == v && v in cs[i].nodes && v in cs[i + 1].nodes
    && var t := cs[i + 1].nodes[v];
       || VoteReply(v, candidate, term, true) in t.sends
       || (Campaigns(cs[i].nodes[v], es[i].input) && candidate == v && term == t.p.term)
  }

  lemma VotingStep(cs: seq<State>, es: seq<Event>, i: nat, v: NodeId, term: nat, candidate: NodeId)
    requires Run(cs, es) && VotesIn(cs, es, i, v, term, candidate)
    ensures BaseInv(cs[i]) && cs[i].nodes[v].me == v && Enabled(cs[i], es[i])
    ensures cs[i + 1] == Next(cs[i], es[i]) && cs[i + 1].nodes[v] == Handle(cs[i].nodes[v], es[i].input)
  {
    hide Run;
    RunShape(cs, es);
    RunBase(cs, es, i);
    RunStep(cs, es, i);
  }

  lemma VoteCast(s: Node, input: Input, v: NodeId, term: nat, candidate: NodeId)
    requires NodeInv(s) && s.me == v
    requires var t := Handle(s, input);
             || VoteReply(v, candidate, term, true) in t.sends
             || (Campaigns(s, input) && candidate == v && term == t.p.term)
    ensures var t := Handle(s, input);
            Granted(t) + OwnBallot(s, input, t) == {Ballot(term, v, candidate, |s.p.log|)}
  {
    var t, m := Handle(s, input), VoteReply(v, candidate, term, true);
    HandleFacts(s, input, t);
    if m in t.sends {
      assert Sent(s, input, t, m);
      assert Ballot(m.term, m.src, m.dst, |t.p.log|) in Granted(t);
    }
    NewBallot(s, input, t, Ballot(term, v, candidate, |s.p.log|));
  }

  lemma VoteRecorded(cs: seq<State>, es: seq<Event>, i: nat, v: NodeId, term: nat, candidate: NodeId)
    requires Run(cs, es) && VotesIn(cs, es, i, v, term, candidate)
    ensures Ballot(term, v, candidate, |cs[i].nodes[v].p.log|) in cs[i + 1].h.ballots
  {
    hide Run;
    RunShape(cs, es);
    VotingStep(cs, es, i, v, term, candidate);
    VoteCast(cs[i].nodes[v], es[i].input, v, term, candidate);
  }

  lemma VoteIsFirst(cs: seq<State>, es: seq<Event>, i: nat, v: NodeId, term: nat, candidate: NodeId)
    requires Run(cs, es) && VotesIn(cs, es, i, v, term, candidate)
    ensures forall b :: b in cs[i].h.ballots && b.voter == v ==> b.term != term
  {
    RunElection(cs, es, i);
    VotingStep(cs, es, i, v, term, candidate);
    hide Run, Init, Next, Handle;
    var s, input := cs[i].nodes[v], es[i].input;
    VoteCast(s, input, v, term, candidate);
    HandleFacts(s, input, Handle(s, input));
    NewBallot(s, input, Handle(s, input), Ballot(term, v, candidate, |s.p.log|));
    forall b | b in cs[i].h.ballots && b.voter == v ensures b.term != term { assert Cast(cs[i], b); }
  }

  lemma VoteKept(cs: seq<State>, es: seq<Event>, i: nat, j: nat, v: NodeId, term: nat, a: NodeId) returns (b: Ballot)
    requires Run(cs, es) && i < j < |es| && VotesIn(cs, es, i, v, term, a)
    ensures b in cs[j].h.ballots && b.voter == v && b.term == term
  {
    hide Run;
    RunShape(cs, es);
    hide Handle, BaseInv, Init, Next;
    VoteRecorded(cs, es, i, v, term, a);
    TermsRise(cs, es, i + 1, j, v);
    b := Ballot(term, v, a, |cs[i].nodes[v].p.log|);
  }

  lemma VotedBefore(cs: seq<State>, es: seq<Event>, i: nat, j: nat, v: NodeId, term: nat, a: NodeId, b: NodeId)
    requires Run(cs, es) && VotesIn(cs, es, i, v, term, a) && VotesIn(cs, es, j, v, term, b)
    ensures j <= i
  {
    hide Run;
    RunShape(cs, es);
    if i < j {
      VoteIsFirst(cs, es, j, v, term, b);
      var b' := VoteKept(cs, es, i, j, v, term, a);
    }
  }

  /** One vote per term: in a whole run, with crashes between any two database writes,
      a node votes in at most one step of a term, and for one candidate. */
  lemma OneVotePerTerm(cs: seq<State>, es: seq<Event>, i: nat, j: nat, v: NodeId, term: nat, a: NodeId, b: NodeId)
    requires Run(cs, es) && VotesIn(cs, es, i, v, term, a) && VotesIn(cs, es, j, v, term, b)
    ensures i == j && a == b
  {
    hide Run;
    RunShape(cs, es);
    VotedBefore(cs, es, i, j, v, term, a, b);
    VotedBefore(cs, es, j, i, v, term, b, a);
    VotingStep(cs, es, i, v, term, a);
    VoteCast(cs[i].nodes[v], es[i].input, v, term, a);
    VoteCast(cs[i].nodes[v], es[i].input, v, term, b);
    assert Ballot(term, v, a, |cs[i].nodes[v].p.log|) in {Ballot(term, v, b, |cs[i].nodes[v].p.log|)};
  }

  ghost function LonelyStart(n: NodeId): State {
    State({n}, map k | k in {n} :: Boot(k, {n}, Persistent(0, 0, false, [])), {}, History({}, map[], {}, {}))
  }

  /** Such runs exist: the node of a cluster of one votes for itself and leads after its first election timeout. */
  lemma ClusterOfOneElects(n: NodeId)
    ensures var c, e := LonelyStart(n), Act(n, ElectionTimer);
            && Enabled(c, e)
            && var cs := [c, Next(c, e)];
               Run(cs, [e]) && VotesIn(cs, [e], 0, n, 1, n) && Wins(cs, 0, n, 1)
  {
    hide Handle, Record;
    var p := Persistent(0, 0, false, []);
    assert LonelyStart(n).nodes[n] == Boot(n, {n}, p);
    LonelyElection(n, p);
  }

  lemma LonelyElection(n: NodeId, p: Persistent)
    ensures var t := Handle(Boot(n, {n}, p), ElectionTimer);
            t.role.Leader? && t.p.term == p.term + 1 && t.votes == 1
  {
  }

  /** The counter of received votes never exceeds the number of distinct nodes that voted for this node in its
      current term. */
  lemma VotesAreDistinct(cs: seq<State>, es: seq<Event>, i: nat, n: NodeId)
    requires Run(cs, es) && i < |cs| && n in cs[i].nodes
    ensures cs[i].nodes[n].votes <= |Supporters(cs[i].h.ballots, cs[i].nodes[n].p.term, n)|
  {
    hide Run;
    RunShape(cs, es);
    RunElection(cs, es, i);
    SubsetSize(Counted(cs[i], n), Supporters(cs[i].h.ballots, cs[i].nodes[n].p.term, n));
  }

  // ----- lifecycle -----

  /** A node is active exactly when it leads, its timers are armed as its state wants, and two active nodes are in
      different terms. */
  lemma ActiveNodesDiffer(cs: seq<State>, es: seq<Event>, i: nat, a: NodeId, b: NodeId)
    requires Run(cs, es) && i < |cs| && a in cs[i].nodes && b in cs[i].nodes
    ensures Imaged(cs[i].nodes[a]) && (cs[i].nodes[a].life.Active? <==> cs[i].nodes[a].role.Leader?)
    ensures a != b && cs[i].nodes[a].life.Active? && cs[i].nodes[b].life.Active? ==>
              cs[i].nodes[a].p.term != cs[i].nodes[b].p.term
  {
    RunBase(cs, es, i);
    hide Run, Init;
    var s, t := cs[i].nodes[a], cs[i].nodes[b];
    assert NodeInv(s) && NodeInv(t);
    if s.role.Leader? && t.role.Leader? && s.p.term == t.p.term {
      ElectionSafety(cs, es, i, i, a, b, s.p.term);
    }
  }
}
