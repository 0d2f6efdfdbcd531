/** Elections: one vote per node and term, at most one leader per term, and who supported it. */
module Elections {
  import opened Types
  import opened NodeSpec
  import opened NodeFacts
  import opened Cluster

  ghost predicate HasBallot(ballots: set<Ballot>, term: nat, voter: NodeId, candidate: NodeId) {
    exists l :: Ballot(term, voter, candidate, l) in ballots
  }

  /** The nodes that voted for this candidate in this term. */
  ghost function Supporters(ballots: set<Ballot>, term: nat, candidate: NodeId): set<NodeId> {
    set b | b in ballots && b.term == term && b.candidate == candidate :: b.voter
  }

  /** Those whose votes for the node, in its current term, are no longer on the way. */
  ghost function Counted(c: State, n: NodeId): set<NodeId>
    requires n in c.nodes
  {
    set b | b in c.h.ballots && b.term == c.nodes[n].p.term && b.candidate == n
            && VoteReply(b.voter, n, b.term, true) !in c.net
         :: b.voter
  }

  /** A ballot is cast by a node of the cluster, not ahead of that node's term, and marks the term as voted. */
  ghost predicate Cast(c: State, b: Ballot)
    requires BaseInv(c)
  {
    && b.voter in c.ids && b.candidate in c.ids
    && b.term <= c.nodes[b.voter].p.term
    && (b.term == c.nodes[b.voter].p.term ==> c.nodes[b.voter].p.voted)
  }

  ghost predicate OneVote(ballots: set<Ballot>) {
    forall b, b' :: b in ballots && b' in ballots && b.term == b'.term && b.voter == b'.voter ==> b == b'
  }

  ghost predicate GrantsCast(c: State) {
    forall m :: m in c.net && IsGrant(m) ==> m.src != m.dst && HasBallot(c.h.ballots, m.term, m.src, m.dst)
  }

  ghost predicate BallotInv(c: State)
    requires BaseInv(c)
  {
    && (forall b :: b in c.h.ballots ==> Cast(c, b))
    && OneVote(c.h.ballots)
    && GrantsCast(c)
  }

  ghost predicate CountInv(c: State)
    requires BaseInv(c)
  {
    forall n :: n in c.nodes ==> c.nodes[n].votes <= |Counted(c, n)|
  }

  // ----- ballots -----

  /** A step casts at most one ballot, by the node that steps, in a term it had not voted in. */
  lemma NewBallot(s: Node, input: Input, t: Node, b: Ballot)
    requires NodeInv(s) && Step(s, input, t)
    requires b in Granted(t) + OwnBallot(s, input, t)
    ensures b.voter == s.me && b.candidate in s.ids && b.term == t.p.term && t.p.voted
    ensures s.p.term < b.term || !s.p.voted
    ensures b.voterLog == |s.p.log|
    ensures Granted(t) + OwnBallot(s, input, t) == {b}
  {
  }

  lemma AdvanceBallots(c: State, n: NodeId, input: Input, t: Node)
    requires Advances(c, n, input, t) && BallotInv(c)
    ensures BaseInv(Advance(c, n, input, t)) && BallotInv(Advance(c, n, input, t))
  {
    hide NodeInv, LogStep, TrailStep;
    AdvanceBase(c, n, input, t);
    var s, c' := c.nodes[n], Advance(c, n, input, t);
    forall b | b in c'.h.ballots && b !in c.h.ballots
      ensures Granted(t) + OwnBallot(s, input, t) == {b} && Cast(c', b)
      ensures forall b' :: b' in c.h.ballots && b'.voter == b.voter ==> b'.term != b.term
    {
      NewBallot(s, input, t, b);
      assert forall b' :: b' in c.h.ballots ==> Cast(c, b');
    }
    forall b | b in c.h.ballots ensures Cast(c', b) { assert Cast(c, b); }
    forall m | m in c'.net && IsGrant(m)
      ensures m.src != m.dst && HasBallot(c'.h.ballots, m.term, m.src, m.dst)
    {
      GrantRecorded(c, n, input, t, m);
    }
  }

  lemma GrantRecorded(c: State, n: NodeId, input: Input, t: Node, m: Message)
    requires Advances(c, n, input, t) && GrantsCast(c)
    requires m in Advance(c, n, input, t).net && IsGrant(m)
    ensures m.src != m.dst && HasBallot(Advance(c, n, input, t).h.ballots, m.term, m.src, m.dst)
  {
    if m in t.sends {
      assert Sent(c.nodes[n], input, t, m);
      assert Ballot(m.term, m.src, m.dst, |t.p.log|) in Granted(t);
    } else {
      var l :| Ballot(m.term, m.src, m.dst, l) in c.h.ballots;
      assert Ballot(m.term, m.src, m.dst, l) in Advance(c, n, input, t).h.ballots;
    }
  }

  lemma RecoverBallots(c: State, n: NodeId, p: Persistent, made: set<Creation>)
    requires Found(c, n, p) && BallotInv(c)
    ensures BaseInv(Recover(c, n, p, made)) && BallotInv(Recover(c, n, p, made))
  {
    hide NodeInv;
    RecoverBase(c, n, p, made);
  }

  // ----- counting -----

  lemma SubsetSize<T>(a: set<T>, b: set<T>)
    requires a <= b
    ensures |a| <= |b|
  {
    if a != {} {
      var x :| x in a;
      SubsetSize(a - {x}, b - {x});
    }
  }

  /** A voter already counted stays counted as long as the term stays. */
  lemma CountedGrows(c: State, n: NodeId, input: Input, t: Node, k: NodeId)
    requires Advances(c, n, input, t) && BallotInv(c) && k in c.nodes
    requires k == n ==> t.p.term == c.nodes[n].p.term
    ensures BaseInv(Advance(c, n, input, t)) && Counted(c, k) <= Counted(Advance(c, n, input, t), k)
  {
    hide Step, NodeInv, Counted, Campaigns;
    AdvanceBase(c, n, input, t);
    forall v | v in Counted(c, k) ensures v in Counted(Advance(c, n, input, t), k) {
      StaysCounted(c, n, input, t, k, v);
    }
  }

  lemma StaysCounted(c: State, n: NodeId, input: Input, t: Node, k: NodeId, v: NodeId)
    requires Advances(c, n, input, t) && BallotInv(c) && k in c.nodes && v in Counted(c, k)
    requires k == n ==> t.p.term == c.nodes[n].p.term
    ensures v in Counted(Advance(c, n, input, t), k)
  {
    var b :| b in c.h.ballots && b.term == c.nodes[k].p.term && b.candidate == k && b.voter == v
             && VoteReply(v, k, b.term, true) !in c.net;
    assert Cast(c, b);
    NotGrantedAgain(c, n, input, t, b);
    hide Step, NodeInv, BallotInv, BaseInv, Campaigns;
    assert b in Advance(c, n, input, t).h.ballots;
  }

  /** A vote that was cast is not granted again. */
  lemma NotGrantedAgain(c: State, n: NodeId, input: Input, t: Node, b: Ballot)
    requires Advances(c, n, input, t) && b in c.h.ballots && Cast(c, b)
    ensures VoteReply(b.voter, b.candidate, b.term, true) !in t.sends
  {
    var m := VoteReply(b.voter, b.candidate, b.term, true);
    assert m in t.sends ==> Sent(c.nodes[n], input, t, m);
  }

  /** A reply that raises the tally is from a voter that was not counted before. */
  lemma CountedOnce(c: State, n: NodeId, input: Input, t: Node)
    requires Advances(c, n, input, t) && BallotInv(c)
    requires t.p.term == c.nodes[n].p.term && CountedReply(c.nodes[n], input)
    ensures BaseInv(Advance(c, n, input, t))
    ensures |Counted(c, n)| + 1 <= |Counted(Advance(c, n, input, t), n)|
  {
    CountedGrows(c, n, input, t, n);
    NewlyCounted(c, n, input, t);
    hide BallotInv, Counted, Advances, Advance;
    SubsetSize(Counted(c, n) + {input.message.src}, Counted(Advance(c, n, input, t), n));
  }

  lemma NewlyCounted(c: State, n: NodeId, input: Input, t: Node)
    requires Advances(c, n, input, t) && BallotInv(c)
    requires t.p.term == c.nodes[n].p.term && CountedReply(c.nodes[n], input)
    ensures BaseInv(Advance(c, n, input, t))
    ensures input.message.src in Counted(Advance(c, n, input, t), n) && input.message.src !in Counted(c, n)
  {
    hide Step, NodeInv, Campaigns, ElectionStep;
    AdvanceBase(c, n, input, t);
    var c', m := Advance(c, n, input, t), input.message;
    assert m in c.net && m.dst == n && HasBallot(c.h.ballots, m.term, m.src, n);
    assert m == VoteReply(m.src, n, c.nodes[n].p.term, true);
    var l :| Ballot(m.term, m.src, n, l) in c.h.ballots;
    NotGrantedAgain(c, n, input, t, Ballot(m.term, m.src, n, l));
    hide BallotInv, BaseInv;
    assert Ballot(m.term, m.src, n, l) in c'.h.ballots;
  }

  lemma OwnVoteCounted(c: State, n: NodeId, input: Input, t: Node)
    requires Advances(c, n, input, t) && BallotInv(c) && Campaigns(c.nodes[n], input)
    ensures BaseInv(Advance(c, n, input, t)) && 1 <= |Counted(Advance(c, n, input, t), n)|
  {
    AdvanceBase(c, n, input, t);
    var c' := Advance(c, n, input, t);
    forall m | m in c'.net && IsGrant(m) ensures m.src != m.dst { GrantRecorded(c, n, input, t, m); }
    assert Ballot(t.p.term, n, n, |c.nodes[n].p.log|) in c'.h.ballots;
    assert n in Counted(c', n);
  }

  lemma AdvanceCounts(c: State, n: NodeId, input: Input, t: Node)
    requires Advances(c, n, input, t) && BallotInv(c) && CountInv(c)
    ensures BaseInv(Advance(c, n, input, t)) && CountInv(Advance(c, n, input, t))
  {
    AdvanceBase(c, n, input, t);
    var s, c' := c.nodes[n], Advance(c, n, input, t);
    forall k | k in c'.nodes ensures c'.nodes[k].votes <= |Counted(c', k)| {
      if k != n {
        CountedGrows(c, n, input, t, k);
        SubsetSize(Counted(c, k), Counted(c', k));
      } else if Campaigns(s, input) {
        OwnVoteCounted(c, n, input, t);
      } else if t.p.term == s.p.term {
        CountedGrows(c, n, input, t, n);
        SubsetSize(Counted(c, n), Counted(c', n));
        if t.votes == s.votes + 1 { CountedOnce(c, n, input, t); }
      }
    }
  }

  lemma RecoverCounts(c: State, n: NodeId, p: Persistent, made: set<Creation>)
    requires Found(c, n, p) && CountInv(c)
    ensures BaseInv(Recover(c, n, p, made)) && CountInv(Recover(c, n, p, made))
  {
    RecoverBase(c, n, p, made);
    var c' := Recover(c, n, p, made);
    forall k | k in c'.nodes ensures c'.nodes[k].votes <= |Counted(c', k)| {
      if k != n { assert Counted(c', k) == Counted(c, k); }
    }
  }

  // ----- leaders -----

  lemma SupportGrows(a: set<Ballot>, b: set<Ballot>, term: nat, n: NodeId)
    requires a <= b
    ensures |Supporters(a, term, n)| <= |Supporters(b, term, n)|
  {
    SubsetSize(Supporters(a, term, n), Supporters(b, term, n));
  }

  /** Term and node of a leader, with the votes that made it one. */
  ghost predicate Supported(c: State, l: (nat, NodeId))
    requires BaseInv(c)
  {
    && l.1 in c.ids && l.0 <= c.nodes[l.1].p.term
    && (l.0 == c.nodes[l.1].p.term ==> !c.nodes[l.1].role.Candidate?)
    && |Supporters(c.h.ballots, l.0, l.1)| >= |c.ids| / 2 + 1
  }

  ghost predicate LeaderInv(c: State)
    requires BaseInv(c)
  {
    && (forall l :: l in c.h.leaders ==> Supported(c, l))
    && (forall n :: n in c.nodes && c.nodes[n].role.Leader? ==> (c.nodes[n].p.term, n) in c.h.leaders)
  }

  lemma OldLeader(c: State, n: NodeId, input: Input, t: Node, l: (nat, NodeId))
    requires Advances(c, n, input, t) && LeaderInv(c) && l in c.h.leaders
    ensures BaseInv(Advance(c, n, input, t)) && Supported(Advance(c, n, input, t), l)
  {
    AdvanceBase(c, n, input, t);
    assert Supported(c, l);
    SupportGrows(c.h.ballots, Advance(c, n, input, t).h.ballots, l.0, l.1);
  }

  lemma WonByVotes(c: State, n: NodeId, input: Input, t: Node)
    requires Advances(c, n, input, t) && LeaderInv(c) && t.role.Leader? && (t.p.term, n) !in c.h.leaders
    ensures t.votes >= |c.ids| / 2 + 1 && (c.nodes[n].p.term <= t.p.term)
  {
    hide Supported;
  }

  lemma NewLeader(c: State, n: NodeId, input: Input, t: Node)
    requires Advances(c, n, input, t) && BallotInv(c) && CountInv(c) && LeaderInv(c)
    requires t.role.Leader? && (t.p.term, n) !in c.h.leaders
    ensures BaseInv(Advance(c, n, input, t)) && Supported(Advance(c, n, input, t), (t.p.term, n))
  {
    SameNode(c, n, input, t);
    WonByVotes(c, n, input, t);
    hide Step, NodeInv, BallotInv, LeaderInv, Record;
    AdvanceCounts(c, n, input, t);
    var c' := Advance(c, n, input, t);
    SubsetSize(Counted(c', n), Supporters(c'.h.ballots, t.p.term, n));
  }

  /** The record of leaders grows by the node that steps at most, and holds every node that leads. */
  lemma LeadersRecorded(c: State, n: NodeId, input: Input, t: Node)
    requires n in c.nodes && t.me == n
    requires forall k :: k in c.nodes && c.nodes[k].role.Leader? ==> (c.nodes[k].p.term, k) in c.h.leaders
    ensures var c' := Advance(c, n, input, t);
            && (forall l :: l in c'.h.leaders && l !in c.h.leaders ==> l == (t.p.term, n) && t.role.Leader?)
            && (forall k :: k in c'.nodes && c'.nodes[k].role.Leader? ==> (c'.nodes[k].p.term, k) in c'.h.leaders)
  {
    hide Granted, OwnBallot, CreatedBy, Campaigns, Consumed;
  }

  lemma SameNode(c: State, n: NodeId, input: Input, t: Node)
    requires Advances(c, n, input, t)
    ensures t.me == n && t.ids == c.ids && c.nodes[n].me == n && n in c.ids
  {
  }

  lemma AdvanceLeaders(c: State, n: NodeId, input: Input, t: Node)
    requires Advances(c, n, input, t) && BallotInv(c) && CountInv(c) && LeaderInv(c)
    ensures BaseInv(Advance(c, n, input, t)) && LeaderInv(Advance(c, n, input, t))
  {
    AdvanceBase(c, n, input, t);
    var c' := Advance(c, n, input, t);
    SameNode(c, n, input, t);
    LeadersRecorded(c, n, input, t);
    hide BallotInv, CountInv, NodeInv, Step, LeaderInv, Record;
    forall l | l in c'.h.leaders ensures Supported(c', l) {
      if l in c.h.leaders {
        OldLeader(c, n, input, t, l);
      } else {
        NewLeader(c, n, input, t);
      }
    }
  }

  lemma RecoverLeaders(c: State, n: NodeId, p: Persistent, made: set<Creation>)
    requires Found(c, n, p) && LeaderInv(c)
    ensures BaseInv(Recover(c, n, p, made)) && LeaderInv(Recover(c, n, p, made))
  {
    RecoverBase(c, n, p, made);
    hide NodeInv, BaseInv, Supported;
    var c' := Recover(c, n, p, made);
    forall l | l in c'.h.leaders ensures Supported(c', l) { StaysSupported(c, n, p, made, l); }
  }

  lemma StaysSupported(c: State, n: NodeId, p: Persistent, made: set<Creation>, l: (nat, NodeId))
    requires Found(c, n, p) && BaseInv(Recover(c, n, p, made)) && Supported(c, l)
    ensures Supported(Recover(c, n, p, made), l)
  {
    hide NodeInv, BaseInv, Supporters;
  }

  // ----- all of it, over runs -----

  lemma AdvanceElection(c: State, n: NodeId, input: Input, t: Node)
    requires Advances(c, n, input, t) && ElectionInv(c)
    ensures ElectionInv(Advance(c, n, input, t))
  {
    AdvanceBallots(c, n, input, t);
    AdvanceCounts(c, n, input, t);
    AdvanceLeaders(c, n, input, t);
  }

  lemma RecoverElection(c: State, n: NodeId, p: Persistent, made: set<Creation>)
    requires Found(c, n, p) && ElectionInv(c)
    ensures ElectionInv(Recover(c, n, p, made))
  {
    RecoverBallots(c, n, p, made);
    RecoverCounts(c, n, p, made);
    RecoverLeaders(c, n, p, made);
  }

  ghost predicate ElectionInv(c: State) {
    BaseInv(c) && BallotInv(c) && CountInv(c) && LeaderInv(c)
  }

  lemma InitElection(c: State)
    requires Init(c)
    ensures ElectionInv(c)
  {
  }

  lemma NextElection(c: State, e: Event)
    requires ElectionInv(c) && Enabled(c, e)
    ensures ElectionInv(Next(c, e))
  {
    match e
    case Act(n, input) =>
      ActAdvances(c, n, input);
      AdvanceElection(c, n, input, Handle(c.nodes[n], input));
    case Crash(n) =>
      RecoverElection(c, n, c.nodes[n].p, {});
    case Interrupt(n, input, writes) =>
      InterruptFinds(c, n, input, writes);
      RecoverElection(c, n, Handle(c.nodes[n], input).trail[writes - 1], CreatedBy(c.nodes[n], input));
  }

  lemma {:induction false} RunElection(cs: seq<State>, es: seq<Event>, i: nat)
    requires Run(cs, es) && i < |cs|
    ensures ElectionInv(cs[i]) && cs[i].ids == cs[0].ids
  {
    hide Run, Init, Handle, ElectionInv, Enabled, Record;
    RunShape(cs, es);
    if i == 0 {
      InitElection(cs[0]);
    } else {
      RunElection(cs, es, i - 1);
      RunStep(cs, es, i - 1);
      NextElection(cs[i - 1], es[i - 1]);
    }
  }
}
