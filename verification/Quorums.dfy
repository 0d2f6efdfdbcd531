/** Who can support a leader: every voter's log was no longer than the candidate's, up to the index rule. */
module Quorums {
  import opened Types
  import opened NodeSpec
  import opened NodeFacts
  import opened Cluster
  import opened Elections
  import opened ElectionTheorems

  /** The index a candidate sends for a log of this length: an empty log is sent as index 0. */
  function SentIndex(length: nat): nat {
    if length == 0 then 0 else length - 1
  }

  function Max(a: nat, b: nat): nat {
    if a < b then b else a
  }

  ghost predicate Restricted(h: History, b: Ballot) {
    && (b.term, b.candidate) in h.campaigns
    && (b.voter == b.candidate || b.voterLog <= Max(1, h.campaigns[(b.term, b.candidate)]))
  }

  ghost predicate Announced(h: History, m: Message)
    requires m.VoteRequest?
  {
    (m.term, m.src) in h.campaigns && m.lastIndex == SentIndex(h.campaigns[(m.term, m.src)])
  }

  ghost predicate CampaignInv(c: State) {
    && (forall k :: k in c.h.campaigns ==> k.1 in c.nodes && k.0 <= c.nodes[k.1].p.term)
    && (forall k :: k in c.h.campaigns ==> HasBallot(c.h.ballots, k.0, k.1, k.1))
    && (forall m :: m in c.net && m.VoteRequest? ==> Announced(c.h, m))
    && (forall b :: b in c.h.ballots ==> Restricted(c.h, b))
  }

  /** The rule for granting a vote, in terms of the lengths of the two logs. */
  lemma GrantRule(s: Node, term: nat, candidateLog: nat)
    requires WellIndexed(s.p.log)
    ensures Grants(s, term, SentIndex(candidateLog)) <==>
              s.p.term <= term && !s.p.voted && |s.p.log| <= Max(1, candidateLog)
  {
  }

  /** Campaigns are recorded once: a new one is for a term the node never had. */
  lemma CampaignsKept(c: State, n: NodeId, input: Input, t: Node)
    requires Advances(c, n, input, t) && CampaignInv(c)
    ensures forall k :: k in c.h.campaigns ==>
              var h := Advance(c, n, input, t).h;
              k in h.campaigns && h.campaigns[k] == c.h.campaigns[k]
  {
  }

  /** A candidate's first supporter is the candidate. */
  lemma CampaignHasOwnBallot(c: State, n: NodeId, input: Input, t: Node, k: (nat, NodeId))
    requires Advances(c, n, input, t) && CampaignInv(c) && k in Advance(c, n, input, t).h.campaigns
    ensures HasBallot(Advance(c, n, input, t).h.ballots, k.0, k.1, k.1)
  {
    hide Step, NodeInv, Campaigns, Granted;
    var h := Advance(c, n, input, t).h;
    assert c.nodes[n].me == n;
    if k in c.h.campaigns {
      assert HasBallot(c.h.ballots, k.0, k.1, k.1);
      var x :| Ballot(k.0, k.1, k.1, x) in c.h.ballots;
      assert Ballot(k.0, k.1, k.1, x) in h.ballots;
    } else {
      assert Ballot(t.p.term, n, n, |c.nodes[n].p.log|) in h.ballots;
    }
  }

  lemma NewBallotRestricted(c: State, n: NodeId, input: Input, t: Node, b: Ballot)
    requires Advances(c, n, input, t) && CampaignInv(c)
    requires b in Granted(t) + OwnBallot(c.nodes[n], input, t)
    ensures Restricted(Advance(c, n, input, t).h, b)
  {
    var s := c.nodes[n];
    if b in Granted(t) {
      var m :| m in t.sends && IsGrant(m) && b == Ballot(m.term, m.src, m.dst, |t.p.log|);
      assert Sent(s, input, t, m) && Announced(c.h, input.message);
      CampaignsKept(c, n, input, t);
    }
  }

  lemma RequestAnnounced(c: State, n: NodeId, input: Input, t: Node, m: Message)
    requires Advances(c, n, input, t) && m in t.sends && m.VoteRequest?
    ensures Announced(Advance(c, n, input, t).h, m)
  {
    assert Sent(c.nodes[n], input, t, m);
  }

  lemma StaysAnnounced(c: State, n: NodeId, input: Input, t: Node, m: Message)
    requires Advances(c, n, input, t) && CampaignInv(c) && m in c.net && m.VoteRequest?
    ensures Announced(Advance(c, n, input, t).h, m)
  {
    CampaignsKept(c, n, input, t);
    hide Advances, Advance;
    assert Announced(c.h, m);
  }

  lemma StaysRestricted(c: State, n: NodeId, input: Input, t: Node, b: Ballot)
    requires Advances(c, n, input, t) && CampaignInv(c) && b in c.h.ballots
    ensures Restricted(Advance(c, n, input, t).h, b)
  {
    CampaignsKept(c, n, input, t);
    hide Advances, Advance;
    assert Restricted(c.h, b);
  }

  lemma CampaignTerms(c: State, n: NodeId, input: Input, t: Node)
    requires Advances(c, n, input, t) && CampaignInv(c)
    ensures var c' := Advance(c, n, input, t);
            forall k :: k in c'.h.campaigns ==> k.1 in c'.nodes && k.0 <= c'.nodes[k.1].p.term
  {
    assert c.nodes[n].me == n && c.nodes[n].p.term <= t.p.term;
    hide Step, NodeInv, BaseInv, Restricted, Announced, HasBallot, Campaigns;
  }

  lemma AdvanceCampaigns(c: State, n: NodeId, input: Input, t: Node)
    requires Advances(c, n, input, t) && CampaignInv(c)
    ensures CampaignInv(Advance(c, n, input, t))
  {
    hide Step, NodeInv, BaseInv, Restricted, Announced, HasBallot;
    CampaignTerms(c, n, input, t);
    var c' := Advance(c, n, input, t);
    forall k | k in c'.h.campaigns ensures HasBallot(c'.h.ballots, k.0, k.1, k.1) {
      CampaignHasOwnBallot(c, n, input, t, k);
    }
    forall m | m in c'.net && m.VoteRequest? ensures Announced(c'.h, m) {
      if m in t.sends {
        RequestAnnounced(c, n, input, t, m);
      } else {
        StaysAnnounced(c, n, input, t, m);
      }
    }
    forall b | b in c'.h.ballots ensures Restricted(c'.h, b) {
      if b in c.h.ballots {
        StaysRestricted(c, n, input, t, b);
      } else {
        NewBallotRestricted(c, n, input, t, b);
      }
    }
  }

  lemma RecoverCampaigns(c: State, n: NodeId, p: Persistent, made: set<Creation>)
    requires n in c.nodes && c.nodes[n].p.term <= p.term && CampaignInv(c)
    ensures CampaignInv(Recover(c, n, p, made))
  {
    hide HasBallot;
    var c' := Recover(c, n, p, made);
    forall b | b in c'.h.ballots ensures Restricted(c'.h, b) { assert Restricted(c.h, b); }
    forall m | m in c'.net && m.VoteRequest? ensures Announced(c'.h, m) { assert Announced(c.h, m); }
  }

  lemma NextCampaigns(c: State, e: Event)
    requires BaseInv(c) && CampaignInv(c) && Enabled(c, e)
    ensures CampaignInv(Next(c, e))
  {
    hide Handle, BaseInv, Advance, Recover, CampaignInv;
    match e
    case Act(n, input) =>
      ActAdvances(c, n, input);
      AdvanceCampaigns(c, n, input, Handle(c.nodes[n], input));
    case Crash(n) =>
      RecoverCampaigns(c, n, c.nodes[n].p, {});
    case Interrupt(n, input, writes) =>
      InterruptFinds(c, n, input, writes);
      RecoverCampaigns(c, n, Handle(c.nodes[n], input).trail[writes - 1], CreatedBy(c.nodes[n], input));
  }

  lemma InitCampaigns(c: State)
    requires Init(c)
    ensures CampaignInv(c)
  {
  }

  lemma {:induction false} RunCampaigns(cs: seq<State>, es: seq<Event>, i: nat)
    requires Run(cs, es) && i < |cs|
    ensures CampaignInv(cs[i])
  {
    hide CampaignInv, Run, Init, Handle, Next, BaseInv, Enabled;
    RunShape(cs, es);
    if i == 0 {
      InitCampaigns(cs[0]);
    } else {
      RunCampaigns(cs, es, i - 1);
      RunBase(cs, es, i - 1);
      RunStep(cs, es, i - 1);
      NextCampaigns(cs[i - 1], es[i - 1]);
    }
  }

  /** The leader of a term was elected by a majority that contains itself, and otherwise only nodes whose log, when they
      granted their vote, was no longer than the leader's when it asked - or had one entry, since an empty log and
      a log of one entry are announced alike. */
  lemma ElectedByRestrictedQuorum(cs: seq<State>, es: seq<Event>, i: nat, n: NodeId, term: nat)
    requires Run(cs, es) && i < |cs| && Leads(cs[i], n, term)
    ensures (term, n) in cs[i].h.campaigns
    ensures |Supporters(cs[i].h.ballots, term, n)| >= |cs[i].ids| / 2 + 1 && n in Supporters(cs[i].h.ballots, term, n)
    ensures forall b :: b in cs[i].h.ballots && b.term == term && b.candidate == n && b.voter != n ==>
              b.voterLog <= Max(1, cs[i].h.campaigns[(term, n)])
  {
    hide Run, Init, NodeInv, BallotInv, CountInv;
    RunElection(cs, es, i);
    RunCampaigns(cs, es, i);
    assert Supported(cs[i], (term, n));
    assert forall b :: b in cs[i].h.ballots ==> Restricted(cs[i].h, b);
    var v :| v in Supporters(cs[i].h.ballots, term, n);
  }
}
