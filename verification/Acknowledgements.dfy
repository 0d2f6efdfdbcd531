/** What a reply with success says about the log of the peer that sent it, over whole runs. */
module Acknowledgements {
  import opened Types
  import opened NodeSpec
  import opened NodeFacts
  import opened Cluster
  import opened ElectionTheorems
  import opened Logs
  import opened LogMatching
  import opened Replication
  import opened Tallies

  /** The reply tells of a stored entry: in step j the peer handled a request with an entry for this index, in the
      replied term, and afterwards its log ended at the index with the request's term. */
  ghost predicate ToldIn(cs: seq<State>, es: seq<Event>, j: nat, m: Message, r: Message)
    requires r.AppendReply?
  {
    && j + 1 < |cs| && j < |es| && es[j] == Act(r.src, Receive(m)) && m in cs[j].net
    && m.AppendRequest? && m.entries != [] && m.src == r.dst && m.commit == r.commit
    && r.src in cs[j].nodes && cs[j].nodes[r.src].p.term == r.term
    && r.src in cs[j + 1].nodes && LastIs(cs[j + 1].nodes[r.src].p.log, m.commit, m.term)
  }

  lemma SuccessSource(s: Node, input: Input, r: Message)
    requires NodeInv(s) && r in Handle(s, input).sends && r.AppendReply? && r.success
    ensures input.Receive? && input.message.AppendRequest?
    ensures var m, t := input.message, Handle(s, input);
            && m.entries != [] && m.src == r.dst && m.commit == r.commit
            && r.src == s.me && r.term == s.p.term && LastIs(t.p.log, m.commit, m.term)
  {
    hide Handle;
    HandleFacts(s, input, Handle(s, input));
    assert Sent(s, input, Handle(s, input), r);
    RequestSource(s, input.message, r);
  }

  lemma RequestSource(s: Node, m: Message, r: Message)
    requires NodeInv(s) && m.AppendRequest? && r in Handle(s, Receive(m)).sends && r.AppendReply? && r.success
    ensures m.entries != [] && m.src == r.dst && m.commit == r.commit && r.term == s.p.term
    ensures LastIs(Handle(s, Receive(m)).p.log, m.commit, m.term)
  {
    hide Follow, StoreEntries;
    var f := Fresh(s);
    if m.src in s.peers {
      var u := Follow(f, m);
      FollowFacts(f, m, u);
      StoreFacts(u, m, StoreEntries(u, m).0);
      assert u.sends == {} && r == AppendReply(s.me, m.src, m.commit, s.p.term, AppendResult(f, m).1);
      AcceptanceRule(u, m);
      FollowerContract(f, m, AppendResult(f, m).0, true);
    }
  }

  /** Every success on its way was told of by its sender. */
  lemma {:induction false} SuccessTold(cs: seq<State>, es: seq<Event>, k: nat, r: Message) returns (j: nat, m: Message)
    requires Run(cs, es) && k < |cs| && r in cs[k].net && r.AppendReply? && r.success
    ensures j < k && ToldIn(cs, es, j, m, r)
  {
    hide Run, Init, Handle, Enabled, NodeInv, Record;
    RunShape(cs, es);
    NothingSentYet(cs[0]);
    RunStep(cs, es, k - 1);
    RunBase(cs, es, k - 1);
    if r in cs[k - 1].net {
      j, m := SuccessTold(cs, es, k - 1, r);
    } else {
      SentInStep(cs[k - 1], es[k - 1], r);
      j, m := k - 1, es[k - 1].input.message;
    }
  }

  lemma NothingSentYet(c: State)
    requires Init(c)
    ensures c.net == {}
  {
  }

  lemma SentInStep(c: State, e: Event, r: Message)
    requires BaseInv(c) && Enabled(c, e) && r in Next(c, e).net && r !in c.net && r.AppendReply? && r.success
    ensures e.Act? && e.n == r.src && e.input.Receive? && e.input.message in c.net && e.n in c.nodes
    ensures var m, c' := e.input.message, Next(c, e);
            && m.AppendRequest? && m.entries != [] && m.src == r.dst && m.commit == r.commit
            && c.nodes[e.n].p.term == r.term
            && e.n in c'.nodes && LastIs(c'.nodes[e.n].p.log, m.commit, m.term)
  {
    hide Handle, NodeInv;
    if e.Act? { SuccessSource(c.nodes[e.n], e.input, r); }
  }

  /** No request on its way carries an entry of a later term than its sender has reached. */
  lemma {:induction false} RequestNotAhead(cs: seq<State>, es: seq<Event>, k: nat, m: Message)
    requires Run(cs, es) && k < |cs| && m in cs[k].net && CarriesEntry(m)
    ensures m.src in cs[k].nodes && m.term <= cs[k].nodes[m.src].p.term
  {
    hide Run, Init, Handle, Enabled, LogInv, Next, CarriesEntry, Extends;
    RunShape(cs, es);
    NothingSentYet(cs[0]);
    RunStep(cs, es, k - 1);
    RunLog(cs, es, k - 1);
    if m in cs[k - 1].net {
      RequestNotAhead(cs, es, k - 1, m);
      RunMonotone(cs, es, k - 1, m.src);
    } else {
      RequestSentBy(cs[k - 1], es[k - 1], m);
    }
  }

  lemma RequestSentBy(c: State, e: Event, m: Message)
    requires LogInv(c) && Enabled(c, e) && m in Next(c, e).net && m !in c.net && CarriesEntry(m)
    ensures m.src in Next(c, e).nodes && m.term <= Next(c, e).nodes[m.src].p.term
  {
    hide Handle, NodeInv;
    if e.Act? {
      assert Ordered(c.nodes[e.n]);
      EntrySent(c.nodes[e.n], e.input, m);
    }
  }

  lemma EntrySent(s: Node, input: Input, m: Message)
    requires NodeInv(s) && Ordered(s) && m in Handle(s, input).sends && CarriesEntry(m)
    ensures m.src == s.me && m.term <= Handle(s, input).p.term
  {
    hide Handle;
    HandleFacts(s, input, Handle(s, input));
    assert Sent(s, input, Handle(s, input), m);
  }

  /** Under (A): a log that ever ended with the index and term of an entry that is pending now was the leader's log
      with that entry behind it. */
  lemma PendingStoredBefore(cs: seq<State>, es: seq<Event>, j: nat, k: nat, i: NodeId, n: NodeId, e: LogEntry)
    requires SparingRun(cs, es) && j <= k < |cs| && i in cs[j].nodes && n in cs[k].nodes
    requires cs[k].nodes[n].pending.Some? && e == cs[k].nodes[n].pending.value.entry
    requires LastIs(cs[j].nodes[i].p.log, e.id, e.term)
    ensures cs[j].nodes[i].p.log == cs[k].nodes[n].p.log + [e]
  {
    hide SparingRun, BaseInv, MatchInv, NodeInv, Unique, Fits, Anchored;
    TwoMoments(cs, es, j, k, i);
    NodeLogFacts(cs[j], i);
    NodeLogFacts(cs[k], n);
    AnchoredGrows(cs[j].h.created, cs[k].h.created, cs[j].nodes[i].p.log);
    SameEnd(cs[k].h.created, cs[j].nodes[i].p.log, cs[k].nodes[n].p.log, e);
  }

  /** Under (A): a success that counts for the leader's pending entry told of an entry of that term or an earlier
      one; and if it was of that term, the peer's log then was the leader's log with the pending entry behind it. */
  lemma CountedSuccessStored(cs: seq<State>, es: seq<Event>, k: nat, r: Message, e: LogEntry)
    returns (j: nat, m: Message)
    requires SparingRun(cs, es) && k < |cs| && r in cs[k].net && r.AppendReply? && r.success
    requires r.dst in cs[k].nodes && cs[k].nodes[r.dst].pending.Some?
    requires e == cs[k].nodes[r.dst].pending.value.entry && e.id == r.commit && e.term == r.term
    ensures j < k && ToldIn(cs, es, j, m, r) && m.term <= e.term
    ensures m.term == e.term ==> cs[j + 1].nodes[r.src].p.log == cs[k].nodes[r.dst].p.log + [e]
  {
    hide Run, SparingRun;
    SparingIsRun(cs, es);
    j, m := SuccessTold(cs, es, k, r);
    PendingNotBehind(cs, es, j, k, m, e);
    if m.term == e.term { PendingStoredBefore(cs, es, j + 1, k, r.src, r.dst, e); }
  }

  lemma PendingNotBehind(cs: seq<State>, es: seq<Event>, j: nat, k: nat, m: Message, e: LogEntry)
    requires Run(cs, es) && j <= k < |cs| && m in cs[j].net && CarriesEntry(m) && m.src in cs[k].nodes
    requires cs[k].nodes[m.src].pending.Some? && e == cs[k].nodes[m.src].pending.value.entry
    ensures m.term <= e.term
  {
    hide Run, BaseInv, CarriesEntry, Extends;
    RequestNotAhead(cs, es, j, m);
    TermsRise(cs, es, j, k, m.src);
    RunBase(cs, es, k);
    PendingTerm(cs[k], m.src);
  }

  lemma PendingTerm(c: State, n: NodeId)
    requires BaseInv(c) && n in c.nodes && c.nodes[n].pending.Some?
    ensures c.nodes[n].pending.value.entry.term == c.nodes[n].p.term
  {
  }

  lemma SameEnd(created: set<Creation>, log: seq<LogEntry>, other: seq<LogEntry>, e: LogEntry)
    requires Unique(created) && Anchored(created, log) && Anchored(created, other)
    requires WellIndexed(log) && WellIndexed(other) && LastIs(log, e.id, e.term)
    requires e.id == |other| && Fits(created, e, PrevTerm(other, |other|))
    ensures log == other + [e]
  {
    hide Unique, Fits, Anchored;
    AppendAnchored(created, other, e);
    SameTermSamePrefix(created, log, other + [e], e.id);
    assert log[..e.id + 1] == log && (other + [e])[..e.id + 1] == other + [e];
  }

  // ----- a commit that a success completes -----

  /** Every answer recorded for a pending commit was received in a reply that is still in the record of messages. */
  lemma {:induction false} AnswersReceived(cs: seq<State>, es: seq<Event>, k: nat, n: NodeId, i: NodeId)
    requires Run(cs, es) && k < |cs| && n in cs[k].nodes && cs[k].nodes[n].pending.Some?
    requires i in cs[k].nodes[n].pending.value.results
    ensures var c := cs[k].nodes[n].pending.value;
            AppendReply(i, n, c.entry.id, c.entry.term, c.results[i]) in cs[k].net
  {
    hide Run, Init, Handle, Enabled, NodeInv, Next;
    RunShape(cs, es);
    NothingPendingYet(cs[0]);
    RunStep(cs, es, k - 1);
    RunBase(cs, es, k - 1);
    RunBase(cs, es, k);
    AnswerInStep(cs[k - 1], es[k - 1], n, i);
    if AnsweredBefore(cs[k - 1], cs[k], n, i) { AnswersReceived(cs, es, k - 1, n, i); }
  }

  lemma NothingPendingYet(c: State)
    requires Init(c)
    ensures forall n :: n in c.nodes ==> c.nodes[n].pending.None?
  {
  }

  /** The answer was recorded already, for the same entry, and the messages of then are still on record. */
  ghost predicate AnsweredBefore(c: State, c': State, n: NodeId, i: NodeId)
    requires n in c'.nodes && c'.nodes[n].pending.Some? && i in c'.nodes[n].pending.value.results
  {
    var p := c'.nodes[n].pending.value;
    && n in c.nodes && c.nodes[n].pending.Some?
    && c.nodes[n].pending.value.entry == p.entry
    && i in c.nodes[n].pending.value.results && c.nodes[n].pending.value.results[i] == p.results[i]
    && (AppendReply(i, n, p.entry.id, p.entry.term, p.results[i]) in c.net ==>
          AppendReply(i, n, p.entry.id, p.entry.term, p.results[i]) in c'.net)
  }

  lemma AnswerInStep(c: State, e: Event, n: NodeId, i: NodeId)
    requires BaseInv(c) && Enabled(c, e) && n in Next(c, e).nodes && Next(c, e).nodes[n].pending.Some?
    requires i in Next(c, e).nodes[n].pending.value.results
    ensures var c' := Next(c, e);
            var p := c'.nodes[n].pending.value;
            AnsweredBefore(c, c', n, i) || AppendReply(i, n, p.entry.id, p.entry.term, p.results[i]) in c'.net
  {
    hide Handle, NodeInv, Record;
    if e.Act? && e.n == n { AnswerInHandling(c.nodes[n], e.input, i); }
  }

  lemma AnswerInHandling(s: Node, input: Input, i: NodeId)
    requires NodeInv(s) && Handle(s, input).pending.Some? && i in Handle(s, input).pending.value.results
    ensures var p := Handle(s, input).pending.value;
            || (s.pending.Some? && s.pending.value.entry == p.entry
                && i in s.pending.value.results && s.pending.value.results[i] == p.results[i])
            || (input.Receive? && input.message.AppendReply? && input.message.src == i
                && input.message.commit == p.entry.id && input.message.term == p.entry.term
                && input.message.success == p.results[i])
  {
    hide Handle, NodeInv, ElectionStep, SendStep, TrailStep, Creates;
    HandleFacts(s, input, Handle(s, input));
    if Creates(s, input) {
      FirstPending(s, input);
    } else {
      ResultsStep(s, input, Handle(s, input), s.pending.value);
    }
  }

  /** Before moment k peer i handled a request of n for the entry's index, in the entry's term, of an entry of that term
      or an earlier one; and if of that term, its log then was n's log with the entry behind it. */
  ghost predicate Acknowledged(cs: seq<State>, es: seq<Event>, k: nat, i: NodeId, n: NodeId, e: LogEntry)
    requires k < |cs| && n in cs[k].nodes
  {
    exists j: nat, m ::
      && j < k && ToldIn(cs, es, j, m, AppendReply(i, n, e.id, e.term, true)) && m.term <= e.term
      && (m.term == e.term ==> cs[j + 1].nodes[i].p.log == cs[k].nodes[n].p.log + [e])
  }

  /** Under (A): when a success completes the pending commit, at least majority - 1 distinct peers have acknowledged
      its entry. */
  lemma CommitAcknowledged(cs: seq<State>, es: seq<Event>, k: nat, n: NodeId, r: Message) returns (peers: set<NodeId>)
    requires SparingRun(cs, es) && k < |es| && k + 1 < |cs|
    requires es[k] == Act(n, Receive(r)) && r.AppendReply? && r.success
    requires n in cs[k].nodes && n in cs[k + 1].nodes && r.src in cs[k].nodes[n].peers
    requires cs[k].nodes[n].pending.Some? && CountsFor(Receive(r), r.src, cs[k].nodes[n].pending.value.entry)
    requires cs[k + 1].nodes[n].pending.None?
    ensures peers <= cs[k].ids - {n} && |peers| + 1 >= |cs[k].ids| / 2 + 1
    ensures forall i :: i in peers ==> Acknowledged(cs, es, k, i, n, cs[k].nodes[n].pending.value.entry)
  {
    hide SparingRun, Run, Handle, Next, Enabled, Acknowledged, Agreeing;
    SparingIsRun(cs, es);
    var s := cs[k].nodes[n];
    var e := s.pending.value.entry;
    RunStep(cs, es, k);
    RunBase(cs, es, k);
    ReplyDelivered(cs[k], n, r);
    peers := CompletingPeers(s, r, cs[k + 1].nodes[n]);
    forall i | i in peers ensures Acknowledged(cs, es, k, i, n, e) {
      var reply := AppendReply(i, n, e.id, e.term, true);
      if i != r.src { AnswersReceived(cs, es, k, n, i); }
      assert reply in cs[k].net;
      SuccessAcknowledged(cs, es, k, i, n, e);
    }
  }

  lemma ReplyDelivered(c: State, n: NodeId, r: Message)
    requires BaseInv(c) && Enabled(c, Act(n, Receive(r)))
    ensures r in c.net && r.dst == n && n in c.nodes && NodeInv(c.nodes[n])
    ensures c.nodes[n].ids == c.ids && c.nodes[n].peers.Keys == c.ids - {n}
    ensures n in Next(c, Act(n, Receive(r))).nodes
    ensures Next(c, Act(n, Receive(r))).nodes[n] == Handle(c.nodes[n], Receive(r))
  {
    hide Handle;
  }

  lemma CompletingPeers(s: Node, r: Message, t: Node) returns (peers: set<NodeId>)
    requires NodeInv(s) && s.pending.Some? && t == Handle(s, Receive(r)) && t.pending.None?
    requires r.AppendReply? && r.success && r.src in s.peers && CountsFor(Receive(r), r.src, s.pending.value.entry)
    ensures peers <= s.peers.Keys && |peers| + 1 >= Majority(s)
    ensures forall i :: i in peers && i != r.src ==>
              i in s.pending.value.results && s.pending.value.results[i]
  {
    hide Handle, NodeInv;
    ResultsStep(s, Receive(r), t, s.pending.value);
    peers := Agreeing(s.peers.Keys, WithAnswer(s.pending.value, s, Receive(r)), true);
  }

  lemma SuccessAcknowledged(cs: seq<State>, es: seq<Event>, k: nat, i: NodeId, n: NodeId, e: LogEntry)
    requires SparingRun(cs, es) && k < |cs| && n in cs[k].nodes && cs[k].nodes[n].pending.Some?
    requires e == cs[k].nodes[n].pending.value.entry && AppendReply(i, n, e.id, e.term, true) in cs[k].net
    ensures Acknowledged(cs, es, k, i, n, e)
  {
    hide SparingRun, ToldIn;
    var j, m := CountedSuccessStored(cs, es, k, AppendReply(i, n, e.id, e.term, true), e);
  }
}
