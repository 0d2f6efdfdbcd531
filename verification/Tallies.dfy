/** Which replies complete a pending commit, over any sequence of inputs to one node. */
module Tallies {
  import opened Types
  import opened NodeSpec
  import opened NodeFacts
  import opened Replies

  /** The reply of peer i counts for the entry: the index is the entry's, and the peer was in the entry's term when
      it replied. What it replied to may be another request - to a heartbeat, if the entry is the first. */
  predicate CountsFor(input: Input, i: NodeId, e: LogEntry) {
    && input.Receive? && input.message.AppendReply?
    && input.message.src == i && input.message.commit == e.id && input.message.term == e.term
  }

  /** The latest reply of peer i that counts for the entry among the inputs from..to. */
  function Latest(ins: seq<Input>, from: nat, to: nat, i: NodeId, e: LogEntry): Option<bool>
    requires to <= |ins|
  {
    if to <= from then None
    else if CountsFor(ins[to - 1], i, e) then Some(ins[to - 1].message.success)
    else Latest(ins, from, to - 1, i, e)
  }

  /** The peers whose latest counting reply is this one. */
  function Voices(ins: seq<Input>, from: nat, to: nat, peers: set<NodeId>, e: LogEntry, flag: bool): set<NodeId>
    requires to <= |ins|
  {
    set i | i in peers && Latest(ins, from, to, i, e) == Some(flag)
  }

  function WithAnswer(c: Pending, s: Node, input: Input): map<NodeId, bool> {
    if input.Receive? && input.message.AppendReply? && input.message.src in s.peers
       && CountsFor(input, input.message.src, c.entry)
    then c.results[input.message.src := input.message.success]
    else c.results
  }

  // ----- one step -----

  lemma TallyResults(s: Node, m: Message, c: Pending, t: Node)
    requires m.AppendReply? && s.pending == Some(c) && m.src in s.peers
    requires t == Tally(s, m.src, m.commit, m.term, m.success)
    ensures var results := WithAnswer(c, s, Receive(m));
            if !CountsFor(Receive(m), m.src, c.entry) then t == s
            else if 1 + |Agreeing(s.peers.Keys, results, m.success)| < Majority(s) then
              t == s.(pending := Some(c.(results := results)))
            else t.pending.None?
  {
  }

  /** As long as the commit stays pending, an input changes nothing of it but the answer it carries; and a reply
      that counts for it takes it away exactly when enough of the latest answers are the same. */
  lemma ResultsStep(s: Node, input: Input, t: Node, c: Pending)
    requires NodeInv(s) && s.pending == Some(c) && t == Handle(s, input) && !Creates(s, input)
    ensures t.pending.Some? ==> t.pending.value == c.(results := WithAnswer(c, s, input))
    ensures input.Receive? && CountsFor(input, input.message.src, c.entry) && input.message.src in s.peers ==>
              (t.pending.None? <==>
                 1 + |Agreeing(s.peers.Keys, WithAnswer(c, s, input), input.message.success)| >= |s.ids| / 2 + 1)
    ensures t.pending.Some? ==> t.peers.Keys == s.peers.Keys
  {
    hide Handle, Agreeing, ElectionStep, LogStep, SendStep, TrailStep, Creates;
    HandleFacts(s, input, t);
    if input.Receive? && input.message.AppendReply? {
      ReplyResults(s, input.message, t, c);
    } else {
      OtherResults(s, input, t, c);
    }
  }

  lemma ReplyResults(s: Node, m: Message, t: Node, c: Pending)
    requires NodeInv(s) && s.pending == Some(c) && m.AppendReply? && t == Handle(s, Receive(m))
    ensures t.pending.Some? ==> t.pending.value == c.(results := WithAnswer(c, s, Receive(m)))
    ensures CountsFor(Receive(m), m.src, c.entry) && m.src in s.peers ==>
              (t.pending.None? <==>
                 1 + |Agreeing(s.peers.Keys, WithAnswer(c, s, Receive(m)), m.success)| >= |s.ids| / 2 + 1)
  {
    hide Tally, Agreeing;
    if m.src in s.peers {
      var u := Fresh(s).(peers := s.peers[m.src := MoveIndex(s.peers[m.src], m.commit, m.success)]);
      assert u.peers.Keys == s.peers.Keys;
      if m.term <= s.p.term {
        SameTerm(u, m.term);
        TallyResults(u, m, c, t);
      } else {
        UpdateTermOutcome(u, m.term, UpdateTerm(u, m.term, false), c);
        NoPendingNoTally(UpdateTerm(u, m.term, false), m);
      }
    }
  }

  lemma OtherResults(s: Node, input: Input, t: Node, c: Pending)
    requires NodeInv(s) && s.pending == Some(c) && t == Handle(s, input) && !Creates(s, input)
    requires !(input.Receive? && input.message.AppendReply?)
    ensures t.pending.Some? ==> t.pending.value == c
  {
    hide StartElection, UpdateTerm, StoreEntries, StepDown;
    var f := Fresh(s);
    if input.Receive? {
      var m := input.message;
      if s.p.term < m.term {
        UpdateTermOutcome(f, m.term, UpdateTerm(f, m.term, false), c);
      } else {
        SameTerm(f, m.term);
      }
      if m.AppendRequest? && m.src in s.peers {
        StepDownPending(UpdateTerm(f, m.term, false).(heard := true));
        StorePending(Follow(f, m), m);
      }
    }
  }

  lemma StepDownPending(s: Node)
    ensures StepDown(s).pending.None? || StepDown(s).pending == s.pending
  {
  }

  lemma StorePending(s: Node, m: Message)
    requires m.AppendRequest?
    ensures StoreEntries(s, m).0.pending == s.pending
  {
  }

  // ----- over runs -----

  /** The commit made in step j is pending after every step up to k. */
  ghost predicate PendingFrom(ss: seq<Node>, ins: seq<Input>, j: nat, k: nat) {
    && NodeRun(ss, ins) && j < k < |ss|
    && Creates(ss[j], ins[j])
    && (forall x {:trigger ins[x]} :: j < x < k ==> !Creates(ss[x], ins[x]))
    && ss[k].pending.Some?
  }

  lemma PendingBefore(ss: seq<Node>, ins: seq<Input>, j: nat, k: nat)
    requires PendingFrom(ss, ins, j, k) && j + 1 < k
    ensures PendingFrom(ss, ins, j, k - 1)
    ensures ss[k] == Handle(ss[k - 1], ins[k - 1]) && NodeInv(ss[k - 1]) && !Creates(ss[k - 1], ins[k - 1])
  {
    hide NodeInv, Handle, Creates;
    NodeRunInv(ss, ins, k - 1);
    HandleFacts(ss[k - 1], ins[k - 1], ss[k]);
  }

  lemma FirstPending(s: Node, input: Input)
    requires NodeInv(s) && Creates(s, input) && Handle(s, input).pending.Some?
    ensures Handle(s, input).pending == Some(Pending(NewEntry(s, input), input.promise, map[]))
    ensures Handle(s, input).peers == s.peers
  {
  }

  /** The recorded answers are the latest counting replies received since the command was accepted. */
  lemma {:induction false} ResultsAreLatest(ss: seq<Node>, ins: seq<Input>, j: nat, k: nat)
    requires PendingFrom(ss, ins, j, k)
    ensures var e := NewEntry(ss[j], ins[j]);
            && ss[k].pending.value.entry == e && ss[k].pending.value.promise == ins[j].promise
            && ss[k].peers.Keys == ss[j].peers.Keys
            && forall i :: i in ss[j].peers ==>
                 Latest(ins, j + 1, k, i, e)
                 == if i in ss[k].pending.value.results then Some(ss[k].pending.value.results[i]) else None
  {
    hide NodeInv, Handle, Creates;
    if j + 1 == k {
      NodeRunInv(ss, ins, j);
      assert ss[j + 1] == Handle(ss[j], ins[j]);
      FirstPending(ss[j], ins[j]);
    } else {
      PendingBefore(ss, ins, j, k);
      ResultsAreLatest(ss, ins, j, k - 1);
      ResultsStep(ss[k - 1], ins[k - 1], ss[k], ss[k - 1].pending.value);
    }
  }

  /** A reply that counts for the pending entry completes it exactly when, with the leader itself, a majority of the
      latest counting replies since the command was accepted equal this one. So a success completes it only when
      at least majority - 1 different peers last replied success - but a refusal may complete it too. */
  lemma CompletedByLatest(ss: seq<Node>, ins: seq<Input>, j: nat, k: nat)
    requires PendingFrom(ss, ins, j, k) && k < |ins| && ins[k].Receive? && ins[k].message.src in ss[j].peers
    requires CountsFor(ins[k], ins[k].message.src, NewEntry(ss[j], ins[j]))
    ensures var e := NewEntry(ss[j], ins[j]);
            ss[k + 1].pending.None? <==>
              1 + |Voices(ins, j + 1, k + 1, ss[j].peers.Keys, e, ins[k].message.success)| >= |ss[k].ids| / 2 + 1
  {
    hide NodeInv, Handle, Latest;
    ResultsAreLatest(ss, ins, j, k);
    NodeRunInv(ss, ins, k);
    var m, c, e := ins[k].message, ss[k].pending.value, NewEntry(ss[j], ins[j]);
    assert ss[k + 1] == Handle(ss[k], ins[k]);
    ResultsStep(ss[k], ins[k], ss[k + 1], c);
    forall i | i in ss[j].peers
      ensures Latest(ins, j + 1, k + 1, i, e) == if i == m.src then Some(m.success) else Latest(ins, j + 1, k, i, e)
    {
      LatestStep(ins, j + 1, k, i, e);
    }
    assert Agreeing(ss[k].peers.Keys, WithAnswer(c, ss[k], ins[k]), m.success)
           == Voices(ins, j + 1, k + 1, ss[j].peers.Keys, e, m.success);
  }

  lemma LatestStep(ins: seq<Input>, from: nat, to: nat, i: NodeId, e: LogEntry)
    requires from <= to < |ins|
    ensures Latest(ins, from, to + 1, i, e)
            == if CountsFor(ins[to], i, e) then Some(ins[to].message.success) else Latest(ins, from, to, i, e)
  {
  }

  // ----- the first entry -----

  /** A heartbeat names index 0, and is refused: the refusal counts for a pending entry at index 0 of the same term. */
  lemma HeartbeatCounts(l: Node, i: NodeId, f: Node, e: LogEntry)
    requires NodeInv(l) && NodeInv(f) && i in l.peers && f.me == i && l.me in f.peers
    requires RequestTo(l, i).entries == [] && RequestTo(l, i).commit == 0 && e.id == 0 && e.term == f.p.term
    ensures var refusal := AppendReply(i, l.me, 0, f.p.term, false);
            refusal in Handle(f, Receive(RequestTo(l, i))).sends && CountsFor(Receive(refusal), i, e)
  {
  }

  /** So in a cluster of three one refused heartbeat completes the first command with true. */
  lemma FirstCommandOnRefusal(s: Node, reply: Message, c: Pending)
    requires NodeInv(s) && |s.ids| == 3 && s.p.log == []
    requires s.pending == Some(c) && c.entry.id == 0 && c.results == map[]
    requires reply.AppendReply? && reply.src in s.peers && CountsFor(Receive(reply), reply.src, c.entry)
    ensures var t := Handle(s, Receive(reply)); t.p.log == [c.entry] && Answered(t, c, true)
  {
    hide Agreeing;
    ResultsStep(s, Receive(reply), Handle(s, Receive(reply)), c);
    OnlyVoice(s.peers.Keys, reply.src, reply.success);
    ReplyOutcome(s, Receive(reply), Handle(s, Receive(reply)), c);
    HandleFacts(s, Receive(reply), Handle(s, Receive(reply)));
  }

  lemma OnlyVoice(peers: set<NodeId>, i: NodeId, flag: bool)
    requires i in peers
    ensures |Agreeing(peers, map[i := flag], flag)| == 1
  {
    assert Agreeing(peers, map[i := flag], flag) == {i};
  }
}
