/** The outcome of every input in closed form: the whole state after it, the calls, the messages and the database
    writes, from the state before and the message alone. The laws name no handler; they are the node's reference. */
module StepLaws {
  import opened Types
  import opened NodeSpec
  import opened NodeFacts

  // ----- the vocabulary -----

  function Larger(a: nat, b: nat): nat {
    if a < b then b else a
  }

  /** The records of a step start empty. */
  function Unmoved(s: Node): Node {
    s.(trail := [], calls := [], sends := {})
  }

  /** What the client of a pending commit is told when the commit is given up. */
  function Refusal(pending: Option<Pending>): seq<Call> {
    match pending
    case None => []
    case Some(c) => [Resolved(c.promise, c.entry.id, Some(c.entry.command), false)]
  }

  /** Every node but one in Standby is a follower now, and no commit is pending. */
  function Yielding(s: Node): Node {
    s.(role := if s.role.Standby? then Standby else Follower,
       life := if s.role.Standby? then Inactive else Waiting,
       broadcastArmed := false, pending := None, trail := [], calls := Refusal(s.pending), sends := {})
  }

  /** A newer term is taken over: three writes, no vote, and no leadership. */
  function Adopting(s: Node, term: nat): Node {
    Yielding(s).(p := Persistent(term, 0, false, s.p.log), votes := 0,
                 trail := [Persistent(term, s.p.votedFor, s.p.voted, s.p.log),
                           Persistent(term, 0, s.p.voted, s.p.log),
                           Persistent(term, 0, false, s.p.log)])
  }

  lemma UpdateLaw(s: Node, term: nat)
    requires NodeInv(s)
    ensures UpdateTerm(Fresh(s), term, false) == if s.p.term < term then Adopting(s, term) else Unmoved(s)
  {
    ResetLaw(s, term);
    StepDownLaw(ResetVote(SetTerm(Fresh(s), term)));
    hide ResetVote, SetTerm, StepDown;
  }

  lemma ResetLaw(s: Node, term: nat)
    ensures ResetVote(SetTerm(Fresh(s), term))
            == Unmoved(s).(p := Persistent(term, 0, false, s.p.log), votes := 0,
                           trail := [Persistent(term, s.p.votedFor, s.p.voted, s.p.log),
                                     Persistent(term, 0, s.p.voted, s.p.log),
                                     Persistent(term, 0, false, s.p.log)])
  {
  }

  lemma StepDownLaw(u: Node)
    requires Imaged(u) && (u.pending.Some? ==> u.role.Leader?) && u.calls == []
    ensures StepDown(u) == Yielding(u).(trail := u.trail, sends := u.sends)
  {
  }

  // ----- the election timer -----

  /** All peers hold the log, as far as the new leader knows; an empty log counts like a log of one entry. */
  function Matched(s: Node): map<NodeId, Peer> {
    map i | i in s.peers :: Peer(Larger(|s.p.log|, 1), Larger(|s.p.log|, 1) - 1)
  }

  function Won(s: Node): Node {
    s.(role := Leader, life := Active, broadcastArmed := true)
  }

  /** The database after each write of a campaign: the term; the vote cleared twice; the own vote. */
  function CampaignWrites(p: Persistent, me: NodeId): seq<Persistent> {
    var term, log := p.term + 1, p.log;
    [Persistent(term, p.votedFor, p.voted, log), Persistent(term, 0, p.voted, log), Persistent(term, 0, false, log),
     Persistent(term, 0, false, log), Persistent(term, 0, false, log),
     Persistent(term, me, false, log), Persistent(term, me, true, log)]
  }

  function VoteCalls(s: Node): set<Message> {
    var log := s.p.log;
    set i | i in s.peers ::
      VoteRequest(s.me, i, s.p.term + 1, Larger(|log|, 1) - 1, if log == [] then 0 else log[|log| - 1].term)
  }

  /** A new campaign: the next term, the own vote, and a request to every peer. In a cluster of one it is won. */
  function Campaigning(s: Node): Node {
    var t := s.(p := Persistent(s.p.term + 1, s.me, true, s.p.log), votes := 1, role := Candidate, life := Waiting,
                trail := CampaignWrites(s.p, s.me), calls := [], sends := VoteCalls(s));
    if |s.ids| / 2 + 1 <= 1 then Won(t.(peers := Matched(s))) else t
  }

  lemma LastFacts(log: seq<LogEntry>)
    requires WellIndexed(log)
    ensures LastIndex(log) == Larger(|log|, 1) - 1
    ensures LastTerm(log) == if log == [] then 0 else log[|log| - 1].term
  {
  }

  lemma BallotLaw(u: Node)
    requires NodeInv(u) && u.role.Candidate? && u == Fresh(u)
    ensures VoteForMe(ResetVote(UpdateTerm(u, u.p.term + 1, true)))
            == u.(p := Persistent(u.p.term + 1, u.me, true, u.p.log), votes := 1, trail := CampaignWrites(u.p, u.me))
  {
  }

  /** The counting of votes. */
  lemma CountLaw(s: Node)
    requires NodeInv(s)
    ensures CheckElected(s) ==
              if s.votes < |s.ids| / 2 + 1 then s
              else if s.role.Candidate? then Won(s.(peers := Matched(s)))
              else s.(peers := Matched(s))
  {
    LastFacts(s.p.log);
    assert Aligned(s.peers, LastIndex(s.p.log)) == Matched(s);
  }

  lemma CampaignLaw(s: Node)
    requires NodeInv(s) && !s.heard && (s.role.Follower? || s.role.Candidate?)
    ensures Handle(s, ElectionTimer) == Campaigning(s)
  {
    var u := if s.role.Follower? then Become(Fresh(s), Candidate) else Fresh(s);
    CampaignStart(s, u);
    hide Handle, StartElection, NodeInv, Campaigning;
    StartLaw(s, u);
  }

  lemma StartLaw(s: Node, u: Node)
    requires NodeInv(s) && NodeInv(u) && u == Fresh(s).(role := Candidate, life := Waiting)
    ensures StartElection(u) == Campaigning(s)
  {
    BallotLaw(u);
    hide UpdateTerm, ResetVote, VoteForMe, CheckElected, NodeInv, Campaigning, CampaignWrites, VoteRequests;
    var v := VoteForMe(ResetVote(UpdateTerm(u, u.p.term + 1, true)));
    var w := v.(electionArmed := true, sends := v.sends + VoteRequests(v));
    CountedCampaign(s, u, v, w);
  }

  lemma CountedCampaign(s: Node, u: Node, v: Node, w: Node)
    requires NodeInv(s) && NodeInv(u) && u == Fresh(s).(role := Candidate, life := Waiting)
    requires v == u.(p := Persistent(s.p.term + 1, s.me, true, s.p.log), votes := 1, trail := CampaignWrites(s.p, s.me))
    requires w == v.(electionArmed := true, sends := v.sends + VoteRequests(v))
    ensures CheckElected(w) == Campaigning(s)
  {
    LastFacts(s.p.log);
    CountLaw(w);
    hide CheckElected, CampaignWrites;
    assert w.sends == VoteCalls(s);
    assert Matched(w) == Matched(s);
  }

  /** The election timer of a node that leads, is in Standby, or has heard from a leader only clears that mark. */
  lemma TimerLaw(s: Node)
    requires NodeInv(s)
    ensures Handle(s, ElectionTimer) ==
              if !s.heard && (s.role.Follower? || s.role.Candidate?) then Campaigning(s)
              else Unmoved(s).(heard := false)
  {
    if !s.heard && (s.role.Follower? || s.role.Candidate?) { CampaignLaw(s); }
  }

  // ----- the broadcast timer -----

  /** A commit is pending, and its entry belongs at the end of the log. */
  predicate Held(s: Node) {
    s.pending.Some? && s.pending.value.entry.id == |s.p.log|
  }

  /** The log with the pending entry behind it, if that is where the entry belongs. */
  function Offered(s: Node): seq<LogEntry> {
    s.p.log + if Held(s) then [s.pending.value.entry] else []
  }

  /** The entry at next, with the term of that entry, or a heartbeat; and what precedes next. */
  function Request(s: Node, i: NodeId): Message
    requires i in s.peers
  {
    var next, offered := s.peers[i].next, Offered(s);
    var known := 0 < next <= |offered|;
    var prevIndex, prevTerm := if known then next - 1 else 0, if known then offered[next - 1].term else 0;
    if next < |offered| then
      AppendRequest(s.me, i, offered[next].term, prevIndex, prevTerm, offered[next].command, next)
    else
      AppendRequest(s.me, i, s.p.term, prevIndex, prevTerm, [], 0)
  }

  lemma RequestLaw(s: Node, i: NodeId)
    requires NodeInv(s) && Fit(s) && i in s.peers
    ensures RequestTo(s, i) == Request(s, i)
  {
    NewestOffered(s);
    forall k: nat { OfferedAt(s, k); }
    hide NodeInv, Fit, Newest, LookUp, Offered;
  }

  lemma OfferedAt(s: Node, k: nat)
    requires NodeInv(s) && Fit(s)
    ensures LookUp(s.pending, s.p.log, k) == if k < |Offered(s)| then Some(Offered(s)[k]) else None
    ensures k < |Offered(s)| ==> Offered(s)[k].id == k
  {
  }

  lemma NewestOffered(s: Node)
    requires NodeInv(s) && Fit(s)
    ensures Newest(s.pending, s.p.log).Some? <==> Offered(s) != []
    ensures Offered(s) != [] ==> Newest(s.pending, s.p.log).value.id == |Offered(s)| - 1
  {
    if s.p.log != [] { assert s.p.log[|s.p.log| - 1].id == |s.p.log| - 1; }
  }

  function Broadcasting(s: Node): Node {
    if !s.role.Leader? then Unmoved(s)
    else Unmoved(s).(pending := if Held(s) then s.pending else None, sends := set i | i in s.peers :: Request(s, i))
  }

  lemma BroadcastLaw(s: Node)
    requires NodeInv(s)
    ensures Handle(s, BroadcastTimer) == Broadcasting(s)
  {
    hide RequestTo, Request;
    if s.role.Leader? {
      var u := GetPending(Fresh(s));
      forall i | i in s.peers ensures RequestTo(u, i) == Request(s, i) {
        RequestLaw(u, i);
        SameOffer(u, s, i);
      }
      assert (set i | i in u.peers :: RequestTo(u, i)) == (set i | i in s.peers :: Request(s, i));
    }
  }

  lemma SameOffer(u: Node, s: Node, i: NodeId)
    requires u.me == s.me && u.p == s.p && u.peers == s.peers && i in s.peers
    requires u.pending == if Held(s) then s.pending else None
    ensures Request(u, i) == Request(s, i)
  {
    assert Offered(u) == Offered(s);
  }

  // ----- commands -----

  /** The end of a commit: the entry is stored if it fits, and is notified and answered in any case. */
  function Completing(s: Node, promise: nat, e: LogEntry): Node {
    var stored := s.(calls := s.calls + [Committed(e.id, e.command), Resolved(promise, e.id, Some(e.command), true)]);
    if e.id == |s.p.log| then
      var p := s.p.(log := s.p.log + [e]);
      stored.(p := p, trail := s.trail + [s.p, s.p, p])
    else stored
  }

  function Submitting(s: Node, command: Types.Command, promise: nat): Node {
    var e := LogEntry(|s.p.log|, s.p.term, command);
    if !s.role.Leader? then Unmoved(s).(calls := [Resolved(promise, |s.p.log|, None, false)])
    else if |s.ids| == 1 then Completing(Unmoved(s), promise, e)
    else if Held(s) then Unmoved(s).(calls := [Resolved(promise, |s.p.log|, None, false)])
    else Unmoved(s).(pending := Some(Pending(e, promise, map[])))
  }

  lemma Members(s: Node)
    requires NodeInv(s)
    ensures |s.ids| >= 1
  {
  }

  lemma CommandLaw(s: Node, command: Types.Command, promise: nat)
    requires NodeInv(s)
    ensures Handle(s, Input.Command(command, promise)) == Submitting(s, command, promise)
  {
    Members(s);
  }

  // ----- votes -----

  /** A vote request: the newer term is taken over first; the vote is given to the first candidate of the term whose
      announced log is long enough; and the answer carries the larger term. */
  function Voting(s: Node, m: Message): Node
    requires m.VoteRequest?
  {
    if m.src !in s.peers then Unmoved(s).(sends := {VoteReply(s.me, m.src, 0, false)})
    else
      var u := if s.p.term < m.term then Adopting(s, m.term) else Unmoved(s);
      var granted := s.p.term <= m.term && (s.p.term < m.term || !s.p.voted) && |s.p.log| <= m.lastIndex + 1;
      var t := u.(sends := {VoteReply(s.me, m.src, Larger(s.p.term, m.term), granted)});
      if !granted then t
      else
        t.(p := Persistent(m.term, m.src, true, s.p.log),
           trail := u.trail + [Persistent(m.term, m.src, false, s.p.log), Persistent(m.term, m.src, true, s.p.log)])
  }

  lemma VoteLaw(u: Node, m: Message)
    requires NodeInv(u) && m.VoteRequest? && m.term <= u.p.term
    ensures var granted := u.p.term == m.term && !u.p.voted && |u.p.log| <= m.lastIndex + 1;
            Grants(u, m.term, m.lastIndex) == granted
            && Vote(u, m.term, m.src, m.lastIndex) ==
                 if !granted then u
                 else u.(p := Persistent(m.term, m.src, true, u.p.log),
                         trail := u.trail + [Persistent(m.term, m.src, false, u.p.log),
                                             Persistent(m.term, m.src, true, u.p.log)])
  {
    LastFacts(u.p.log);
  }

  lemma VoteRequestLaw(s: Node, m: Message)
    requires NodeInv(s) && m.VoteRequest?
    ensures Handle(s, Receive(m)) == Voting(s, m)
  {
    hide NodeInv, UpdateTerm, Vote, Grants;
    if m.src in s.peers {
      var u := UpdateTerm(Fresh(s), m.term, false);
      UpdateLaw(s, m.term);
      UpdateTermFacts(Fresh(s), m.term, u) by { FreshInv(s); }
      VotingFrom(s, m, u);
      hide Adopting, Unmoved, Voting;
    }
  }

  lemma VotingFrom(s: Node, m: Message, u: Node)
    requires m.VoteRequest? && m.src in s.peers && NodeInv(u)
    requires u == if s.p.term < m.term then Adopting(s, m.term) else Unmoved(s)
    ensures Send(Vote(u, m.term, m.src, m.lastIndex), VoteReply(s.me, m.src, u.p.term, Grants(u, m.term, m.lastIndex)))
            == Voting(s, m)
  {
    VoteLaw(u, m);
    hide NodeInv, Vote, Grants;
  }

  lemma FreshInv(s: Node)
    requires NodeInv(s)
    ensures NodeInv(Fresh(s))
  {
  }

  /** A reply: a newer term is taken over, and the votes of the current term are counted. */
  function Counting(s: Node, m: Message): Node
    requires m.VoteReply?
  {
    if s.p.term < m.term then Adopting(s, m.term)
    else if m.term < s.p.term || !m.granted then Unmoved(s)
    else
      var t := Unmoved(s).(votes := s.votes + 1);
      if s.votes + 1 < |s.ids| / 2 + 1 then t
      else if s.role.Candidate? then Won(t.(peers := Matched(s)))
      else t.(peers := Matched(s))
  }

  lemma VoteReplyLaw(s: Node, m: Message)
    requires NodeInv(s) && m.VoteReply?
    ensures Handle(s, Receive(m)) == Counting(s, m)
  {
    UpdateLaw(s, m.term);
    CountLaw(Fresh(s).(votes := s.votes + 1));
    hide UpdateTerm, CheckElected;
    assert Matched(Fresh(s).(votes := s.votes + 1)) == Matched(s);
  }

  // ----- requests with entries -----

  /** What a request makes of a log: the new log, the logs a restart would load after each write on the way, the calls
      to the user, and the answer. */
  datatype Storing = Storing(log: seq<LogEntry>, writes: seq<seq<LogEntry>>, calls: seq<Call>, success: bool)

  function Stored(log: seq<LogEntry>, m: Message): Storing
    requires m.AppendRequest?
  {
    var e := LogEntry(m.commit, m.term, m.entries);
    if m.entries == [] then Storing(log, [], [], false)
    else if m.commit > 0 && |log| <= m.prevIndex then Storing(log, [], [], false)
    else if m.commit > 0 && log[m.prevIndex].term != m.prevTerm then
      Storing(log[..m.prevIndex], [log[..m.prevIndex]], [], false)
    else if |log| == m.commit + 1 && log[m.commit].term == m.term then Storing(log, [], [], true)
    else if m.commit < |log| then
      var cut := log[..m.commit];
      Storing(cut + [e], [cut, cut, cut, cut + [e]], [Reverted(m.commit), Committed(m.commit, m.entries)], true)
    else if m.commit == |log| then
      Storing(log + [e], [log, log, log + [e]], [Committed(m.commit, m.entries)], true)
    else Storing(log, [], [], false)
  }

  function Restarts(p: Persistent, writes: seq<seq<LogEntry>>): seq<Persistent> {
    seq(|writes|, i requires 0 <= i < |writes| => p.(log := writes[i]))
  }

  lemma StoreLaw(s: Node, m: Message)
    requires NodeInv(s) && m.AppendRequest?
    ensures var r := Stored(s.p.log, m);
            StoreEntries(s, m) == (s.(p := s.p.(log := r.log), trail := s.trail + Restarts(s.p, r.writes),
                                      calls := s.calls + r.calls), r.success)
  {
    var log := s.p.log;
    if log != [] { assert log[|log| - 1].id == |log| - 1; }
    var r := Stored(log, m);
    if m.entries != [] && m.commit > 0 && m.prevIndex < |log| { assert log[m.prevIndex].id == m.prevIndex; }
    if m.entries == [] || (m.commit > 0 && (|log| <= m.prevIndex || log[m.prevIndex].term != m.prevTerm)) {
      assert s.trail + [] == s.trail && s.calls + [] == s.calls;
      assert Restarts(s.p, r.writes) == if r.writes == [] then [] else [s.p.(log := r.log)];
    } else {
      PlaceLaw(s, m);
    }
  }

  lemma PlaceLaw(s: Node, m: Message)
    requires NodeInv(s) && m.AppendRequest? && m.entries != []
    requires m.commit == 0 || (m.prevIndex < |s.p.log| && s.p.log[m.prevIndex].term == m.prevTerm)
    ensures var r := Stored(s.p.log, m);
            LocalCommit(s, m) == (s.(p := s.p.(log := r.log), trail := s.trail + Restarts(s.p, r.writes),
                                     calls := s.calls + r.calls), r.success)
  {
    var log, e := s.p.log, LogEntry(m.commit, m.term, m.entries);
    if log != [] { assert log[|log| - 1].id == |log| - 1; }
    var r := Stored(log, m);
    assert s.trail + [] == s.trail && s.calls + [] == s.calls;
    if (|log| == m.commit + 1 && log[m.commit].term == m.term) || m.commit > |log| {
      assert Restarts(s.p, []) == [];
    } else if m.commit == |log| {
      assert Restarts(s.p, r.writes) == [s.p, s.p, s.p.(log := log + [e])];
    } else {
      var cut := s.p.(log := log[..m.commit]);
      assert Restarts(s.p, r.writes) == [cut, cut, cut, s.p.(log := log[..m.commit] + [e])];
      assert s.trail + [cut] + [cut, cut, s.p.(log := log[..m.commit] + [e])] == s.trail + Restarts(s.p, r.writes);
      assert s.calls + [Reverted(m.commit)] + [Committed(m.commit, m.entries)] == s.calls + r.calls;
    }
  }

  /** What the sender's term does to the receiver. */
  function Following(s: Node, term: nat): Node {
    if term < s.p.term then Unmoved(s)
    else if term == s.p.term then Yielding(s).(heard := true)
    else Adopting(s, term).(heard := true)
  }

  lemma FollowLaw(s: Node, m: Message)
    requires NodeInv(s) && m.AppendRequest?
    ensures Follow(Fresh(s), m) == Following(s, m.term)
  {
    UpdateLaw(s, m.term);
    hide UpdateTerm;
  }

  function Receiving(s: Node, m: Message): Node
    requires m.AppendRequest?
  {
    if m.src !in s.peers then Unmoved(s).(sends := {AppendReply(s.me, m.src, m.commit, 0, false)})
    else
      var u, r := Following(s, m.term), Stored(s.p.log, m);
      u.(p := u.p.(log := r.log), trail := u.trail + Restarts(u.p, r.writes), calls := u.calls + r.calls,
         sends := {AppendReply(s.me, m.src, m.commit, s.p.term, r.success)})
  }

  /** A request: follow the sender unless its term is old, store in any case, and answer with the term before. */
  lemma AppendRequestLaw(s: Node, m: Message)
    requires NodeInv(s) && m.AppendRequest?
    ensures Handle(s, Receive(m)) == Receiving(s, m)
  {
    if m.src in s.peers {
      FollowLaw(s, m);
      FollowFacts(Fresh(s), m, Follow(Fresh(s), m));
      StoreLaw(Follow(Fresh(s), m), m);
      hide Follow, StoreEntries, Stored, NodeInv;
    }
  }

  // ----- replies to requests -----

  function Moved(peer: Peer, m: Message): Peer
    requires m.AppendReply?
  {
    if m.success then Peer(m.commit + 1, m.commit)
    else Peer(if peer.next == 0 then 0 else peer.next - 1, peer.matched)
  }

  /** The answers to the pending commit with this one added, and those that equal it. */
  function Answers(c: Pending, m: Message): map<NodeId, bool>
    requires m.AppendReply?
  {
    c.results[m.src := m.success]
  }

  function Alike(s: Node, c: Pending, m: Message): set<NodeId>
    requires m.AppendReply?
  {
    set i | i in s.peers && i in Answers(c, m) && Answers(c, m)[i] == m.success
  }

  function Tallying(s: Node, m: Message): Node
    requires m.AppendReply?
  {
    if m.src !in s.peers then Unmoved(s)
    else
      var peers := s.peers[m.src := Moved(s.peers[m.src], m)];
      if s.p.term < m.term then Adopting(s, m.term).(peers := peers)
      else
        var u := Unmoved(s).(peers := peers);
        match s.pending
        case None => u
        case Some(c) =>
          if c.entry.id != m.commit || c.entry.term != m.term then u
          else if 1 + |Alike(s, c, m)| < |s.ids| / 2 + 1 then u.(pending := Some(c.(results := Answers(c, m))))
          else Completing(u.(pending := None), c.promise, c.entry)
  }

  lemma MovedUpdateLaw(s: Node, peers: map<NodeId, Peer>, term: nat)
    requires NodeInv(s) && peers.Keys == s.peers.Keys
    ensures UpdateTerm(Fresh(s).(peers := peers), term, false)
            == if s.p.term < term then Adopting(s, term).(peers := peers) else Unmoved(s).(peers := peers)
  {
    UpdateLaw(s.(peers := peers), term);
    assert Fresh(s.(peers := peers)) == Fresh(s).(peers := peers);
  }

  lemma CompleteLaw(s: Node, promise: nat, e: LogEntry)
    ensures CompleteCommit(s, promise, e) == Completing(s, promise, e)
  {
  }

  lemma AppendReplyLaw(s: Node, m: Message)
    requires NodeInv(s) && m.AppendReply?
    ensures Handle(s, Receive(m)) == Tallying(s, m)
  {
    if m.src in s.peers {
      var peers := s.peers[m.src := MoveIndex(s.peers[m.src], m.commit, m.success)];
      assert MoveIndex(s.peers[m.src], m.commit, m.success) == Moved(s.peers[m.src], m);
      MovedUpdateLaw(s, peers, m.term);
      hide UpdateTerm, CompleteCommit, Completing;
      if s.pending.Some? && m.term <= s.p.term {
        var c := s.pending.value;
        assert Agreeing(peers.Keys, c.results[m.src := m.success], m.success) == Alike(s, c, m);
        CompleteLaw(Unmoved(s).(peers := peers, pending := None), c.promise, c.entry);
      }
    }
  }

  // ----- all of them -----

  /** The state after any input. */
  function Outcome(s: Node, input: Input): Node {
    match input
    case ElectionTimer =>
      if !s.heard && (s.role.Follower? || s.role.Candidate?) then Campaigning(s) else Unmoved(s).(heard := false)
    case BroadcastTimer => Broadcasting(s)
    case Command(command, promise) => Submitting(s, command, promise)
    case Receive(m) =>
      match m
      case VoteRequest(_, _, _, _, _) => Voting(s, m)
      case VoteReply(_, _, _, _) => Counting(s, m)
      case AppendRequest(_, _, _, _, _, _, _) => Receiving(s, m)
      case AppendReply(_, _, _, _, _) => Tallying(s, m)
  }

  /** The handlers, composed of the program's many functions, give the outcomes of the closed form. */
  lemma HandleLaw(s: Node, input: Input)
    requires NodeInv(s)
    ensures Handle(s, input) == Outcome(s, input)
  {
    hide Handle, NodeInv, Campaigning, Broadcasting, Submitting, Voting, Counting, Receiving, Tallying;
    match input
    case ElectionTimer => TimerLaw(s);
    case BroadcastTimer => BroadcastLaw(s);
    case Command(command, promise) => CommandLaw(s, command, promise);
    case Receive(m) =>
      match m
      case VoteRequest(_, _, _, _, _) => VoteRequestLaw(s, m);
      case VoteReply(_, _, _, _) => VoteReplyLaw(s, m);
      case AppendRequest(_, _, _, _, _, _, _) => AppendRequestLaw(s, m);
      case AppendReply(_, _, _, _, _) => AppendReplyLaw(s, m);
  }
}
