/** What one step of one node can and cannot do. The cluster proofs use these facts only. */
module NodeFacts {
  import opened Types
  import opened NodeSpec

  /** Lifecycle and timers are the image of the raft state. */
  ghost predicate Imaged(s: Node) {
    && s.life == LifecycleOf(s.role)
    && (s.broadcastArmed <==> s.role.Leader?)
    && (s.electionArmed <==> !s.role.Standby?)
  }

  /** Holds of every node between two steps, whatever messages it receives. */
  ghost predicate NodeInv(s: Node) {
    && s.me in s.ids
    && s.peers.Keys == s.ids - {s.me}
    && Imaged(s)
    && WellIndexed(s.p.log)
    && (s.pending.Some? ==>
          s.role.Leader? && s.pending.value.entry.term == s.p.term && |s.ids| > 1)
  }

  // ----- the relations -----

  /** The election timer starts a campaign. */
  ghost predicate Campaigns(s: Node, input: Input) {
    input.ElectionTimer? && !s.heard && (s.role.Follower? || s.role.Candidate?)
  }

  ghost predicate CountedReply(s: Node, input: Input) {
    input.Receive? && input.message.VoteReply? && input.message.granted && input.message.term == s.p.term
  }

  /** Terms, votes and roles across one step. */
  ghost predicate ElectionStep(s: Node, input: Input, t: Node) {
    && s.p.term <= t.p.term
    && (t.p.term == s.p.term && s.p.voted ==> t.p.voted)
    && (Campaigns(s, input) ==>
          t.p.term == s.p.term + 1 && t.p.voted && t.votes == 1 && t.p.log == s.p.log)
    && (!Campaigns(s, input) && s.p.term < t.p.term ==> t.votes == 0)
    && (!Campaigns(s, input) && s.p.term == t.p.term ==>
          t.votes == s.votes || (t.votes == s.votes + 1 && CountedReply(s, input)))
    && (t.role.Leader? ==>
          || (s.role.Leader? && t.p.term == s.p.term)
          || (t.votes >= Majority(s) && (Campaigns(s, input) || (s.role.Candidate? && t.p.term == s.p.term))))
    && (t.role.Candidate? ==> (s.role.Candidate? && t.p.term == s.p.term) || Campaigns(s, input))
  }

  /** commit_command accepts the command: the leader makes a new entry. */
  ghost predicate Creates(s: Node, input: Input) {
    input.Command? && s.role.Leader? && (|s.ids| <= 1 || Free(s))
  }

  ghost function NewEntry(s: Node, input: Input): LogEntry
    requires input.Command?
  {
    LogEntry(|s.p.log|, s.p.term, input.command)
  }

  ghost predicate Stores(s: Node, input: Input) {
    input.Receive? && input.message.AppendRequest? && input.message.src in s.peers && input.message.entries != []
  }

  /** The log has an entry of the named term at the named index. */
  predicate PredecessorFound(log: seq<LogEntry>, m: Message)
    requires m.AppendRequest?
  {
    m.prevIndex < |log| && log[m.prevIndex].term == m.prevTerm
  }

  predicate LastIs(log: seq<LogEntry>, index: nat, term: nat) {
    |log| == index + 1 && log[index].term == term
  }

  /** The predecessor named by the request is there but has another term: the log is cut at it. */
  predicate Conflicts(log: seq<LogEntry>, m: Message)
    requires m.AppendRequest?
  {
    m.commit > 0 && m.prevIndex < |log| && log[m.prevIndex].term != m.prevTerm
  }

  /** The entry can be placed, and is not already the last one. */
  predicate Places(log: seq<LogEntry>, m: Message)
    requires m.AppendRequest?
  {
    && (m.commit == 0 || PredecessorFound(log, m))
    && m.commit <= |log| && !LastIs(log, m.commit, m.term)
  }

  /** The requests with an entry that change this log. */
  predicate Rewrites(log: seq<LogEntry>, m: Message)
    requires m.AppendRequest?
  {
    Conflicts(log, m) || Places(log, m)
  }

  /** The only ways in which the entries of a request change a log. */
  ghost predicate Rewritten(log: seq<LogEntry>, m: Message, log': seq<LogEntry>)
    requires m.AppendRequest?
  {
    || log' <= log
    || (&& m.commit <= |log|
        && log' == log[..m.commit] + [LogEntry(m.commit, m.term, m.entries)]
        && (m.commit > 0 ==> m.prevIndex < |log| && log[m.prevIndex].term == m.prevTerm))
  }

  /** The pending entry fits the end of the log. */
  ghost predicate Fit(s: Node) {
    s.pending.Some? ==> s.pending.value.entry.id == |s.p.log|
  }

  /** The pending entry fits the end of the log and a reply moves it there. */
  ghost predicate Finishes(s: Node, input: Input, t: Node) {
    && input.Receive? && input.message.AppendReply?
    && s.pending.Some? && s.pending.value.entry.id == |s.p.log|
    && t.p.log == s.p.log + [s.pending.value.entry]
  }

  /** The log and the pending commit across one step. */
  ghost predicate LogStep(s: Node, input: Input, t: Node) {
    && (|| t.p.log == s.p.log
        || (Stores(s, input) && Rewrites(s.p.log, input.message) && Rewritten(s.p.log, input.message, t.p.log)
            && input.message.term <= t.p.term
            && (t.role.Leader? ==> s.role.Leader? && input.message.term < s.p.term))
        || Finishes(s, input, t)
        || (Creates(s, input) && t.p.log == s.p.log + [NewEntry(s, input)]))
    && (t.pending.Some? ==>
          || Creates(s, input)
          || (s.pending.Some? && t.pending.value.entry == s.pending.value.entry && !Finishes(s, input, t)))
    && (Creates(s, input) ==>
          && t.role.Leader?
          && (|| (t.p.log == s.p.log + [NewEntry(s, input)] && t.pending.None?)
              || (t.p.log == s.p.log && t.pending.Some? && t.pending.value.entry == NewEntry(s, input))))
    && (s.pending.Some? && s.pending.value.entry.id == |s.p.log| && t.role.Leader? && !Creates(s, input) ==>
          Finishes(s, input, t) || (t.pending.Some? && t.pending.value.entry == s.pending.value.entry))
  }

  /** The request carries an entry of the sender's log, or its pending entry, with the right predecessor. */
  ghost predicate Carries(s: Node, m: Message)
    requires m.AppendRequest?
  {
    && (|| (m.commit < |s.p.log| && s.p.log[m.commit] == LogEntry(m.commit, m.term, m.entries))
        || (m.commit == |s.p.log| && s.pending.Some?
            && s.pending.value.entry == LogEntry(m.commit, m.term, m.entries)))
    && m.prevIndex == (if m.commit == 0 then 0 else m.commit - 1)
    && m.prevTerm == (if m.commit == 0 then 0 else s.p.log[m.commit - 1].term)
  }

  /** Where every message sent in one step comes from. */
  ghost predicate Sent(s: Node, input: Input, t: Node, m: Message) {
    && m.src == s.me
    && match m
       case VoteRequest(_, _, term, lastIndex, _) =>
         Campaigns(s, input) && term == t.p.term && lastIndex == LastIndex(s.p.log)
       case VoteReply(_, dst, term, granted) =>
         granted ==>
           && input.Receive? && input.message.VoteRequest?
           && dst == input.message.src && dst in s.peers
           && term == input.message.term == t.p.term && t.p.voted
           && (s.p.term < term || !s.p.voted)
           && t.p.log == s.p.log
           && (s.p.log == [] || LastIndex(s.p.log) <= input.message.lastIndex)
       case AppendRequest(_, _, _, _, _, entries, _) =>
         entries != [] ==> input.BroadcastTimer? && s.role.Leader? && Carries(s, m)
       case AppendReply(_, _, _, _, success) =>
         success ==> input.Receive? && input.message.AppendRequest?
  }

  ghost predicate SendStep(s: Node, input: Input, t: Node) {
    forall m :: m in t.sends ==> Sent(s, input, t, m)
  }

  /** What a restart may find if the process stops in the middle of the step. */
  ghost predicate CrashPoint(s: Node, t: Node, p: Persistent) {
    && s.p.term <= p.term <= t.p.term
    && (p.term == s.p.term && s.p.voted ==> p.voted)
    && (p.log <= s.p.log || (p.log == t.p.log && p.term == t.p.term))
  }

  ghost predicate TrailStep(s: Node, t: Node) {
    forall p :: p in t.trail ==> CrashPoint(s, t, p)
  }

  ghost predicate Step(s: Node, input: Input, t: Node) {
    && NodeInv(t) && t.me == s.me && t.ids == s.ids
    && ElectionStep(s, input, t)
    && LogStep(s, input, t)
    && SendStep(s, input, t)
    && TrailStep(s, t)
  }

  // ----- the parts of the handlers -----

  lemma StepDownFacts(s: Node, t: Node)
    requires Imaged(s) && (s.pending.Some? ==> s.role.Leader?) && t == StepDown(s)
    ensures t == s.(role := t.role, life := t.life, electionArmed := t.electionArmed,
                    broadcastArmed := t.broadcastArmed, pending := None, calls := t.calls)
    ensures Imaged(t) && t.role == if s.role.Standby? then Standby else Follower
  {
  }

  lemma UpdateTermFacts(s: Node, term: nat, t: Node)
    requires NodeInv(s) && t == UpdateTerm(s, term, false)
    ensures NodeInv(t) && t.me == s.me && t.ids == s.ids && t.sends == s.sends && t.peers == s.peers
    ensures term <= s.p.term ==> t == s
    ensures term > s.p.term ==>
              && t.p == Persistent(term, 0, false, s.p.log) && t.votes == 0
              && !t.role.Leader? && !t.role.Candidate?
    ensures forall p :: p in t.trail ==> p in s.trail || CrashPoint(s, t, p)
  {
    hide StepDown;
    if term > s.p.term {
      var u := ResetVote(SetTerm(s, term));
      StepDownFacts(u, StepDown(u));
    }
  }

  lemma FollowFacts(s: Node, m: Message, t: Node)
    requires NodeInv(s) && m.AppendRequest? && t == Follow(s, m)
    ensures NodeInv(t) && t.me == s.me && t.ids == s.ids && t.sends == s.sends && t.peers == s.peers
    ensures m.term <= s.p.term ==> t.p == s.p && t.votes == s.votes
    ensures m.term > s.p.term ==> t.p == Persistent(m.term, 0, false, s.p.log) && t.votes == 0
    ensures m.term < s.p.term ==> t == s
    ensures m.term >= s.p.term ==> !t.role.Leader? && !t.role.Candidate?
    ensures forall p :: p in t.trail ==> p in s.trail || CrashPoint(s, t, p)
  {
    UpdateTermFacts(s, m.term, UpdateTerm(s, m.term, false));
  }

  lemma MakeRoomFacts(s: Node, m: Message, t: Node)
    requires NodeInv(s) && m.AppendRequest? && t == MakeRoom(s, m)
    ensures t == s.(p := s.p.(log := t.p.log), trail := t.trail, calls := t.calls)
    ensures t.p.log == if m.commit < |s.p.log| then s.p.log[..m.commit] else s.p.log
    ensures t.trail == s.trail || t.trail == s.trail + [t.p]
  {
  }

  /** A local commit ends in one of two ways: nothing to do, or the log cut at the index and extended. */
  lemma LocalCommitShape(s: Node, m: Message, t: Node)
    requires NodeInv(s) && m.AppendRequest? && t == LocalCommit(s, m).0
    ensures t == s.(p := s.p.(log := t.p.log), trail := t.trail, calls := t.calls)
    ensures || (t.p == s.p && t.trail == s.trail)
            || (&& m.commit <= |s.p.log|
                && t.p.log == s.p.log[..m.commit] + [LogEntry(m.commit, m.term, m.entries)]
                && var cut := s.p.(log := s.p.log[..m.commit]);
                   || t.trail == s.trail + [cut, cut, t.p]
                   || t.trail == s.trail + [cut] + [cut, cut, t.p])
  {
    if !AlreadyStored(s, m) {
      MakeRoomFacts(s, m, MakeRoom(s, m));
      if m.commit == |s.p.log| { assert s.p.log[..m.commit] == s.p.log; }
    }
  }

  lemma LocalCommitFacts(s: Node, m: Message, t: Node)
    requires NodeInv(s) && m.AppendRequest? && t == LocalCommit(s, m).0
    requires m.commit > 0 ==> m.prevIndex < |s.p.log| && s.p.log[m.prevIndex].term == m.prevTerm
    ensures t == s.(p := s.p.(log := t.p.log), trail := t.trail, calls := t.calls)
    ensures WellIndexed(t.p.log) && Rewritten(s.p.log, m, t.p.log)
    ensures forall p :: p in t.trail ==> p in s.trail || CrashPoint(s, t, p)
  {
    LocalCommitShape(s, m, t);
  }

  lemma StoreFacts(s: Node, m: Message, t: Node)
    requires NodeInv(s) && m.AppendRequest? && t == StoreEntries(s, m).0
    ensures t == s.(p := s.p.(log := t.p.log), trail := t.trail, calls := t.calls)
    ensures NodeInv(t)
    ensures if m.entries == [] then t.p.log == s.p.log else Rewritten(s.p.log, m, t.p.log)
    ensures forall p :: p in t.trail ==> p in s.trail || CrashPoint(s, t, p)
  {
    var e := At(s.p.log, m.prevIndex);
    if m.entries != [] && (m.commit == 0 || (e.Some? && e.value.term == m.prevTerm)) {
      LocalCommitFacts(s, m, t);
    }
  }

  /** The entries of a request change a log exactly when they conflict with it or find a new place in it. */
  lemma ChangeRule(s: Node, m: Message)
    requires NodeInv(s) && m.AppendRequest?
    ensures StoreEntries(s, m).0.p.log != s.p.log <==>
              m.entries != [] && Rewrites(s.p.log, m)
  {
    var log, t := s.p.log, LocalCommit(s, m).0;
    if log != [] { assert log[|log| - 1].id == |log| - 1; }
    if m.entries != [] && Conflicts(log, m) {
      assert log[m.prevIndex].id == m.prevIndex;
    } else if m.entries != [] && (m.commit == 0 || PredecessorFound(log, m)) {
      PlaceRule(s, m);
    }
  }

  lemma PlaceRule(s: Node, m: Message)
    requires NodeInv(s) && m.AppendRequest?
    ensures LocalCommit(s, m).0.p.log != s.p.log <==> m.commit <= |s.p.log| && !LastIs(s.p.log, m.commit, m.term)
  {
  }

  lemma CheckElectedFacts(s: Node, t: Node)
    requires NodeInv(s) && t == CheckElected(s)
    ensures NodeInv(t) && t.me == s.me && t.ids == s.ids && t.p == s.p && t.votes == s.votes
    ensures t.trail == s.trail && t.sends == s.sends && t.pending == s.pending
    ensures t.role == s.role || (s.role.Candidate? && t.role.Leader? && s.votes >= Majority(s))
  {
  }

  lemma TallyFacts(s: Node, id: NodeId, commit: nat, term: nat, success: bool, t: Node)
    requires NodeInv(s) && t == Tally(s, id, commit, term, success)
    ensures t == s.(p := s.p.(log := t.p.log), pending := t.pending, trail := t.trail, calls := t.calls)
    ensures NodeInv(t)
    ensures t.p.log == s.p.log
            || (s.pending.Some? && s.pending.value.entry.id == |s.p.log|
                && t.p.log == s.p.log + [s.pending.value.entry] && t.pending.None?)
    ensures t.pending.Some? ==> s.pending.Some? && t.pending.value.entry == s.pending.value.entry
    ensures s.pending.Some? && s.pending.value.entry.id == |s.p.log| && t.pending.None? ==>
              t.p.log == s.p.log + [s.pending.value.entry]
    ensures forall p :: p in t.trail ==> p in s.trail || CrashPoint(s, t, p)
  {
  }

  // ----- the handlers -----

  /** A campaign up to the point where the votes are counted. */
  lemma BallotFacts(s: Node, t: Node)
    requires NodeInv(s) && s.role.Candidate?
    requires t == VoteForMe(ResetVote(UpdateTerm(s, s.p.term + 1, true)))
    ensures t == s.(p := Persistent(s.p.term + 1, s.me, true, s.p.log), votes := 1, trail := t.trail)
    ensures forall p :: p in t.trail ==> p in s.trail || CrashPoint(s, t, p)
  {
  }

  lemma SameVoteRequests(s: Node, t: Node)
    requires t.me == s.me && t.p == s.p && t.peers == s.peers
    ensures VoteRequests(t) == VoteRequests(s)
  {
  }

  /** A campaign starts from the candidate state. */
  lemma CampaignStart(s: Node, u: Node)
    requires NodeInv(s) && Campaigns(s, ElectionTimer)
    requires u == if s.role.Follower? then Become(Fresh(s), Candidate) else Fresh(s)
    ensures Handle(s, ElectionTimer) == StartElection(u)
    ensures NodeInv(u) && u == Fresh(s).(role := Candidate, life := Waiting)
  {
    hide StartElection;
  }

  lemma CampaignFacts(s: Node, input: Input, t: Node)
    requires NodeInv(s) && Campaigns(s, input) && t == Handle(s, input)
    ensures Step(s, input, t)
  {
    hide Handle, Become, UpdateTerm, ResetVote, VoteForMe, CheckElected;
    var u := if s.role.Follower? then Become(Fresh(s), Candidate) else Fresh(s);
    CampaignStart(s, u);
    var v := VoteForMe(ResetVote(UpdateTerm(u, u.p.term + 1, true)));
    BallotFacts(u, v);
    CheckElectedFacts(v.(electionArmed := true, sends := v.sends + VoteRequests(v)), t);
  }

  lemma TimerFacts(s: Node, input: Input, t: Node)
    requires NodeInv(s) && input.ElectionTimer? && t == Handle(s, input)
    ensures Step(s, input, t)
  {
    if Campaigns(s, input) { CampaignFacts(s, input, t); }
  }

  lemma RequestSent(s: Node, i: NodeId)
    requires NodeInv(s) && Fit(s) && i in s.peers
    ensures var m := RequestTo(s, i);
            m.AppendRequest? && m.src == s.me && (m.entries != [] ==> Carries(s, m))
  {
  }

  lemma BroadcastShape(s: Node)
    requires NodeInv(s)
    ensures var t := Broadcast(s);
            && t == s.(pending := t.pending, sends := t.sends) && NodeInv(t) && Fit(t)
            && (t.pending == s.pending || (t.pending.None? && !Fit(s)))
            && forall m :: m in t.sends ==>
                 m in s.sends || (m.AppendRequest? && m.src == s.me && (m.entries != [] ==> Carries(s, m)))
  {
    var u := GetPending(s);
    hide RequestTo, Carries;
    forall i | i in u.peers ensures var m := RequestTo(u, i);
        m.AppendRequest? && m.src == s.me && (m.entries != [] ==> Carries(s, m)) {
      RequestSent(u, i);
      if RequestTo(u, i).entries != [] { StillCarries(u, s, RequestTo(u, i)); }
    }
  }

  lemma StillCarries(u: Node, s: Node, m: Message)
    requires m.AppendRequest? && Carries(u, m) && u.p == s.p && (u.pending.None? || u.pending == s.pending)
    ensures Carries(s, m)
  {
  }

  lemma BroadcastFacts(s: Node, input: Input, t: Node)
    requires NodeInv(s) && input.BroadcastTimer? && t == Handle(s, input)
    ensures Step(s, input, t)
  {
    hide Broadcast, Carries;
    BroadcastShape(Fresh(s));
    if s.role.Leader? {
      forall m | m in t.sends ensures Sent(s, input, t, m) {
        if m.entries != [] { StillCarries(Fresh(s), s, m); }
      }
    }
  }

  lemma CommandFacts(s: Node, input: Input, t: Node)
    requires NodeInv(s) && input.Command? && t == Handle(s, input)
    ensures Step(s, input, t)
  {
  }

  /** A message from a node outside the cluster is refused, if it needs an answer, and changes nothing. */
  lemma IgnoredFacts(s: Node, m: Message, t: Node)
    requires NodeInv(s) && !m.VoteReply? && m.src !in s.peers && t == Handle(s, Receive(m))
    ensures t == Fresh(s).(sends := t.sends) && Step(s, Receive(m), t)
  {
  }

  lemma VoteFacts(s: Node, term: nat, id: NodeId, lastIndex: nat, t: Node)
    requires NodeInv(s) && t == Vote(s, term, id, lastIndex)
    ensures t == s.(p := s.p.(votedFor := t.p.votedFor, voted := t.p.voted), trail := t.trail)
    ensures t.p.voted == (s.p.voted || Grants(s, term, lastIndex))
    ensures forall p :: p in t.trail ==> p in s.trail || CrashPoint(s, t, p)
  {
  }

  lemma VoteRequestFacts(s: Node, input: Input, t: Node)
    requires NodeInv(s) && input.Receive? && input.message.VoteRequest? && t == Handle(s, input)
    ensures Step(s, input, t)
  {
    var m, f := input.message, Fresh(s);
    if m.src !in s.peers {
      IgnoredFacts(s, m, t);
    } else {
      hide UpdateTerm, Vote;
      var u := UpdateTerm(f, m.term, false);
      UpdateTermFacts(f, m.term, u);
      VoteFacts(u, m.term, m.src, m.lastIndex, Vote(u, m.term, m.src, m.lastIndex));
    }
  }

  lemma VoteReplyFacts(s: Node, input: Input, t: Node)
    requires NodeInv(s) && input.Receive? && input.message.VoteReply? && t == Handle(s, input)
    ensures Step(s, input, t)
  {
    var m, f := input.message, Fresh(s);
    if m.term > s.p.term {
      UpdateTermFacts(f, m.term, t);
    } else if m.term == s.p.term && m.granted {
      CheckElectedFacts(f.(votes := f.votes + 1), t);
    }
  }

  /** What is left of a request's effect once the sender has been followed: a new log and the reply. */
  lemma AppendRequestShape(s: Node, m: Message, u: Node, t: Node)
    requires NodeInv(s) && m.AppendRequest? && m.src in s.peers
    requires u == Follow(Fresh(s), m) && t == Handle(s, Receive(m))
    ensures t == u.(p := u.p.(log := t.p.log), trail := t.trail, calls := t.calls, sends := t.sends)
    ensures NodeInv(u) && NodeInv(t) && u.me == s.me && u.ids == s.ids && u.p.log == s.p.log
    ensures SendStep(s, Receive(m), t) && TrailStep(s, t)
    ensures if m.entries == [] then t.p.log == s.p.log else Rewritten(s.p.log, m, t.p.log)
    ensures t.p.log != s.p.log ==> m.entries != [] && Rewrites(s.p.log, m)
  {
    hide Follow, StoreEntries, Rewrites;
    FollowFacts(Fresh(s), m, u);
    StoreFacts(u, m, StoreEntries(u, m).0);
    ChangeRule(u, m);
  }

  lemma AppendRequestFacts(s: Node, input: Input, t: Node)
    requires NodeInv(s) && input.Receive? && input.message.AppendRequest? && t == Handle(s, input)
    ensures Step(s, input, t)
  {
    var m, f := input.message, Fresh(s);
    if m.src !in s.peers {
      IgnoredFacts(s, m, t);
    } else {
      hide Handle, Follow, Rewrites, Rewritten, SendStep, TrailStep;
      FollowFacts(f, m, Follow(f, m));
      AppendRequestShape(s, m, Follow(f, m), t);
    }
  }

  lemma AppendReplyShape(s: Node, m: Message, v: Node, t: Node)
    requires NodeInv(s) && m.AppendReply? && m.src in s.peers && t == Handle(s, Receive(m))
    requires v == UpdateTerm(Fresh(s).(peers := t.peers), m.term, false)
    ensures t == Tally(v, m.src, m.commit, m.term, m.success) && NodeInv(v) && v.p.log == s.p.log
    ensures t.me == s.me && t.ids == s.ids && t.p == v.p.(log := t.p.log) && t.votes == v.votes && t.role == v.role
    ensures SendStep(s, Receive(m), t) && TrailStep(s, t)
  {
    hide UpdateTerm, Tally;
    var u := Fresh(s).(peers := s.peers[m.src := MoveIndex(s.peers[m.src], m.commit, m.success)]);
    UpdateTermFacts(u, m.term, UpdateTerm(u, m.term, false));
    var w := UpdateTerm(u, m.term, false);
    TallyFacts(w, m.src, m.commit, m.term, m.success, t);
  }

  lemma AppendReplyLog(s: Node, m: Message, v: Node, t: Node)
    requires NodeInv(s) && m.AppendReply? && m.src in s.peers && t == Handle(s, Receive(m))
    requires v == UpdateTerm(Fresh(s).(peers := t.peers), m.term, false)
    ensures NodeInv(t) && LogStep(s, Receive(m), t)
  {
    AppendReplyShape(s, m, v, t);
    hide Handle, UpdateTerm, Tally, SendStep, TrailStep;
    UpdateTermFacts(Fresh(s).(peers := t.peers), m.term, v);
    TallyFacts(v, m.src, m.commit, m.term, m.success, t);
  }

  lemma AppendReplyFacts(s: Node, input: Input, t: Node)
    requires NodeInv(s) && input.Receive? && input.message.AppendReply? && t == Handle(s, input)
    ensures Step(s, input, t)
  {
    var m := input.message;
    if m.src !in s.peers {
      IgnoredFacts(s, m, t);
    } else {
      hide Handle, UpdateTerm, Tally, SendStep, TrailStep, LogStep;
      var u := Fresh(s).(peers := t.peers);
      var v := UpdateTerm(u, m.term, false);
      AppendReplyShape(s, m, v, t);
      AppendReplyLog(s, m, v, t);
      UpdateTermFacts(u, m.term, v);
    }
  }

  /** Every step of every node obeys the relations. */
  lemma HandleFacts(s: Node, input: Input, t: Node)
    requires NodeInv(s) && t == Handle(s, input)
    ensures Step(s, input, t)
  {
    match input
    case ElectionTimer => TimerFacts(s, input, t);
    case BroadcastTimer => BroadcastFacts(s, input, t);
    case Command(_, _) => CommandFacts(s, input, t);
    case Receive(m) =>
      match m
      case VoteRequest(_, _, _, _, _) => VoteRequestFacts(s, input, t);
      case VoteReply(_, _, _, _) => VoteReplyFacts(s, input, t);
      case AppendRequest(_, _, _, _, _, _, _) => AppendRequestFacts(s, input, t);
      case AppendReply(_, _, _, _, _) => AppendReplyFacts(s, input, t);
  }
}
