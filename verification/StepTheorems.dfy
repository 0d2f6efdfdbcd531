/** What single steps promise to clients, users and other nodes, read off the closed form of every input. */
module StepTheorems {
  import opened Types
  import opened NodeSpec
  import opened NodeFacts
  import opened StepLaws
  import opened Tables

  // ----- role, term and calls after each kind of message -----

  function Demoted(role: Role): Role {
    if role.Standby? then Standby else Follower
  }

  /** The reply counts for the pending commit, and with it and the leader a majority has answered alike. */
  predicate CompletesPending(s: Node, m: Message)
    requires m.AppendReply?
  {
    && m.src in s.peers && m.term <= s.p.term && s.pending.Some?
    && s.pending.value.entry.id == m.commit && s.pending.value.entry.term == m.term
    && 1 + |Alike(s, s.pending.value, m)| >= |s.ids| / 2 + 1
  }

  lemma CampaignDigest(s: Node)
    ensures Campaigning(s).calls == [] && Campaigning(s).p.term == s.p.term + 1
    ensures Campaigning(s).role == if |s.ids| / 2 + 1 <= 1 then Leader else Candidate
  {
  }

  lemma BroadcastDigest(s: Node)
    ensures Broadcasting(s).calls == [] && Broadcasting(s).p == s.p && Broadcasting(s).role == s.role
  {
  }

  lemma CommandDigest(s: Node, command: Types.Command, promise: nat)
    ensures var t := Submitting(s, command, promise);
            && t.role == s.role && t.p.term == s.p.term
            && t.calls ==
                 if s.role.Leader? && |s.ids| == 1 then
                   [Committed(|s.p.log|, command), Resolved(promise, |s.p.log|, Some(command), true)]
                 else if s.role.Leader? && !Held(s) then []
                 else [Resolved(promise, |s.p.log|, None, false)]
  {
  }

  lemma VotingDigest(s: Node, m: Message)
    requires m.VoteRequest?
    ensures var t, newer := Voting(s, m), m.src in s.peers && s.p.term < m.term;
            && t.role == (if newer then Demoted(s.role) else s.role)
            && t.p.term == (if newer then m.term else s.p.term)
            && t.calls == if newer then Refusal(s.pending) else []
  {
  }

  lemma CountingDigest(s: Node, m: Message)
    requires m.VoteReply?
    ensures var t, newer := Counting(s, m), s.p.term < m.term;
            && t.role == (if newer then Demoted(s.role)
                          else if s.p.term == m.term && m.granted && s.role.Candidate? && s.votes + 1 >= |s.ids| / 2 + 1
                          then Leader
                          else s.role)
            && t.p.term == (if newer then m.term else s.p.term)
            && t.calls == if newer then Refusal(s.pending) else []
  {
    hide Matched;
  }

  lemma ReceivingDigest(s: Node, m: Message)
    requires m.AppendRequest?
    ensures var t, current := Receiving(s, m), m.src in s.peers && s.p.term <= m.term;
            && t.role == (if current then Demoted(s.role) else s.role)
            && t.p.term == (if current then m.term else s.p.term)
            && t.calls == (if current then Refusal(s.pending) else [])
                          + (if m.src in s.peers then Stored(s.p.log, m).calls else [])
  {
    hide Stored;
  }

  lemma TallyingDigest(s: Node, m: Message)
    requires m.AppendReply?
    ensures var t, newer := Tallying(s, m), m.src in s.peers && s.p.term < m.term;
            && t.role == (if newer then Demoted(s.role) else s.role)
            && t.p.term == (if newer then m.term else s.p.term)
            && t.calls == if newer then Refusal(s.pending)
                          else if CompletesPending(s, m) then
                            var c := s.pending.value;
                            [Committed(c.entry.id, c.entry.command),
                             Resolved(c.promise, c.entry.id, Some(c.entry.command), true)]
                          else []
  {
    hide Alike;
  }

  /** The message makes the node give way: a newer term, or a request of its own term. */
  predicate Deposes(s: Node, m: Message) {
    match m
    case VoteRequest(src, _, term, _, _) => src in s.peers && s.p.term < term
    case VoteReply(_, _, term, _) => s.p.term < term
    case AppendRequest(src, _, term, _, _, _, _) => src in s.peers && s.p.term <= term
    case AppendReply(src, _, _, term, _) => src in s.peers && s.p.term < term
  }

  /** The vote makes the candidate a leader. */
  predicate Elects(s: Node, m: Message) {
    m.VoteReply? && m.granted && m.term == s.p.term && s.role.Candidate? && s.votes + 1 >= |s.ids| / 2 + 1
  }

  function RoleAfter(s: Node, input: Input): Role {
    match input
    case ElectionTimer =>
      if s.heard || s.role.Standby? || s.role.Leader? then s.role
      else if |s.ids| / 2 + 1 <= 1 then Leader
      else Candidate
    case BroadcastTimer => s.role
    case Command(_, _) => s.role
    case Receive(m) => if Deposes(s, m) then Demoted(s.role) else if Elects(s, m) then Leader else s.role
  }

  function CallsAfter(s: Node, input: Input): seq<Call> {
    match input
    case ElectionTimer => []
    case BroadcastTimer => []
    case Command(command, promise) =>
      if s.role.Leader? && |s.ids| == 1 then
        [Committed(|s.p.log|, command), Resolved(promise, |s.p.log|, Some(command), true)]
      else if s.role.Leader? && !Held(s) then []
      else [Resolved(promise, |s.p.log|, None, false)]
    case Receive(m) =>
      (if Deposes(s, m) then Refusal(s.pending) else [])
      + (if m.AppendRequest? && m.src in s.peers then Stored(s.p.log, m).calls
         else if m.AppendReply? && CompletesPending(s, m) then
           var c := s.pending.value;
           [Committed(c.entry.id, c.entry.command), Resolved(c.promise, c.entry.id, Some(c.entry.command), true)]
         else [])
  }

  /** Role and calls after any input. */
  lemma Digest(s: Node, input: Input)
    requires NodeInv(s)
    ensures Handle(s, input).role == RoleAfter(s, input) && Handle(s, input).calls == CallsAfter(s, input)
  {
    HandleLaw(s, input);
    hide Handle, NodeInv, CompletesPending;
    hide Campaigning, Broadcasting, Submitting, Voting, Counting, Receiving, Tallying;
    match input
    case ElectionTimer => CampaignDigest(s);
    case BroadcastTimer => BroadcastDigest(s);
    case Command(command, promise) => CommandDigest(s, command, promise);
    case Receive(m) =>
      match m
      case VoteRequest(_, _, _, _, _) => VotingDigest(s, m);
      case VoteReply(_, _, _, _) => CountingDigest(s, m);
      case AppendRequest(_, _, _, _, _, _, _) => ReceivingDigest(s, m);
      case AppendReply(_, _, _, _, _) => TallyingDigest(s, m);
  }

  /** The entry of a request can be placed: its predecessor is there, or it is the first. */
  predicate Placeable(log: seq<LogEntry>, m: Message)
    requires m.AppendRequest?
  {
    m.entries != [] && (m.commit == 0 || (m.prevIndex < |log| && log[m.prevIndex].term == m.prevTerm))
  }

  /** The log ends with an entry of the request's index and term. */
  predicate AtEnd(log: seq<LogEntry>, m: Message)
    requires m.AppendRequest?
  {
    |log| == m.commit + 1 && log[m.commit].term == m.term
  }

  lemma StoredCalls(log: seq<LogEntry>, m: Message)
    requires m.AppendRequest?
    ensures var isNew := Placeable(log, m) && !AtEnd(log, m);
            Stored(log, m).calls == (if isNew && m.commit < |log| then [Reverted(m.commit)] else [])
                                    + (if isNew && m.commit <= |log| then [Committed(m.commit, m.entries)] else [])
  {
  }

  lemma RefusalsOnly(pending: Option<Pending>, c: Call)
    requires c in Refusal(pending)
    ensures c.Resolved? && !c.result
  {
  }

  // ----- answers to commands -----

  /** A command that is not accepted is refused at once, and nothing else happens. */
  lemma RefusedCommand(s: Node, input: Input)
    requires NodeInv(s) && input.Command? && !Creates(s, input)
    ensures Handle(s, input) == s.(trail := [], sends := {},
                                   calls := [Resolved(input.promise, |s.p.log|, None, false)])
  {
    CommandLaw(s, input.command, input.promise);
    Members(s);
    hide Handle;
  }

  /** A promise is answered with true in two cases only: the node is the leader of a cluster of one and takes the
      command, or a reply completes the pending commit. */
  lemma AnsweredTrue(s: Node, input: Input, promise: nat, id: nat, payload: Option<Types.Command>)
    requires NodeInv(s)
    ensures Resolved(promise, id, payload, true) in Handle(s, input).calls <==>
              || (&& input.Command? && s.role.Leader? && |s.ids| == 1
                  && promise == input.promise && id == |s.p.log| && payload == Some(input.command))
              || (&& input.Receive? && input.message.AppendReply? && CompletesPending(s, input.message)
                  && promise == s.pending.value.promise && id == s.pending.value.entry.id
                  && payload == Some(s.pending.value.entry.command))
  {
    Digest(s, input);
    forall c | c in Refusal(s.pending) ensures c.Resolved? && !c.result { RefusalsOnly(s.pending, c); }
    if input.Receive? && input.message.AppendRequest? { StoredCalls(s.p.log, input.message); }
    hide Handle, NodeInv, Stored, Refusal, Deposes, CompletesPending, Placeable, AtEnd;
  }

  // ----- leadership -----

  /** The election timer of a leader, and of a node that heard from one, does nothing but clear that mark. */
  lemma IdleTimer(s: Node)
    requires NodeInv(s) && !Campaigns(s, ElectionTimer)
    ensures Handle(s, ElectionTimer) == s.(heard := false, trail := [], calls := [], sends := {})
  {
    TimerLaw(s);
    hide Handle;
  }

  /** A leader ceases to lead exactly on such a message: no timer, command or other message ends its leadership. */
  lemma LeadershipEnds(s: Node, input: Input)
    requires NodeInv(s) && s.role.Leader?
    ensures !Handle(s, input).role.Leader? <==> input.Receive? && Deposes(s, input.message)
  {
    Digest(s, input);
    hide Handle, NodeInv;
  }

  /** A node comes to lead exactly by the vote that makes a majority: its own in a cluster of one, or a granted vote of
      its term that reaches it as a candidate. */
  lemma LeadershipBegins(s: Node, input: Input)
    requires NodeInv(s) && !s.role.Leader?
    ensures Handle(s, input).role.Leader? <==>
              || (input.ElectionTimer? && !s.heard && !s.role.Standby? && 1 >= |s.ids| / 2 + 1)
              || (input.Receive? && Elects(s, input.message))
  {
    Digest(s, input);
    hide Handle, NodeInv;
  }

  // ----- terms and votes -----

  /** The message is heeded: only replies to vote requests are accepted from anyone. */
  predicate Heeded(s: Node, m: Message) {
    m.VoteReply? || m.src in s.peers
  }

  /** After any message that is heeded the node has the larger of the two terms; a newer one leaves it neither leader
      nor candidate. Messages that are not heeded, timers and commands leave the term, campaigns excepted. */
  lemma TermAfter(s: Node, input: Input)
    requires NodeInv(s)
    ensures Handle(s, input).p.term ==
              if input.Receive? && Heeded(s, input.message) then Larger(s.p.term, input.message.term)
              else if Campaigns(s, input) then s.p.term + 1
              else s.p.term
    ensures input.Receive? && Heeded(s, input.message) && s.p.term < input.message.term ==>
              !Handle(s, input).role.Leader? && !Handle(s, input).role.Candidate?
  {
    HandleLaw(s, input);
    Digest(s, input);
    hide Handle, NodeInv, Campaigning, Broadcasting, Submitting, Voting, Counting, Receiving, Tallying;
    match input
    case ElectionTimer => CampaignDigest(s);
    case BroadcastTimer => BroadcastDigest(s);
    case Command(command, promise) => CommandDigest(s, command, promise);
    case Receive(m) =>
      match m
      case VoteRequest(_, _, _, _, _) => VotingDigest(s, m);
      case VoteReply(_, _, _, _) => CountingDigest(s, m);
      case AppendRequest(_, _, _, _, _, _, _) => ReceivingDigest(s, m);
      case AppendReply(_, _, _, _, _) => TallyingDigest(s, m);
  }

  /** A vote request from a member gets exactly one answer, with the larger term; the vote is granted exactly when the
      term is not old, no vote was given in it, and the announced log is long enough. */
  lemma VoteAnswer(s: Node, m: Message)
    requires NodeInv(s) && m.VoteRequest? && m.src in s.peers
    ensures Handle(s, Receive(m)).sends ==
              {VoteReply(s.me, m.src, Larger(s.p.term, m.term),
                         s.p.term <= m.term && (s.p.term < m.term || !s.p.voted) && |s.p.log| <= m.lastIndex + 1)}
  {
    VoteRequestLaw(s, m);
    hide Handle;
  }

  // ----- callbacks of a request -----

  /** The callbacks of a request, in order: a leader refuses its pending commit if it gives way; entries from the
      request's index on are reverted, if there are any; and the new entry is committed, if it fits. The last entry
      itself, a missing predecessor, and a conflict that cuts the log, are not notified. */
  lemma RequestCalls(s: Node, m: Message)
    requires NodeInv(s) && m.AppendRequest? && m.src in s.peers
    ensures var log := s.p.log;
            var isNew := Placeable(log, m) && !AtEnd(log, m);
            Handle(s, Receive(m)).calls ==
              (if s.p.term <= m.term then Refusal(s.pending) else [])
              + (if isNew && m.commit < |log| then [Reverted(m.commit)] else [])
              + (if isNew && m.commit <= |log| then [Committed(m.commit, m.entries)] else [])
  {
    Digest(s, Receive(m));
    StoredCalls(s.p.log, m);
    hide Handle, NodeInv, Stored;
  }

  /** A commit is notified exactly for the entry that the step stores or answers with true. */
  lemma CommitCalls(s: Node, input: Input, id: nat, command: Types.Command)
    requires NodeInv(s)
    ensures Committed(id, command) in Handle(s, input).calls <==>
              || (input.Command? && s.role.Leader? && |s.ids| == 1 && id == |s.p.log| && command == input.command)
              || (input.Receive? && CommitsBy(s, input.message, id, command))
  {
    Digest(s, input);
    hide Handle, NodeInv, CommitsBy, Deposes, CompletesPending, Stored, Refusal;
    if input.Receive? { ReceivedCommits(s, input.message, id, command); }
  }

  /** The message completes the pending commit, which is this entry; or it is a member's request that brings the entry
      and finds its predecessor and a place for it. */
  predicate CommitsBy(s: Node, m: Message, id: nat, command: Types.Command) {
    || (&& m.AppendReply? && CompletesPending(s, m)
        && id == s.pending.value.entry.id && command == s.pending.value.entry.command)
    || (&& m.AppendRequest? && m.src in s.peers && Placeable(s.p.log, m) && !AtEnd(s.p.log, m)
        && m.commit <= |s.p.log| && id == m.commit && command == m.entries)
  }

  lemma ReceivedCommits(s: Node, m: Message, id: nat, command: Types.Command)
    ensures Committed(id, command) in CallsAfter(s, Receive(m)) <==> CommitsBy(s, m, id, command)
  {
    var c := Committed(id, command);
    if c in Refusal(s.pending) { RefusalsOnly(s.pending, c); }
    if m.AppendRequest? { StoredCalls(s.p.log, m); }
    hide Stored, Refusal, Deposes, CompletesPending, Placeable, AtEnd;
  }

  /** A restarted node follows, has not heard from a leader, waits for no command, and has every peer just behind its
      own log. */
  lemma RestartedNode(me: NodeId, ids: set<NodeId>, p: Persistent)
    ensures var s := Boot(me, ids, p);
            && s.me == me && s.ids == ids && s.p == p
            && s.role.Follower? && !s.heard && s.pending.None? && s.votes == 0 && Imaged(s)
            && s.peers.Keys == ids - {me}
            && forall i :: i in s.peers ==> s.peers[i].next == |p.log| && s.peers[i].matched == 0
  {
  }

  // ----- events -----

  /** The raft state after an event that raises no other: who moves, and where to. */
  function Moves(role: Role, e: Event): Role {
    if e.Started? && role.Standby? then Follower
    else if e.Terminated? then Standby
    else if (e.LeaderDiscovered? || e.NewTermReceived?) && (role.Candidate? || role.Leader?) then Follower
    else if e.WonElection? && role.Candidate? then Leader
    else role
  }

  /** The effect of every event but the two timeouts: the move; a leader that moves refuses its pending commit; and
      lifecycle and timers become the image of the new state. The timeouts of a state that has no use for them do
      nothing. */
  lemma EventLaw(s: Node, e: Event)
    requires Imaged(s) && (s.pending.Some? ==> s.role.Leader?)
    ensures var role := Moves(s.role, e);
            !e.ElectionTimedOut? && !e.BroadcastTimedOut? ==>
              OnEvent(s, e) == s.(role := role, life := LifecycleOf(role),
                                  electionArmed := !role.Standby?, broadcastArmed := role.Leader?,
                                  pending := if role == s.role then s.pending else None,
                                  calls := s.calls + if role == s.role then [] else Refusal(s.pending))
    ensures e.ElectionTimedOut? && (s.role.Standby? || s.role.Leader?) ==> OnEvent(s, e) == s
    ensures e.BroadcastTimedOut? && !s.role.Leader? ==> OnEvent(s, e) == s
  {
    assert s.calls + [] == s.calls;
  }
}
