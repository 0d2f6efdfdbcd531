/** One Raft node as a value, and every handler of the node as a function on that value.
    The class RaftNode is proved against these functions; the protocol lemmas are about them. */
module NodeSpec {
  import opened Types

  datatype Role = Standby | Follower | Candidate | Leader

  datatype Lifecycle = Inactive | Waiting | Active

  datatype Pending = Pending(entry: LogEntry, promise: nat, results: map<NodeId, bool>)

  datatype Peer = Peer(next: nat, matched: nat)

  /** The state of a node. The last three fields collect what the running handler does to the outside:
      trail - what a restart would load after each database write, in order of the writes;
      calls - the user callbacks made; sends - the messages sent. */
  datatype Node = Node(
    me: NodeId, ids: set<NodeId>,
    p: Persistent, votes: nat,
    role: Role, life: Lifecycle, electionArmed: bool, broadcastArmed: bool, heard: bool,
    pending: Option<Pending>, peers: map<NodeId, Peer>,
    trail: seq<Persistent>, calls: seq<Call>, sends: set<Message>)

  function Majority(s: Node): nat {
    |s.ids| / 2 + 1
  }

  // ----- context store -----

  function Save(s: Node, p: Persistent): Node {
    s.(p := p, trail := s.trail + [p])
  }

  function SetTerm(s: Node, term: nat): Node {
    Save(s, s.p.(term := term))
  }

  function SetVotedFor(s: Node, id: NodeId): Node {
    Save(s, s.p.(votedFor := id))
  }

  function SetVoted(s: Node, voted: bool): Node {
    Save(s, s.p.(voted := voted))
  }

  function Last(log: seq<LogEntry>): Option<LogEntry> {
    if log == [] then None else Some(log[|log| - 1])
  }

  function At(log: seq<LogEntry>, id: nat): Option<LogEntry> {
    if |log| <= id then None else Some(log[id])
  }

  function Accepts(s: Node, e: LogEntry): bool {
    e.id == |s.p.log|
  }

  /** Three writes: the first two lie beyond the stored log size, so a restart does not see them. */
  function PushLog(s: Node, e: LogEntry): Node {
    if !Accepts(s, e) then s
    else var p := s.p.(log := s.p.log + [e]);
         s.(p := p, trail := s.trail + [s.p, s.p, p])
  }

  function RevertLog(s: Node, id: nat): Node {
    if id >= |s.p.log| then s else Save(s, s.p.(log := s.p.log[..id]))
  }

  // ----- state machine -----

  function LifecycleOf(role: Role): Lifecycle {
    match role
    case Standby => Inactive
    case Follower => Waiting
    case Candidate => Waiting
    case Leader => Active
  }

  function CancelPending(s: Node): Node {
    match s.pending
    case None => s
    case Some(c) =>
      s.(pending := None,
         calls := s.calls + [Resolved(c.promise, c.entry.id, Some(c.entry.command), false)])
  }

  /** Leave the current state and enter another one, before the new state's entry action. */
  function Become(s: Node, role: Role): Node {
    var left := if s.role.Leader? then CancelPending(s.(broadcastArmed := false)) else s;
    left.(role := role, life := LifecycleOf(role))
  }

  function Elected(s: Node): Node {
    if s.role.Candidate? then Become(s, Leader).(broadcastArmed := true) else s
  }

  /** The effect of both kLeaderDiscovered and kNewTermReceived. */
  function StepDown(s: Node): Node {
    if s.role.Candidate? || s.role.Leader? then Become(s, Follower).(electionArmed := true) else s
  }

  // ----- terms and votes -----

  function ResetVote(s: Node): Node {
    SetVoted(SetVotedFor(s, 0).(votes := 0), false)
  }

  function UpdateTerm(s: Node, term: nat, self: bool): Node {
    if term <= s.p.term then s
    else var t := ResetVote(SetTerm(s, term));
         if self then t else StepDown(t)
  }

  function VoteForMe(s: Node): Node {
    var t := SetVoted(SetVotedFor(s, s.me), true);
    t.(votes := t.votes + 1)
  }

  function LastIndex(log: seq<LogEntry>): nat {
    if log == [] then 0 else log[|log| - 1].id
  }

  function LastTerm(log: seq<LogEntry>): nat {
    if log == [] then 0 else log[|log| - 1].term
  }

  /** Every peer is taken to hold the log up to this index. */
  function Aligned(peers: map<NodeId, Peer>, id: nat): map<NodeId, Peer> {
    map i | i in peers :: Peer(id + 1, id)
  }

  function CheckElected(s: Node): Node {
    if s.votes < Majority(s) then s
    else var id := LastIndex(s.p.log);
         Elected(s.(peers := Aligned(s.peers, id)))
  }

  function VoteRequests(s: Node): set<Message> {
    set i | i in s.peers :: VoteRequest(s.me, i, s.p.term, LastIndex(s.p.log), LastTerm(s.p.log))
  }

  function StartElection(s: Node): Node {
    var voted := VoteForMe(ResetVote(UpdateTerm(s, s.p.term + 1, true)));
    CheckElected(voted.(electionArmed := true, sends := voted.sends + VoteRequests(voted)))
  }

  function TimedOut(s: Node): Node {
    match s.role
    case Follower => StartElection(Become(s, Candidate))
    case Candidate => StartElection(s)
    case _ => s
  }

  /** The election timer fires. */
  function OnElectionTimer(s: Node): Node {
    if s.heard then s.(heard := false) else TimedOut(s)
  }

  function Grants(s: Node, term: nat, lastIndex: nat): bool {
    term >= s.p.term && !s.p.voted && (s.p.log == [] || LastIndex(s.p.log) <= lastIndex)
  }

  function Vote(s: Node, term: nat, id: NodeId, lastIndex: nat): Node {
    if Grants(s, term, lastIndex) then SetVoted(SetVotedFor(s, id), true) else s
  }

  function Send(s: Node, m: Message): Node {
    s.(sends := s.sends + {m})
  }

  function OnVoteRequest(s: Node, m: Message): Node
    requires m.VoteRequest?
  {
    if m.src !in s.peers then Send(s, VoteReply(s.me, m.src, 0, false))
    else
      var t := UpdateTerm(s, m.term, false);
      Send(Vote(t, m.term, m.src, m.lastIndex),
           VoteReply(s.me, m.src, t.p.term, Grants(t, m.term, m.lastIndex)))
  }

  function OnVoteReply(s: Node, m: Message): Node
    requires m.VoteReply?
  {
    if m.term < s.p.term then s
    else if m.term > s.p.term then UpdateTerm(s, m.term, false)
    else if !m.granted then s
    else CheckElected(s.(votes := s.votes + 1))
  }

  // ----- replication, receiving side -----

  /** The last entry already has the index and the term of the request: nothing to write. */
  function AlreadyStored(s: Node, m: Message): bool
    requires m.AppendRequest?
  {
    s.p.log != [] && LastIndex(s.p.log) == m.commit && LastTerm(s.p.log) == m.term
  }

  function MakeRoom(s: Node, m: Message): Node
    requires m.AppendRequest?
  {
    if s.p.log != [] && LastIndex(s.p.log) >= m.commit then
      var t := RevertLog(s, m.commit);
      t.(calls := t.calls + [Reverted(m.commit)])
    else s
  }

  function LocalCommit(s: Node, m: Message): (Node, bool)
    requires m.AppendRequest?
  {
    if AlreadyStored(s, m) then (s, true)
    else
      var t := MakeRoom(s, m);
      var e := LogEntry(m.commit, m.term, m.entries);
      if !Accepts(t, e) then (t, false)
      else var u := PushLog(t, e);
           (u.(calls := u.calls + [Committed(e.id, e.command)]), true)
  }

  /** What the request says about the sender: a current one makes this node follow it. */
  function Follow(s: Node, m: Message): Node
    requires m.AppendRequest?
  {
    if m.term < s.p.term then s
    else StepDown(UpdateTerm(s, m.term, false).(heard := true))
  }

  /** The part of the handler that looks at the entries; it does not depend on the term comparison. */
  function StoreEntries(s: Node, m: Message): (Node, bool)
    requires m.AppendRequest?
  {
    if m.entries == [] then (s, false)
    else if m.commit == 0 then LocalCommit(s, m)
    else match At(s.p.log, m.prevIndex)
      case None => (s, false)
      case Some(e) =>
        if e.term != m.prevTerm then (RevertLog(s, e.id), false) else LocalCommit(s, m)
  }

  function AppendResult(s: Node, m: Message): (Node, bool)
    requires m.AppendRequest?
  {
    StoreEntries(Follow(s, m), m)
  }

  function OnAppendRequest(s: Node, m: Message): Node
    requires m.AppendRequest?
  {
    if m.src !in s.peers then Send(s, AppendReply(s.me, m.src, m.commit, 0, false))
    else
      var (t, ok) := AppendResult(s, m);
      Send(t, AppendReply(s.me, m.src, m.commit, s.p.term, ok))
  }

  // ----- replication, sending side -----

  /** Reading the pending commit forgets one that no longer fits the end of the log. */
  function GetPending(s: Node): Node {
    match s.pending
    case None => s
    case Some(c) => if c.entry.id != |s.p.log| then s.(pending := None) else s
  }

  function LookUp(pending: Option<Pending>, log: seq<LogEntry>, id: nat): Option<LogEntry> {
    if pending.Some? && pending.value.entry.id == id then Some(pending.value.entry) else At(log, id)
  }

  function Newest(pending: Option<Pending>, log: seq<LogEntry>): Option<LogEntry> {
    if pending.Some? then Some(pending.value.entry) else Last(log)
  }

  /** The request for one peer; the fields a heartbeat leaves out are zero. */
  function RequestFor(me: NodeId, peer: NodeId, term: nat, next: nat, newest: Option<LogEntry>,
                      lookUp: nat -> Option<LogEntry>): Message {
    var entry := if newest.Some? && newest.value.id >= next then lookUp(next) else None;
    var prev := if next > 0 then lookUp(next - 1) else None;
    AppendRequest(me, peer,
                  if entry.Some? then entry.value.term else term,
                  if prev.Some? then prev.value.id else 0,
                  if prev.Some? then prev.value.term else 0,
                  if entry.Some? then entry.value.command else [],
                  if entry.Some? then entry.value.id else 0)
  }

  function RequestTo(s: Node, i: NodeId): Message
    requires i in s.peers
  {
    RequestFor(s.me, i, s.p.term, s.peers[i].next, Newest(s.pending, s.p.log),
               (id: nat) => LookUp(s.pending, s.p.log, id))
  }

  function Broadcast(s: Node): Node {
    var t := GetPending(s);
    t.(sends := t.sends + set i | i in t.peers :: RequestTo(t, i))
  }

  /** The broadcast timer fires. */
  function OnBroadcastTimer(s: Node): Node {
    if s.role.Leader? then Broadcast(s) else s
  }

  function MoveIndex(peer: Peer, commit: nat, success: bool): Peer {
    if success then Peer(commit + 1, commit)
    else if peer.next > 0 then peer.(next := peer.next - 1)
    else peer
  }

  function Agreeing(peers: set<NodeId>, results: map<NodeId, bool>, flag: bool): set<NodeId> {
    set i | i in peers && i in results && results[i] == flag
  }

  function CompleteCommit(s: Node, promise: nat, e: LogEntry): Node {
    var t := PushLog(s, e);
    t.(calls := t.calls + [Committed(e.id, e.command), Resolved(promise, e.id, Some(e.command), true)])
  }

  function Tally(s: Node, id: NodeId, commit: nat, term: nat, success: bool): Node {
    match s.pending
    case None => s
    case Some(c) =>
      if c.entry.id != commit || c.entry.term != term then s
      else
        var results := c.results[id := success];
        if 1 + |Agreeing(s.peers.Keys, results, success)| < Majority(s) then
          s.(pending := Some(c.(results := results)))
        else CompleteCommit(s.(pending := None), c.promise, c.entry)
  }

  function OnAppendReply(s: Node, m: Message): Node
    requires m.AppendReply?
  {
    if m.src !in s.peers then s
    else
      var t := s.(peers := s.peers[m.src := MoveIndex(s.peers[m.src], m.commit, m.success)]);
      Tally(UpdateTerm(t, m.term, false), m.src, m.commit, m.term, m.success)
  }

  // ----- client commands -----

  function Free(s: Node): bool {
    s.pending.None? || s.pending.value.entry.id != |s.p.log|
  }

  function Submit(s: Node, command: Command, promise: nat): Node {
    var e := LogEntry(|s.p.log|, s.p.term, command);
    if !s.role.Leader? then s.(calls := s.calls + [Resolved(promise, |s.p.log|, None, false)])
    else if |s.ids| <= 1 then CompleteCommit(s, promise, e)
    else if !Free(s) then s.(calls := s.calls + [Resolved(promise, e.id, None, false)])
    else s.(pending := Some(Pending(e, promise, map[])))
  }

  // ----- one step of a node -----

  datatype Input =
    | ElectionTimer
    | BroadcastTimer
    | Receive(message: Message)
    | Command(command: Types.Command, promise: nat)

  function Fresh(s: Node): Node {
    s.(trail := [], calls := [], sends := {})
  }

  function Handle(s: Node, input: Input): Node {
    var t := Fresh(s);
    match input
    case ElectionTimer => OnElectionTimer(t)
    case BroadcastTimer => OnBroadcastTimer(t)
    case Command(command, promise) => Submit(t, command, promise)
    case Receive(m) =>
      match m
      case VoteRequest(_, _, _, _, _) => OnVoteRequest(t, m)
      case VoteReply(_, _, _, _) => OnVoteReply(t, m)
      case AppendRequest(_, _, _, _, _, _, _) => OnAppendRequest(t, m)
      case AppendReply(_, _, _, _, _) => OnAppendReply(t, m)
  }

  /** A process that starts with the given stored state and has handled kStarted. */
  function Boot(me: NodeId, ids: set<NodeId>, p: Persistent): Node {
    Node(me, ids, p, 0, Follower, Waiting, true, false, false, None,
         map i | i in ids - {me} :: Peer(|p.log|, 0), [], [], {})
  }
}
