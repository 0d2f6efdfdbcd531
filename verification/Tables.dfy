/** The transition tables of the two state machines. */
module Tables {
  import opened NodeSpec
  import opened NodeFacts

  datatype Event =
    | Started | ElectionTimedOut | LeaderDiscovered | NewTermReceived | WonElection | Terminated | BroadcastTimedOut
    | Unknown

  /** The answer of a state to an event it has no entry for is to stay. */
  datatype Reaction = Stay | Enter(role: Role)

  function StandbyTable(): map<Event, Reaction> {
    map[Started := Enter(Follower)]
  }

  function FollowerTable(): map<Event, Reaction> {
    map[Terminated := Enter(Standby), ElectionTimedOut := Enter(Candidate)]
  }

  function CandidateTable(): map<Event, Reaction> {
    map[Terminated := Enter(Standby), ElectionTimedOut := Stay, WonElection := Enter(Leader),
        LeaderDiscovered := Enter(Follower), NewTermReceived := Enter(Follower)]
  }

  function LeaderTable(): map<Event, Reaction> {
    map[Terminated := Enter(Standby), LeaderDiscovered := Enter(Follower), NewTermReceived := Enter(Follower),
        BroadcastTimedOut := Stay]
  }

  function TableOf(role: Role): map<Event, Reaction> {
    match role
    case Standby => StandbyTable()
    case Follower => FollowerTable()
    case Candidate => CandidateTable()
    case Leader => LeaderTable()
  }

  datatype LifecycleEvent = Activate | Deactivate | StandBy

  /** A lifecycle state that has no entry for an event stays as it is. */
  function LifecycleTable(life: Lifecycle): map<LifecycleEvent, Lifecycle> {
    match life
    case Inactive => map[StandBy := Waiting, Activate := Active]
    case Waiting => map[Activate := Active, Deactivate := Inactive]
    case Active => map[StandBy := Waiting, Deactivate := Inactive]
  }

  function LifecycleEventOf(role: Role): LifecycleEvent {
    match role
    case Standby => Deactivate
    case Follower => StandBy
    case Candidate => StandBy
    case Leader => Activate
  }

  function LifecycleNext(life: Lifecycle, e: LifecycleEvent): Lifecycle {
    if e in LifecycleTable(life) then LifecycleTable(life)[e] else life
  }

  /** Whatever the lifecycle was, announcing a raft state brings it to the image of that state. */
  lemma LifecycleFollowsRole(life: Lifecycle, role: Role)
    ensures LifecycleNext(life, LifecycleEventOf(role)) == LifecycleOf(role)
  {
  }

  /** The reaction of a state to an event. */
  function ReactionTo(role: Role, e: Event): Reaction {
    if e in TableOf(role) then TableOf(role)[e] else Stay
  }

  /** The callback of a state for an event its table names; it may elect the node on the way. */
  function Callback(s: Node, e: Event): Node {
    if s.role.Candidate? && e.ElectionTimedOut? then StartElection(s)
    else if s.role.Leader? && e.BroadcastTimedOut? then Broadcast(s)
    else s
  }

  function ExitAction(s: Node): Node {
    if s.role.Leader? then CancelPending(s.(broadcastArmed := false)) else s
  }

  function EntryAction(s: Node): Node {
    match s.role
    case Standby => s.(electionArmed := false)
    case Follower => s.(electionArmed := true)
    case Candidate => StartElection(s)
    case Leader => s.(broadcastArmed := true)
  }

  /** The generic state machine: callback, table, exit, announcement, entry. */
  function Transition(s: Node, e: Event): Node {
    var reaction, called := ReactionTo(s.role, e), Callback(s, e);
    if reaction.Stay? then called
    else EntryAction(ExitAction(called).(role := reaction.role, life := LifecycleOf(reaction.role)))
  }

  /** What handling an event does to a node, the nested election included. */
  function OnEvent(s: Node, e: Event): Node {
    match e
    case Started => if s.role.Standby? then Become(s, Follower).(electionArmed := true) else s
    case ElectionTimedOut => TimedOut(s)
    case LeaderDiscovered => StepDown(s)
    case NewTermReceived => StepDown(s)
    case WonElection => Elected(s)
    case Terminated => if s.role.Standby? then s else Become(s, Standby).(electionArmed := false)
    case BroadcastTimedOut => OnBroadcastTimer(s)
    case Unknown => s
  }

  /** The tables and the generic machine amount to the event functions of the node. */
  lemma TransitionIsOnEvent(s: Node, e: Event)
    ensures Transition(s, e) == OnEvent(s, e)
  {
    hide StartElection, Broadcast, CancelPending;
  }

  /** After every event - a nested election, a termination and an unknown event included - lifecycle and timers are
      the image of the raft state. */
  lemma EventKeepsImage(s: Node, e: Event)
    requires Imaged(s)
    ensures Imaged(OnEvent(s, e))
  {
    hide StartElection;
    if s.role.Follower? { ElectionKeepsImage(Become(s, Candidate)); }
    if s.role.Candidate? { ElectionKeepsImage(s); }
  }

  lemma ElectionKeepsImage(s: Node)
    requires Imaged(s.(electionArmed := true)) && s.role.Candidate?
    ensures Imaged(StartElection(s))
  {
  }
}
