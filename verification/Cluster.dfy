/** The cluster: the nodes, the messages on their way, and a record of what happened that no step reads.
    Requests may be lost, delayed, reordered and repeated; so may replies, except that a granted vote is
    consumed at most once. A node may stop between two steps, or in the middle of one between any two
    database writes, and comes back with what it finds in its store. */
module Cluster {
  import opened Types
  import opened NodeSpec
  import opened NodeFacts

  /** The voter granted its vote; its log was this long. A candidate's vote for itself counts too. */
  datatype Ballot = Ballot(term: nat, voter: NodeId, candidate: NodeId, voterLog: nat)

  /** commit_command made this entry on a leader; prevTerm is the term of the entry before it (0 at index 0). */
  datatype Creation = Creation(term: nat, index: nat, command: Types.Command, prevTerm: nat, leader: NodeId)

  datatype History = History(
    ballots: set<Ballot>,
    campaigns: map<(nat, NodeId), nat>,   // term and candidate, to the length of the candidate's log
    leaders: set<(nat, NodeId)>,          // term and node
    created: set<Creation>)

  datatype State = State(ids: set<NodeId>, nodes: map<NodeId, Node>, net: set<Message>, h: History)

  datatype Event =
    | Act(n: NodeId, input: Input)
    | Crash(n: NodeId)
    | Interrupt(n: NodeId, input: Input, writes: nat)   // stops after this many database writes

  ghost predicate Init(c: State) {
    && c.nodes == (map n | n in c.ids :: Boot(n, c.ids, Persistent(0, 0, false, [])))
    && c.net == {}
    && c.h == History({}, map[], {}, {})
  }

  /** Timers fire only when armed; only messages that were sent to the node arrive. */
  ghost predicate CanHandle(c: State, n: NodeId, input: Input) {
    && n in c.nodes
    && match input
       case ElectionTimer => c.nodes[n].electionArmed
       case BroadcastTimer => c.nodes[n].broadcastArmed
       case Command(_, _) => true
       case Receive(m) => m in c.net && m.dst == n
  }

  ghost predicate Enabled(c: State, e: Event) {
    match e
    case Act(n, input) => CanHandle(c, n, input)
    case Crash(n) => n in c.nodes
    case Interrupt(n, input, writes) =>
      CanHandle(c, n, input) && 0 < writes <= |Handle(c.nodes[n], input).trail|
  }

  ghost function Consumed(input: Input): set<Message> {
    if input.Receive? && input.message.VoteReply? && input.message.granted then {input.message} else {}
  }

  ghost predicate IsGrant(m: Message) {
    m.VoteReply? && m.granted
  }

  ghost function Granted(t: Node): set<Ballot> {
    set m | m in t.sends && IsGrant(m) :: Ballot(m.term, m.src, m.dst, |t.p.log|)
  }

  ghost function OwnBallot(s: Node, input: Input, t: Node): set<Ballot> {
    if Campaigns(s, input) then {Ballot(t.p.term, s.me, s.me, |s.p.log|)} else {}
  }

  ghost function PrevTerm(log: seq<LogEntry>, index: nat): nat
    requires index <= |log|
  {
    if index == 0 then 0 else log[index - 1].term
  }

  ghost function CreatedBy(s: Node, input: Input): set<Creation> {
    if Creates(s, input) then
      {Creation(s.p.term, |s.p.log|, input.command, PrevTerm(s.p.log, |s.p.log|), s.me)}
    else {}
  }

  ghost function Record(h: History, s: Node, input: Input, t: Node): History {
    History(
      h.ballots + Granted(t) + OwnBallot(s, input, t),
      if Campaigns(s, input) then h.campaigns[(t.p.term, s.me) := |s.p.log|] else h.campaigns,
      if t.role.Leader? then h.leaders + {(t.p.term, t.me)} else h.leaders,
      h.created + CreatedBy(s, input))
  }

  /** Node n handles the input and becomes t. */
  ghost function Advance(c: State, n: NodeId, input: Input, t: Node): State
    requires n in c.nodes
  {
    State(c.ids, c.nodes[n := t], (c.net - Consumed(input)) + t.sends, Record(c.h, c.nodes[n], input, t))
  }

  /** Node n starts again from the stored state p. */
  ghost function Recover(c: State, n: NodeId, p: Persistent, made: set<Creation>): State
    requires n in c.nodes
  {
    c.(nodes := c.nodes[n := Boot(n, c.ids, p)], h := c.h.(created := c.h.created + made))
  }

  ghost function Next(c: State, e: Event): State
    requires Enabled(c, e)
  {
    match e
    case Act(n, input) => Advance(c, n, input, Handle(c.nodes[n], input))
    case Crash(n) => Recover(c, n, c.nodes[n].p, {})
    case Interrupt(n, input, writes) =>
      var s := c.nodes[n];
      Recover(c, n, Handle(s, input).trail[writes - 1], CreatedBy(s, input))
  }

  /** Assumption (A): a request of an older term that would change the log does not reach a node that leads. */
  ghost predicate LeaderSpared(s: Node, input: Input) {
    Stores(s, input) && s.role.Leader? && input.message.term < s.p.term ==> !Rewrites(s.p.log, input.message)
  }

  ghost predicate Spares(c: State, e: Event)
    requires Enabled(c, e)
  {
    e.Act? ==> LeaderSpared(c.nodes[e.n], e.input)
  }

  /** A finite run from an initial state. */
  ghost predicate Run(cs: seq<State>, es: seq<Event>) {
    && |cs| == |es| + 1
    && Init(cs[0])
    && forall i {:trigger es[i]} :: 0 <= i < |es| ==> Enabled(cs[i], es[i]) && cs[i + 1] == Next(cs[i], es[i])
  }

  ghost predicate SparingRun(cs: seq<State>, es: seq<Event>) {
    && Run(cs, es)
    && forall i {:trigger es[i]} :: 0 <= i < |es| ==> Spares(cs[i], es[i])
  }

  lemma RunShape(cs: seq<State>, es: seq<Event>)
    requires Run(cs, es)
    ensures |cs| == |es| + 1 && Init(cs[0])
  {
  }

  lemma SparingIsRun(cs: seq<State>, es: seq<Event>)
    requires SparingRun(cs, es)
    ensures Run(cs, es) && |cs| == |es| + 1
  {
  }

  lemma RunStep(cs: seq<State>, es: seq<Event>, i: nat)
    requires Run(cs, es) && i < |es|
    ensures Enabled(cs[i], es[i]) && cs[i + 1] == Next(cs[i], es[i])
  {
  }

  // ----- what holds of the parts in every reachable state -----

  ghost predicate BaseInv(c: State) {
    && c.nodes.Keys == c.ids
    && forall n :: n in c.nodes ==> NodeInv(c.nodes[n]) && c.nodes[n].me == n && c.nodes[n].ids == c.ids
  }

  /** Node n can go from its state to t by handling the input. */
  ghost predicate Advances(c: State, n: NodeId, input: Input, t: Node) {
    && BaseInv(c)
    && CanHandle(c, n, input)
    && Step(c.nodes[n], input, t)
  }

  /** Node n can come back with p: at least its term, and its vote if the term is the same. */
  ghost predicate Found(c: State, n: NodeId, p: Persistent) {
    && BaseInv(c) && n in c.nodes
    && c.nodes[n].p.term <= p.term
    && (p.term == c.nodes[n].p.term && c.nodes[n].p.voted ==> p.voted)
    && WellIndexed(p.log)
  }

  lemma AdvanceBase(c: State, n: NodeId, input: Input, t: Node)
    requires Advances(c, n, input, t)
    ensures BaseInv(Advance(c, n, input, t))
  {
  }

  lemma RecoverBase(c: State, n: NodeId, p: Persistent, made: set<Creation>)
    requires Found(c, n, p)
    ensures BaseInv(Recover(c, n, p, made))
  {
  }

  lemma ActAdvances(c: State, n: NodeId, input: Input)
    requires BaseInv(c) && CanHandle(c, n, input)
    ensures Advances(c, n, input, Handle(c.nodes[n], input))
  {
    HandleFacts(c.nodes[n], input, Handle(c.nodes[n], input));
  }

  lemma InterruptFinds(c: State, n: NodeId, input: Input, writes: nat)
    requires BaseInv(c) && Enabled(c, Interrupt(n, input, writes))
    ensures var t := Handle(c.nodes[n], input);
            && Advances(c, n, input, t)
            && CrashPoint(c.nodes[n], t, t.trail[writes - 1])
            && Found(c, n, t.trail[writes - 1])
  {
    ActAdvances(c, n, input);
  }
}
