/** Runs of a cluster of three, built step by step from the initial state: what the code really does in the cases the
    theorems have to except. */
module Scenarios {
  import opened Types
  import opened NodeSpec
  import opened NodeFacts
  import opened Cluster
  import opened Runs
  import Replay
  import opened Replies
  import opened Convergence
  import opened DelayedRequests

  // ----- what single steps do to a node of the three -----

  /** A node between two steps, without the records of the last one. */
  ghost predicate Idle(s: Node) {
    NodeInv(s) && s == Fresh(s) && s.ids == {0, 1, 2}
  }

  lemma ThreeIds(s: Node)
    requires Idle(s)
    ensures |s.ids| == 3 && Majority(s) == 2
  {
    assert s.ids == {0} + {1} + {2};
  }

  function AsCandidate(s: Node): Node {
    s.(p := Persistent(s.p.term + 1, s.me, true, s.p.log), votes := 1, role := Candidate, life := Waiting)
  }

  lemma CampaignStep(s: Node)
    requires Idle(s) && !s.heard && (s.role.Follower? || s.role.Candidate?)
    ensures Fresh(Handle(s, ElectionTimer)) == AsCandidate(s) && Idle(AsCandidate(s))
    ensures forall i :: i in s.peers ==>
              VoteRequest(s.me, i, s.p.term + 1, LastIndex(s.p.log), LastTerm(s.p.log))
                in Handle(s, ElectionTimer).sends
  {
    hide Handle, StartElection, Become;
    ThreeIds(s);
    var u := if s.role.Follower? then Become(Fresh(s), Candidate) else Fresh(s);
    CampaignStart(s, u);
    CandidateSends(u);
  }

  lemma CandidateSends(u: Node)
    requires Idle(u) && u.role.Candidate? && Majority(u) == 2
    ensures Fresh(StartElection(u)) == AsCandidate(u) && Idle(AsCandidate(u))
    ensures forall i :: i in u.peers ==>
              VoteRequest(u.me, i, u.p.term + 1, LastIndex(u.p.log), LastTerm(u.p.log)) in StartElection(u).sends
  {
    hide StartElection;
    CampaignOpen(u);
  }

  /** One vote does not win a cluster of three. */
  lemma CampaignOpen(u: Node)
    requires Idle(u) && u.role.Candidate? && Majority(u) == 2
    ensures var t := StartElection(u);
            && t == u.(p := Persistent(u.p.term + 1, u.me, true, u.p.log), votes := 1,
                       trail := t.trail, sends := t.sends)
            && t.sends == VoteRequests(t)
  {
    hide UpdateTerm, ResetVote, VoteForMe, Elected, Aligned, VoteRequests;
    var v := VoteForMe(ResetVote(UpdateTerm(u, u.p.term + 1, true)));
    BallotFacts(u, v);
    var w := v.(electionArmed := true, sends := v.sends + VoteRequests(v));
    SameVoteRequests(v, w);
    assert w.sends == VoteRequests(v);
  }

  lemma CalmStep(s: Node)
    requires Idle(s) && s.heard
    ensures Fresh(Handle(s, ElectionTimer)) == s.(heard := false) && Idle(s.(heard := false))
  {
  }

  function AsVoter(s: Node, term: nat, id: NodeId): Node {
    s.(p := Persistent(term, id, true, s.p.log), votes := 0)
  }

  lemma GrantStep(s: Node, m: Message)
    requires Idle(s) && s.role.Follower? && m.VoteRequest? && m.src in s.peers && s.p.term < m.term
    requires s.p.log == [] || LastIndex(s.p.log) <= m.lastIndex
    ensures Fresh(Handle(s, Receive(m))) == AsVoter(s, m.term, m.src) && Idle(AsVoter(s, m.term, m.src))
    ensures VoteReply(s.me, m.src, m.term, true) in Handle(s, Receive(m)).sends
  {
  }

  function AsLeader(s: Node): Node {
    s.(votes := 2, role := Leader, life := Active, broadcastArmed := true,
       peers := Aligned(s.peers, LastIndex(s.p.log)))
  }

  lemma WinStep(s: Node, m: Message)
    requires Idle(s) && s.role.Candidate? && s.votes == 1 && s.pending.None?
    requires m.VoteReply? && m.granted && m.term == s.p.term
    ensures Fresh(Handle(s, Receive(m))) == AsLeader(s) && Idle(AsLeader(s))
  {
    ThreeIds(s);
    assert Aligned(s.peers, LastIndex(s.p.log)).Keys == s.peers.Keys;
  }

  lemma BroadcastStep(s: Node, i: NodeId)
    requires Idle(s) && s.role.Leader? && Fit(s) && i in s.peers
    ensures Fresh(Handle(s, BroadcastTimer)) == s && RequestTo(s, i) in Handle(s, BroadcastTimer).sends
  {
    assert RequestTo(Fresh(s), i) == RequestTo(s, i);
  }

  function AsFollower(s: Node, term: nat): Node {
    s.(p := if s.p.term < term then Persistent(term, 0, false, s.p.log) else s.p,
       votes := if s.p.term < term then 0 else s.votes,
       heard := true, role := Follower, life := Waiting, broadcastArmed := false)
  }

  lemma StepDownShape(s: Node)
    requires Imaged(s) && !s.role.Standby? && s.pending.None?
    ensures StepDown(s) == s.(role := Follower, life := Waiting, broadcastArmed := false)
  {
  }

  lemma FollowShape(s: Node, m: Message)
    requires Idle(s) && !s.role.Standby? && s.pending.None? && m.AppendRequest? && s.p.term <= m.term
    ensures Fresh(Follow(s, m)) == AsFollower(s, m.term) && Follow(s, m).sends == {}
  {
    hide StepDown;
    StepDownShape(ResetVote(SetTerm(s, m.term)));
    StepDownShape(UpdateTerm(s, m.term, false).(heard := true));
  }

  lemma HeartbeatStep(s: Node, m: Message)
    requires Idle(s) && !s.role.Standby? && s.pending.None?
    requires m.AppendRequest? && m.src in s.peers && m.entries == [] && s.p.term <= m.term
    ensures Fresh(Handle(s, Receive(m))) == AsFollower(s, m.term) && Idle(AsFollower(s, m.term))
    ensures AppendReply(s.me, m.src, m.commit, s.p.term, false) in Handle(s, Receive(m)).sends
  {
    FollowShape(s, m);
    hide Follow, StepDown, UpdateTerm;
  }

  function AsHolder(s: Node, m: Message): Node
    requires m.AppendRequest?
  {
    s.(p := s.p.(log := [LogEntry(0, m.term, m.entries)]), heard := true)
  }

  lemma FirstEntryStep(s: Node, m: Message)
    requires Idle(s) && s.role.Follower? && s.p.log == []
    requires m.AppendRequest? && m.src in s.peers && m.entries != [] && m.commit == 0 && s.p.term == m.term
    ensures Fresh(Handle(s, Receive(m))) == AsHolder(s, m) && Idle(AsHolder(s, m))
    ensures AppendReply(s.me, m.src, 0, s.p.term, true) in Handle(s, Receive(m)).sends
  {
  }

  function WithPending(s: Node, command: Types.Command, promise: nat): Node {
    s.(pending := Some(Pending(LogEntry(|s.p.log|, s.p.term, command), promise, map[])))
  }

  lemma CommandStep(s: Node, command: Types.Command, promise: nat)
    requires Idle(s) && s.role.Leader? && s.pending.None?
    ensures Fresh(Handle(s, Input.Command(command, promise))) == WithPending(s, command, promise)
    ensures Idle(WithPending(s, command, promise))
  {
    ThreeIds(s);
  }

  function WithPeer(s: Node, m: Message): Node
    requires m.AppendReply? && m.src in s.peers
  {
    s.(peers := s.peers[m.src := MoveIndex(s.peers[m.src], m.commit, m.success)])
  }

  lemma ReplyStep(s: Node, m: Message)
    requires Idle(s) && s.pending.None? && m.AppendReply? && m.src in s.peers && m.term <= s.p.term
    ensures Fresh(Handle(s, Receive(m))) == WithPeer(s, m) && Idle(WithPeer(s, m))
  {
    assert WithPeer(s, m).peers.Keys == s.peers.Keys;
  }

  function AsCompleted(s: Node, m: Message): Node
    requires m.AppendReply? && m.src in s.peers && s.pending.Some?
  {
    WithPeer(s, m).(p := s.p.(log := s.p.log + [s.pending.value.entry]), pending := None)
  }

  lemma CompletingStep(s: Node, m: Message)
    requires Idle(s) && Fit(s) && s.pending.Some? && s.pending.value.results == map[]
    requires m.AppendReply? && m.src in s.peers && m.commit == |s.p.log| && m.term == s.p.term
    ensures Fresh(Handle(s, Receive(m))) == AsCompleted(s, m) && Idle(AsCompleted(s, m))
    ensures Answered(Handle(s, Receive(m)), s.pending.value, true)
  {
    ThreeIds(s);
    assert WithPeer(s, m).peers.Keys == s.peers.Keys;
    assert Agreeing(s.peers.Keys, map[m.src := m.success], m.success) == {m.src};
  }

  lemma CuttingStep(s: Node, m: Message)
    requires Idle(s) && s.role.Leader? && |s.p.log| == 1 && m.AppendRequest? && m.src in s.peers
    requires m.term < s.p.term && m.entries != [] && m.commit > 0 && m.prevIndex == 0 && m.prevTerm != s.p.log[0].term
    ensures Fresh(Handle(s, Receive(m))) == s.(p := s.p.(log := [])) && Idle(s.(p := s.p.(log := [])))
  {
    LeaderDropsLast(s, m, Handle(s, Receive(m)));
  }

  // ----- a run that has come to three nodes and some messages -----

  /** The cluster consists of these nodes, up to the records of their last steps, and at least these messages are on
      their way. */
  ghost predicate Trio(c: State, ns: seq<Node>, msgs: set<Message>) {
    && |ns| == 3 && c.ids == {0, 1, 2} && c.nodes.Keys == {0, 1, 2}
    && Fresh(c.nodes[0]) == ns[0] && Fresh(c.nodes[1]) == ns[1] && Fresh(c.nodes[2]) == ns[2]
    && msgs <= c.net
  }

  /** The run, in which nothing crashes, ends with these nodes and messages. */
  ghost predicate EndsAt(cs: seq<State>, es: seq<Event>, spared: bool, ns: seq<Node>, msgs: set<Message>) {
    && RunOf(cs, es, spared) && cs != [] && (forall e :: e in es ==> e.Act?)
    && Trio(Final(cs), ns, msgs)
  }

  ghost predicate Ready(s: Node, input: Input, msgs: set<Message>) {
    match input
    case ElectionTimer => s.electionArmed
    case BroadcastTimer => s.broadcastArmed
    case Command(_, _) => true
    case Receive(m) => m in msgs && m.dst == s.me
  }

  function StartNode(i: NodeId): Node {
    Boot(i, {0, 1, 2}, Persistent(0, 0, false, []))
  }

  lemma IdleStart(i: NodeId)
    requires i < 3
    ensures Idle(StartNode(i)) && StartNode(i).role.Follower? && !StartNode(i).heard && StartNode(i).me == i
  {
  }

  lemma Start(spared: bool) returns (cs: seq<State>, es: seq<Event>)
    ensures EndsAt(cs, es, spared, [StartNode(0), StartNode(1), StartNode(2)], {})
    ensures Idle(StartNode(0)) && Idle(StartNode(1)) && Idle(StartNode(2))
  {
    var ids: set<NodeId> := {0, 1, 2};
    var c := State(ids, map n | n in ids :: StartNode(n), {}, History({}, map[], {}, {}));
    IdleStart(0);
    IdleStart(1);
    IdleStart(2);
    cs, es := [c], [];
    EmptyRun(c, spared) by { StartsThere(c); }
    hide RunOf, StartNode, Idle;
  }

  lemma StartsThere(c: State)
    requires c == State({0, 1, 2}, map n | n in {0, 1, 2} :: StartNode(n), {}, History({}, map[], {}, {}))
    ensures Init(c)
  {
    assert (map n | n in c.ids :: Boot(n, c.ids, Persistent(0, 0, false, []))) == c.nodes;
  }

  /** One more step. */
  lemma Go(cs: seq<State>, es: seq<Event>, spared: bool, ns: seq<Node>, msgs: set<Message>,
           n: NodeId, input: Input, t: Node, msgs': set<Message>)
    returns (cs': seq<State>, es': seq<Event>)
    requires EndsAt(cs, es, spared, ns, msgs) && n < 3 == |ns| && ns[n].me == n && Ready(ns[n], input, msgs)
    requires spared ==> LeaderSpared(ns[n], input)
    requires t == Fresh(Handle(ns[n], input)) && msgs' <= (msgs - Consumed(input)) + Handle(ns[n], input).sends
    ensures EndsAt(cs', es', spared, ns[n := t], msgs')
    ensures es' == es + [Act(n, input)] && cs <= cs' && |cs'| == |cs| + 1
    ensures n in Final(cs').nodes && Final(cs').nodes[n] == Handle(ns[n], input)
  {
    hide RunOf, Handle, LeaderSpared, Consumed;
    var s := Final(cs).nodes[n];
    FreshIsEnough(s, input);
    SparedFresh(s, input);
    assert Fresh(s) == ns[n];
    TrioHandles(Final(cs), ns, msgs, n, input);
    hide Ready, CanHandle, Fresh;
    cs', es' := Continue(cs, es, spared, n, input);
  }

  lemma TrioHandles(c: State, ns: seq<Node>, msgs: set<Message>, n: NodeId, input: Input)
    requires Trio(c, ns, msgs) && n < 3 && ns[n].me == n && Ready(ns[n], input, msgs)
    ensures CanHandle(c, n, input)
  {
  }

  lemma FreshIsEnough(s: Node, input: Input)
    ensures Handle(Fresh(s), input) == Handle(s, input)
  {
    assert Fresh(Fresh(s)) == Fresh(s);
  }

  lemma SparedFresh(s: Node, input: Input)
    ensures LeaderSpared(Fresh(s), input) == LeaderSpared(s, input)
  {
  }

  lemma OtherIsPeer(s: Node, i: NodeId)
    requires Idle(s) && i < 3 && i != s.me
    ensures i in s.peers && (s.electionArmed <==> !s.role.Standby?) && (s.broadcastArmed <==> s.role.Leader?)
  {
  }

  /** x campaigns, y grants its vote, and x leads: three steps. */
  lemma Election(cs: seq<State>, es: seq<Event>, spared: bool, ns: seq<Node>, msgs: set<Message>, x: NodeId, y: NodeId)
    returns (cs': seq<State>, es': seq<Event>)
    requires EndsAt(cs, es, spared, ns, msgs) && |ns| == 3
    requires x < 3 && y < 3 && x != y && ns[x].me == x && ns[y].me == y
    requires Idle(ns[x]) && !ns[x].heard && (ns[x].role.Follower? || ns[x].role.Candidate?) && ns[x].pending.None?
    requires Idle(ns[y]) && ns[y].role.Follower? && ns[y].p.term <= ns[x].p.term
    requires ns[y].p.log == [] || LastIndex(ns[y].p.log) <= LastIndex(ns[x].p.log)
    requires forall m :: m in msgs ==> !m.VoteReply?
    ensures EndsAt(cs', es', spared,
                   ns[x := AsLeader(AsCandidate(ns[x]))][y := AsVoter(ns[y], ns[x].p.term + 1, x)], msgs)
    ensures Idle(AsLeader(AsCandidate(ns[x]))) && Idle(AsVoter(ns[y], ns[x].p.term + 1, x))
    ensures cs <= cs' && es <= es'
  {
    hide Handle, EndsAt, Idle, Aligned;
    var s, term := ns[x], ns[x].p.term + 1;
    var candidate, voter := AsCandidate(s), AsVoter(ns[y], term, x);
    var request := VoteRequest(x, y, term, LastIndex(s.p.log), LastTerm(s.p.log));
    var grant := VoteReply(y, x, term, true);
    OtherIsPeer(s, y);
    OtherIsPeer(ns[y], x);
    CampaignStep(s);
    GrantStep(ns[y], request);
    WinStep(candidate, grant);
    var ns1 := ns[x := candidate];
    var ns2 := ns1[y := voter];
    var cs1, es1 := Go(cs, es, spared, ns, msgs, x, ElectionTimer, candidate, msgs + {request});
    var cs2, es2 := Go(cs1, es1, spared, ns1, msgs + {request}, y, Receive(request), voter, msgs + {grant});
    cs', es' := Go(cs2, es2, spared, ns2, msgs + {grant}, x, Receive(grant), AsLeader(candidate), msgs);
    assert ns2[x := AsLeader(candidate)] == ns[x := AsLeader(candidate)][y := voter];
  }

  // ----- the first command -----

  function LeaderOfOne(): Node {
    AsLeader(AsCandidate(StartNode(1)))
  }

  /** Node 1 after its first command was completed by the refusal of a heartbeat to node 2. */
  function FirstDone(command: Types.Command, promise: nat): Node {
    AsCompleted(WithPending(LeaderOfOne(), command, promise), AppendReply(2, 1, 0, 1, false))
  }

  function FirstHearer(): Node {
    AsVoter(StartNode(2), 1, 1).(heard := true)
  }

  lemma LeaderOfOneSends()
    ensures LeaderOfOne().me == 1 && LeaderOfOne().p == Persistent(1, 1, true, [])
    ensures LeaderOfOne().peers == map[0 := Peer(1, 0), 2 := Peer(1, 0)]
    ensures RequestTo(LeaderOfOne(), 2) == AppendRequest(1, 2, 1, 0, 0, [], 0)
    ensures RequestTo(LeaderOfOne(), 0) == AppendRequest(1, 0, 1, 0, 0, [], 0)
  {
    assert {0, 1, 2} - {1} == {0, 2};
  }

  /** Node 1 wins term 1 with the vote of node 2, node 2 refuses a heartbeat, and node 1 takes a command; then the
      refusal completes the command. */
  lemma FirstCommand(spared: bool, command: Types.Command, promise: nat) returns (cs: seq<State>, es: seq<Event>)
    ensures EndsAt(cs, es, spared, [StartNode(0), FirstDone(command, promise), FirstHearer()], {})
    ensures Idle(FirstDone(command, promise)) && Idle(FirstHearer())
    ensures cs != [] && 1 in Final(cs).nodes
    ensures Resolved(promise, 0, Some(command), true) in Final(cs).nodes[1].calls
  {
    hide Handle, EndsAt, Idle, RequestTo;
    var a, l, v := StartNode(0), LeaderOfOne(), AsVoter(StartNode(2), 1, 1);
    var beat, refusal := AppendRequest(1, 2, 1, 0, 0, [], 0), AppendReply(2, 1, 0, 1, false);
    var pending, heard := WithPending(l, command, promise), v.(heard := true);
    LeaderOfOneSends();
    cs, es := Start(spared);
    cs, es := Election(cs, es, spared, [a, StartNode(1), StartNode(2)], {}, 1, 2);
    assert [a, StartNode(1), StartNode(2)][1 := l][2 := v] == [a, l, v];
    OtherIsPeer(l, 2);
    OtherIsPeer(v, 1);
    BroadcastStep(l, 2);
    HeartbeatStep(v, beat);
    CommandStep(l, command, promise);
    OtherIsPeer(pending, 2);
    CompletingStep(pending, refusal);
    assert AsFollower(v, 1) == heard;
    cs, es := Go(cs, es, spared, [a, l, v], {}, 1, BroadcastTimer, l, {beat});
    assert [a, l, v][1 := l] == [a, l, v];
    cs, es := Go(cs, es, spared, [a, l, v], {beat}, 2, Receive(beat), heard, {refusal});
    assert [a, l, v][2 := heard] == [a, l, heard];
    cs, es := Go(cs, es, spared, [a, l, heard], {refusal}, 1, Input.Command(command, promise), pending, {refusal});
    assert [a, l, heard][1 := pending] == [a, pending, heard];
    cs, es := Go(cs, es, spared, [a, pending, heard], {refusal}, 1, Receive(refusal), FirstDone(command, promise), {});
    assert [a, pending, heard][1 := FirstDone(command, promise)] == [a, FirstDone(command, promise), heard];
  }

  /** Under (A), and without a crash: a command is answered with true while no other node has stored anything. */
  lemma FirstCommandUnstored(command: Types.Command, promise: nat) returns (cs: seq<State>, es: seq<Event>)
    ensures SparingRun(cs, es) && cs != [] && Final(cs).nodes.Keys == {0, 1, 2} && forall e :: e in es ==> e.Act?
    ensures Resolved(promise, 0, Some(command), true) in Final(cs).nodes[1].calls
    ensures Final(cs).nodes[0].p.log == [] && Final(cs).nodes[2].p.log == []
  {
    hide Handle;
    cs, es := FirstCommand(true, command, promise);
    EndLogs(cs, es, true, [StartNode(0), FirstDone(command, promise), FirstHearer()], {});
  }

  lemma EndLogs(cs: seq<State>, es: seq<Event>, spared: bool, ns: seq<Node>, msgs: set<Message>)
    requires EndsAt(cs, es, spared, ns, msgs)
    ensures cs != [] && |ns| == 3 && Final(cs).nodes.Keys == {0, 1, 2} && RunOf(cs, es, spared)
    ensures forall e :: e in es ==> e.Act?
    ensures Final(cs).nodes[0].p == ns[0].p && Final(cs).nodes[1].p == ns[1].p && Final(cs).nodes[2].p == ns[2].p
  {
    hide RunOf;
  }

  // ----- a delayed request splits two logs -----

  /** Node 1 with a second command pending; what it sends to node 0 will be delayed. */
  function SecondPending(): Node {
    WithPending(FirstDone([1], 1), [2], 2)
  }

  function Delayed(): Message {
    AppendRequest(1, 0, 1, 0, 1, [2], 1)
  }

  lemma SecondSends()
    ensures SecondPending().me == 1 && Fit(SecondPending()) && SecondPending().role.Leader?
    ensures 0 in SecondPending().peers && RequestTo(SecondPending(), 0) == Delayed()
    ensures FirstDone([1], 1).role.Leader? && FirstDone([1], 1).pending.None? && FirstDone([1], 1).me == 1
  {
    LeaderOfOneSends();
    assert SecondPending().peers[0] == Peer(1, 0);
    assert SecondPending().p.log == [LogEntry(0, 1, [1])];
  }

  lemma FirstHearerShape()
    ensures FirstHearer().role.Follower? && FirstHearer().me == 2 && FirstHearer().p == Persistent(1, 1, true, [])
  {
  }

  /** The first leader takes another command and sends it to node 0; the request will be delayed. */
  lemma SecondSent() returns (cs: seq<State>, es: seq<Event>)
    ensures EndsAt(cs, es, false, [StartNode(0), SecondPending(), FirstHearer()], {Delayed()})
    ensures Idle(FirstHearer())
  {
    hide Handle, EndsAt, Idle, RequestTo, FirstDone, FirstHearer, StartNode;
    var a, b, c, pending := StartNode(0), FirstDone([1], 1), FirstHearer(), SecondPending();
    cs, es := FirstCommand(false, [1], 1);
    SecondSends();
    CommandStep(b, [2], 2);
    OtherIsPeer(pending, 0);
    BroadcastStep(pending, 0);
    cs, es := Go(cs, es, false, [a, b, c], {}, 1, Input.Command([2], 2), pending, {});
    assert [a, b, c][1 := pending] == [a, pending, c];
    cs, es := Go(cs, es, false, [a, pending, c], {}, 1, BroadcastTimer, pending, {Delayed()});
    assert [a, pending, c][1 := pending] == [a, pending, c];
  }

  /** Node 0 wins term 2 in its second campaign. */
  lemma SecondLeader() returns (cs: seq<State>, es: seq<Event>)
    ensures EndsAt(cs, es, false, [LeaderOfTwo(), SecondPending(), VoterOfTwo()], {Delayed()})
    ensures Idle(LeaderOfTwo()) && Idle(VoterOfTwo())
  {
    hide Handle, EndsAt, Idle, FirstHearer, SecondPending;
    var a, b, c, candidate := StartNode(0), SecondPending(), FirstHearer(), AsCandidate(StartNode(0));
    cs, es := SecondSent();
    FirstHearerShape();
    IdleStart(0);
    OtherIsPeer(a, 1);
    CampaignStep(a);
    cs, es := Go(cs, es, false, [a, b, c], {Delayed()}, 0, ElectionTimer, candidate, {Delayed()});
    assert [a, b, c][0 := candidate] == [candidate, b, c];
    cs, es := Election(cs, es, false, [candidate, b, c], {Delayed()}, 0, 2);
    assert [candidate, b, c][0 := LeaderOfTwo()][2 := VoterOfTwo()] == [LeaderOfTwo(), b, VoterOfTwo()];
  }

  function LeaderOfTwo(): Node {
    AsLeader(AsCandidate(AsCandidate(StartNode(0))))
  }

  function VoterOfTwo(): Node {
    AsVoter(FirstHearer(), 2, 0)
  }

  /** Node 0 after its first command was completed, again by a refusal. */
  function ThirdDone(): Node {
    AsCompleted(WithPending(LeaderOfTwo(), [3], 3), AppendReply(2, 0, 0, 2, false))
  }

  function ThirdRequest(): Message {
    AppendRequest(0, 2, 2, 0, 0, [3], 0)
  }

  function ThirdHolder(): Node {
    AsHolder(VoterOfTwo(), ThirdRequest())
  }

  lemma LeaderOfTwoSends()
    ensures LeaderOfTwo().me == 0 && LeaderOfTwo().role.Leader? && LeaderOfTwo().pending.None?
    ensures LeaderOfTwo().p == Persistent(2, 0, true, []) && 2 in LeaderOfTwo().peers
    ensures RequestTo(WithPending(LeaderOfTwo(), [3], 3), 2) == AppendRequest(0, 2, 2, 0, 2, [], 0)
    ensures ThirdDone().p.log == [LogEntry(0, 2, [3])] && RequestTo(ThirdDone(), 2) == ThirdRequest()
    ensures VoterOfTwo().me == 2 && VoterOfTwo().p == Persistent(2, 0, true, []) && VoterOfTwo().role.Follower?
    ensures AsFollower(VoterOfTwo(), 2) == VoterOfTwo()
  {
    assert {0, 1, 2} - {0} == {1, 2};
    assert LeaderOfTwo().peers == map[1 := Peer(1, 0), 2 := Peer(1, 0)];
    assert ThirdDone().peers[2] == Peer(0, 0);
  }

  /** Node 0 takes a command, and the refusal of a heartbeat completes it. */
  lemma ThirdCommand() returns (cs: seq<State>, es: seq<Event>)
    ensures EndsAt(cs, es, false, [ThirdDone(), SecondPending(), VoterOfTwo()], {Delayed()})
    ensures Idle(ThirdDone()) && Idle(VoterOfTwo())
  {
    hide Handle, EndsAt, Idle, RequestTo, MoveIndex;
    var a, b, c, pending := LeaderOfTwo(), SecondPending(), VoterOfTwo(), WithPending(LeaderOfTwo(), [3], 3);
    var beat, refusal := AppendRequest(0, 2, 2, 0, 2, [], 0), AppendReply(2, 0, 0, 2, false);
    var kept := {Delayed()};
    cs, es := SecondLeader();
    LeaderOfTwoSends();
    CommandStep(a, [3], 3);
    OtherIsPeer(pending, 2);
    OtherIsPeer(c, 0);
    BroadcastStep(pending, 2);
    HeartbeatStep(c, beat);
    CompletingStep(pending, refusal);
    cs, es := Go(cs, es, false, [a, b, c], kept, 0, Input.Command([3], 3), pending, kept);
    assert [a, b, c][0 := pending] == [pending, b, c];
    cs, es := Go(cs, es, false, [pending, b, c], kept, 0, BroadcastTimer, pending, kept + {beat});
    assert [pending, b, c][0 := pending] == [pending, b, c];
    cs, es := Go(cs, es, false, [pending, b, c], kept + {beat}, 2, Receive(beat), c, kept + {refusal});
    assert [pending, b, c][2 := c] == [pending, b, c];
    cs, es := Go(cs, es, false, [pending, b, c], kept + {refusal}, 0, Receive(refusal), ThirdDone(), kept);
    assert [pending, b, c][0 := ThirdDone()] == [ThirdDone(), b, c];
  }

  /** Node 2 stores the entry too, and its reply is on its way. */
  lemma BothStore() returns (cs: seq<State>, es: seq<Event>)
    ensures EndsAt(cs, es, false, [ThirdDone(), SecondPending(), ThirdHolder()],
                   {Delayed(), AppendReply(2, 0, 0, 2, true)})
    ensures Idle(ThirdDone()) && Idle(ThirdHolder())
  {
    hide Handle, EndsAt, Idle, RequestTo;
    var a, b, c, request := ThirdDone(), SecondPending(), VoterOfTwo(), ThirdRequest();
    var ack := AppendReply(2, 0, 0, 2, true);
    cs, es := ThirdCommand();
    LeaderOfTwoSends();
    OtherIsPeer(a, 2);
    OtherIsPeer(c, 0);
    BroadcastStep(a, 2);
    FirstEntryStep(c, request);
    cs, es := Go(cs, es, false, [a, b, c], {Delayed()}, 0, BroadcastTimer, a, {Delayed(), request});
    assert [a, b, c][0 := a] == [a, b, c];
    cs, es := Go(cs, es, false, [a, b, c], {Delayed(), request}, 2, Receive(request), ThirdHolder(), {Delayed(), ack});
    assert [a, b, c][2 := ThirdHolder()] == [a, b, ThirdHolder()];
  }

  function Emptied(): Node {
    ThirdDone().(p := Persistent(2, 0, true, []))
  }

  function Replaced(): Node {
    AsCompleted(WithPending(Emptied(), [4], 4), AppendReply(2, 0, 0, 2, true))
  }

  lemma EmptiedFacts()
    ensures ThirdDone().role.Leader? && ThirdDone().p == Persistent(2, 0, true, [LogEntry(0, 2, [3])])
    ensures ThirdDone().me == 0 && ThirdDone().pending.None?
    ensures Replaced().p.log == [LogEntry(0, 2, [4])] && ThirdHolder().p.log == [LogEntry(0, 2, [3])]
  {
  }

  /** The old request reaches the leader of term 2, which drops its entry, takes another command for the same index,
      and completes it with the reply of node 2. */
  lemma OldRequestArrives() returns (cs: seq<State>, es: seq<Event>)
    ensures EndsAt(cs, es, false, [Replaced(), SecondPending(), ThirdHolder()], {})
  {
    hide Handle, EndsAt, Idle, RequestTo, MoveIndex;
    var a, b, c, pending := ThirdDone(), SecondPending(), ThirdHolder(), WithPending(Emptied(), [4], 4);
    var ack := AppendReply(2, 0, 0, 2, true);
    cs, es := BothStore();
    EmptiedFacts();
    OtherIsPeer(a, 1);
    CuttingStep(a, Delayed());
    CommandStep(Emptied(), [4], 4);
    OtherIsPeer(pending, 2);
    CompletingStep(pending, ack);
    cs, es := Go(cs, es, false, [a, b, c], {Delayed(), ack}, 0, Receive(Delayed()), Emptied(), {ack});
    assert [a, b, c][0 := Emptied()] == [Emptied(), b, c];
    cs, es := Go(cs, es, false, [Emptied(), b, c], {ack}, 0, Input.Command([4], 4), pending, {ack});
    assert [Emptied(), b, c][0 := pending] == [pending, b, c];
    cs, es := Go(cs, es, false, [pending, b, c], {ack}, 0, Receive(ack), Replaced(), {});
    assert [pending, b, c][0 := Replaced()] == [Replaced(), b, c];
  }

  /** Without (A) Log Matching fails: in a run without a crash, the request of an old term that reaches the leader of
      term 2 leaves two logs with the same term and different commands at one index. */
  lemma DelayedRequestSplitsLogs() returns (cs: seq<State>, es: seq<Event>)
    ensures Run(cs, es) && cs != [] && Final(cs).nodes.Keys == {0, 1, 2} && forall e :: e in es ==> e.Act?
    ensures Final(cs).nodes[0].p.log == [LogEntry(0, 2, [4])] && Final(cs).nodes[2].p.log == [LogEntry(0, 2, [3])]
    ensures !Agree(Final(cs).nodes[0].p.log, Final(cs).nodes[2].p.log)
  {
    hide EndsAt, Agree, Run;
    cs, es := OldRequestArrives();
    EmptiedFacts();
    EndLogs(cs, es, false, [Replaced(), SecondPending(), ThirdHolder()], {});
    Disagree(Final(cs).nodes[0].p.log, Final(cs).nodes[2].p.log, 0);
  }

  // ----- a pending commit that no longer fits -----

  /** The request conflicts with the only entry of a leader of an older term: it gives up everything. */
  function Ousted(s: Node, term: nat): Node {
    AsFollower(s, term).(pending := None, p := Persistent(term, 0, false, []))
  }

  lemma OustingStep(s: Node, m: Message)
    requires Idle(s) && s.role.Leader? && |s.p.log| == 1 && m.AppendRequest? && m.src in s.peers
    requires s.p.term < m.term && m.entries != [] && m.commit > 0 && m.prevIndex == 0 && m.prevTerm != s.p.log[0].term
    ensures Fresh(Handle(s, Receive(m))) == Ousted(s, m.term) && Idle(Ousted(s, m.term))
  {
    hide StepDown, StoreEntries;
    var u := ResetVote(SetTerm(Fresh(s), m.term));
    StepDownFacts(u, StepDown(u));
    StepDownShape(UpdateTerm(Fresh(s), m.term, false).(heard := true));
    RollBack(Follow(Fresh(s), m), m);
  }

  lemma RollBack(s: Node, m: Message)
    requires WellIndexed(s.p.log) && |s.p.log| == 1 && m.AppendRequest?
    requires m.entries != [] && m.commit > 0 && m.prevIndex == 0 && m.prevTerm != s.p.log[0].term
    ensures StoreEntries(s, m) == (s.(p := s.p.(log := []), trail := s.trail + [s.p.(log := [])]), false)
  {
  }

  lemma MissingStep(s: Node, m: Message)
    requires Idle(s) && s.role.Follower? && s.p.log == [] && s.heard
    requires m.AppendRequest? && m.src in s.peers && m.term == s.p.term && m.entries != [] && m.commit > 0
    ensures Fresh(Handle(s, Receive(m))) == s
    ensures AppendReply(s.me, m.src, m.commit, s.p.term, false) in Handle(s, Receive(m)).sends
  {
  }

  /** Node 0 with one entry and a second command pending. */
  function FifthPending(): Node {
    WithPending(ThirdDone(), [5], 5)
  }

  function FifthRequest(): Message {
    AppendRequest(0, 1, 2, 0, 2, [5], 1)
  }

  function FifthRefusal(): Message {
    AppendReply(1, 0, 1, 2, false)
  }

  /** Its log has been emptied: the pending commit at index 1 does not fit any more. */
  function Stranded(): Node {
    FifthPending().(p := Persistent(2, 0, true, []))
  }

  lemma ThirdDoneShape()
    ensures ThirdDone().role.Leader? && ThirdDone().pending.None? && ThirdDone().me == 0
    ensures ThirdDone().p == Persistent(2, 0, true, [LogEntry(0, 2, [3])])
    ensures 1 in ThirdDone().peers && ThirdDone().peers[1] == Peer(1, 0)
  {
    assert {0, 1, 2} - {0} == {1, 2};
    assert LeaderOfTwo().peers == map[1 := Peer(1, 0), 2 := Peer(1, 0)];
  }

  lemma FifthSends()
    ensures ThirdDone().role.Leader? && ThirdDone().pending.None? && ThirdDone().me == 0
    ensures FifthPending().role.Leader? && FifthPending().me == 0 && 1 in FifthPending().peers && Fit(FifthPending())
    ensures FifthPending().p == Persistent(2, 0, true, [LogEntry(0, 2, [3])])
    ensures RequestTo(FifthPending(), 1) == FifthRequest()
    ensures Stranded() == FifthPending().(p := FifthPending().p.(log := []))
    ensures Stranded().pending == Some(Pending(LogEntry(1, 2, [5]), 5, map[]))
  {
    hide ThirdDone;
    ThirdDoneShape();
  }

  lemma SecondShape()
    ensures SecondPending().p.term == 1 && SecondPending().p.log == [LogEntry(0, 1, [1])]
    ensures SecondPending().role.Leader? && SecondPending().me == 1
  {
  }

  lemma StrandedShape()
    ensures Stranded().me == 0 && Stranded().role.Leader? && Stranded().p.log == [] && Stranded().pending.Some?
    ensures Forgets(Stranded(), BroadcastTimer, Stranded().pending.value.promise)
  {
    FifthSends();
    hide FifthPending;
  }

  /** Node 0 takes a command and sends it to node 1, which refuses it and gives up its own log. */
  lemma FifthRefused() returns (cs: seq<State>, es: seq<Event>)
    ensures EndsAt(cs, es, false, [FifthPending(), Ousted(SecondPending(), 2), VoterOfTwo()], {Delayed()})
    ensures Idle(FifthPending()) && Idle(Ousted(SecondPending(), 2))
  {
    hide Handle, EndsAt, Idle, RequestTo, ThirdDone, VoterOfTwo;
    var a, b, c, pending := ThirdDone(), SecondPending(), VoterOfTwo(), FifthPending();
    var ousted, request, kept := Ousted(SecondPending(), 2), FifthRequest(), {Delayed(), FifthRequest()};
    cs, es := ThirdCommand();
    FifthSends();
    SecondShape();
    IdleSecond();
    CommandStep(a, [5], 5);
    OtherIsPeer(pending, 1);
    OtherIsPeer(b, 0);
    BroadcastStep(pending, 1);
    OustingStep(b, request);
    cs, es := Go(cs, es, false, [a, b, c], {Delayed()}, 0, Input.Command([5], 5), pending, {Delayed()});
    assert [a, b, c][0 := pending] == [pending, b, c];
    cs, es := Go(cs, es, false, [pending, b, c], {Delayed()}, 0, BroadcastTimer, pending, kept);
    assert [pending, b, c][0 := pending] == [pending, b, c];
    cs, es := Go(cs, es, false, [pending, b, c], kept, 1, Receive(request), ousted, {Delayed()});
    assert [pending, b, c][1 := ousted] == [pending, ousted, c];
  }

  lemma OustedShape()
    ensures Ousted(SecondPending(), 2).role.Follower? && Ousted(SecondPending(), 2).me == 1
    ensures Ousted(SecondPending(), 2).heard && Ousted(SecondPending(), 2).p == Persistent(2, 0, false, [])
  {
    SecondShape();
  }

  /** Node 0 sends the entry again and node 1 refuses it again; then the delayed request of term 1 reaches node 0. Both
      the second refusal and node 0's timer can come next. */
  lemma CommitStranded() returns (cs: seq<State>, es: seq<Event>)
    ensures EndsAt(cs, es, false, [Stranded(), Ousted(SecondPending(), 2), VoterOfTwo()], {FifthRefusal()})
    ensures Idle(Stranded())
  {
    hide Handle, EndsAt, Idle, RequestTo, FifthPending, Ousted, VoterOfTwo;
    var pending, c, ousted := FifthPending(), VoterOfTwo(), Ousted(SecondPending(), 2);
    var request, kept := FifthRequest(), {Delayed(), FifthRequest()};
    cs, es := FifthRefused();
    FifthSends();
    OustedShape();
    OtherIsPeer(pending, 1);
    OtherIsPeer(ousted, 0);
    BroadcastStep(pending, 1);
    MissingStep(ousted, request);
    CuttingStep(pending, Delayed());
    cs, es := Go(cs, es, false, [pending, ousted, c], {Delayed()}, 0, BroadcastTimer, pending, kept);
    assert [pending, ousted, c][0 := pending] == [pending, ousted, c];
    cs, es := Go(cs, es, false, [pending, ousted, c], kept, 1, Receive(request), ousted, {Delayed(), FifthRefusal()});
    assert [pending, ousted, c][1 := ousted] == [pending, ousted, c];
    cs, es := Go(cs, es, false, [pending, ousted, c], {Delayed(), FifthRefusal()}, 0, Receive(Delayed()), Stranded(),
                 {FifthRefusal()});
    assert [pending, ousted, c][0 := Stranded()] == [Stranded(), ousted, c];
  }

  lemma IdleSecond()
    ensures Idle(SecondPending())
  {
    IdleStart(1);
    LeaderOfOneSends();
    assert SecondPending().peers.Keys == {0, 1, 2} - {1};
  }

  lemma StrandedSteps()
    requires Idle(Stranded())
    ensures var t := Handle(Stranded(), BroadcastTimer);
            t.pending.None? && t.calls == [] && t.role.Leader? && t.p == Stranded().p
    ensures Replay.SettlesUnfit(Stranded(), Receive(FifthRefusal()))
    ensures var t := Handle(Stranded(), Receive(FifthRefusal()));
            t.calls == [Committed(1, [5]), Resolved(5, 1, Some([5]), true)] && t.p.log == []
  {
    FifthSends();
    ThreeIds(Stranded());
    OtherIsPeer(Stranded(), 1);
    OnlyOneAgrees();
    hide Handle;
    StrandedDrops();
    Replay.UnfitCompletion(Stranded(), Receive(FifthRefusal()));
  }

  lemma StrandedDrops()
    ensures var t := Handle(Stranded(), BroadcastTimer);
            t.pending.None? && t.calls == [] && t.role.Leader? && t.p == Stranded().p
  {
    FifthSends();
    hide FifthPending;
  }

  lemma OnlyOneAgrees()
    requires Idle(Stranded())
    ensures |Agreeing(Stranded().peers.Keys, map[1 := false], false)| == 1
  {
    OtherIsPeer(Stranded(), 1) by { FifthSends(); }
    assert Agreeing(Stranded().peers.Keys, map[1 := false], false) == {1};
  }

  /** What the last step of a run does to node 0. */
  ghost predicate LastStep(cs: seq<State>, es: seq<Event>, before: Node, input: Input, after: Node) {
    && Run(cs, es) && |es| >= 1 && (forall e :: e in es ==> e.Act?) && es[|es| - 1] == Act(0, input)
    && 0 in cs[|es| - 1].nodes && Fresh(cs[|es| - 1].nodes[0]) == before
    && 0 in cs[|es|].nodes && cs[|es|].nodes[0] == after
  }

  /** The last step of a run without a crash, after which the promise of a pending commit is neither open nor
      resolved: node 0 still leads, and has made no call. */
  lemma PromiseDropped() returns (cs: seq<State>, es: seq<Event>, before: Node, after: Node)
    ensures LastStep(cs, es, before, BroadcastTimer, after)
    ensures before.pending.Some? && Forgets(before, BroadcastTimer, before.pending.value.promise)
    ensures after.pending.None? && after.calls == [] && after.role.Leader?
  {
    cs, es, before, after := LastOfStranded(BroadcastTimer);
  }

  /** The last step of a run without a crash, in which node 0 completes a commit that does not fit its log: it notifies
      the entry and answers with true, and its log stays empty. */
  lemma CommitUnstored() returns (cs: seq<State>, es: seq<Event>, before: Node, after: Node)
    ensures LastStep(cs, es, before, Receive(FifthRefusal()), after)
    ensures Replay.SettlesUnfit(before, Receive(FifthRefusal()))
    ensures after.calls == [Committed(1, [5]), Resolved(5, 1, Some([5]), true)]
    ensures before.p.log == [] && after.p.log == []
  {
    cs, es, before, after := LastOfStranded(Receive(FifthRefusal()));
  }

  lemma EndRun(cs: seq<State>, es: seq<Event>, ns: seq<Node>, msgs: set<Message>)
    requires EndsAt(cs, es, false, ns, msgs)
    ensures Run(cs, es) && |cs| == |es| + 1 && (forall e :: e in es ==> e.Act?)
    ensures |ns| == 3 && 0 in Final(cs).nodes && Fresh(Final(cs).nodes[0]) == ns[0]
  {
    RunOfShape(cs, es, false);
    hide RunOf, Run;
  }

  lemma LastOfStranded(input: Input) returns (cs: seq<State>, es: seq<Event>, before: Node, after: Node)
    requires input == BroadcastTimer || input == Receive(FifthRefusal())
    ensures LastStep(cs, es, before, input, after) && before == Stranded() && after == Handle(Stranded(), input)
    ensures Forgets(before, BroadcastTimer, before.pending.value.promise)
    ensures Replay.SettlesUnfit(before, Receive(FifthRefusal()))
    ensures var t := Handle(Stranded(), BroadcastTimer); t.pending.None? && t.calls == [] && t.role.Leader?
    ensures var t := Handle(Stranded(), Receive(FifthRefusal()));
            t.calls == [Committed(1, [5]), Resolved(5, 1, Some([5]), true)] && t.p.log == []
    ensures Stranded().p.log == []
  {
    hide Handle, EndsAt, RunOf, Run, Idle, Stranded, FifthPending, Ousted, VoterOfTwo, Forgets, Replay.SettlesUnfit;
    var cs1, es1 := CommitStranded();
    var ns := [Stranded(), Ousted(SecondPending(), 2), VoterOfTwo()];
    StrandedShape();
    StrandedSteps();
    OtherIsPeer(Stranded(), 1);
    before, after := Stranded(), Handle(Stranded(), input);
    cs, es := Go(cs1, es1, false, ns, {FifthRefusal()}, 0, input, Fresh(after), {});
    EndRun(cs1, es1, ns, {FifthRefusal()});
    EndRun(cs, es, ns[0 := Fresh(after)], {});
    assert cs[|es| - 1] == Final(cs1);
  }

  // ----- a refused command that is stored -----

  function FirstVoter(): Node {
    AsVoter(StartNode(0), 1, 1)
  }

  function OldRefusal(): Message {
    AppendReply(0, 1, 0, 1, false)
  }

  function OldLeader(): Node {
    AsLeader(AsCandidate(FirstVoter()))
  }

  function OtherVoter(): Node {
    AsVoter(StartNode(2), 2, 0)
  }

  lemma OldLeaderSends()
    ensures FirstVoter().me == 0 && FirstVoter().role.Follower? && !FirstVoter().heard
    ensures AsFollower(FirstVoter(), 1) == FirstVoter().(heard := true)
    ensures OldLeader().p == Persistent(2, 0, true, []) && OldLeader().me == 0 && 1 in OldLeader().peers
    ensures RequestTo(OldLeader(), 1) == AppendRequest(0, 1, 2, 0, 0, [], 0)
    ensures OtherVoter().p == Persistent(2, 0, true, []) && OtherVoter().me == 2
  {
    assert {0, 1, 2} - {0} == {1, 2};
    assert OldLeader().peers == map[1 := Peer(1, 0), 2 := Peer(1, 0)];
  }

  /** Node 1 leads term 1, and the refusal of its heartbeat to node 0 is delayed; then node 0 leads term 2. */
  lemma RefusalDelayed() returns (cs: seq<State>, es: seq<Event>)
    ensures EndsAt(cs, es, true, [OldLeader(), LeaderOfOne(), OtherVoter()], {OldRefusal()})
    ensures Idle(OldLeader()) && Idle(LeaderOfOne()) && Idle(OtherVoter())
  {
    hide Handle, EndsAt, Idle, RequestTo;
    var a, b, c, heard := FirstVoter(), LeaderOfOne(), StartNode(2), FirstVoter().(heard := true);
    var beat := AppendRequest(1, 0, 1, 0, 0, [], 0);
    cs, es := Start(true);
    LeaderOfOneSends();
    OldLeaderSends();
    cs, es := Election(cs, es, true, [StartNode(0), StartNode(1), c], {}, 1, 0);
    assert [StartNode(0), StartNode(1), c][1 := b][0 := a] == [a, b, c];
    OtherIsPeer(a, 1);
    OtherIsPeer(b, 0);
    BroadcastStep(b, 0);
    HeartbeatStep(a, beat);
    CalmStep(heard);
    OtherIsPeer(heard, 1);
    cs, es := Go(cs, es, true, [a, b, c], {}, 1, BroadcastTimer, b, {beat});
    assert [a, b, c][1 := b] == [a, b, c];
    cs, es := Go(cs, es, true, [a, b, c], {beat}, 0, Receive(beat), heard, {OldRefusal()});
    assert [a, b, c][0 := heard] == [heard, b, c];
    assert heard.(heard := false) == a;
    cs, es := Go(cs, es, true, [heard, b, c], {OldRefusal()}, 0, ElectionTimer, a, {OldRefusal()});
    assert [heard, b, c][0 := a] == [a, b, c];
    cs, es := Election(cs, es, true, [a, b, c], {OldRefusal()}, 0, 2);
    assert [a, b, c][0 := OldLeader()][2 := OtherVoter()] == [OldLeader(), b, OtherVoter()];
  }

  function Deposed(): Node {
    AsFollower(LeaderOfOne(), 2)
  }

  /** Node 0, which still leads term 2, with a command pending that it sends to node 1 from index 0. */
  function Waiter(): Node {
    WithPending(WithPeer(OldLeader(), AppendReply(1, 0, 0, 1, false)), [7], 42)
  }

  function FirstSend(): Message {
    AppendRequest(0, 1, 2, 0, 0, [7], 0)
  }

  function Keeper(): Node {
    AsHolder(Deposed(), FirstSend())
  }

  lemma WaiterSends()
    ensures 1 in OldLeader().peers
    ensures Waiter().role.Leader? && Waiter().me == 0 && Waiter().p == Persistent(2, 0, true, [])
    ensures Fit(Waiter()) && Waiter().pending == Some(Pending(LogEntry(0, 2, [7]), 42, map[]))
    ensures 1 in Waiter().peers && RequestTo(Waiter(), 1) == FirstSend()
    ensures Deposed().role.Follower? && Deposed().me == 1 && Deposed().p == Persistent(2, 0, false, [])
    ensures Keeper().p == Persistent(2, 0, false, [LogEntry(0, 2, [7])]) && Keeper().heard && Keeper().me == 1
    ensures Keeper().role.Follower? && Keeper().pending.None?
    ensures AsHolder(Deposed(), FirstSend()) == Keeper()
  {
    OldLeaderSends();
    assert {0, 1, 2} - {0} == {1, 2};
    assert Waiter().peers[1] == Peer(0, 0);
  }

  /** A heartbeat of node 0 deposes node 1, which refuses it; node 0 takes a command. */
  lemma WaiterWaits() returns (cs: seq<State>, es: seq<Event>)
    ensures EndsAt(cs, es, true, [Waiter(), Deposed(), OtherVoter()], {OldRefusal()})
    ensures Idle(Waiter()) && Idle(Deposed()) && Idle(OtherVoter())
  {
    hide Handle, EndsAt, Idle, RequestTo, OldLeader, LeaderOfOne, OtherVoter;
    OldLeaderSends();
    var a, b, c, refusal := OldLeader(), LeaderOfOne(), OtherVoter(), AppendReply(1, 0, 0, 1, false);
    var beat, refused, kept := AppendRequest(0, 1, 2, 0, 0, [], 0), WithPeer(OldLeader(), refusal), {OldRefusal()};
    cs, es := RefusalDelayed();
    LeaderOfOneSends();
    LeadersLead();
    OtherIsPeer(a, 1);
    OtherIsPeer(b, 0);
    BroadcastStep(a, 1);
    HeartbeatStep(b, beat);
    ReplyStep(a, refusal);
    CommandStep(refused, [7], 42);
    cs, es := Go(cs, es, true, [a, b, c], kept, 0, BroadcastTimer, a, kept + {beat});
    assert [a, b, c][0 := a] == [a, b, c];
    cs, es := Go(cs, es, true, [a, b, c], kept + {beat}, 1, Receive(beat), Deposed(), kept + {refusal});
    assert [a, b, c][1 := Deposed()] == [a, Deposed(), c];
    cs, es := Go(cs, es, true, [a, Deposed(), c], kept + {refusal}, 0, Receive(refusal), refused, kept);
    assert [a, Deposed(), c][0 := refused] == [refused, Deposed(), c];
    cs, es := Go(cs, es, true, [refused, Deposed(), c], kept, 0, Input.Command([7], 42), Waiter(), kept);
    assert [refused, Deposed(), c][0 := Waiter()] == [Waiter(), Deposed(), c];
  }

  lemma LeadersLead()
    ensures OldLeader().role.Leader? && OldLeader().pending.None?
    ensures LeaderOfOne().role.Leader? && LeaderOfOne().pending.None?
  {
  }

  /** Node 1, and no other node, stores the command. */
  lemma KeeperStores() returns (cs: seq<State>, es: seq<Event>)
    ensures EndsAt(cs, es, true, [Waiter(), Keeper(), OtherVoter()], {OldRefusal()})
    ensures Idle(Waiter()) && Idle(Keeper()) && Idle(OtherVoter())
  {
    hide Handle, EndsAt, Idle, RequestTo, Waiter, Deposed, OtherVoter;
    var a, b, c, request, kept := Waiter(), Deposed(), OtherVoter(), FirstSend(), {OldRefusal()};
    cs, es := WaiterWaits();
    WaiterSends();
    OtherIsPeer(a, 1);
    BroadcastStep(a, 1);
    OtherIsPeer(b, 0);
    FirstEntryStep(b, request);
    cs, es := Go(cs, es, true, [a, b, c], kept, 0, BroadcastTimer, a, kept + {request});
    assert [a, b, c][0 := a] == [a, b, c];
    cs, es := Go(cs, es, true, [a, b, c], kept + {request}, 1, Receive(request), Keeper(), kept);
    assert [a, b, c][1 := Keeper()] == [a, Keeper(), c];
  }

  function NewLeader(): Node {
    AsLeader(AsCandidate(Keeper().(heard := false)))
  }

  function SendBack(): Message {
    AppendRequest(1, 0, 2, 0, 0, [7], 0)
  }

  lemma NewLeaderSends()
    ensures NewLeader().me == 1 && NewLeader().role.Leader? && NewLeader().pending.None? && NewLeader().p.term == 3
    ensures 0 in NewLeader().peers && WithPeer(NewLeader(), OldRefusal()).role.Leader?
    ensures WithPeer(NewLeader(), OldRefusal()).me == 1 && WithPeer(NewLeader(), OldRefusal()).pending.None?
    ensures 0 in WithPeer(NewLeader(), OldRefusal()).peers
    ensures RequestTo(WithPeer(NewLeader(), OldRefusal()), 0) == SendBack()
  {
    WaiterSends();
    LeaderOfOneSends();
    assert {0, 1, 2} - {1} == {0, 2};
    assert NewLeader().peers == map[0 := Peer(1, 0), 2 := Peer(1, 0)];
    assert WithPeer(NewLeader(), OldRefusal()).peers[0] == Peer(0, 0);
  }

  /** Node 1 leads term 3. */
  lemma NewLeaderUp() returns (cs: seq<State>, es: seq<Event>)
    ensures EndsAt(cs, es, true, [Waiter(), NewLeader(), AsVoter(OtherVoter(), 3, 1)], {OldRefusal()})
    ensures Idle(Waiter()) && Idle(NewLeader())
  {
    hide Handle, EndsAt, Idle, RequestTo, MoveIndex, Waiter;
    var a, b, c, calm := Waiter(), Keeper(), OtherVoter(), Keeper().(heard := false);
    var voter := AsVoter(c, 3, 1);
    cs, es := KeeperStores();
    OldLeaderSends();
    WaiterSends();
    OtherIsPeer(b, 0);
    CalmStep(b);
    cs, es := Go(cs, es, true, [a, b, c], {OldRefusal()}, 1, ElectionTimer, calm, {OldRefusal()});
    assert [a, b, c][1 := calm] == [a, calm, c];
    cs, es := Election(cs, es, true, [a, calm, c], {OldRefusal()}, 1, 2);
    assert [a, calm, c][1 := NewLeader()][2 := voter] == [a, NewLeader(), voter];
  }

  /** The delayed refusal arrives, and node 1 sends the entry back to node 0. */
  lemma EntrySentBack() returns (cs: seq<State>, es: seq<Event>, ns: seq<Node>)
    ensures EndsAt(cs, es, true, ns, {SendBack()}) && |ns| == 3 && ns[0] == Waiter() && Idle(Waiter())
  {
    hide Handle, EndsAt, Idle, RequestTo, MoveIndex, Waiter;
    var a, b, c, leader := Waiter(), NewLeader(), AsVoter(OtherVoter(), 3, 1), WithPeer(NewLeader(), OldRefusal());
    cs, es := NewLeaderUp();
    NewLeaderSends();
    ReplyStep(b, OldRefusal());
    OtherIsPeer(leader, 0);
    BroadcastStep(leader, 0);
    cs, es := Go(cs, es, true, [a, b, c], {OldRefusal()}, 1, Receive(OldRefusal()), leader, {});
    assert [a, b, c][1 := leader] == [a, leader, c];
    cs, es := Go(cs, es, true, [a, leader, c], {}, 1, BroadcastTimer, leader, {SendBack()});
    assert [a, leader, c][1 := leader] == [a, leader, c];
    ns := [a, leader, c];
  }

  lemma WaiterRefuses()
    requires Idle(Waiter())
    ensures var t, c := Handle(Waiter(), Receive(SendBack())), Waiter().pending.value;
            Answered(t, c, false) && t.p.log == Waiter().p.log + [c.entry]
    ensures LeaderSpared(Waiter(), Receive(SendBack()))
  {
    hide Handle, Idle;
    WaiterSends();
    OtherIsPeer(Waiter(), 1);
    assert NodeInv(Waiter()) by { IdleInv(Waiter()); }
    PendingOutcome(Waiter(), Receive(SendBack()), Handle(Waiter(), Receive(SendBack())), Waiter().pending.value);
  }

  lemma IdleInv(s: Node)
    requires Idle(s)
    ensures NodeInv(s)
  {
  }

  /** Under (A), and without a crash: the last step of this run resolves the promise of the pending commit with false,
      and stores its entry. */
  lemma RefusedYetStored() returns (cs: seq<State>, es: seq<Event>, c: Pending)
    ensures SparingRun(cs, es) && |cs| >= 2 && 0 in cs[|cs| - 2].nodes && 0 in Final(cs).nodes
    ensures forall e :: e in es ==> e.Act?
    ensures var before, after := cs[|cs| - 2].nodes[0], Final(cs).nodes[0];
            && before.pending == Some(c)
            && Answered(after, c, false) && after.p.log == before.p.log + [c.entry]
  {
    hide Handle, RunOf, LeaderSpared, Idle, Waiter;
    var cs1, es1, ns := EntrySentBack();
    WaiterSends();
    WaiterRefuses();
    var t := Fresh(Handle(Waiter(), Receive(SendBack())));
    cs, es := Go(cs1, es1, true, ns, {SendBack()}, 0, Receive(SendBack()), t, {});
    c := Waiter().pending.value;
    assert cs[|cs| - 2] == Final(cs1);
    EndLogs(cs, es, true, ns[0 := t], {});
    SparingIsRunOf(cs, es);
  }

  lemma SparingIsRunOf(cs: seq<State>, es: seq<Event>)
    requires RunOf(cs, es, true)
    ensures SparingRun(cs, es)
  {
  }
}
