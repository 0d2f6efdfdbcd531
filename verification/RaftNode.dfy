/** A Raft node as the program keeps it: the raft context and its state machine, over a context store and one object
    per other member. Every method is proved against the function of the same purpose in NodeSpec or Tables. */
module RaftNodes {
  import opened Types
  import opened Encoding
  import opened ContextStores
  import opened OtherNodes
  import NodeFacts
  import opened NodeSpec
  import opened Tables

  /** Handling one event may raise another one; the nested event is always of a lower rank. */
  function Rank(e: Event): nat {
    if e.ElectionTimedOut? then 10 else 1
  }

  class RaftNode {
    const nodeId: NodeId
    const ids: set<NodeId>
    const store: ContextStore
    const otherNodes: map<NodeId, OtherNode>
    const clusterSize: nat
    const majority: nat

    var currentState: Role
    var lifecycle: Lifecycle
    var electionTimer: bool
    var broadcastTimer: bool
    var broadcastReceived: bool
    var pendingCommit: Option<Pending>

    /** The callbacks made and the messages sent so far. */
    ghost var calls: seq<Call>
    ghost var sends: set<Message>

    ghost function PeerView(): (view: map<NodeId, Peer>)
      reads otherNodes.Values
      ensures view.Keys == otherNodes.Keys
    {
      map i | i in otherNodes :: otherNodes[i].View()
    }

    /** The node as a value of the specification. */
    ghost function Abs(): Node
      reads this, store, otherNodes.Values
    {
      Node(nodeId, ids, store.P(), store.voteReceived,
           currentState, lifecycle, electionTimer, broadcastTimer, broadcastReceived,
           pendingCommit, PeerView(), store.trail, calls, sends)
    }

    /** What the constructor fixes; the database takes every write. */
    ghost predicate Configured() {
      && store.Healthy()
      && nodeId in ids && otherNodes.Keys == ids - {nodeId}
      && (forall i :: i in ids ==> i < TWO_TO_THE_32)
      && (forall i :: i in otherNodes ==> otherNodes[i].nodeId == i)
      && (forall i, j :: i in otherNodes && j in otherNodes && i != j ==> otherNodes[i] != otherNodes[j])
      && clusterSize == |ids| && majority == clusterSize / 2 + 1
    }

    ghost predicate Valid()
      reads this, store
    {
      && Configured() && store.Synced()
      && store.currentTerm < TWO_TO_THE_64
      && (pendingCommit.Some? ==> pendingCommit.value.entry.term < TWO_TO_THE_64)
    }

    /** The program's counters are 64-bit words; overflow is not modelled. */
    ghost predicate LogFits()
      reads store
    {
      |store.logs| + 1 < TWO_TO_THE_64
    }

    ghost predicate TermFits()
      reads store
    {
      store.currentTerm + 1 < TWO_TO_THE_64
    }

    /** A process that starts: the store reads the database, the peers start behind the loaded log, and the state
        machine leaves Standby. */
    constructor (nodeId: NodeId, clusterNodeIds: seq<NodeId>, contents: Database, accepts: nat -> bool)
      requires nodeId in clusterNodeIds && forall k :: accepts(k)
      requires forall i, j :: 0 <= i < j < |clusterNodeIds| ==> clusterNodeIds[i] != clusterNodeIds[j]
      requires forall i :: i in clusterNodeIds ==> i < TWO_TO_THE_32
      ensures Valid() && fresh(store) && fresh(otherNodes.Values)
      ensures Abs() == Boot(nodeId, IdSet(clusterNodeIds), Reload(contents)).(trail := store.trail)
    {
      hide Reload, LogSize, ContextStore.Synced, OnEvent;
      var s := new ContextStore(contents, accepts);
      var others := NewPeers(nodeId, clusterNodeIds, |s.logs|);
      DistinctIds(clusterNodeIds);
      this.nodeId, ids, store, otherNodes := nodeId, IdSet(clusterNodeIds), s, others;
      clusterSize, majority := |clusterNodeIds|, |clusterNodeIds| / 2 + 1;
      currentState, lifecycle := Standby, Inactive;
      electionTimer, broadcastTimer, broadcastReceived := false, false, false;
      pendingCommit, calls, sends := None, [], {};
      new;
      assert Valid() by { assert Configured(); }
      assert PeerView() == map i | i in this.ids - {nodeId} :: Peer(|store.logs|, 0);
      StartedNode(Abs());
      HandleEvent(Started);
    }

    static method NewPeers(nodeId: NodeId, clusterNodeIds: seq<NodeId>, nextIndex: nat)
      returns (others: map<NodeId, OtherNode>)
      ensures others.Keys == IdSet(clusterNodeIds) - {nodeId}
      ensures forall i :: i in others ==>
                fresh(others[i]) && others[i].nodeId == i && others[i].View() == Peer(nextIndex, 0)
      ensures forall i, j :: i in others && j in others && i != j ==> others[i] != others[j]
    {
      others := map[];
      for k := 0 to |clusterNodeIds|
        invariant others.Keys == IdSet(clusterNodeIds[..k]) - {nodeId}
        invariant forall i :: i in others ==>
                    fresh(others[i]) && others[i].nodeId == i && others[i].View() == Peer(nextIndex, 0)
      {
        if clusterNodeIds[k] != nodeId {
          var other := new OtherNode(clusterNodeIds[k], nextIndex);
          others := others[clusterNodeIds[k] := other];
        }
        assert clusterNodeIds[..k + 1] == clusterNodeIds[..k] + [clusterNodeIds[k]];
      }
      assert clusterNodeIds[..|clusterNodeIds|] == clusterNodeIds;
    }

    // ----- state machine -----

    /** Leaves the current state, enters the next one if the table names one, and runs its entry action. */
    method HandleEvent(e: Event)
      requires Valid() && (e.ElectionTimedOut? ==> TermFits())
      modifies this, store, otherNodes.Values
      ensures Valid() && Abs() == OnEvent(old(Abs()), e)
      decreases Rank(e), 9
    {
      hide Configured, PeerView, ContextStore.Synced, Reload, LogSize;
      hide OnEvent, ReactionTo, Callback, ExitAction, EntryAction;
      TransitionIsOnEvent(Abs(), e);
      var reaction := StateHandle(e);
      if reaction.Stay? {
        return;
      }
      Exit();
      ghost var left := Abs();
      currentState := reaction.role;
      NotifyLifecycle();
      assert Abs() == left.(role := reaction.role, life := LifecycleOf(reaction.role));
      Entry();
    }

    /** The current state's own handling: its callback, then its table. */
    method StateHandle(e: Event) returns (reaction: Reaction)
      requires Valid() && (e.ElectionTimedOut? ==> TermFits())
      modifies this, store, otherNodes.Values
      ensures Valid()
      ensures reaction == ReactionTo(old(currentState), e)
      ensures Abs() == Callback(old(Abs()), e)
      ensures reaction.Enter? ==> Abs() == old(Abs()) && (reaction.role.Candidate? ==> e.ElectionTimedOut?)
      decreases Rank(e), 8
    {
      var table := TableOf(currentState);
      if e !in table {
        return Stay;
      }
      if currentState.Candidate? && e.ElectionTimedOut? {
        StartElection();
      } else if currentState.Leader? && e.BroadcastTimedOut? {
        Broadcast();
      }
      return table[e];
    }

    method Exit()
      requires Valid()
      modifies this
      ensures Valid()
      ensures Abs() == ExitAction(old(Abs()))
    {
      hide Reload, LogSize;
      if currentState.Leader? {
        broadcastTimer := false;
        CancelPendingCommit();
      }
    }

    /** Tells the lifecycle state machine about the new raft state. */
    method NotifyLifecycle()
      modifies `lifecycle
      ensures lifecycle == LifecycleOf(currentState)
    {
      LifecycleFollowsRole(lifecycle, currentState);
      lifecycle := LifecycleNext(lifecycle, LifecycleEventOf(currentState));
    }

    method Entry()
      requires Valid() && (currentState.Candidate? ==> TermFits())
      modifies this, store, otherNodes.Values
      ensures Valid()
      ensures Abs() == EntryAction(old(Abs()))
      decreases if currentState.Candidate? then 10 else 1, 7
    {
      hide Reload, LogSize;
      match currentState
      case Standby => electionTimer := false;
      case Follower => electionTimer := true;
      case Candidate => StartElection();
      case Leader => broadcastTimer := true;
    }

    // ----- elections -----

    method ElectionTimerFired()
      requires Valid() && TermFits()
      modifies this, store, otherNodes.Values
      ensures Valid() && Abs() == NodeSpec.OnElectionTimer(old(Abs()))
    {
      hide Reload, LogSize, NodeSpec.TimedOut;
      if broadcastReceived {
        broadcastReceived := false;
        return;
      }
      HandleEvent(ElectionTimedOut);
    }

    method StartElection()
      requires Valid() && TermFits()
      modifies this, store, otherNodes.Values
      ensures Valid() && Abs() == NodeSpec.StartElection(old(Abs()))
      decreases 10, 6
    {
      hide Configured, PeerView, ContextStore.Synced, Reload, LogSize;
      hide NodeSpec.UpdateTerm, NodeSpec.ResetVote, NodeSpec.VoteForMe, NodeSpec.CheckElected, NodeSpec.VoteRequests;
      IncreaseTerm();
      ResetVote();
      VoteForMe();
      ghost var voted := Abs();
      electionTimer := true;
      NodeFacts.SameVoteRequests(voted, Abs());
      RequestVote();
    }

    method IncreaseTerm()
      requires Valid() && TermFits()
      modifies this, store, otherNodes.Values
      ensures Valid() && Abs() == NodeSpec.UpdateTerm(old(Abs()), old(store.currentTerm) + 1, true)
      decreases 10, 5
    {
      var _ := UpdateTerm(store.currentTerm + 1, true);
    }

    method UpdateTerm(term: nat, self: bool) returns (updated: bool)
      requires Valid() && term < TWO_TO_THE_64
      modifies this, store, otherNodes.Values
      ensures Valid() && Abs() == NodeSpec.UpdateTerm(old(Abs()), term, self)
      ensures updated <==> old(store.currentTerm) < term
      decreases if self then 0 else 2, 0
    {
      assert store.Healthy();
      hide Configured, ContextStore.Synced, Reload, LogSize, NodeSpec.ResetVote, NodeSpec.StepDown;
      if term <= store.currentTerm {
        return false;
      }
      var _ := store.SetCurrentTerm(term);
      assert Abs() == NodeSpec.SetTerm(old(Abs()), term);
      ResetVote();
      if !self {
        HandleEvent(NewTermReceived);
      }
      return true;
    }

    method StoreVotedFor(id: NodeId)
      requires Valid() && id < TWO_TO_THE_32
      modifies store
      ensures Valid() && Abs() == NodeSpec.SetVotedFor(old(Abs()), id)
    {
      hide PeerView, Reload, LogSize;
      var _ := store.SetVotedFor(id);
    }

    method StoreVoted(flag: bool)
      requires Valid()
      modifies store
      ensures Valid() && Abs() == NodeSpec.SetVoted(old(Abs()), flag)
    {
      hide PeerView, Reload, LogSize;
      var _ := store.SetVoted(flag);
    }

    method ResetVote()
      requires Valid()
      modifies store
      ensures Valid() && Abs() == NodeSpec.ResetVote(old(Abs()))
    {
      hide Configured, PeerView, Reload, LogSize, NodeSpec.SetVotedFor, NodeSpec.SetVoted;
      StoreVotedFor(0);
      store.ResetVoteReceived();
      StoreVoted(false);
    }

    method VoteForMe()
      requires Valid()
      modifies store
      ensures Valid() && Abs() == NodeSpec.VoteForMe(old(Abs()))
    {
      assert nodeId < TWO_TO_THE_32;
      hide Configured, PeerView, Reload, LogSize, NodeSpec.SetVotedFor, NodeSpec.SetVoted;
      StoreVotedFor(nodeId);
      StoreVoted(true);
      ghost var voted := Abs();
      store.IncreaseVoteReceived();
      assert Abs() == voted.(votes := voted.votes + 1);
    }

    /** Sends a vote request to every other node, then counts: a cluster of one elects itself here. */
    method RequestVote()
      requires Valid()
      modifies this, store, otherNodes.Values
      ensures Valid() && Abs() == NodeSpec.CheckElected(
                old(Abs()).(sends := old(sends) + NodeSpec.VoteRequests(old(Abs()))))
      decreases 10, 4
    {
      hide Reload, LogSize;
      hide NodeSpec.CheckElected;
      ghost var before := Abs();
      var todo := otherNodes.Keys;
      while todo != {}
        modifies `sends
        invariant todo <= otherNodes.Keys
        invariant sends == before.sends + VoteRequestsTo(before, otherNodes.Keys - todo)
        decreases todo
      {
        var i :| i in todo;
        var request := otherNodes[i].RequestVote(store.currentTerm, nodeId, store.LastLog(), store.logs);
        assert otherNodes.Keys - (todo - {i}) == (otherNodes.Keys - todo) + {i};
        sends := sends + {request};
        todo := todo - {i};
      }
      assert otherNodes.Keys - todo == before.peers.Keys;
      CheckElected();
    }

    method CheckElected()
      requires Valid()
      modifies this, store, otherNodes.Values
      ensures Valid() && Abs() == NodeSpec.CheckElected(old(Abs()))
      decreases 2, 1
    {
      assert majority == |ids| / 2 + 1;
      hide Configured, PeerView, ContextStore.Synced, Reload, LogSize;
      hide Aligned, OnEvent, NodeSpec.Elected;
      if store.voteReceived < majority {
        return;
      }
      var id := if store.LastLog().None? then 0 else store.LastLog().value.id;
      UpdateMatchIndexes(id);
      WinningElects(Abs());
      HandleEvent(WonElection);
    }

    method UpdateMatchIndexes(id: nat)
      requires Valid()
      modifies otherNodes.Values
      ensures Valid()
      ensures Abs() == old(Abs()).(peers := Aligned(old(PeerView()), id))
    {
      hide Reload, LogSize;
      var todo := otherNodes.Keys;
      while todo != {}
        invariant todo <= otherNodes.Keys
        invariant Valid()
        invariant forall i :: i in otherNodes && i !in todo ==> otherNodes[i].View() == Peer(id + 1, id)
        decreases todo
      {
        var i :| i in todo;
        otherNodes[i].UpdateMatchIndex(id);
        todo := todo - {i};
      }
    }

    // ----- commits -----

    method CancelPendingCommit()
      requires Valid()
      modifies this
      ensures Valid() && Abs() == NodeSpec.CancelPending(old(Abs()))
    {
      hide Reload, LogSize;
      var commit := pendingCommit;
      pendingCommit := None;
      if commit.Some? {
        var log := commit.value.entry;
        calls := calls + [Resolved(commit.value.promise, log.id, Some(log.command), false)];
      }
    }

    method PushLog(e: LogEntry) returns (success: bool)
      requires Valid() && LogFits() && e.term < TWO_TO_THE_64
      modifies store
      ensures Valid() && Abs() == NodeSpec.PushLog(old(Abs()), e) && success == Accepts(old(Abs()), e)
    {
      hide Reload, LogSize;
      success := store.PushLog(e);
    }

    method CompleteCommit(promise: nat, e: LogEntry, result: bool)
      requires Valid() && LogFits() && e.term < TWO_TO_THE_64
      modifies this, store
      ensures Valid()
      ensures Abs() ==
                if result then NodeSpec.CompleteCommit(old(Abs()), promise, e)
                else old(Abs()).(calls := old(calls) + [Resolved(promise, e.id, Some(e.command), false)])
    {
      hide Reload, LogSize;
      if result {
        var _ := PushLog(e);
        calls := calls + [Committed(e.id, e.command)];
      }
      calls := calls + [Resolved(promise, e.id, Some(e.command), result)];
    }

    method CancelCommit(promise: nat, id: nat)
      requires Valid()
      modifies this
      ensures Valid() && Abs() == old(Abs()).(calls := old(calls) + [Resolved(promise, id, None, false)])
    {
      calls := calls + [Resolved(promise, id, None, false)];
    }

    /** The pending commit, unless it no longer fits the end of the log; then it is forgotten. */
    method GetPendingCommit() returns (commit: Option<Pending>)
      requires Valid()
      modifies this
      ensures Valid() && Abs() == NodeSpec.GetPending(old(Abs())) && commit == pendingCommit
    {
      if pendingCommit.Some? && pendingCommit.value.entry.id != |store.logs| {
        pendingCommit := None;
      }
      return pendingCommit;
    }

    method SetPendingCommit(commit: Pending) returns (ok: bool)
      requires Valid() && commit.entry.term < TWO_TO_THE_64
      modifies this
      ensures Valid() && ok == (commit.entry.id == |store.logs| && NodeSpec.Free(old(Abs())))
      ensures Abs() == if ok then old(Abs()).(pending := Some(commit)) else old(Abs())
    {
      if commit.entry.id != |store.logs| {
        return false;
      }
      if pendingCommit.Some? && pendingCommit.value.entry.id == |store.logs| {
        return false;
      }
      pendingCommit := Some(commit);
      return true;
    }

    method CommitCommand(command: Types.Command, promise: nat)
      requires Valid() && LogFits()
      modifies this, store
      ensures Valid() && Abs() == NodeSpec.Submit(old(Abs()), command, promise)
    {
      if !currentState.Leader? {
        CancelCommit(promise, |store.logs|);
        return;
      }
      var log := LogEntry(|store.logs|, store.currentTerm, command);
      if clusterSize <= 1 {
        CompleteCommit(promise, log, true);
        return;
      }
      var ok := SetPendingCommit(Pending(log, promise, map[]));
      if !ok {
        CancelCommit(promise, log.id);
      }
    }

    method Broadcast()
      requires Valid()
      modifies this
      ensures Valid() && Abs() == NodeSpec.Broadcast(old(Abs()))
    {
      hide ContextStore.Synced, NodeSpec.Broadcast, RequestsTo, LookUp, Reload, LogSize;
      var pending := GetPendingCommit();
      var newest := if pending.Some? then Some(pending.value.entry) else store.LastLog();
      var logs := store.logs;
      ghost var before := Abs();
      BroadcastIs(old(Abs()));
      NoRequests(before);
      assert otherNodes.Keys - otherNodes.Keys == {};
      var todo := otherNodes.Keys;
      while todo != {}
        modifies `sends
        invariant todo <= otherNodes.Keys
        invariant sends == before.sends + RequestsTo(before, otherNodes.Keys - todo)
        decreases todo
      {
        var i :| i in todo;
        var request := otherNodes[i].Broadcast(store.currentTerm, nodeId, newest,
                                               (id: nat) => NodeSpec.LookUp(pending, logs, id));
        assert request == RequestTo(before, i);
        RequestsGrow(before, otherNodes.Keys - todo, i);
        assert otherNodes.Keys - (todo - {i}) == (otherNodes.Keys - todo) + {i};
        sends := sends + {request};
        todo := todo - {i};
      }
      assert otherNodes.Keys - todo == before.peers.Keys;
    }

    // ----- requests from other nodes -----

    method OnRequestVoteRequested(m: Message)
      requires Valid() && m.VoteRequest? && m.term < TWO_TO_THE_64
      modifies this, store, otherNodes.Values
      ensures Valid() && Abs() == NodeSpec.OnVoteRequest(old(Abs()), m)
    {
      hide Configured, PeerView, ContextStore.Synced, Reload, LogSize, NodeSpec.UpdateTerm, NodeSpec.Vote, Grants;
      if m.src !in otherNodes {
        sends := sends + {VoteReply(nodeId, m.src, 0, false)};
        return;
      }
      var _ := UpdateTerm(m.term, false);
      var term, granted := Vote(m.term, m.src, m.lastIndex);
      sends := sends + {VoteReply(nodeId, m.src, term, granted)};
    }

    method Vote(term: nat, id: NodeId, lastIndex: nat) returns (currentTerm: nat, granted: bool)
      requires Valid() && id in otherNodes
      modifies store
      ensures Valid() && Abs() == NodeSpec.Vote(old(Abs()), term, id, lastIndex)
      ensures currentTerm == old(store.currentTerm) && granted == NodeSpec.Grants(old(Abs()), term, lastIndex)
    {
      assert id < TWO_TO_THE_32;
      hide Configured, PeerView, Reload, LogSize, NodeSpec.SetVotedFor, NodeSpec.SetVoted;
      granted := false;
      var log := store.LastLog();
      currentTerm := store.currentTerm;
      if term >= currentTerm {
        if !store.voted && (log.None? || log.value.id <= lastIndex) {
          StoreVotedFor(id);
          StoreVoted(true);
          granted := true;
        }
      }
    }

    method OnAppendEntriesRequested(m: Message)
      requires Valid() && LogFits() && m.AppendRequest? && m.term < TWO_TO_THE_64
      modifies this, store, otherNodes.Values
      ensures Valid() && Abs() == NodeSpec.OnAppendRequest(old(Abs()), m)
    {
      hide Configured, PeerView, ContextStore.Synced, Reload, LogSize, NodeSpec.Follow, NodeSpec.StoreEntries;
      if m.src !in otherNodes {
        sends := sends + {AppendReply(nodeId, m.src, m.commit, 0, false)};
        return;
      }
      var term := store.currentTerm;
      FollowLeader(m);
      var success := StoreEntries(m);
      sends := sends + {AppendReply(nodeId, m.src, m.commit, term, success)};
    }

    method FollowLeader(m: Message)
      requires Valid() && m.AppendRequest? && m.term < TWO_TO_THE_64
      modifies this, store, otherNodes.Values
      ensures Valid() && Abs() == NodeSpec.Follow(old(Abs()), m) && store.logs == old(store.logs)
    {
      hide Configured, ContextStore.Synced, NodeSpec.UpdateTerm, NodeSpec.StepDown, Reload, LogSize;
      FollowKeepsLog(Abs(), m);
      if m.term >= store.currentTerm {
        var _ := UpdateTerm(m.term, false);
        broadcastReceived := true;
        HandleEvent(LeaderDiscovered);
      }
    }

    method StoreEntries(m: Message) returns (success: bool)
      requires Valid() && LogFits() && m.AppendRequest? && m.term < TWO_TO_THE_64
      modifies this, store
      ensures Valid() && (Abs(), success) == NodeSpec.StoreEntries(old(Abs()), m)
    {
      if |m.entries| == 0 {
        return false;
      }
      if m.commit == 0 {
        success := RequestLocalCommit(m);
        return;
      }
      var log := store.Log(m.prevIndex);
      if log.None? {
        success := false;
      } else if log.value.term != m.prevTerm {
        RequestLocalRollback(log.value.id);
        success := false;
      } else {
        success := RequestLocalCommit(m);
      }
    }

    method RequestLocalCommit(m: Message) returns (success: bool)
      requires Valid() && LogFits() && m.AppendRequest? && m.term < TWO_TO_THE_64
      modifies this, store
      ensures Valid() && (Abs(), success) == NodeSpec.LocalCommit(old(Abs()), m)
    {
      hide Configured, PeerView, ContextStore.Synced, Reload, LogSize, NodeSpec.RevertLog;
      var last := store.LastLog();
      if last.Some? {
        if last.value.id == m.commit && last.value.term == m.term {
          return true;
        }
        if last.value.id >= m.commit {
          RequestLocalRollback(m.commit);
          calls := calls + [Reverted(m.commit)];
        }
      }
      assert Abs() == NodeSpec.MakeRoom(old(Abs()), m);
      var log := LogEntry(m.commit, m.term, m.entries);
      success := PushLog(log);
      if success {
        calls := calls + [Committed(log.id, log.command)];
      }
    }

    method RequestLocalRollback(id: nat)
      requires Valid()
      modifies store
      ensures Valid() && Abs() == NodeSpec.RevertLog(old(Abs()), id) && |store.logs| <= |old(store.logs)|
    {
      hide Reload, LogSize;
      var _ := store.RevertLog(id);
    }

    // ----- replies from other nodes -----

    method OnRequestVoteResponse(m: Message)
      requires Valid() && m.VoteReply? && m.term < TWO_TO_THE_64
      modifies this, store, otherNodes.Values
      ensures Valid() && Abs() == NodeSpec.OnVoteReply(old(Abs()), m)
    {
      hide Reload, LogSize, NodeSpec.StepDown, NodeSpec.CheckElected;
      if m.term < store.currentTerm {
        return;
      }
      var updated := UpdateTerm(m.term, false);
      if updated {
        return;
      }
      if !m.granted {
        return;
      }
      store.IncreaseVoteReceived();
      CheckElected();
    }

    method OnAppendEntriesResponse(m: Message)
      requires Valid() && LogFits() && m.AppendReply? && m.term < TWO_TO_THE_64
      modifies this, store, otherNodes.Values
      ensures Valid() && Abs() == NodeSpec.OnAppendReply(old(Abs()), m)
    {
      hide Reload, LogSize;
      if m.src !in otherNodes {
        return;
      }
      otherNodes[m.src].OnAppendEntriesResponse(m.commit, m.success);
      assert PeerView() == old(PeerView())[m.src := MoveIndex(old(PeerView())[m.src], m.commit, m.success)];
      OnBroadcastResponse(m.src, m.commit, m.term, m.success);
    }

    method OnBroadcastResponse(id: NodeId, commit: nat, term: nat, success: bool)
      requires Valid() && LogFits() && term < TWO_TO_THE_64
      modifies this, store, otherNodes.Values
      ensures Valid()
      ensures Abs() == NodeSpec.Tally(NodeSpec.UpdateTerm(old(Abs()), term, false), id, commit, term, success)
    {
      hide Reload, LogSize;
      if term >= store.currentTerm {
        var _ := UpdateTerm(term, false);
      }
      HandlePendingCommitResponse(id, commit, term, success);
    }

    /** Records the answer; a majority of peers whose latest answer equals this one completes the commit. */
    method HandlePendingCommitResponse(id: NodeId, commit: nat, term: nat, success: bool)
      requires Valid() && LogFits()
      modifies this, store
      ensures Valid() && Abs() == NodeSpec.Tally(old(Abs()), id, commit, term, success)
    {
      hide Configured, ContextStore.Synced, Reload, LogSize, NodeSpec.Tally, NodeSpec.CompleteCommit;
      var completed := RecordResponse(id, commit, term, success);
      if completed.Some? {
        CompleteCommit(completed.value.promise, completed.value.entry, true);
      }
    }

    /** The part under the lock: takes the pending commit away if it is complete. */
    method RecordResponse(id: NodeId, commit: nat, term: nat, success: bool) returns (completed: Option<Pending>)
      requires Valid()
      modifies this
      ensures Valid() && (completed.Some? ==> completed.value.entry.term < TWO_TO_THE_64)
      ensures var tallied := NodeSpec.Tally(old(Abs()), id, commit, term, success);
              match completed
              case None => Abs() == tallied
              case Some(c) =>
                Abs() == old(Abs()).(pending := None)
                && tallied == NodeSpec.CompleteCommit(Abs(), c.promise, c.entry)
    {
      assert majority == |ids| / 2 + 1;
      hide Configured, Agreeing, PeerView, NodeSpec.CompleteCommit, ContextStore.Synced, Reload, LogSize;
      if pendingCommit.None? {
        return None;
      }
      var pending := pendingCommit.value;
      if pending.entry.id != commit || pending.entry.term != term {
        return None;
      }
      var results := pending.results[id := success];
      pendingCommit := Some(pending.(results := results));
      var successCount := CountAgreeing(results, success);
      assert Abs().peers.Keys == otherNodes.Keys;
      if successCount < majority {
        return None;
      }
      pendingCommit := None;
      return Some(pending);
    }

    method CountAgreeing(results: map<NodeId, bool>, flag: bool) returns (count: nat)
      ensures count == 1 + |Agreeing(otherNodes.Keys, results, flag)|
    {
      count := 1;
      var todo := otherNodes.Keys;
      assert Agreeing(otherNodes.Keys - todo, results, flag) == {};
      while todo != {}
        invariant todo <= otherNodes.Keys
        invariant count == 1 + |Agreeing(otherNodes.Keys - todo, results, flag)|
        decreases todo
      {
        var i :| i in todo;
        ghost var done := otherNodes.Keys - todo;
        assert otherNodes.Keys - (todo - {i}) == done + {i};
        OneMore(done, i, results, flag);
        if i in results {
          if results[i] == flag {
            count := count + 1;
          }
        }
        todo := todo - {i};
      }
      assert otherNodes.Keys - todo == otherNodes.Keys;
    }

    // ----- one step -----

    /** The numbers a message carries are 64-bit words. */
    ghost predicate Fits(input: Input)
      reads store
    {
      && LogFits() && TermFits()
      && (input.Receive? ==> input.message.term < TWO_TO_THE_64)
    }

    /** The program handles every input as the model of the cluster says; the records of calls, messages and writes
        start anew with each input. */
    method Handle(input: Input)
      requires Valid() && Fits(input)
      modifies this, store, otherNodes.Values
      ensures Valid() && Abs() == NodeSpec.Handle(old(Abs()), input)
    {
      hide Configured, PeerView, Reload, LogSize;
      hide NodeSpec.OnElectionTimer, NodeSpec.Broadcast, NodeSpec.Submit, NodeSpec.OnVoteRequest;
      hide NodeSpec.OnVoteReply, NodeSpec.OnAppendRequest, NodeSpec.OnAppendReply;
      calls, sends, store.trail := [], {}, [];
      assert Abs() == Fresh(old(Abs()));
      match input
      case ElectionTimer => ElectionTimerFired();
      case BroadcastTimer => HandleEvent(BroadcastTimedOut);
      case Command(command, promise) => CommitCommand(command, promise);
      case Receive(m) =>
        match m
        case VoteRequest(_, _, _, _, _) => OnRequestVoteRequested(m);
        case VoteReply(_, _, _, _) => OnRequestVoteResponse(m);
        case AppendRequest(_, _, _, _, _, _, _) => OnAppendEntriesRequested(m);
        case AppendReply(_, _, _, _, _) => OnAppendEntriesResponse(m);
    }
  }

  lemma StartedNode(s: Node)
    requires s.role.Standby? && s.life.Inactive? && !s.electionArmed && !s.broadcastArmed && !s.heard
    requires s.votes == 0 && s.pending.None? && s.calls == [] && s.sends == {}
    requires s.peers == map i | i in s.ids - {s.me} :: Peer(|s.p.log|, 0)
    ensures OnEvent(s, Started) == Boot(s.me, s.ids, s.p).(trail := s.trail)
  {
  }

  lemma FollowKeepsLog(s: Node, m: Message)
    requires m.AppendRequest?
    ensures Follow(s, m).p.log == s.p.log
  {
    hide StepDown;
    StepDownKeepsStore(ResetVote(SetTerm(s, m.term)));
    StepDownKeepsStore(UpdateTerm(s, m.term, false).(heard := true));
  }

  lemma StepDownKeepsStore(s: Node)
    ensures StepDown(s).p == s.p
  {
  }

  lemma WinningElects(s: Node)
    ensures OnEvent(s, WonElection) == Elected(s)
  {
  }

  lemma OneMore(done: set<NodeId>, i: NodeId, results: map<NodeId, bool>, flag: bool)
    requires i !in done
    ensures |Agreeing(done + {i}, results, flag)|
            == |Agreeing(done, results, flag)| + if i in results && results[i] == flag then 1 else 0
  {
    var before, after := Agreeing(done, results, flag), Agreeing(done + {i}, results, flag);
    assert after == if i in results && results[i] == flag then before + {i} else before;
  }

  /** The vote requests to some of the peers. */
  function VoteRequestsTo(s: Node, who: set<NodeId>): set<Message> {
    set i | i in who :: VoteRequest(s.me, i, s.p.term, LastIndex(s.p.log), LastTerm(s.p.log))
  }

  /** The append requests to some of the peers. */
  function RequestsTo(s: Node, who: set<NodeId>): set<Message>
    requires who <= s.peers.Keys
  {
    set i | i in who :: RequestTo(s, i)
  }

  lemma NoRequests(s: Node)
    ensures RequestsTo(s, {}) == {}
  {
  }

  lemma RequestsGrow(s: Node, done: set<NodeId>, i: NodeId)
    requires done <= s.peers.Keys && i in s.peers
    ensures RequestsTo(s, done + {i}) == RequestsTo(s, done) + {RequestTo(s, i)}
  {
  }

  lemma BroadcastIs(s: Node)
    ensures var t := GetPending(s);
            NodeSpec.Broadcast(s) == t.(sends := t.sends + RequestsTo(t, t.peers.Keys))
  {
  }

  function IdSet(ids: seq<NodeId>): set<NodeId> {
    set i | i in ids
  }

  lemma {:induction false} DistinctIds(ids: seq<NodeId>)
    requires forall i, j :: 0 <= i < j < |ids| ==> ids[i] != ids[j]
    ensures |IdSet(ids)| == |ids|
  {
    if ids != [] {
      var init, last := ids[..|ids| - 1], ids[|ids| - 1];
      DistinctIds(init);
      assert ids == init + [last];
      assert IdSet(ids) == IdSet(init) + {last};
      assert last !in IdSet(init);
    }
  }
}
