/** A node's view of one other member of the cluster: which entry to send it next. */
module OtherNodes {
  import opened Types
  import opened NodeSpec

  class OtherNode {
    const nodeId: NodeId
    var nextIndex: nat
    var matchIndex: nat

    constructor (nodeId: NodeId, nextIndex: nat)
      ensures this.nodeId == nodeId && View() == Peer(nextIndex, 0)
    {
      this.nodeId := nodeId;
      this.nextIndex := nextIndex;
      matchIndex := 0;
    }

    function View(): Peer
      reads this
    {
      Peer(nextIndex, matchIndex)
    }

    /** Fills in the AppendEntries request, starting from a request whose fields are all zero. */
    method Broadcast(currentTerm: nat, leader: NodeId, newest: Option<LogEntry>, lookUp: nat -> Option<LogEntry>)
      returns (request: Message)
      ensures request == RequestFor(leader, nodeId, currentTerm, nextIndex, newest, lookUp)
    {
      request := AppendRequest(leader, nodeId, currentTerm, 0, 0, [], 0);
      if newest.Some? && newest.value.id >= nextIndex {
        var entry := lookUp(nextIndex);
        if entry.Some? {
          request := request.(entries := entry.value.command, commit := entry.value.id, term := entry.value.term);
        }
      }
      if nextIndex > 0 {
        var entry := lookUp(nextIndex - 1);
        if entry.Some? {
          request := request.(prevIndex := entry.value.id, prevTerm := entry.value.term);
        }
      }
    }

    /** The reply to a request with this index: move on after success, back off after failure. */
    method OnAppendEntriesResponse(commit: nat, success: bool)
      modifies this
      ensures View() == MoveIndex(old(View()), commit, success)
    {
      if success {
        matchIndex := commit;
        nextIndex := matchIndex + 1;
      } else if nextIndex > 0 {
        nextIndex := nextIndex - 1;
      }
    }

    /** Fills in the vote request; the candidate hands over the last entry of its log, and an empty log is announced
        like a log of one entry. */
    method RequestVote(currentTerm: nat, candidate: NodeId, last: Option<LogEntry>, ghost log: seq<LogEntry>)
      returns (request: Message)
      requires last == Last(log)
      ensures request == VoteRequest(candidate, nodeId, currentTerm, LastIndex(log), LastTerm(log))
      ensures WellIndexed(log) ==> request.lastIndex == if |log| <= 1 then 0 else |log| - 1
    {
      request := VoteRequest(candidate, nodeId, currentTerm, 0, 0);
      if last.Some? {
        request := request.(lastIndex := last.value.id, lastTerm := last.value.term);
      }
    }

    method UpdateMatchIndex(matchIndex: nat)
      modifies this
      ensures View() == Peer(matchIndex + 1, matchIndex)
    {
      this.matchIndex := matchIndex;
      nextIndex := matchIndex + 1;
    }
  }
}
