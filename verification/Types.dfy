/** The values the Raft nodes store and exchange. */
module Types {
  datatype Option<+T> = None | Some(value: T)

  type Byte = x: nat | x < 256

  type NodeId = nat

  type Command = seq<Byte>

  /** An entry of the replicated log; its id is the position it is meant for. */
  datatype LogEntry = LogEntry(id: nat, term: nat, command: Command)

  /** What a restarted process finds again: the part of the context store that is written to the database. */
  datatype Persistent = Persistent(term: nat, votedFor: NodeId, voted: bool, log: seq<LogEntry>)

  /** The requests and replies of the two services.
      A reply to AppendEntries also carries the index of the request it answers, because the client
      side of the service call still holds that request. */
  datatype Message =
    | VoteRequest(src: NodeId, dst: NodeId, term: nat, lastIndex: nat, lastTerm: nat)
    | VoteReply(src: NodeId, dst: NodeId, term: nat, granted: bool)
    | AppendRequest(src: NodeId, dst: NodeId, term: nat, prevIndex: nat, prevTerm: nat,
                    entries: Command, commit: nat)
    | AppendReply(src: NodeId, dst: NodeId, commit: nat, term: nat, success: bool)

  /** Calls a node makes to its user: the commit and revert callbacks and the resolution of a promise. */
  datatype Call =
    | Committed(id: nat, command: Command)
    | Reverted(id: nat)
    | Resolved(promise: nat, id: nat, payload: Option<Command>, result: bool)

  /** Every entry sits at the position its id names. */
  ghost predicate WellIndexed(log: seq<LogEntry>) {
    forall i :: 0 <= i < |log| ==> log[i].id == i
  }
}
