# FOROS Raft: a verified model

FOROS builds an active-standby cluster of ROS 2 nodes on a small variant of Raft. This project models the Raft core
under `foros/src/raft`, the state machines around it and the database it restarts from, and proves what the protocol
keeps over whole runs. The properties are those of sections 5.2 and 5.3 of "In Search of an Understandable Consensus
Algorithm (Extended Version)" by Ongaro and Ousterhout, for the code as it is, which differs from that paper in many
branches.

`dafny verify dfyconfig.toml` checks everything.

## Layout

| file | content |
|---|---|
| `Types.dfy`, `NodeSpec.dfy` | the values, and one function per handler of a node: `Handle(state, input)` is one step |
| `RaftNode.dfy`, `OtherNode.dfy`, `ContextStore.dfy` | the program: three classes that change their fields in place, each method proved equal to its function; `RaftNode.Handle` is proved equal to `NodeSpec.Handle` |
| `StepLaws.dfy`, `StepTheorems.dfy` | the whole outcome of every input in closed form, proved of `Handle`; and what it means for clients, users, leadership, terms and votes |
| `Tables.dfy` | the transition tables and the generic state machine |
| `Encoding.dfy` | database keys and byte encodings |
| `NodeFacts.dfy` | what one step can do to terms, votes, log, pending commit, messages and the database |
| `Cluster.dfy`, `Runs.dfy` | the cluster as a transition system, with runs, crashes and a history that no step reads; continuing a run |
| `Elections.dfy`, `ElectionTheorems.dfy`, `Quorums.dfy` | votes, terms, leaders |
| `Logs.dfy`, `Provenance.dfy`, `LogMatching.dfy`, `DelayedRequests.dfy` | the logs |
| `Replication.dfy`, `Acknowledgements.dfy`, `Convergence.dfy` | the AppendEntries contract, what a success says, and the back-off of `next_index` |
| `Replies.dfy`, `Tallies.dfy`, `Replay.dfy`, `Stretches.dfy` | promises, the success tally, the commit and revert callbacks, for one node; and stretches of a cluster run without a crash of the node as runs of that node |
| `Scenarios.dfy` | runs of three nodes, built step by step from the initial state, for the cases the theorems except |

## How the system is modelled

- A **node** holds what the program holds: the stored term, vote and log, the counter of received votes, the raft and
  lifecycle states, the armed timers, the pending commit and the indexes of every peer. A handler is one step. It
  records the callbacks it makes, the messages it sends and, after every database write, what a restart would load.
- A **cluster** has a fixed set of node ids. A step is a node handling an input (a timer, a client command, or a
  message on its way to it), a crash between two handlers, or a crash inside a handler after any number of its
  database writes. A restarted node is `Boot` of what was stored. Messages can be lost, delayed, reordered and
  repeated without limit; only a granted vote is consumed once, since the client library answers each request once
  and `vote_received` is a bare counter. Every handler sends its messages after its last database write, so an
  interrupted handler sends nothing.
- The **database** is a map from string keys to byte strings, changed by single atomic puts.

Assumption **(A)**, used only where a row says so (`LeaderSpared`, `SparingRun`): a request of an older term that
would change the log does not reach a node that leads. The handler stores entries even after it found the term too old
(`foros/src/raft/context.cpp:170-200`). `DelayedRequests.LeaderRewritten` proves that these are exactly the requests
that change the log of a leader that stays leader, and `Scenarios.DelayedRequestSplitsLogs` is a run in which one of
them breaks Log Matching. Old requests that change nothing, and steps that a crash cuts off, are not restricted.

Every put succeeds or the process stops, except in `ContextStore`, where `PushLog` handles a failing put. Terms, ids
and log sizes fit their 64- and 32-bit words (`Fits` in `RaftNode`).

## What the proofs show about the code

- The request carries the term of the entry, not of the leader (`foros/src/raft/other_node.cpp:87`), against its own
  message definition. This is why (A) is needed, and why a leader can receive its own pending entry back from a later
  leader: its promise is then resolved with false in the very step that stores the entry. `Scenarios.RefusedYetStored`
  is a run, under (A) and without a crash, in which this happens. `result == true` therefore means stored by the
  tally, and `Replies.PendingOutcome` states exactly when the log grows without it.
- A vote ignores the term of the last entry, and an empty log is announced like a log of one entry
  (`foros/src/raft/context.cpp:316-325`, `foros/src/raft/other_node.cpp:144`): `Quorums.GrantRule` gives the exact
  rule on lengths.
- A heartbeat is always refused, and the refusal moves `next_index` back; `Convergence.Converges` bounds the rounds
  with that branch in place.
- A majority of refusals completes a pending commit as a majority of successes does (`Tallies.CompletedByLatest`), and
  a reply counts for a pending entry by its index and the replier's term alone. A heartbeat names index 0, so its
  refusal counts for the first entry: `Scenarios.FirstCommandUnstored` is a run in which the first command of a cluster
  of three is answered with true while no other node has stored anything. What a counted success does say is
  `Acknowledgements.CountedSuccessStored`.
- Without (A) a promise can be dropped unanswered: `Scenarios.PromiseDropped` ends in such a step, and
  `Replies.StepConserves` names all steps that do so. A commit that no longer fits the log can also be completed,
  notified and answered with true without being stored: `Scenarios.CommitUnstored` ends in such a step, and
  `Replay.UnfitCommitMisleads` says what an observer then has.

## Model

| member | source | states |
|---|---|---|
| ElectionTheorems.ElectionSafety | foros/src/raft/context.cpp:310-413 | in any run, with loss, reordering and crashes between any two writes, two nodes that are ever leader of one term are the same node |
| ElectionTheorems.OneLeaderPerTerm | foros/src/raft/context.cpp:397-413 | two recorded leaders of one term are the same, because their supporting majorities meet in a node that voted once |
| ElectionTheorems.QuorumsMeet | foros/src/raft/context.cpp:134-137 | two sets of at least size / 2 + 1 members share a member |
| ElectionTheorems.TermWonOnce | foros/src/raft/context.cpp:397-413 | at most one step of a run wins a term, even for the same node |
| ElectionTheorems.TermsRise | foros/src/raft/context.cpp:144-157 | between any two moments of a run the term of a node does not decrease, crashes included |
| ElectionTheorems.LeadershipKeepsTerm | foros/src/raft/context.cpp:144-157 | a node that stays leader keeps one term |
| ElectionTheorems.OneVotePerTerm | foros/src/raft/context.cpp:310-339 | in any run a node votes, or counts its own vote, in at most one step of a term and for one candidate, whichever writes a crash cuts off |
| ElectionTheorems.ClusterOfOneElects | foros/src/raft/context.cpp:366-374 | a run in which a node votes and wins exists: a cluster of one elects itself in its first election |
| ElectionTheorems.VotesAreDistinct | foros/src/raft/context.cpp:376-395 | `vote_received` never exceeds the number of distinct nodes that voted for this node in its current term |
| ElectionTheorems.ActiveNodesDiffer | foros/src/cluster_node_impl.cpp:86-110 | in every reachable state a node is active exactly when it leads, its timers are armed as its state wants, and two active nodes have different terms |
| Elections.NewBallot | foros/src/raft/context.cpp:310-333 | a step casts at most one vote, in a term the node has not voted in |
| Elections.NewlyCounted | foros/src/raft/context.cpp:376-395 | a reply that raises the counter is from a voter that was not counted before |
| Elections.RunElection | foros/src/raft/context.cpp:234-413 | votes, counters and leaders fit together in every reachable state |
| Quorums.GrantRule | foros/src/raft/context.cpp:316-333 | a vote is granted exactly when the term is not old, no vote was given, and the voter's log is at most max(1, candidate's length) long |
| Quorums.ElectedByRestrictedQuorum | foros/src/raft/other_node.cpp:133-156 | every leader has a majority of supporters, itself among them, and each other supporter's log, when it granted, was at most max(1, length of the leader's log when it asked) long |
| LogMatching.LogMatching | foros/src/raft/context.cpp:159-228 | under (A), logs of any two nodes at the same or at two different moments of a run with the same term at index i are identical on 0..i, commands included |
| LogMatching.LeaderAppendOnly | foros/src/raft/context.cpp:445-469 | under (A), as long as a node leads, its earlier logs are prefixes of its later ones |
| LogMatching.SameTermSamePrefix | foros/src/raft/context.cpp:445-469 | unique creations with a fixed predecessor term force equal prefixes |
| LogMatching.RunMatch | foros/src/raft/context.cpp:159-228 | under (A) every log entry, pending entry and request in a reachable state fits a unique creation |
| NodeFacts.ChangeRule | foros/src/raft/context.cpp:178-228 | a request changes a log exactly when it carries an entry and conflicts with the log or finds a new place in it |
| DelayedRequests.LeaderRewritten | foros/src/raft/context.cpp:170-200 | a leader stays leader with another log exactly when a request that changes its log is from a member and of an older term |
| DelayedRequests.OldRequestSplitsLogs | foros/src/raft/context.cpp:170-200 | from any leader and follower of three with equal logs: one old request that conflicts with the last entry, one command and one round leave the same term and different commands at one index |
| Scenarios.DelayedRequestSplitsLogs | foros/src/raft/context.cpp:170-200 | without (A) Log Matching fails: a run of three nodes from the initial state, without a crash, that ends with the same term and different commands at index 0 |
| Provenance.EntriesComeFromLeader | foros/src/raft/context.cpp:445-469 | without (A): an entry in any log, pending slot or request was made by an earlier commit_command step on the only node that ever leads its term |
| Provenance.TermsSorted | foros/src/raft/other_node.cpp:81-98 | without (A): terms do not decrease along a log or exceed the node's term; a request at index k > 0 names k - 1 and a term no later than its own |
| Logs.StepOrdered | foros/src/raft/context.cpp:178-228 | a step keeps a log sorted and bounded |
| Logs.RunLog | foros/src/raft/context.cpp:159-228 | elections, sorted logs and provenance hold together in every reachable state |
| Replication.AcceptanceRule | foros/src/raft/context.cpp:178-228 | success exactly when there is an entry, its predecessor is found (or the index is 0) and its index is at most the log's length |
| Replication.FollowerContract | foros/src/raft/context.cpp:178-228 | for any request: success leaves a log that ends at the request's index and term and is unchanged below; failure leaves a prefix |
| Replication.Redelivery | foros/src/raft/context.cpp:178-228 | a request that succeeded succeeds again, changing nothing, exactly when its predecessor lies below it or is the entry itself |
| Convergence.RoundDelivers | foros/src/raft/other_node.cpp:61-131 | the messages of a synchronous round are ones the two nodes send |
| Convergence.RoundEffect | foros/src/raft/other_node.cpp:61-131 | one round moves `next_index` down by one until the logs match there, and then up by one with one more entry stored |
| Convergence.Climb | foros/src/raft/other_node.cpp:112-130 | from a match at x, exactly size - x rounds reach the end of the leader's log |
| Convergence.Converges | foros/src/raft/other_node.cpp:61-131 | from any `next_index` and any follower log, within `next_index` + size rounds the follower has as many entries and the same last term, and the same log if the two agreed wherever their terms did |
| Convergence.ConvergesInCluster | foros/src/raft/other_node.cpp:61-131 | from any moment of a run with a stable leader the run can go on, by the leader's broadcast timer and messages between the two alone, for at most `next_index` + size rounds, and end with both logs equally long with the same last term; equal if the run was under (A) |
| Replies.StepConserves | foros/src/raft/context.cpp:415-519 | for any input a promise that is submitted or open is afterwards resolved once or open, except in the steps named by `Forgets` |
| Replies.PendingOutcome | foros/src/raft/context.cpp:521-568 | under (A) the pending commit stays or its promise is resolved exactly once; the log grows by the entry exactly when it is resolved with true or a later leader brings the entry back |
| Scenarios.RefusedYetStored | foros/src/raft/context.cpp:168-228 | a run from the initial state, under (A) and without a crash, whose last step resolves a promise with false and stores its entry |
| Replies.ResolvedAtMostOnce | foros/src/raft/context.cpp:415-519 | without (A): over any run of a node a promise is not resolved more often than it was submitted |
| Replies.PromisesConserved | foros/src/raft/context.cpp:415-519 | under (A): over any run every submitted promise is resolved or the open one, and nothing is lost |
| Replies.PendingOnLeader | foros/src/raft/context.cpp:471-519 | a pending commit implies leader of the entry's term; under (A) its id is the size of the log |
| Stretches.StretchIsNodeRun | foros/src/raft/context.cpp:144-568 | the steps of one node between two moments of a cluster run without a crash of it are a run of that node, and under (A) a run under (A) |
| Stretches.PromisesInCluster | foros/src/raft/context.cpp:415-519 | under (A), between any two such moments of a cluster run every promise the node had open or was given is resolved once or open |
| Stretches.ObserverInCluster | foros/src/raft/context.cpp:202-232 | under (A), between any two such moments an observer of the callbacks has a list that the node's log is a prefix of, and equals after a step with a commit notification |
| Replies.OldRequestLosesPromise | foros/src/raft/context.cpp:471-483 | without (A): any old request that conflicts with a leader's log cuts it, and the next broadcast drops the pending commit without an answer |
| Scenarios.PromiseDropped | foros/src/raft/context.cpp:471-483 | without (A): a run from the initial state, without a crash, whose last step drops a pending commit of a node that goes on leading, without any call |
| Tallies.ResultsStep | foros/src/raft/context.cpp:528-554 | one input changes only the sender's answer of a pending commit; a reply that counts for it, by index and term, completes it exactly when size / 2 + 1 answers, the leader's included, equal it |
| Tallies.ResultsAreLatest | foros/src/raft/context.cpp:528-546 | over any run the recorded answers are each peer's latest reply with the entry's index and term since the command was accepted, whatever request it replied to |
| Tallies.CompletedByLatest | foros/src/raft/context.cpp:528-558 | a reply that counts for the entry completes it exactly when, with the leader, size / 2 + 1 distinct nodes last gave the same answer among the replies that count |
| Tallies.HeartbeatCounts | foros/src/raft/other_node.cpp:70-98 | the refusal of a heartbeat counts for a pending entry at index 0 of the replier's term |
| Tallies.FirstCommandOnRefusal | foros/src/raft/context.cpp:528-558 | in a cluster of three any one reply that counts for the first entry completes it with true |
| Scenarios.FirstCommandUnstored | foros/src/raft/context.cpp:528-558 | a run under (A) in which the first command is answered with true while the logs of the two other nodes are empty |
| Acknowledgements.SuccessTold | foros/src/raft/context.cpp:178-228 | in any run every success on its way was sent by a peer that handled a request with an entry for its index in the replied term, and whose log then ended at that index with the request's term |
| Acknowledgements.RequestNotAhead | foros/src/raft/other_node.cpp:81-89 | in any run no request carries an entry of a later term than its sender has reached |
| Acknowledgements.PendingStoredBefore | foros/src/raft/context.cpp:445-469 | under (A) a log that ever ended with the index and term of an entry pending now was the leader's log with that entry behind it |
| Acknowledgements.CountedSuccessStored | foros/src/raft/context.cpp:528-558 | under (A) a success that counts for the pending entry told of an entry of that term or an earlier one, and if of that term, of exactly the leader's log with the pending entry behind it |
| Acknowledgements.AnswersReceived | foros/src/raft/context.cpp:528-546 | in any run every answer recorded for a pending commit was received from that peer for that index and term |
| Acknowledgements.CommitAcknowledged | foros/src/raft/context.cpp:528-558 | under (A), when a success completes the pending commit, at least majority - 1 distinct peers each handled a request for its index in its term, and those whose request had the entry's term then held exactly the leader's log with the entry behind it |
| Replay.StepWatched | foros/src/raft/context.cpp:202-232 | in one step, for any message but a reply that completes a pending commit which does not fit the log (possible only without (A)), the log stays a prefix of the observer's list and equals it after a commit notification |
| Replay.UnfitCommitMisleads | foros/src/raft/context.cpp:415-431 | such a reply notifies an entry that is not stored; the observer still has the log as a prefix exactly when the notification lies beyond the log or repeats its last command |
| Scenarios.CommitUnstored | foros/src/raft/context.cpp:415-431 | without (A): a run from the initial state, without a crash, whose last step notifies a commit and answers it with true while the log stays empty |
| Replay.ObserverFollows | foros/src/raft/context.cpp:612-624 | under (A), over any run, an observer that only listens to the callbacks has a list that the log is a prefix of, and equals after every step with a commit notification |
| StepLaws.HandleLaw | foros/src/raft/context.cpp:144-568 | for any input the state afterwards, the callbacks, the messages and the database writes are those of one closed form over the state before and the message, which uses none of the handlers |
| StepLaws.TimerLaw | foros/src/raft/context.cpp:260-266 | the election timer starts a campaign exactly on a follower or candidate that has not heard from a leader; otherwise it only clears that mark |
| StepLaws.CampaignLaw | foros/src/raft/state/candidate.cpp:44-50 | a campaign: the next term, the own vote, seven database writes, one request per peer; won at once exactly if one vote is a majority |
| StepLaws.CountLaw | foros/src/raft/context.cpp:397-413 | size / 2 + 1 votes align every peer to the last entry, and make a candidate leader; fewer change nothing |
| StepLaws.UpdateLaw | foros/src/raft/context.cpp:144-157 | a newer term: vote and counter cleared in three writes, no leadership, the pending commit refused |
| StepLaws.BroadcastLaw | foros/src/raft/context.cpp:347-364 | a leader sends every peer the entry at its next index, of the log with the pending entry behind it, or a heartbeat; other nodes send nothing |
| StepLaws.RequestLaw | foros/src/raft/other_node.cpp:61-103 | the request for a peer, field by field, from that offered log |
| StepLaws.CommandLaw | foros/src/raft/context.cpp:445-469 | a command is refused, completed at once in a cluster of one, or becomes the pending commit; nothing else changes |
| StepLaws.VoteRequestLaw | foros/src/raft/context.cpp:234-246 | the whole effect of a vote request, from a member or not |
| StepLaws.VoteReplyLaw | foros/src/raft/context.cpp:376-395 | the whole effect of a vote reply: newer, older, refused, counted, winning |
| StepLaws.AppendRequestLaw | foros/src/raft/context.cpp:159-200 | the whole effect of a request: the sender is followed unless its term is old, the log is changed in any case, the answer carries the term before |
| StepLaws.StoreLaw | foros/src/raft/context.cpp:178-228 | what a request makes of any log: the new log, every log a restart could load on the way, the callbacks and the answer |
| StepLaws.AppendReplyLaw | foros/src/raft/context.cpp:521-568 | the whole effect of a reply: the peer's index, a newer term, the recorded answer, the completion at size / 2 + 1 equal answers |
| StepTheorems.RefusedCommand | foros/src/raft/context.cpp:433-467 | a command that is not accepted is answered with false and no payload in the same step, and nothing else happens |
| StepTheorems.AnsweredTrue | foros/src/raft/context.cpp:415-443 | a promise is answered with true exactly when the leader of a cluster of one takes its command, or a reply brings the answers equal to it, with the leader, to size / 2 + 1 for its pending commit |
| StepTheorems.IdleTimer | foros/src/raft/context.cpp:260-266 | the election timer, which stays armed on a leader, changes nothing of a leader or of a node that heard from one but the mark |
| StepTheorems.LeadershipEnds | foros/src/raft/state/leader.hpp:36-39 | a leader stops leading exactly on a newer term, in a vote reply or any message of a member, or on a member's request of its own term |
| StepTheorems.LeadershipBegins | foros/src/raft/context.cpp:397-413 | a node comes to lead exactly as a candidate that receives a granted vote of its term and then has size / 2 + 1, or by its timer in a cluster in which one vote is that many |
| StepTheorems.TermAfter | foros/src/raft/context.cpp:144-157 | after every heeded message the term is the larger of the two, and a newer one leaves neither leader nor candidate; only campaigns raise it otherwise |
| StepTheorems.VoteAnswer | foros/src/raft/context.cpp:234-246 | a vote request of a member gets exactly one answer, to its source, with the larger of the two terms and the flag of the literal rule |
| StepTheorems.RequestCalls | foros/src/raft/context.cpp:159-228 | the exact callbacks of a request, in order: a refused pending commit, a revert exactly if the new entry lands inside the log, a commit exactly if it fits |
| StepTheorems.CommitCalls | foros/src/raft/context.cpp:202-228 | a commit is notified exactly for a stored new entry, a command in a cluster of one, or a completed pending commit |
| StepTheorems.RestartedNode | foros/src/raft/context.cpp:116-132 | a restarted node keeps what was stored, follows, has no pending commit, and has every peer behind its own log |
| NodeFacts.HandleFacts | foros/src/raft/context.cpp:144-568 | every step of a node obeys the relations on terms, votes, roles, log, pending commit, messages and database writes |
| NodeFacts.UpdateTermFacts | foros/src/raft/context.cpp:144-157 | a newer term clears the vote, leaves leader and candidate, and every write on the way is a safe crash point |
| NodeFacts.LocalCommitShape | foros/src/raft/context.cpp:202-228 | a local commit changes nothing or cuts the log at the index and appends the entry |
| Cluster.InterruptFinds | foros/src/raft/context.cpp:144-157 | after a crash inside a handler a node finds at least its term and, in the same term, its vote |
| ContextStores.StoreIsCrashAtomic | foros/src/raft/context_store.cpp:280-414 | for any sequence of pushes, reverts and changes of term and vote, with a crash and a restart after any put of any of them, a restart loads exactly the result of the changes that were complete |
| ContextStores.RestartKeepsDatabase | foros/src/raft/context_store.cpp:280-293 | after any such history every entry below the stored size can be read, so loading repairs nothing |
| ContextStores.SingleWrite | foros/src/raft/context_store.cpp:59-169 | one put of term, vote or size reloads as exactly that change |
| ContextStores.ChangeIsAtomic | foros/src/raft/context_store.cpp:371-414 | stopped after any of its puts, a change is stored completely or not at all |
| ContextStores.PushSteps | foros/src/raft/context_store.cpp:388-398 | the puts of term and data are invisible to a restart, the put of the size adds the entry |
| ContextStores.WriteBeyondSize | foros/src/raft/context_store.cpp:280-293 | entries at or above the stored size do not matter to a restart |
| ContextStores.WriteSmallerSize | foros/src/raft/context_store.cpp:405-414 | storing a smaller size cuts the log that is reloaded, stale entries left behind |
| ContextStores.LongestReadablePrefix | foros/src/raft/context_store.cpp:280-293 | a reloaded log is the longest readable run of entries from index 0: every one is read back, and the next below the stored size cannot be read |
| ContextStores.DamagedValues | foros/src/raft/context_store.cpp:84-152 | a missing value, or one of the wrong size, reads as zero, as no vote or as an empty log; an entry is unreadable exactly if its term is missing or too short |
| ContextStores.StoppedLog | foros/src/raft/context_store.cpp:285-292 | loading stops for good at the first unreadable entry |
| ContextStores.ReadLog | foros/src/raft/context_store.cpp:280-325 | a reloaded log is no longer than the stored size and every entry sits at its index |
| ContextStores.ContextStore.constructor | foros/src/raft/context_store.cpp:40-51 | the store starts with what the database holds |
| ContextStores.ContextStore.InitLogs | foros/src/raft/context_store.cpp:280-293 | the loading loop yields the readable prefix and repairs the stored size |
| ContextStores.ContextStore.PushLog | foros/src/raft/context_store.cpp:371-403 | appends exactly the entry that fits, or changes nothing that is visible, for any failing put; every restart loads the log before or after |
| ContextStores.ContextStore.RevertLog | foros/src/raft/context_store.cpp:405-414 | cuts the log at an index inside it in one put |
| ContextStores.ContextStore.SetCurrentTerm | foros/src/raft/context_store.cpp:59-77 | memory and database agree again after the put |
| ContextStores.ContextStore.SetVotedFor | foros/src/raft/context_store.cpp:107-124 | memory and database agree again after the put |
| ContextStores.ContextStore.SetVoted | foros/src/raft/context_store.cpp:154-169 | memory and database agree again after the put |
| Encoding.BytesRoundTrip | foros/src/raft/context_store.cpp:68-104 | the bytes of a number that fits read back as the number |
| Encoding.ByteAt | foros/src/raft/context_store.cpp:68-104 | byte i of a written number is its i-th digit to the base 256, least significant first |
| Encoding.DecimalShape | foros/src/raft/context_store.cpp:363-369 | the decimal notation has only digits and no leading zero |
| Encoding.DecimalRoundTrip | foros/src/raft/context_store.cpp:363-369 | a number can be read back from its decimal notation |
| Encoding.EntryKeysDiffer | foros/src/raft/context_store.cpp:363-369 | keys of different entries, and term and data keys, are different strings |
| Encoding.SingleKeysDiffer | foros/src/raft/context_store.hpp:73-79 | entry keys are none of the four single keys, which are different |
| Tables.TransitionIsOnEvent | foros/src/common/state_machine.hpp:52-63 | callback, table, exit, announcement and entry together have the effect of the node's event functions, which `StepTheorems.EventLaw` and `StepLaws.CampaignLaw` state on their own |
| StepTheorems.EventLaw | foros/src/common/state_machine.hpp:52-63 | every event but the timeouts: who moves and where to, a leader that moves refuses its pending commit, lifecycle and timers become the image; the timeouts of a state without use for them do nothing |
| Tables.EventKeepsImage | foros/src/common/state_machine.hpp:52-63 | after every event, nested elections included, lifecycle and timers are the image of the raft state |
| Tables.LifecycleFollowsRole | foros/src/cluster_node_impl.cpp:86-105 | from any lifecycle state the announcement of a raft state leads to its image |
| RaftNodes.RaftNode.Handle | foros/src/raft/context.cpp:144-568 | the program's step on its fields is the step of the model |
| RaftNodes.RaftNode.constructor | foros/src/cluster_node_impl.cpp:32-54 | a started process is `Boot` of what its database holds |
| RaftNodes.RaftNode.NewPeers | foros/src/raft/context.cpp:116-132 | one peer object for every other id, behind the loaded log |
| RaftNodes.RaftNode.HandleEvent | foros/src/common/state_machine.hpp:52-63 | the re-entrant handler, which terminates, has the effect of the event function |
| RaftNodes.RaftNode.StateHandle | foros/src/raft/state.cpp:54-68 | callback before table; only events without effect on the node name another state |
| RaftNodes.RaftNode.Exit | foros/src/raft/state/leader.cpp:42-45 | leaving Leader stops the broadcast timer and refuses the pending commit |
| RaftNodes.RaftNode.Entry | foros/src/raft/state/candidate.cpp:40 | entering a state arms its timer or starts an election |
| RaftNodes.RaftNode.NotifyLifecycle | foros/src/cluster_node_impl.cpp:86-105 | the lifecycle becomes the image of the raft state |
| RaftNodes.RaftNode.ElectionTimerFired | foros/src/raft/context.cpp:260-266 | a heard broadcast is forgotten, otherwise the state machine times out; a leader ignores it (`StepTheorems.IdleTimer`) |
| RaftNodes.RaftNode.StartElection | foros/src/raft/state/candidate.cpp:44-50 | a campaign, up to winning it in a cluster of one |
| RaftNodes.RaftNode.UpdateTerm | foros/src/raft/context.cpp:144-157 | takes over exactly a newer term, clears the vote and steps down unless it is the node's own |
| RaftNodes.RaftNode.IncreaseTerm | foros/src/raft/context.cpp:341 | the next term, without stepping down |
| RaftNodes.RaftNode.ResetVote | foros/src/raft/context.cpp:335-339 | vote and counter cleared, in two puts |
| RaftNodes.RaftNode.VoteForMe | foros/src/raft/context.cpp:310-314 | own vote stored and counted |
| RaftNodes.RaftNode.RequestVote | foros/src/raft/context.cpp:366-374 | one vote request per peer, then the count |
| RaftNodes.RaftNode.CheckElected | foros/src/raft/context.cpp:397-413 | the model's count; `StepLaws.CountLaw` states it with size / 2 + 1 |
| RaftNodes.RaftNode.UpdateMatchIndexes | foros/src/raft/context.cpp:408-410 | the loop aligns every peer |
| RaftNodes.RaftNode.OnRequestVoteRequested | foros/src/raft/context.cpp:234-246 | term update, vote and one reply, which `StepLaws.VoteRequestLaw` states in full |
| RaftNodes.RaftNode.Vote | foros/src/raft/context.cpp:316-333 | grants exactly by the rule of the model, and stores the grant |
| RaftNodes.RaftNode.OnRequestVoteResponse | foros/src/raft/context.cpp:376-395 | a newer term is taken over, granted votes of the current term are counted (`StepLaws.VoteReplyLaw`) |
| RaftNodes.RaftNode.OnAppendEntriesRequested | foros/src/raft/context.cpp:159-200 | the whole request handler, stored entries of older terms included |
| RaftNodes.RaftNode.FollowLeader | foros/src/raft/context.cpp:168-176 | a request that is not old makes the node a follower and keeps its log |
| RaftNodes.RaftNode.StoreEntries | foros/src/raft/context.cpp:178-199 | the entry is stored, refused, or cuts the log |
| RaftNodes.RaftNode.RequestLocalCommit | foros/src/raft/context.cpp:202-228 | stored already, or room made and the entry pushed, with the callbacks of `StepTheorems.RequestCalls` |
| RaftNodes.RaftNode.RequestLocalRollback | foros/src/raft/context.cpp:230-232 | cuts the log, without a callback |
| RaftNodes.RaftNode.Broadcast | foros/src/raft/context.cpp:347-364 | one request per peer, from the log or the pending commit |
| RaftNodes.RaftNode.CommitCommand | foros/src/raft/context.cpp:445-469 | refused, completed at once in a cluster of one, or pending; the exact answers are in `StepLaws.CommandLaw` |
| RaftNodes.RaftNode.CompleteCommit | foros/src/raft/context.cpp:415-431 | push and notification on success, one resolution always |
| RaftNodes.RaftNode.CancelCommit | foros/src/raft/context.cpp:433-443 | one refusal, nothing else |
| RaftNodes.RaftNode.GetPendingCommit | foros/src/raft/context.cpp:471-483 | a pending commit that no longer fits is forgotten |
| RaftNodes.RaftNode.SetPendingCommit | foros/src/raft/context.cpp:485-501 | the single slot is taken exactly when it is free |
| RaftNodes.RaftNode.CancelPendingCommit | foros/src/raft/context.cpp:503-519 | the slot is emptied and its promise refused |
| RaftNodes.RaftNode.OnAppendEntriesResponse | foros/src/raft/other_node.cpp:112-130 | the peer's index moves, then the tally |
| RaftNodes.RaftNode.OnBroadcastResponse | foros/src/raft/context.cpp:560-568 | term update before the tally |
| RaftNodes.RaftNode.HandlePendingCommitResponse | foros/src/raft/context.cpp:521-558 | the tally of the model |
| RaftNodes.RaftNode.RecordResponse | foros/src/raft/context.cpp:528-554 | the answer is recorded and a complete commit, at size / 2 + 1 equal answers (`StepLaws.AppendReplyLaw`), taken from the slot |
| RaftNodes.RaftNode.CountAgreeing | foros/src/raft/context.cpp:537-546 | the counting loop computes 1 + the cardinality of the set of agreeing peers |
| OtherNodes.OtherNode.Broadcast | foros/src/raft/other_node.cpp:61-103 | the request for this peer, built field by field |
| OtherNodes.OtherNode.OnAppendEntriesResponse | foros/src/raft/other_node.cpp:117-127 | success moves behind the stored entry, failure one back |
| OtherNodes.OtherNode.RequestVote | foros/src/raft/other_node.cpp:133-156 | the request announces the last index and term of the log whose last entry is handed over, and an empty log with the index of a log of one entry |
| OtherNodes.OtherNode.UpdateMatchIndex | foros/src/raft/other_node.cpp:158-166 | next is one behind match |

## Left out

- Leader Completeness and State Machine Safety (section 5.4 of the paper), and "committed implies stored on a
  majority": the code does not establish them, for the reasons given under "What the proofs show about the code".
- Convergence.Converges: commands are not empty, since an empty one is taken for a heartbeat; in the rounds the two nodes act alone, and no other member interferes.
- Convergence.ConvergesInCluster: says that the run can go on this way, not that it must; timers and delivery are not assumed to be fair.
- RaftNodes.RaftNode.Handle: requires that terms and log sizes do not overflow their 64-bit words, and that every put succeeds; a failing put in a setter or in `revert_log` is ignored by the program and not modelled beyond `ContextStore`.
- OtherNodes.OtherNode.Broadcast: the callback that looks up an entry is a function of the pending commit and the log at the start of the broadcast; nothing changes them in between.
- Provenance.EntriesComeFromLeader: the creating step may be one that a crash interrupted.
- Termination (`kTerminated`) is covered by the tables and `EventKeepsImage`, not by the cluster, since nothing in the
  program raises it.
- ROS 2 plumbing: services, clients, discovery (`service_is_ready` false counts as a lost message), logging, and
  timers as real time; a timer is an armed flag and may fire at any moment.
- Threads and mutexes: a handler is one step; user callbacks do not call back into the node.
- LevelDB internals, null commands and null pointers, and a database that cannot be opened (in the store it takes no
  put; the node is not started on it).
- The inspector, its publisher and the examples.
