/** What happens to the promises of commit_command, over any sequence of inputs to one node.
    No assumption is made on the messages; assumption (A) is named where it is used. */
module Replies {
  import opened Types
  import opened NodeSpec
  import opened NodeFacts
  import opened Cluster

  // ----- resolutions in a list of calls -----

  function Weight(call: Call, promise: nat): nat {
    if call.Resolved? && call.promise == promise then 1 else 0
  }

  function Count(calls: seq<Call>, promise: nat): nat {
    if calls == [] then 0
    else Count(calls[..|calls| - 1], promise) + Weight(calls[|calls| - 1], promise)
  }

  lemma CountAdd(calls: seq<Call>, call: Call, promise: nat)
    ensures Count(calls + [call], promise) == Count(calls, promise) + Weight(call, promise)
  {
  }

  lemma CountAddTwo(calls: seq<Call>, a: Call, b: Call, promise: nat)
    ensures Count(calls + [a, b], promise) == Count(calls, promise) + Weight(a, promise) + Weight(b, promise)
  {
    CountAdd(calls, a, promise);
    CountAdd(calls + [a], b, promise);
    assert calls + [a, b] == calls + [a] + [b];
  }

  /** The promise of the pending commit is still open. */
  function Open(s: Node, promise: nat): nat {
    if s.pending.Some? && s.pending.value.promise == promise then 1 else 0
  }

  /** Resolved so far in this handler, or still open. */
  function Balance(s: Node, promise: nat): nat {
    Count(s.calls, promise) + Open(s, promise)
  }

  // ----- the parts of the handlers keep the balance -----

  lemma BecomeBalance(s: Node, role: Role, promise: nat)
    ensures Balance(Become(s, role), promise) == Balance(s, promise)
  {
  }

  lemma StepDownBalance(s: Node, promise: nat)
    ensures Balance(StepDown(s), promise) == Balance(s, promise)
  {
  }

  lemma UpdateTermBalance(s: Node, term: nat, self: bool, promise: nat)
    ensures Balance(UpdateTerm(s, term, self), promise) == Balance(s, promise)
  {
    if term > s.p.term { StepDownBalance(ResetVote(SetTerm(s, term)), promise); }
  }

  lemma CheckElectedBalance(s: Node, promise: nat)
    ensures Balance(CheckElected(s), promise) == Balance(s, promise)
  {
  }

  lemma StartElectionBalance(s: Node, promise: nat)
    ensures Balance(StartElection(s), promise) == Balance(s, promise)
  {
    hide UpdateTerm, CheckElected;
    UpdateTermBalance(s, s.p.term + 1, true, promise);
    var voted := VoteForMe(ResetVote(UpdateTerm(s, s.p.term + 1, true)));
    CheckElectedBalance(voted.(electionArmed := true, sends := voted.sends + VoteRequests(voted)), promise);
  }

  lemma MakeRoomBalance(s: Node, m: Message, promise: nat)
    requires m.AppendRequest?
    ensures Balance(MakeRoom(s, m), promise) == Balance(s, promise)
  {
  }

  lemma LocalCommitBalance(s: Node, m: Message, promise: nat)
    requires m.AppendRequest?
    ensures Balance(LocalCommit(s, m).0, promise) == Balance(s, promise)
  {
    hide MakeRoom;
    MakeRoomBalance(s, m, promise);
    CountAdd(MakeRoom(s, m).calls, Committed(m.commit, m.entries), promise);
  }

  lemma AppendResultBalance(s: Node, m: Message, promise: nat)
    requires m.AppendRequest?
    ensures Balance(AppendResult(s, m).0, promise) == Balance(s, promise)
  {
    UpdateTermBalance(s, m.term, false, promise);
    StepDownBalance(UpdateTerm(s, m.term, false).(heard := true), promise);
    LocalCommitBalance(Follow(s, m), m, promise);
  }

  lemma CompleteCommitBalance(s: Node, own: nat, e: LogEntry, promise: nat)
    ensures Balance(CompleteCommit(s, own, e), promise)
            == Balance(s, promise) + (if own == promise then 1 else 0)
  {
    CountAddTwo(PushLog(s, e).calls, Committed(e.id, e.command),
                Resolved(own, e.id, Some(e.command), true), promise);
  }

  lemma TallyBalance(s: Node, id: NodeId, commit: nat, term: nat, success: bool, promise: nat)
    ensures Balance(Tally(s, id, commit, term, success), promise) == Balance(s, promise)
  {
    if s.pending.Some? {
      CompleteCommitBalance(s.(pending := None), s.pending.value.promise, s.pending.value.entry, promise);
    }
  }

  // ----- one step -----

  function Submissions(input: Input, promise: nat): nat {
    if input.Command? && input.promise == promise then 1 else 0
  }

  /** The step drops a pending commit that no longer fits the log; its promise is never resolved. */
  ghost predicate Forgets(s: Node, input: Input, promise: nat) {
    && s.role.Leader? && !Fit(s) && s.pending.value.promise == promise
    && (input.BroadcastTimer? || (input.Command? && |s.ids| > 1))
  }

  lemma SubmitBalance(s: Node, input: Input, promise: nat)
    requires NodeInv(s) && input.Command? && s.calls == []
    ensures Balance(Submit(s, input.command, input.promise), promise)
            == Open(s, promise) + Submissions(input, promise) - (if Forgets(s, input, promise) then 1 else 0)
  {
    hide CompleteCommit;
    var e := LogEntry(|s.p.log|, s.p.term, input.command);
    CountAdd(s.calls, Resolved(input.promise, e.id, None, false), promise);
    CompleteCommitBalance(s, input.promise, e, promise);
  }

  /** Conservation in one step, for any input whatever: a promise that is submitted or open is afterwards resolved
      once or open - unless the step forgets it. */
  lemma StepConserves(s: Node, input: Input, promise: nat)
    requires NodeInv(s)
    ensures Balance(Handle(s, input), promise)
            == Open(s, promise) + Submissions(input, promise) - (if Forgets(s, input, promise) then 1 else 0)
  {
    hide UpdateTerm, CheckElected, AppendResult, Tally, StartElection, Become, Submit;
    var f := Fresh(s);
    match input
    case ElectionTimer =>
      BecomeBalance(f, Candidate, promise);
      StartElectionBalance(Become(f, Candidate), promise);
      StartElectionBalance(f, promise);
    case BroadcastTimer =>
    case Command(_, _) =>
      SubmitBalance(f, input, promise);
    case Receive(m) =>
      match m
      case VoteRequest(_, _, term, _, _) => UpdateTermBalance(f, term, false, promise);
      case VoteReply(_, _, term, _) =>
        UpdateTermBalance(f, term, false, promise);
        CheckElectedBalance(f.(votes := f.votes + 1), promise);
      case AppendRequest(_, _, _, _, _, _, _) => AppendResultBalance(f, m, promise);
      case AppendReply(src, _, commit, term, success) =>
        if src in f.peers {
          var u := f.(peers := f.peers[src := MoveIndex(f.peers[src], commit, success)]);
          UpdateTermBalance(u, term, false, promise);
          TallyBalance(UpdateTerm(u, term, false), src, commit, term, success, promise);
        }
  }

  // ----- the outcome of the pending commit -----

  /** The request brings this entry to a log it extends. */
  ghost predicate Brings(s: Node, input: Input, e: LogEntry) {
    && Stores(s, input)
    && input.message.commit == e.id && input.message.term == e.term && input.message.entries == e.command
    && (e.id == 0 || PredecessorFound(s.p.log, input.message))
  }

  ghost predicate Answered(t: Node, c: Pending, result: bool) {
    Resolved(c.promise, c.entry.id, Some(c.entry.command), result) in t.calls
  }

  lemma TallyOutcome(s: Node, id: NodeId, commit: nat, term: nat, success: bool, t: Node, c: Pending)
    requires NodeInv(s) && Fit(s) && t == Tally(s, id, commit, term, success) && s.calls == []
    requires s.pending == Some(c)
    ensures Answered(t, c, true) <==> t.p.log == s.p.log + [c.entry]
    ensures !Answered(t, c, false)
    ensures t.p.log == s.p.log + [c.entry] <==> t.pending.None?
  {
  }

  lemma ReplyOutcome(s: Node, input: Input, t: Node, c: Pending)
    requires NodeInv(s) && Fit(s) && s.pending == Some(c) && t == Handle(s, input)
    requires input.Receive? && input.message.AppendReply?
    ensures Answered(t, c, true) <==> t.p.log == s.p.log + [c.entry]
    ensures t.pending.None? <==> Answered(t, c, true) || Answered(t, c, false)
    ensures !(Answered(t, c, true) && Answered(t, c, false))
  {
    hide Tally;
    var m, f := input.message, Fresh(s);
    if m.src in s.peers {
      var u := f.(peers := f.peers[m.src := MoveIndex(f.peers[m.src], m.commit, m.success)]);
      var v := UpdateTerm(u, m.term, false);
      UpdateTermFacts(u, m.term, v);
      if m.term <= s.p.term {
        TallyOutcome(v, m.src, m.commit, m.term, m.success, t, c);
      } else {
        assert v.calls == [Resolved(c.promise, c.entry.id, Some(c.entry.command), false)];
        assert Tally(v, m.src, m.commit, m.term, m.success) == v by { NoPendingNoTally(v, m); }
      }
    }
  }

  /** A newer term makes the leader give up its pending commit. */
  lemma UpdateTermOutcome(s: Node, term: nat, u: Node, c: Pending)
    requires NodeInv(s) && s.pending == Some(c) && s.p.term < term && u == UpdateTerm(s, term, false)
    ensures u.p.log == s.p.log && u.pending.None? && u.role.Follower? && u.p.term == term
    ensures u.calls == s.calls + [Resolved(c.promise, c.entry.id, Some(c.entry.command), false)]
  {
  }

  lemma NoPendingNoTally(s: Node, m: Message)
    requires m.AppendReply? && s.pending.None?
    ensures Tally(s, m.src, m.commit, m.term, m.success) == s
  {
  }

  /** Following a newer or equal leader gives up the pending commit. */
  lemma FollowOutcome(s: Node, m: Message, u: Node, c: Pending)
    requires NodeInv(s) && m.AppendRequest? && u == Follow(s, m) && s.calls == []
    requires s.pending == Some(c) && s.p.term <= m.term
    ensures u.p.log == s.p.log && u.pending.None?
    ensures u.calls == [Resolved(c.promise, c.entry.id, Some(c.entry.command), false)]
  {
    hide UpdateTerm;
    if s.p.term < m.term {
      UpdateTermOutcome(s, m.term, UpdateTerm(s, m.term, false), c);
    } else {
      SameTerm(s, m.term);
    }
  }

  lemma SameTerm(s: Node, term: nat)
    requires term <= s.p.term
    ensures UpdateTerm(s, term, false) == s
  {
  }

  lemma StoreOutcome(s: Node, m: Message, t: Node, e: LogEntry)
    requires NodeInv(s) && m.AppendRequest? && t == StoreEntries(s, m).0 && e.id == |s.p.log|
    ensures t.pending == s.pending
    ensures forall x :: x in t.calls && x.Resolved? ==> x in s.calls
    ensures s.calls <= t.calls
    ensures t.p.log == s.p.log + [e] <==>
              && m.entries != [] && LogEntry(m.commit, m.term, m.entries) == e
              && (m.commit == 0 || PredecessorFound(s.p.log, m))
  {
    hide LocalCommit;
    var prev := At(s.p.log, m.prevIndex);
    if m.entries != [] && (m.commit == 0 || (prev.Some? && prev.value.term == m.prevTerm)) {
      StoreCalls(s, m, t);
      LocalCommitShape(s, m, t);
      if m.commit == |s.p.log| {
        assert s.p.log[..m.commit] == s.p.log;
        NotYetStored(s, m);
        assert (s.p.log + [e])[|s.p.log|] == e;
      }
    } else {
      assert |s.p.log + [e]| > |t.p.log|;
    }
  }

  lemma MakeRoomCalls(s: Node, m: Message)
    requires m.AppendRequest?
    ensures var t := MakeRoom(s, m); t.calls == s.calls || t.calls == s.calls + [Reverted(m.commit)]
  {
  }

  lemma StoreCalls(s: Node, m: Message, t: Node)
    requires m.AppendRequest? && t == LocalCommit(s, m).0
    ensures forall x :: x in t.calls && x.Resolved? ==> x in s.calls
    ensures s.calls <= t.calls
  {
    hide MakeRoom;
    MakeRoomCalls(s, m);
  }

  lemma NotYetStored(s: Node, m: Message)
    requires NodeInv(s) && m.AppendRequest? && m.commit == |s.p.log|
    ensures LocalCommit(s, m).0.p.log == s.p.log + [LogEntry(m.commit, m.term, m.entries)]
  {
  }

  lemma RequestOutcome(s: Node, input: Input, t: Node, c: Pending)
    requires NodeInv(s) && Fit(s) && s.pending == Some(c) && t == Handle(s, input)
    requires input.Receive? && input.message.AppendRequest? && LeaderSpared(s, input)
    ensures !Answered(t, c, true)
    ensures t.pending.None? <==> Answered(t, c, false)
    ensures t.p.log == s.p.log + [c.entry] <==> Brings(s, input, c.entry)
    ensures Brings(s, input, c.entry) ==> Answered(t, c, false)
  {
    hide Follow, StoreEntries, Rewrites;
    var m, f := input.message, Fresh(s);
    assert |s.p.log + [c.entry]| != |s.p.log|;
    if m.src in s.peers {
      var u := Follow(f, m);
      FollowFacts(f, m, u);
      ChangeRule(u, m);
      StoreOutcome(u, m, StoreEntries(u, m).0, c.entry);
      if s.p.term <= m.term {
        FollowOutcome(f, m, u, c);
        assert u.calls[0] in t.calls;
      }
    }
  }

  /** The fate of the pending commit of a leader in one step, under (A): it stays, or its promise is resolved
      exactly once. It is resolved with true exactly when the node itself moves the entry to its log; the log can
      grow by that very entry in only one other way, when a later leader sends it back - and then the promise is
      resolved with false although the entry is stored. */
  lemma PendingOutcome(s: Node, input: Input, t: Node, c: Pending)
    requires NodeInv(s) && Fit(s) && s.pending == Some(c) && t == Handle(s, input) && LeaderSpared(s, input)
    ensures t.pending.None? <==> Answered(t, c, true) || Answered(t, c, false)
    ensures !(Answered(t, c, true) && Answered(t, c, false))
    ensures t.p.log == s.p.log + [c.entry] <==> Answered(t, c, true) || Brings(s, input, c.entry)
    ensures Brings(s, input, c.entry) ==> Answered(t, c, false)
  {
    assert |s.p.log + [c.entry]| != |s.p.log|;
    if input.Receive? && input.message.AppendRequest? {
      RequestOutcome(s, input, t, c);
    } else if input.Receive? && input.message.AppendReply? {
      ReplyOutcome(s, input, t, c);
    } else {
      QuietOutcome(s, input, t, c);
    }
  }

  lemma QuietOutcome(s: Node, input: Input, t: Node, c: Pending)
    requires NodeInv(s) && Fit(s) && s.pending == Some(c) && t == Handle(s, input)
    requires !(input.Receive? && (input.message.AppendRequest? || input.message.AppendReply?))
    ensures t.pending.None? <==> Answered(t, c, false)
    ensures !Answered(t, c, true) && t.p.log == s.p.log
  {
    hide UpdateTerm, StartElection;
    var f := Fresh(s);
    if input.Receive? {
      var term := input.message.term;
      if s.p.term < term {
        UpdateTermOutcome(f, term, UpdateTerm(f, term, false), c);
      } else {
        SameTerm(f, term);
      }
    }
  }

  // ----- whole runs of one node -----

  /** The node handles the inputs one after the other, without a crash. */
  ghost predicate NodeRun(ss: seq<Node>, ins: seq<Input>) {
    && |ss| == |ins| + 1
    && NodeInv(ss[0])
    && forall i {:trigger ins[i]} :: 0 <= i < |ins| ==> ss[i + 1] == Handle(ss[i], ins[i])
  }

  ghost predicate SpareRun(ss: seq<Node>, ins: seq<Input>) {
    && NodeRun(ss, ins)
    && forall i {:trigger ins[i]} :: 0 <= i < |ins| ==> LeaderSpared(ss[i], ins[i])
  }

  function Resolutions(ss: seq<Node>, k: nat, promise: nat): nat
    requires k < |ss|
  {
    if k == 0 then 0 else Resolutions(ss, k - 1, promise) + Count(ss[k].calls, promise)
  }

  function Submitted(ins: seq<Input>, k: nat, promise: nat): nat
    requires k <= |ins|
  {
    if k == 0 then 0 else Submitted(ins, k - 1, promise) + Submissions(ins[k - 1], promise)
  }

  lemma {:induction false} NodeRunInv(ss: seq<Node>, ins: seq<Input>, k: nat)
    requires NodeRun(ss, ins) && k < |ss|
    ensures NodeInv(ss[k])
  {
    if k > 0 {
      NodeRunInv(ss, ins, k - 1);
      assert ss[k] == Handle(ss[k - 1], ins[k - 1]);
      HandleFacts(ss[k - 1], ins[k - 1], ss[k]);
    }
  }

  /** Without (A): a promise is never resolved more often than it was submitted. */
  lemma {:induction false} ResolvedAtMostOnce(ss: seq<Node>, ins: seq<Input>, k: nat, promise: nat)
    requires NodeRun(ss, ins) && k < |ss|
    ensures Resolutions(ss, k, promise) + Open(ss[k], promise) <= Open(ss[0], promise) + Submitted(ins, k, promise)
  {
    hide NodeInv, Handle;
    if k > 0 {
      ResolvedAtMostOnce(ss, ins, k - 1, promise);
      NodeRunInv(ss, ins, k - 1);
      StepConserves(ss[k - 1], ins[k - 1], promise);
    }
  }

  lemma FitKept(s: Node, input: Input)
    requires NodeInv(s) && Fit(s) && LeaderSpared(s, input)
    ensures Fit(Handle(s, input))
  {
    hide Handle;
    HandleFacts(s, input, Handle(s, input));
  }

  lemma {:induction false} FitRun(ss: seq<Node>, ins: seq<Input>, k: nat)
    requires SpareRun(ss, ins) && Fit(ss[0]) && k < |ss|
    ensures Fit(ss[k])
  {
    hide NodeInv, Handle, Fit;
    if k > 0 {
      FitRun(ss, ins, k - 1);
      NodeRunInv(ss, ins, k - 1);
      FitKept(ss[k - 1], ins[k - 1]);
    }
  }

  /** Under (A): whatever was submitted is resolved or still the pending one; nothing is lost or answered twice. */
  lemma {:induction false} PromisesConserved(ss: seq<Node>, ins: seq<Input>, k: nat, promise: nat)
    requires SpareRun(ss, ins) && Fit(ss[0]) && k < |ss|
    ensures Resolutions(ss, k, promise) + Open(ss[k], promise) == Open(ss[0], promise) + Submitted(ins, k, promise)
  {
    hide NodeInv, Handle;
    if k > 0 {
      PromisesConserved(ss, ins, k - 1, promise);
      NodeRunInv(ss, ins, k - 1);
      FitRun(ss, ins, k - 1);
      StepConserves(ss[k - 1], ins[k - 1], promise);
    }
  }

  /** Pending implies leader, always; under (A) the pending entry is the one the log waits for. */
  lemma PendingOnLeader(ss: seq<Node>, ins: seq<Input>, k: nat)
    requires NodeRun(ss, ins) && k < |ss| && ss[k].pending.Some?
    ensures ss[k].role.Leader? && ss[k].pending.value.entry.term == ss[k].p.term
    ensures SpareRun(ss, ins) && Fit(ss[0]) ==> ss[k].pending.value.entry.id == |ss[k].p.log|
  {
    NodeRunInv(ss, ins, k);
    if SpareRun(ss, ins) && Fit(ss[0]) { FitRun(ss, ins, k); }
  }

  /** Without (A) promises are lost: an old request that disagrees with an entry of the leader's log cuts the log
      below the pending entry, the node stays leader, and its next broadcast drops the commit without an answer. */
  lemma OldRequestLosesPromise(s: Node, m: Message, t: Node, u: Node)
    requires NodeInv(s) && Fit(s) && s.pending.Some? && m.AppendRequest? && m.src in s.peers
    requires m.term < s.p.term && m.entries != [] && m.commit > 0
    requires m.prevIndex < |s.p.log| && s.p.log[m.prevIndex].term != m.prevTerm
    requires t == Handle(s, Receive(m)) && u == Handle(t, BroadcastTimer)
    ensures t.role.Leader? && t.p.log == s.p.log[..m.prevIndex] && t.calls == []
    ensures u.pending.None? && u.calls == [] && u.p.log == t.p.log
  {
  }
}
