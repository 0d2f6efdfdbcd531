/** The commit and revert callbacks: what an observer that only listens to them knows about the log. */
module Replay {
  import opened Types
  import opened NodeSpec
  import opened NodeFacts
  import opened Replies

  /** The observer keeps a list of commands: it cuts the list at the index of a notification,
      and appends the command of a commit. */
  function Observe(list: seq<Types.Command>, call: Call): seq<Types.Command> {
    match call
    case Committed(id, command) => if id <= |list| then list[..id] + [command] else list
    case Reverted(id) => if id <= |list| then list[..id] else list
    case Resolved(_, _, _, _) => list
  }

  function ObserveAll(list: seq<Types.Command>, calls: seq<Call>): seq<Types.Command> {
    if calls == [] then list
    else Observe(ObserveAll(list, calls[..|calls| - 1]), calls[|calls| - 1])
  }

  function Commands(log: seq<LogEntry>): (list: seq<Types.Command>)
    ensures |list| == |log|
  {
    seq(|log|, i requires 0 <= i < |log| => log[i].command)
  }

  lemma ObserveAdd(list: seq<Types.Command>, calls: seq<Call>, call: Call)
    ensures ObserveAll(list, calls + [call]) == Observe(ObserveAll(list, calls), call)
  {
  }

  /** The log is a prefix of what the observer has so far in this handler. */
  ghost predicate Watched(s: Node, list: seq<Types.Command>) {
    Commands(s.p.log) <= ObserveAll(list, s.calls)
  }

  ghost predicate Exact(s: Node, list: seq<Types.Command>) {
    Commands(s.p.log) == ObserveAll(list, s.calls)
  }

  /** There is a commit notification among the calls. */
  ghost predicate Notified(calls: seq<Call>) {
    exists call :: call in calls && call.Committed?
  }

  // ----- the parts of the handlers -----

  /** From s to t the log stays and only promises are resolved. */
  ghost predicate Quiet(s: Node, t: Node, list: seq<Types.Command>) {
    && t.p.log == s.p.log
    && ObserveAll(list, t.calls) == ObserveAll(list, s.calls)
    && (Notified(t.calls) ==> Notified(s.calls))
  }

  lemma BecomeQuiet(s: Node, role: Role, list: seq<Types.Command>)
    ensures Quiet(s, Become(s, role), list)
  {
  }

  lemma StepDownQuiet(s: Node, list: seq<Types.Command>)
    ensures Quiet(s, StepDown(s), list)
  {
    BecomeQuiet(s, Follower, list);
  }

  lemma UpdateTermQuiet(s: Node, term: nat, self: bool, list: seq<Types.Command>)
    ensures Quiet(s, UpdateTerm(s, term, self), list)
  {
    hide StepDown;
    if term > s.p.term { StepDownQuiet(ResetVote(SetTerm(s, term)), list); }
  }

  lemma CheckElectedQuiet(s: Node, list: seq<Types.Command>)
    ensures Quiet(s, CheckElected(s), list)
  {
  }

  lemma StartElectionQuiet(s: Node, list: seq<Types.Command>)
    ensures Quiet(s, StartElection(s), list)
  {
  }

  lemma FollowQuiet(s: Node, m: Message, list: seq<Types.Command>)
    requires m.AppendRequest?
    ensures Quiet(s, Follow(s, m), list)
  {
    hide UpdateTerm, StepDown;
    UpdateTermQuiet(s, m.term, false, list);
    StepDownQuiet(UpdateTerm(s, m.term, false).(heard := true), list);
  }

  /** Pushing at the end of a watched log, with the notification, makes the observer exact. */
  lemma PushWatched(s: Node, e: LogEntry, list: seq<Types.Command>, t: Node)
    requires Watched(s, list) && e.id == |s.p.log| && t == PushLog(s, e)
    ensures Exact(t.(calls := t.calls + [Committed(e.id, e.command)]), list)
  {
  }

  /** Cutting the log together with the notification makes the observer exact. */
  lemma RevertWatched(s: Node, id: nat, list: seq<Types.Command>)
    requires Watched(s, list) && id < |s.p.log|
    ensures var t := RevertLog(s, id);
            Exact(t.(calls := t.calls + [Reverted(id)]), list)
  {
  }

  lemma MakeRoomWatched(s: Node, m: Message, list: seq<Types.Command>)
    requires m.AppendRequest? && WellIndexed(s.p.log) && Watched(s, list)
    ensures Watched(MakeRoom(s, m), list)
  {
    hide Watched, Exact, RevertLog;
    if s.p.log != [] && LastIndex(s.p.log) >= m.commit {
      RevertWatched(s, m.commit, list);
      ExactWatched(MakeRoom(s, m), list);
    }
  }

  lemma LocalCommitWatched(s: Node, m: Message, list: seq<Types.Command>)
    requires m.AppendRequest? && WellIndexed(s.p.log) && Watched(s, list)
    ensures var t := LocalCommit(s, m).0; Watched(t, list) && (t.calls == s.calls || Exact(t, list)
                                                               || t.calls == s.calls + [Reverted(m.commit)])
  {
    hide Watched, Exact, MakeRoom;
    MakeRoomWatched(s, m, list);
    MakeRoomCalls(s, m);
    var u, e := MakeRoom(s, m), LogEntry(m.commit, m.term, m.entries);
    if !AlreadyStored(s, m) && Accepts(u, e) {
      PushWatched(u, e, list, PushLog(u, e));
      ExactWatched(LocalCommit(s, m).0, list);
    }
  }

  lemma ExactWatched(s: Node, list: seq<Types.Command>)
    requires Exact(s, list)
    ensures Watched(s, list)
  {
  }

  lemma RollbackWatched(s: Node, id: nat, list: seq<Types.Command>)
    requires Watched(s, list)
    ensures Watched(RevertLog(s, id), list)
  {
  }

  lemma StoreWatched(s: Node, m: Message, list: seq<Types.Command>)
    requires m.AppendRequest? && WellIndexed(s.p.log) && Watched(s, list) && !Notified(s.calls)
    ensures var t := StoreEntries(s, m).0; Watched(t, list) && (Notified(t.calls) ==> Exact(t, list))
  {
    hide Watched, Exact, LocalCommit;
    LocalCommitWatched(s, m, list);
    forall e | At(s.p.log, m.prevIndex) == Some(e) { RollbackWatched(s, e.id, list); }
  }

  /** The answer to a promise is nothing the observer looks at. */
  lemma AnswerExact(s: Node, answer: Call, list: seq<Types.Command>)
    requires Exact(s, list) && answer.Resolved?
    ensures Exact(s.(calls := s.calls + [answer]), list)
  {
    hide ObserveAll;
    ObserveAdd(list, s.calls, answer);
  }

  lemma CompleteWatched(s: Node, promise: nat, e: LogEntry, list: seq<Types.Command>)
    requires Watched(s, list) && e.id == |s.p.log|
    ensures Exact(CompleteCommit(s, promise, e), list)
  {
    hide Watched, Exact, PushLog;
    var t := PushLog(s, e);
    var note, answer := Committed(e.id, e.command), Resolved(promise, e.id, Some(e.command), true);
    PushWatched(s, e, list, t);
    AnswerExact(t.(calls := t.calls + [note]), answer, list);
    assert t.calls + [note] + [answer] == t.calls + [note, answer];
  }

  /** The answer completes the pending commit. */
  predicate Settles(s: Node, m: Message)
    requires m.AppendReply?
  {
    && m.src in s.peers && m.term <= s.p.term && s.pending.Some?
    && s.pending.value.entry.id == m.commit && s.pending.value.entry.term == m.term
    && 1 + |Agreeing(s.peers.Keys, s.pending.value.results[m.src := m.success], m.success)| >= |s.ids| / 2 + 1
  }

  lemma TallyWatched(s: Node, m: Message, list: seq<Types.Command>)
    requires m.AppendReply? && m.src in s.peers && m.term <= s.p.term
    requires Watched(s, list) && (Fit(s) || !Settles(s, m)) && !Notified(s.calls)
    ensures var t := Tally(s, m.src, m.commit, m.term, m.success);
            Watched(t, list) && (Notified(t.calls) ==> Exact(t, list))
  {
    hide CompleteCommit, Agreeing;
    if s.pending.Some? && Fit(s) {
      var c, u := s.pending.value, s.(pending := None);
      CompleteWatched(u, c.promise, c.entry, list);
      ExactWatched(CompleteCommit(u, c.promise, c.entry), list);
    }
  }

  // ----- one step, and runs -----

  lemma SubmitWatched(s: Node, input: Input, list: seq<Types.Command>)
    requires NodeInv(s) && input.Command? && Watched(s, list) && s.calls == []
    ensures var t := Submit(s, input.command, input.promise);
            Watched(t, list) && (Notified(t.calls) ==> Exact(t, list))
  {
    hide CompleteCommit;
    var e := LogEntry(|s.p.log|, s.p.term, input.command);
    CompleteWatched(s, input.promise, e, list);
    ExactWatched(CompleteCommit(s, input.promise, e), list);
    ObserveAdd(list, s.calls, Resolved(input.promise, e.id, None, false));
  }

  lemma TimerWatched(s: Node, list: seq<Types.Command>)
    requires Watched(s, list) && s.calls == []
    ensures Quiet(s, OnElectionTimer(s), list)
  {
    hide StartElection, Become;
    BecomeQuiet(s, Candidate, list);
    StartElectionQuiet(Become(s, Candidate), list);
    StartElectionQuiet(s, list);
  }

  lemma VotesWatched(s: Node, m: Message, list: seq<Types.Command>)
    requires s.calls == []
    ensures m.VoteRequest? ==> Quiet(s, OnVoteRequest(s, m), list)
    ensures m.VoteReply? ==> Quiet(s, OnVoteReply(s, m), list)
  {
    hide UpdateTerm, CheckElected;
    if m.VoteRequest? || m.VoteReply? { UpdateTermQuiet(s, m.term, false, list); }
    CheckElectedQuiet(s.(votes := s.votes + 1), list);
  }

  lemma RequestWatched(s: Node, m: Message, list: seq<Types.Command>)
    requires m.AppendRequest? && WellIndexed(s.p.log) && Watched(s, list) && s.calls == []
    ensures var t := OnAppendRequest(s, m); Watched(t, list) && (Notified(t.calls) ==> Exact(t, list))
  {
    hide Follow, StoreEntries;
    FollowQuiet(s, m, list);
    StoreWatched(Follow(s, m), m, list);
  }

  lemma ReplyWatched(s: Node, m: Message, list: seq<Types.Command>)
    requires NodeInv(s) && m.AppendReply? && (Fit(s) || !Settles(s, m)) && Watched(s, list) && s.calls == []
    ensures var t := OnAppendReply(s, m); Watched(t, list) && (Notified(t.calls) ==> Exact(t, list))
  {
    hide Tally, Agreeing;
    if m.src in s.peers {
      var u := s.(peers := s.peers[m.src := MoveIndex(s.peers[m.src], m.commit, m.success)]);
      assert u.peers.Keys == s.peers.Keys;
      var v := UpdateTerm(u, m.term, false);
      if m.term <= s.p.term {
        TallyWatched(u, m, list);
      } else {
        UpdateTermQuiet(u, m.term, false, list);
        UpdateTermFacts(u, m.term, v);
        NoPendingNoTally(v, m);
      }
    }
  }

  /** The reply completes a pending commit that does not fit the end of the log. */
  predicate SettlesUnfit(s: Node, input: Input) {
    input.Receive? && input.message.AppendReply? && Settles(s, input.message)
    && s.pending.value.entry.id != |s.p.log|
  }

  /** One step, for any message that does not complete an unfit commit: the log stays a prefix of the observer's
      list, and equals it after a commit notification. A rollback is not notified, so the list may be longer. */
  lemma StepWatched(s: Node, input: Input, list: seq<Types.Command>)
    requires NodeInv(s) && !SettlesUnfit(s, input) && Commands(s.p.log) <= list
    ensures var t := Handle(s, input);
            && Commands(t.p.log) <= ObserveAll(list, t.calls)
            && (Notified(t.calls) ==> Commands(t.p.log) == ObserveAll(list, t.calls))
  {
    hide OnElectionTimer, OnVoteRequest, OnVoteReply, OnAppendRequest, OnAppendReply, Submit;
    var f := Fresh(s);
    match input
    case ElectionTimer => TimerWatched(f, list);
    case BroadcastTimer =>
    case Command(_, _) => SubmitWatched(f, input, list);
    case Receive(m) =>
      VotesWatched(f, m, list);
      if m.AppendRequest? { RequestWatched(f, m, list); }
      if m.AppendReply? { ReplyWatched(f, m, list); }
  }

  lemma UnfitCompletion(s: Node, input: Input)
    requires NodeInv(s) && SettlesUnfit(s, input)
    ensures var t, c := Handle(s, input), s.pending.value;
            && t.p.log == s.p.log
            && t.calls == [Committed(c.entry.id, c.entry.command),
                           Resolved(c.promise, c.entry.id, Some(c.entry.command), true)]
  {
    hide Agreeing;
    var u := Fresh(s).(peers := Handle(s, input).peers);
    assert u.peers.Keys == s.peers.Keys;
    SameTerm(u, input.message.term);
  }

  /** An observer that had the log, and is told of an entry that was not stored. */
  lemma ToldTooMuch(log: seq<LogEntry>, e: LogEntry)
    requires e.id != |log|
    ensures Commands(log) <= Observe(Commands(log), Committed(e.id, e.command)) <==>
              e.id > |log| || (e.id + 1 == |log| && log[e.id].command == e.command)
  {
    var list := Commands(log);
    if e.id < |log| {
      var told := list[..e.id] + [e.command];
      assert |told| == e.id + 1 && told[e.id] == e.command && list[e.id] == log[e.id].command;
      if e.id + 1 == |log| && log[e.id].command == e.command { assert told == list; }
    }
  }

  /** Completing an unfit commit notifies an entry that is not stored. An observer that had the log itself still has
      it as a prefix exactly when the notification lies beyond the log, or repeats its last command. */
  lemma UnfitCommitMisleads(s: Node, input: Input, list: seq<Types.Command>)
    requires NodeInv(s) && SettlesUnfit(s, input) && list == Commands(s.p.log)
    ensures var t, e := Handle(s, input), s.pending.value.entry;
            && t.p.log == s.p.log && Notified(t.calls)
            && (Commands(t.p.log) <= ObserveAll(list, t.calls) <==>
                  e.id > |s.p.log| || (e.id + 1 == |s.p.log| && s.p.log[e.id].command == e.command))
  {
    hide NodeInv, Handle, Commands, Agreeing, Observe;
    var t, c := Handle(s, input), s.pending.value;
    var note, answer := Committed(c.entry.id, c.entry.command),
                        Resolved(c.promise, c.entry.id, Some(c.entry.command), true);
    UnfitCompletion(s, input);
    ToldTooMuch(s.p.log, c.entry);
    ObserveAdd(list, [], note);
    ObserveAdd(list, [note], answer);
    Unnoticed(ObserveAll(list, [note]), answer);
    assert [] + [note] == [note] && [note] + [answer] == [note, answer];
    assert note in t.calls;
  }

  lemma Unnoticed(list: seq<Types.Command>, answer: Call)
    requires answer.Resolved?
    ensures Observe(list, answer) == list
  {
  }

  /** What the observer has after k steps. */
  function Seen(ss: seq<Node>, list: seq<Types.Command>, k: nat): seq<Types.Command>
    requires k < |ss|
  {
    if k == 0 then list else ObserveAll(Seen(ss, list, k - 1), ss[k].calls)
  }

  /** Under (A), over whole runs: an observer that starts from the current log always has a list that the node's log
      is a prefix of, and has the log itself after every step that notified a commit. */
  lemma {:induction false} ObserverFollows(ss: seq<Node>, ins: seq<Input>, list: seq<Types.Command>, k: nat)
    requires SpareRun(ss, ins) && Fit(ss[0]) && k < |ss| && list == Commands(ss[0].p.log)
    ensures Commands(ss[k].p.log) <= Seen(ss, list, k)
    ensures k > 0 && Notified(ss[k].calls) ==> Commands(ss[k].p.log) == Seen(ss, list, k)
  {
    hide NodeInv, Handle, Agreeing;
    if k > 0 {
      ObserverFollows(ss, ins, list, k - 1);
      NodeRunInv(ss, ins, k - 1);
      FitRun(ss, ins, k - 1);
      StepWatched(ss[k - 1], ins[k - 1], Seen(ss, list, k - 1));
    }
  }
}
