/** What assumption (A) rules out: a delayed request of an older term that reaches a leader rewrites its log. */
module DelayedRequests {
  import opened Types
  import opened NodeSpec
  import opened NodeFacts
  import opened Replication
  import opened Convergence

  /** A leader that handles a request stays leader with another log exactly when the request is from a member, is of
      an older term, and conflicts with the log or finds a new place in it. */
  lemma LeaderRewritten(s: Node, m: Message)
    requires NodeInv(s) && s.role.Leader? && m.AppendRequest?
    ensures var t := Handle(s, Receive(m));
            t.role.Leader? && t.p.log != s.p.log <==>
              && m.src in s.peers && m.term < s.p.term
              && m.entries != [] && Rewrites(s.p.log, m)
  {
    hide StoreEntries, Follow, Rewrites;
    var f := Fresh(s);
    if m.src in s.peers {
      FollowFacts(f, m, Follow(f, m));
      StoreFacts(Follow(f, m), m, StoreEntries(Follow(f, m), m).0);
      ChangeRule(Follow(f, m), m);
    }
  }

  /** The leader l and the follower f have one log, whose last entry is of l's term and the next one to send to f; and
      the old request m conflicts with that entry. */
  ghost predicate Splittable(l: Node, f: Node, m: Message) {
    && NodeInv(l) && NodeInv(f) && l.role.Leader? && l.pending.None? && l.p.term == f.p.term
    && |l.ids| == 3 && l.me in f.peers && f.me in l.peers
    && l.p.log == f.p.log && |l.p.log| >= 2
    && var k := |l.p.log| - 1;
       && l.p.log[k].term == l.p.term && l.peers[f.me].next == k
       && m.AppendRequest? && m.src in l.peers && m.term < l.p.term && m.entries != []
       && m.commit > 0 && m.prevIndex == k && m.prevTerm != l.p.term
  }

  /** The leader handles the old request and takes a command; the follower answers the next request with success,
      and the leader handles the answer. */
  ghost function Split(l: Node, f: Node, m: Message, command: Types.Command, promise: nat): (Node, Node)
    requires Splittable(l, f, m)
  {
    var l1 := Handle(Handle(l, Receive(m)), Input.Command(command, promise));
    if f.me in l1.peers then
      var request := RequestTo(l1, f.me);
      (Handle(l1, Receive(AppendReply(f.me, l.me, request.commit, f.p.term, true))), Handle(f, Receive(request)))
    else (l1, f)
  }

  /** Such a request breaks Log Matching: l drops its last entry and takes another command for the same index and
      term, and f answers that it has it already, since index and term agree. Both logs end at k with the same term,
      and with different commands. */
  lemma OldRequestSplitsLogs(l: Node, f: Node, m: Message, command: Types.Command, promise: nat)
    requires Splittable(l, f, m) && command != []
    ensures var k, (l', f') := |l.p.log| - 1, Split(l, f, m, command, promise);
            && AppendReply(f.me, l.me, k, f.p.term, true) in f'.sends
            && |l'.p.log| == k + 1 == |f'.p.log| && l'.p.log[k].term == f'.p.log[k].term
            && l'.p.log[k].command == command && f'.p.log[k] == l.p.log[k]
            && (command != l.p.log[k].command ==> !Agree(l'.p.log, f'.p.log))
  {
    hide Agree, Handle, RequestTo, NodeInv;
    var k := |l.p.log| - 1;
    var l1 := Handle(l, Receive(m));
    var l2 := Handle(l1, Input.Command(command, promise));
    LeaderDropsLast(l, m, l1);
    LeaderReplaces(l1, command, promise, l2, f.me, k);
    FollowerHasIt(f, RequestTo(l2, f.me), Handle(f, Receive(RequestTo(l2, f.me))), k);
    LeaderCompletes(l2, f.me, k, f.p.term, Handle(l2, Receive(AppendReply(f.me, l.me, k, f.p.term, true))));
    var (l', f') := Split(l, f, m, command, promise);
    if command != l.p.log[k].command { Disagree(l'.p.log, f'.p.log, k); }
  }

  lemma Disagree(a: seq<LogEntry>, b: seq<LogEntry>, i: nat)
    requires i < |a| && i < |b| && a[i].term == b[i].term && a[i] != b[i]
    ensures !Agree(a, b)
  {
  }

  lemma LeaderDropsLast(l: Node, m: Message, t: Node)
    requires NodeInv(l) && l.role.Leader? && l.p.log != [] && m.AppendRequest? && m.src in l.peers
    requires m.term < l.p.term && m.entries != [] && m.commit > 0
    requires m.prevIndex == |l.p.log| - 1 && m.prevTerm != l.p.log[m.prevIndex].term
    requires t == Handle(l, Receive(m))
    ensures NodeInv(t) && t == Fresh(l).(p := l.p.(log := l.p.log[..m.prevIndex]), trail := t.trail, sends := t.sends)
  {
  }

  lemma LeaderReplaces(l: Node, command: Types.Command, promise: nat, t: Node, peer: NodeId, k: nat)
    requires NodeInv(l) && l.role.Leader? && l.pending.None? && |l.ids| == 3 && command != []
    requires peer in l.peers && l.peers[peer].next == k && k == |l.p.log| && k > 0
    requires t == Handle(l, Input.Command(command, promise))
    ensures NodeInv(t) && t == Fresh(l).(pending := Some(Pending(LogEntry(k, l.p.term, command), promise, map[])))
    ensures RequestTo(t, peer) == AppendRequest(l.me, peer, l.p.term, k - 1, l.p.log[k - 1].term, command, k)
  {
  }

  lemma FollowerHasIt(f: Node, m: Message, t: Node, k: nat)
    requires NodeInv(f) && 0 < k && |f.p.log| == k + 1 && f.p.log[k].term == f.p.term
    requires m.AppendRequest? && m.src in f.peers && m.term == f.p.term && m.entries != []
    requires m.commit == k && m.prevIndex == k - 1 && m.prevTerm == f.p.log[k - 1].term
    requires t == Handle(f, Receive(m))
    ensures t.p.log == f.p.log && AppendReply(f.me, m.src, k, f.p.term, true) in t.sends
  {
    hide StoreEntries, Follow;
    var u := Follow(Fresh(f), m);
    FollowFacts(Fresh(f), m, u);
    AcceptanceRule(u, m);
    StoredAgain(u, m);
  }

  lemma LeaderCompletes(l: Node, peer: NodeId, k: nat, term: nat, t: Node)
    requires NodeInv(l) && |l.ids| == 3 && peer in l.peers && l.pending.Some? && l.p.term == term
    requires l.pending.value.entry.id == k == |l.p.log| && l.pending.value.results == map[]
    requires t == Handle(l, Receive(AppendReply(peer, l.me, k, term, true)))
    ensures t.p.log == l.p.log + [l.pending.value.entry]
  {
  }
}
