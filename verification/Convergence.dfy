/** A stable leader brings a follower to its own log: the back-off of next_index ends, and the climb reaches the end. */
module Convergence {
  import opened Types
  import opened NodeSpec
  import opened NodeFacts
  import opened Cluster
  import opened Replication
  import opened Runs
  import ElectionTheorems
  import LogMatching

  /** The leader l has a log to replicate and nothing pending; the follower f is not ahead of its term.
      The commands are not empty, since an empty one would be taken for a heartbeat. */
  ghost predicate Stable(l: Node, f: Node) {
    && NodeInv(l) && NodeInv(f) && l.role.Leader? && l.pending.None?
    && f.me in l.peers && l.me in f.peers
    && f.p.term <= l.p.term
    && l.p.log != []
    && forall i :: 0 <= i < |l.p.log| ==> l.p.log[i].term <= l.p.term && l.p.log[i].command != []
  }

  function NextIndex(l: Node, f: Node): nat
    requires f.me in l.peers
  {
    l.peers[f.me].next
  }

  /** One synchronous round: the leader's broadcast timer fires, the follower handles its request,
      and the leader handles the reply. */
  function Round(l: Node, f: Node): (Node, Node)
    requires f.me in l.peers
  {
    var request := RequestTo(l, f.me);
    var reply := AppendReply(f.me, l.me, request.commit, f.p.term, AppendResult(Fresh(f), request).1);
    (Handle(Handle(l, BroadcastTimer), Receive(reply)), Handle(f, Receive(request)))
  }

  /** The round delivers messages that the two nodes really send. */
  lemma RoundDelivers(l: Node, f: Node)
    requires Stable(l, f)
    ensures var request := RequestTo(l, f.me);
            && request in Handle(l, BroadcastTimer).sends && request.dst == f.me
            && AppendReply(f.me, l.me, request.commit, f.p.term, AppendResult(Fresh(f), request).1)
                 in Handle(f, Receive(request)).sends
  {
  }

  /** The follower's log reaches index x and agrees there with the leader's term. */
  predicate Matches(log: seq<LogEntry>, x: nat, other: seq<LogEntry>)
    requires x <= |log|
  {
    x == 0 || (x <= |other| && other[x - 1].term == log[x - 1].term)
  }

  // ----- the effect of one round -----

  /** What the leader sends for this next_index. */
  lemma RequestShape(l: Node, f: Node, x: nat)
    requires Stable(l, f) && x == NextIndex(l, f)
    ensures var m := RequestTo(l, f.me);
            && m.AppendRequest? && m.src == l.me
            && (x >= |l.p.log| ==> m.entries == [] && m.term == l.p.term && m.commit == 0)
            && (x < |l.p.log| ==>
                  && LogEntry(m.commit, m.term, m.entries) == l.p.log[x]
                  && (x > 0 ==> m.prevIndex == x - 1 && m.prevTerm == l.p.log[x - 1].term))
  {
  }

  lemma LeaderAfterRound(l: Node, f: Node, reply: Message)
    requires Stable(l, f) && reply.AppendReply? && reply.src == f.me && reply.term <= l.p.term
    ensures var t := Handle(Handle(l, BroadcastTimer), Receive(reply));
            && NodeInv(t) && t.me == l.me && t.ids == l.ids
            && t.p == l.p && t.role == l.role && t.pending == l.pending
            && f.me in t.peers && t.peers[f.me] == MoveIndex(l.peers[f.me], reply.commit, reply.success)
  {
  }

  lemma FollowerAfterRound(f: Node, m: Message)
    requires NodeInv(f) && m.AppendRequest? && m.src in f.peers
    ensures var t, (u, ok) := Handle(f, Receive(m)), AppendResult(Fresh(f), m);
            NodeInv(t) && t.me == f.me && t.peers == f.peers && t.p.log == u.p.log
    ensures Handle(f, Receive(m)).p.term == if m.term < f.p.term then f.p.term else m.term
  {
    hide Follow, StoreEntries;
    var u := Follow(Fresh(f), m);
    FollowFacts(Fresh(f), m, u);
    StoreFacts(u, m, StoreEntries(u, m).0);
  }

  /** What one round does to next_index and to the follower's log. */
  lemma RoundEffect(l: Node, f: Node, x: nat)
    requires Stable(l, f) && x == NextIndex(l, f)
    ensures var (l', f') := Round(l, f);
            && Stable(l', f') && l'.p == l.p && f'.me == f.me
            && (x >= |l.p.log| ==> NextIndex(l', f') == x - 1 && f'.p.log == f.p.log)
            && (x < |l.p.log| && Matches(l.p.log, x, f.p.log) ==>
                  && NextIndex(l', f') == x + 1
                  && LastIs(f'.p.log, x, l.p.log[x].term)
                  && f'.p.log[..x] == f.p.log[..x]
                  && (f'.p.log == f.p.log || f'.p.log[x] == l.p.log[x]))
            && (x < |l.p.log| && !Matches(l.p.log, x, f.p.log) ==>
                  NextIndex(l', f') == x - 1 && f'.p.log <= f.p.log)
  {
    hide Handle, AppendResult, RequestTo;
    var m := RequestTo(l, f.me);
    RequestShape(l, f, x);
    var (u, ok) := AppendResult(Fresh(f), m);
    var reply := AppendReply(f.me, l.me, m.commit, f.p.term, ok);
    LeaderAfterRound(l, f, reply);
    FollowerAfterRound(f, m);
    ResultRule(f, m);
    FollowerContract(Fresh(f), m, u, ok);
    if x < |l.p.log| { assert l.p.log[x].id == x; }
  }

  /** The answer depends on the entries only, not on who leads. */
  lemma ResultRule(f: Node, m: Message)
    requires NodeInv(f) && m.AppendRequest?
    ensures AppendResult(Fresh(f), m).1 <==>
              m.entries != [] && (m.commit == 0 || PredecessorFound(f.p.log, m)) && m.commit <= |f.p.log|
    ensures m.entries == [] ==> AppendResult(Fresh(f), m).0.p.log == f.p.log
  {
    hide Follow, LocalCommit;
    FollowFacts(Fresh(f), m, Follow(Fresh(f), m));
    AcceptanceRule(Follow(Fresh(f), m), m);
  }

  // ----- many rounds -----

  function Rounds(l: Node, f: Node, k: nat): (Node, Node)
    requires f.me in l.peers
    decreases k
  {
    if k == 0 then (l, f)
    else
      var (l', f') := Round(l, f);
      if f'.me in l'.peers then Rounds(l', f', k - 1) else (l', f')
  }

  /** Same term at an index means the same entries up to it. */
  ghost predicate Agree(a: seq<LogEntry>, b: seq<LogEntry>) {
    forall i :: 0 <= i < |a| && i < |b| && a[i].term == b[i].term ==> a[..i + 1] == b[..i + 1]
  }

  /** The follower has a log as long as the leader's that ends with the same term. */
  ghost predicate Caught(l: Node, f: Node) {
    |f.p.log| == |l.p.log| && l.p.log != [] && f.p.log[|f.p.log| - 1].term == l.p.log[|l.p.log| - 1].term
  }

  ghost predicate Done(l: Node, f: Node) {
    f.me in l.peers && NextIndex(l, f) == |l.p.log| && Caught(l, f)
  }

  lemma AgreeKept(log: seq<LogEntry>, a: seq<LogEntry>, b: seq<LogEntry>, x: nat)
    requires x < |log| && Agree(log, a) && Matches(log, x, a)
    requires LastIs(b, x, log[x].term) && b[..x] == a[..x] && (b == a || b[x] == log[x])
    ensures b == log[..x + 1] && Agree(log, b)
  {
  }

  /** Once the logs match at next_index, every round stores one more entry. */
  lemma {:induction false} Climb(l: Node, f: Node, x: nat)
    requires Stable(l, f) && x == NextIndex(l, f) && x < |l.p.log| && Matches(l.p.log, x, f.p.log)
    ensures var (l', f') := Rounds(l, f, |l.p.log| - x);
            l'.p == l.p && Done(l', f') && (Agree(l.p.log, f.p.log) ==> f'.p.log == l.p.log)
    decreases |l.p.log| - x
  {
    hide Round, Stable;
    StableMembers(l, f);
    var (l', f') := Round(l, f);
    RoundEffect(l, f, x);
    StableMembers(l', f');
    if Agree(l.p.log, f.p.log) { AgreeKept(l.p.log, f.p.log, f'.p.log, x); }
    if x + 1 < |l.p.log| {
      Climb(l', f', x + 1);
    } else {
      assert l.p.log[..x + 1] == l.p.log;
      assert Rounds(l', f', 0) == (l', f');
    }
  }

  lemma StableMembers(l: Node, f: Node)
    requires Stable(l, f)
    ensures f.me in l.peers && l.p.log != []
  {
  }

  lemma AgreePrefix(log: seq<LogEntry>, a: seq<LogEntry>, b: seq<LogEntry>)
    requires Agree(log, a) && b <= a
    ensures Agree(log, b)
  {
  }

  /** From any next_index and any follower log, after at most next_index + |log| rounds next_index is the length of
      the leader's log and the follower has a log of that length with the same last term - the same log, if the two
      logs agreed wherever their terms did. */
  lemma {:induction false} Converges(l: Node, f: Node) returns (k: nat)
    requires Stable(l, f)
    ensures k <= NextIndex(l, f) + |l.p.log|
    ensures var (l', f') := Rounds(l, f, k);
            l'.p == l.p && Done(l', f') && (Agree(l.p.log, f.p.log) ==> f'.p.log == l.p.log)
    decreases NextIndex(l, f)
  {
    hide Round, Stable;
    StableMembers(l, f);
    var x := NextIndex(l, f);
    if x < |l.p.log| && Matches(l.p.log, x, f.p.log) {
      k := |l.p.log| - x;
      Climb(l, f, x);
    } else {
      var (l', f') := Round(l, f);
      RoundEffect(l, f, x);
      StableMembers(l', f');
      if Agree(l.p.log, f.p.log) { AgreePrefix(l.p.log, f.p.log, f'.p.log); }
      var rest := Converges(l', f');
      k := rest + 1;
    }
  }

  // ----- in a run of the cluster -----

  lemma FollowerStaysBehind(f: Node, m: Message)
    requires NodeInv(f) && m.AppendRequest? && m.src in f.peers
    ensures !f.role.Leader? ==> !Handle(f, Receive(m)).role.Leader?
  {
    hide UpdateTerm, StoreEntries;
    UpdateTermFacts(Fresh(f), m.term, UpdateTerm(Fresh(f), m.term, false));
    StoreFacts(Follow(Fresh(f), m), m, StoreEntries(Follow(Fresh(f), m), m).0) by {
      FollowFacts(Fresh(f), m, Follow(Fresh(f), m));
    }
  }

  ghost function RequestOf(c: State, a: NodeId, b: NodeId): Message
    requires a in c.nodes && b in c.nodes[a].peers
  {
    RequestTo(c.nodes[a], b)
  }

  ghost function ReplyOf(c: State, a: NodeId, b: NodeId): Message
    requires a in c.nodes && b in c.nodes && b in c.nodes[a].peers
  {
    var request := RequestOf(c, a, b);
    AppendReply(b, a, request.commit, c.nodes[b].p.term, AppendResult(Fresh(c.nodes[b]), request).1)
  }

  /** What the three steps of a round need. */
  lemma RoundEnabled(c: State, a: NodeId, b: NodeId)
    requires BaseInv(c) && a in c.nodes && b in c.nodes && Stable(c.nodes[a], c.nodes[b])
    ensures b in c.nodes[a].peers && a != b && c.nodes[a].me == a && c.nodes[b].me == b
    ensures c.nodes[a].broadcastArmed
    ensures var request, reply := RequestOf(c, a, b), ReplyOf(c, a, b);
            && request in Handle(c.nodes[a], BroadcastTimer).sends
            && request.AppendRequest? && request.src == a && request.dst == b
            && reply in Handle(c.nodes[b], Receive(request)).sends
            && (!c.nodes[b].role.Leader? ==>
                  && !Handle(c.nodes[b], Receive(request)).role.Leader?
                  && LeaderSpared(c.nodes[b], Receive(request)))
            && LeaderSpared(c.nodes[a], BroadcastTimer)
            && LeaderSpared(Handle(c.nodes[a], BroadcastTimer), Receive(reply))
  {
    hide Handle, AppendResult;
    RoundDelivers(c.nodes[a], c.nodes[b]);
    FollowerStaysBehind(c.nodes[b], RequestOf(c, a, b));
  }

  /** One round as three steps of a run: the leader's timer, the delivery of its request, the delivery of the reply. */
  lemma RoundInRun(cs: seq<State>, es: seq<Event>, spared: bool, a: NodeId, b: NodeId)
    returns (cs': seq<State>, es': seq<Event>)
    requires RunOf(cs, es, spared) && cs != [] && BaseInv(Final(cs)) && a in Final(cs).nodes && b in Final(cs).nodes
    requires Stable(Final(cs).nodes[a], Final(cs).nodes[b])
    requires spared ==> !Final(cs).nodes[b].role.Leader?
    ensures RunOf(cs', es', spared) && cs <= cs' && es <= es' && |es'| == |es| + 3
    ensures Rounded(Final(cs), Final(cs'), a, b) && (spared ==> !Final(cs').nodes[b].role.Leader?)
    ensures forall j :: |es| <= j < |es'| ==> Delivers(es'[j], a, b)
  {
    hide Handle, Stable, BaseInv, RequestTo, AppendResult, RunOf, NodeInv, LeaderSpared;
    var c := Final(cs);
    RoundEnabled(c, a, b);
    var l, f, request, reply := c.nodes[a], c.nodes[b], RequestOf(c, a, b), ReplyOf(c, a, b);
    var l1, f1 := Handle(l, BroadcastTimer), Handle(f, Receive(request));
    var cs1, es1 := Continue(cs, es, spared, a, BroadcastTimer);
    assert Final(cs1).nodes[a] == l1 && Final(cs1).nodes[b] == f && request in Final(cs1).net;
    var cs2, es2 := Continue(cs1, es1, spared, b, Receive(request));
    assert Final(cs2).nodes[a] == l1 && Final(cs2).nodes[b] == f1 && reply in Final(cs2).net;
    cs', es' := Continue(cs2, es2, spared, a, Receive(reply));
    assert Final(cs').nodes == Final(cs).nodes[b := f1][a := Handle(l1, Receive(reply))];
  }

  /** Nodes a and b have gone through one round, and the others have not moved. */
  ghost predicate Rounded(c: State, c': State, a: NodeId, b: NodeId) {
    && a in c.nodes && b in c.nodes && b in c.nodes[a].peers && c.nodes[b].me == b
    && var (l, f) := Round(c.nodes[a], c.nodes[b]);
       c'.nodes == c.nodes[b := f][a := l]
  }

  /** The leader's broadcast timer, or a message between the two. */
  predicate Delivers(e: Event, a: NodeId, b: NodeId) {
    e.Act? && ((e.n == a && e.input.BroadcastTimer?)
               || (e.input.Receive? && (e.n == a || e.n == b) && {e.input.message.src, e.input.message.dst} == {a, b}))
  }

  lemma {:induction false} RoundsInRun(cs: seq<State>, es: seq<Event>, spared: bool, a: NodeId, b: NodeId, k: nat)
    returns (cs': seq<State>, es': seq<Event>)
    requires RunOf(cs, es, spared) && cs != [] && BaseInv(Final(cs)) && a in Final(cs).nodes && b in Final(cs).nodes
    requires Stable(Final(cs).nodes[a], Final(cs).nodes[b])
    requires spared ==> !Final(cs).nodes[b].role.Leader?
    ensures RunOf(cs', es', spared) && cs <= cs' && es <= es' && |es'| == |es| + 3 * k
    ensures a in Final(cs').nodes && b in Final(cs').nodes && b in Final(cs).nodes[a].peers
    ensures Final(cs).nodes[b].me == b
    ensures (Final(cs').nodes[a], Final(cs').nodes[b]) == Rounds(Final(cs).nodes[a], Final(cs).nodes[b], k)
    ensures forall j :: |es| <= j < |es'| ==> Delivers(es'[j], a, b)
    decreases k
  {
    hide Stable, Round, RunOf, Delivers, NodeInv;
    var l, f := Final(cs).nodes[a], Final(cs).nodes[b];
    StableMembers(l, f);
    assert l.me == a && f.me == b;
    cs', es' := cs, es;
    if k > 0 {
      cs', es' := RoundInRun(cs, es, spared, a, b);
      RoundEffect(l, f, NextIndex(l, f));
      var (l', f') := Round(l, f);
      StableMembers(l', f');
      RunOfShape(cs', es', spared);
      ElectionTheorems.RunBase(cs', es', |cs'| - 1);
      assert a != b by { SelfIsNoPeer(l, f); }
      assert Final(cs').nodes[a] == l' && Final(cs').nodes[b] == f';
      var mid := es';
      cs', es' := RoundsInRun(cs', es', spared, a, b, k - 1);
      assert forall j :: |es| <= j < |mid| ==> es'[j] == mid[j];
    }
  }

  lemma SelfIsNoPeer(l: Node, f: Node)
    requires Stable(l, f)
    ensures l.me != f.me
  {
  }

  /** From any moment of a run in which a leads stably, the run can go on, by nothing but a's broadcast timer and
      messages between a and b, for at most next_index + |log| rounds, and end with the same last entry term and
      length in both logs. If the run was under (A), b ends with exactly a's log; and the continuation is under (A)
      too unless b leads an older term. */
  lemma ConvergesInCluster(cs: seq<State>, es: seq<Event>, i: nat, a: NodeId, b: NodeId)
    returns (cs': seq<State>, es': seq<Event>, k: nat)
    requires Run(cs, es) && i < |cs| && a in cs[i].nodes && b in cs[i].nodes
    requires Stable(cs[i].nodes[a], cs[i].nodes[b])
    ensures Run(cs', es') && cs[..i + 1] <= cs' && es[..i] <= es'
    ensures forall j :: i <= j < |es'| ==> Delivers(es'[j], a, b)
    ensures |es'| == i + 3 * k && b in cs[i].nodes[a].peers
    ensures k <= cs[i].nodes[a].peers[b].next + |cs[i].nodes[a].p.log|
    ensures a in Final(cs').nodes && b in Final(cs').nodes && Final(cs').nodes[a].p == cs[i].nodes[a].p
    ensures Caught(Final(cs').nodes[a], Final(cs').nodes[b])
    ensures SparingRun(cs, es) ==> Final(cs').nodes[b].p.log == Final(cs').nodes[a].p.log
    ensures SparingRun(cs, es) && !cs[i].nodes[b].role.Leader? ==> SparingRun(cs', es')
  {
    hide Run, SparingRun, Stable, Rounds, Delivers, Agree, NodeInv;
    var l, f := cs[i].nodes[a], cs[i].nodes[b];
    ElectionTheorems.RunBase(cs, es, i);
    RunShape(cs, es);
    assert l.me == a && f.me == b;
    if SparingRun(cs, es) { LogsAgree(cs, es, i, a, b); }
    var spared := SparingRun(cs, es) && !f.role.Leader?;
    RunPrefix(cs, es, spared, i);
    hide BaseInv;
    StableMembers(l, f);
    k := Converges(l, f);
    assert Final(cs[..i + 1]) == cs[i];
    cs', es' := RoundsInRun(cs[..i + 1], es[..i], spared, a, b, k);
    RunOfShape(cs', es', spared);
  }

  lemma LogsAgree(cs: seq<State>, es: seq<Event>, i: nat, a: NodeId, b: NodeId)
    requires SparingRun(cs, es) && i < |cs| && a in cs[i].nodes && b in cs[i].nodes
    ensures Agree(cs[i].nodes[a].p.log, cs[i].nodes[b].p.log)
  {
    hide SparingRun;
    var l, f := cs[i].nodes[a], cs[i].nodes[b];
    forall x | 0 <= x < |l.p.log| && x < |f.p.log| && l.p.log[x].term == f.p.log[x].term
      ensures l.p.log[..x + 1] == f.p.log[..x + 1]
    {
      LogMatching.LogMatching(cs, es, i, i, a, b, x);
    }
  }
}
