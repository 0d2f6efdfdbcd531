/** The receiving side of replication for arbitrary requests, and the convergence of the sending side's back-off. */
module Replication {
  import opened Types
  import opened NodeSpec
  import opened NodeFacts

  // ----- what a request does to a follower -----

  /** A request is answered with success exactly when it carries an entry, its predecessor is found (nothing is
      asked at index 0), and its index is at most the length of the log. */
  lemma AcceptanceRule(s: Node, m: Message)
    requires m.AppendRequest? && WellIndexed(s.p.log)
    ensures StoreEntries(s, m).1 <==>
              m.entries != [] && (m.commit == 0 || PredecessorFound(s.p.log, m)) && m.commit <= |s.p.log|
  {
  }

  /** Success leaves a log that ends at the request's index with the request's term and is unchanged below; the
      entry is the request's, unless the log already ended with that index and term. Failure only shortens the log. */
  lemma FollowerContract(s: Node, m: Message, t: Node, ok: bool)
    requires NodeInv(s) && m.AppendRequest? && (t, ok) == AppendResult(s, m)
    ensures ok ==> m.commit <= |s.p.log| && LastIs(t.p.log, m.commit, m.term)
    ensures ok ==> t.p.log[..m.commit] == s.p.log[..m.commit]
    ensures ok ==> t.p.log == s.p.log || t.p.log[m.commit] == LogEntry(m.commit, m.term, m.entries)
    ensures !ok ==> t.p.log <= s.p.log
  {
    hide Follow, LocalCommit;
    var u := Follow(s, m);
    FollowFacts(s, m, u);
    AcceptanceRule(u, m);
    if ok { StoredContract(u, m, t); } else { RefusedContract(u, m, t); }
  }

  lemma StoredContract(s: Node, m: Message, t: Node)
    requires NodeInv(s) && m.AppendRequest? && StoreEntries(s, m) == (t, true)
    ensures m.commit <= |s.p.log| && LastIs(t.p.log, m.commit, m.term)
    ensures t.p.log[..m.commit] == s.p.log[..m.commit]
    ensures t.p.log == s.p.log || t.p.log[m.commit] == LogEntry(m.commit, m.term, m.entries)
  {
    hide MakeRoom;
    MakeRoomFacts(s, m, MakeRoom(s, m));
    if s.p.log != [] { assert s.p.log[|s.p.log| - 1].id == |s.p.log| - 1; }
  }

  lemma RefusedContract(s: Node, m: Message, t: Node)
    requires NodeInv(s) && m.AppendRequest? && StoreEntries(s, m) == (t, false)
    ensures t.p.log <= s.p.log
  {
  }

  /** A request that succeeded once succeeds again, and then changes nothing at all, exactly when its predecessor
      lies below its index, or is the entry itself. Requests sent by a node name index-1, so they qualify. */
  lemma Redelivery(s: Node, m: Message, t: Node)
    requires NodeInv(s) && m.AppendRequest? && AppendResult(s, m) == (t, true)
    ensures var (u, again) := AppendResult(t, m);
            && (again <==> m.commit == 0 || m.prevIndex < m.commit
                           || (m.prevIndex == m.commit && m.prevTerm == m.term))
            && (again ==> u == t)
  {
    hide StoreEntries;
    var v := Follow(s, m);
    FollowerContract(s, m, t, true);
    FollowFacts(s, m, v);
    AcceptanceRule(v, m);
    StoreFacts(v, m, t);
    assert Follow(t, m) == t by { FollowAgain(s, m, t); }
    AcceptanceRule(t, m);
    if m.prevIndex < m.commit {
      assert t.p.log[..m.commit][m.prevIndex] == v.p.log[..m.commit][m.prevIndex];
    }
    if StoreEntries(t, m).1 { StoredAgain(t, m); }
  }

  lemma FollowAgain(s: Node, m: Message, t: Node)
    requires NodeInv(s) && m.AppendRequest? && AppendResult(s, m) == (t, true)
    ensures Follow(t, m) == t
  {
    hide StoreEntries;
    FollowFacts(s, m, Follow(s, m));
    StoreFacts(Follow(s, m), m, t);
    if m.term >= s.p.term { assert Follow(s, m).heard by { FollowHeard(s, m); } }
  }

  lemma FollowHeard(s: Node, m: Message)
    requires m.AppendRequest? && m.term >= s.p.term
    ensures Follow(s, m).heard
  {
  }

  lemma StoredAgain(s: Node, m: Message)
    requires NodeInv(s) && m.AppendRequest? && LastIs(s.p.log, m.commit, m.term) && StoreEntries(s, m).1
    ensures StoreEntries(s, m).0 == s
  {
  }
}
