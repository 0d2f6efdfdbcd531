/** Log Matching: under assumption (A) two logs with the same term at an index are identical up to it. */
module LogMatching {
  import opened Types
  import opened NodeSpec
  import opened NodeFacts
  import opened Cluster
  import opened Elections
  import opened ElectionTheorems
  import opened Logs

  /** The entry was made behind an entry of term q. */
  ghost predicate Fits(created: set<Creation>, e: LogEntry, q: nat) {
    exists l :: Creation(e.term, e.id, e.command, q, l) in created
  }

  /** No two creations in one term at one index. */
  ghost predicate Unique(created: set<Creation>) {
    forall a, b :: a in created && b in created && a.term == b.term && a.index == b.index ==> a == b
  }

  ghost predicate FitsAt(created: set<Creation>, log: seq<LogEntry>, i: nat)
    requires i < |log|
  {
    Fits(created, log[i], PrevTerm(log, i))
  }

  ghost predicate Anchored(created: set<Creation>, log: seq<LogEntry>) {
    forall i {:trigger FitsAt(created, log, i)} :: 0 <= i < |log| ==> FitsAt(created, log, i)
  }

  ghost predicate NodeAnchored(created: set<Creation>, s: Node) {
    && Anchored(created, s.p.log)
    && (s.pending.Some? ==>
          s.pending.value.entry.id == |s.p.log| && Fits(created, s.pending.value.entry, PrevTerm(s.p.log, |s.p.log|)))
  }

  /** What the leader made in its term is in its log, or pending. */
  ghost predicate Holds(s: Node, k: Creation) {
    s.role.Leader? && k.term == s.p.term ==>
      k.index < |s.p.log| || (s.pending.Some? && k.index == s.pending.value.entry.id)
  }

  ghost predicate MatchInv(c: State) {
    && Unique(c.h.created)
    && (forall n :: n in c.nodes ==> NodeAnchored(c.h.created, c.nodes[n]))
    && (forall m :: m in c.net && CarriesEntry(m) ==> Fits(c.h.created, EntryOf(m), m.prevTerm))
    && (forall n, k :: n in c.nodes && k in c.h.created ==> Holds(c.nodes[n], k))
  }

  lemma FitsGrows(a: set<Creation>, b: set<Creation>, e: LogEntry, q: nat)
    requires a <= b && Fits(a, e, q)
    ensures Fits(b, e, q)
  {
  }

  lemma NewFits(s: Node, input: Input, created: set<Creation>)
    requires Creates(s, input) && CreatedBy(s, input) <= created
    ensures Fits(created, NewEntry(s, input), PrevTerm(s.p.log, |s.p.log|))
  {
  }

  // ----- one node -----

  lemma AnchoredGrows(a: set<Creation>, b: set<Creation>, log: seq<LogEntry>)
    requires a <= b && Anchored(a, log)
    ensures Anchored(b, log)
  {
    forall i | 0 <= i < |log| ensures FitsAt(b, log, i) {
      assert FitsAt(a, log, i);
      FitsGrows(a, b, log[i], PrevTerm(log, i));
    }
  }

  lemma PrefixAnchored(created: set<Creation>, log: seq<LogEntry>, log': seq<LogEntry>)
    requires Anchored(created, log) && log' <= log
    ensures Anchored(created, log')
  {
    forall i | 0 <= i < |log'| ensures FitsAt(created, log', i) {
      assert FitsAt(created, log, i);
    }
  }

  lemma AppendAnchored(created: set<Creation>, log: seq<LogEntry>, e: LogEntry)
    requires Anchored(created, log) && Fits(created, e, PrevTerm(log, |log|))
    ensures Anchored(created, log + [e])
  {
    forall i | 0 <= i < |log + [e]| ensures FitsAt(created, log + [e], i) {
      if i < |log| { assert FitsAt(created, log, i); }
    }
  }

  lemma RewrittenAnchored(created: set<Creation>, log: seq<LogEntry>, m: Message, log': seq<LogEntry>)
    requires m.AppendRequest? && Rewritten(log, m, log') && Chained(m) && Anchored(created, log)
    requires Fits(created, EntryOf(m), m.prevTerm)
    ensures Anchored(created, log')
  {
    if log' <= log {
      PrefixAnchored(created, log, log');
    } else {
      PrefixAnchored(created, log, log[..m.commit]);
      AppendAnchored(created, log[..m.commit], EntryOf(m));
    }
  }

  /** A step keeps the log anchored, whatever the request. */
  lemma StepLogAnchored(s: Node, input: Input, t: Node, a: set<Creation>, b: set<Creation>)
    requires NodeInv(s) && Step(s, input, t) && NodeAnchored(a, s) && a <= b && CreatedBy(s, input) <= b
    requires Stores(s, input) ==>
      var m := input.message;
      Chained(m) && Fits(a, EntryOf(m), m.prevTerm)
    ensures Anchored(b, t.p.log)
  {
    hide Rewrites;
    forall e, q | Fits(a, e, q) ensures Fits(b, e, q) { FitsGrows(a, b, e, q); }
    AnchoredGrows(a, b, s.p.log);
    if Creates(s, input) {
      NewFits(s, input, b);
      AppendAnchored(b, s.p.log, NewEntry(s, input));
    } else if Finishes(s, input, t) {
      AppendAnchored(b, s.p.log, s.pending.value.entry);
    } else if Stores(s, input) && t.p.log != s.p.log {
      RewrittenAnchored(b, s.p.log, input.message, t.p.log);
    }
  }

  /** Under (A) the pending entry goes on fitting the end of the log. */
  lemma StepAnchored(s: Node, input: Input, t: Node, a: set<Creation>, b: set<Creation>)
    requires NodeInv(s) && Step(s, input, t) && NodeAnchored(a, s) && a <= b && CreatedBy(s, input) <= b
    requires LeaderSpared(s, input)
    requires Stores(s, input) ==>
      var m := input.message;
      Chained(m) && Fits(a, EntryOf(m), m.prevTerm)
    ensures NodeAnchored(b, t)
  {
    hide Rewrites, Anchored;
    StepLogAnchored(s, input, t, a, b);
    if Creates(s, input) {
      NewFits(s, input, b);
    } else if t.pending.Some? {
      FitsGrows(a, b, s.pending.value.entry, PrevTerm(s.p.log, |s.p.log|));
    }
  }

  /** After a step the leader still holds everything it made, the new entry included. */
  lemma StepHolds(s: Node, input: Input, t: Node, k: Creation)
    requires NodeInv(s) && Step(s, input, t) && LeaderSpared(s, input)
    requires s.role.Leader? && s.p.term == t.p.term
    requires Holds(s, k) || k in CreatedBy(s, input)
    requires s.pending.Some? ==> s.pending.value.entry.id == |s.p.log|
    ensures Holds(t, k)
  {
  }

  lemma NewLeaderMakesNothing(s: Node, input: Input, t: Node)
    requires NodeInv(s) && Step(s, input, t) && t.role.Leader?
    requires !(s.role.Leader? && s.p.term == t.p.term)
    ensures CreatedBy(s, input) == {}
  {
  }

  /** A node that becomes the leader of a term finds no creation of that term. */
  lemma NoEarlierCreation(c: State, n: NodeId, input: Input, t: Node, k: Creation)
    requires Advances(c, n, input, t) && LogInv(c) && k in c.h.created
    requires t.role.Leader? && !(c.nodes[n].role.Leader? && c.nodes[n].p.term == t.p.term)
    ensures k.term != t.p.term
  {
    assert forall l :: l in c.h.leaders ==> Supported(c, l);
    if k.term == t.p.term {
      AdvanceElection(c, n, input, t);
      OneLeaderPerTerm(Advance(c, n, input, t), k.term, k.leader, n);
    }
  }

  /** The leader of a term is the only node that makes entries of that term. */
  lemma OthersMakeOtherTerms(c: State, n: NodeId, input: Input, other: NodeId)
    requires LogInv(c) && n in c.nodes && other in c.nodes && other != n
    requires Creates(c.nodes[n], input) && c.nodes[other].role.Leader?
    ensures c.nodes[n].p.term != c.nodes[other].p.term
  {
    if c.nodes[n].p.term == c.nodes[other].p.term {
      OneLeaderPerTerm(c, c.nodes[n].p.term, n, other);
    }
  }

  lemma AdvanceHolds(c: State, n: NodeId, input: Input, t: Node, x: NodeId, k: Creation)
    requires Advances(c, n, input, t) && LogInv(c) && MatchInv(c)
    requires x == n ==> LeaderSpared(c.nodes[n], input)
    requires x in c.nodes && k in c.h.created + CreatedBy(c.nodes[n], input)
    ensures Holds(Advance(c, n, input, t).nodes[x], k)
  {
    hide NodeInv, Step, LogInv, Unique;
    var s := c.nodes[n];
    if x == n && t.role.Leader? {
      if s.role.Leader? && s.p.term == t.p.term {
        assert NodeAnchored(c.h.created, s);
        StepHolds(s, input, t, k);
      } else {
        NewLeaderMakesNothing(s, input, t);
        NoEarlierCreation(c, n, input, t, k);
      }
    } else if x != n && k !in c.h.created && c.nodes[x].role.Leader? {
      OthersMakeOtherTerms(c, n, input, x);
    }
  }

  lemma StepUnique(s: Node, input: Input, created: set<Creation>)
    requires NodeInv(s) && Unique(created) && forall k :: k in created ==> Holds(s, k)
    ensures Unique(created + CreatedBy(s, input))
  {
  }

  lemma AdvanceUnique(c: State, n: NodeId, input: Input, t: Node)
    requires Advances(c, n, input, t) && MatchInv(c)
    ensures Unique(c.h.created + CreatedBy(c.nodes[n], input))
  {
    hide Step, NodeInv, Unique, Anchored;
    StepUnique(c.nodes[n], input, c.h.created);
  }

  lemma AdvanceMatch(c: State, n: NodeId, input: Input, t: Node)
    requires Advances(c, n, input, t) && LeaderSpared(c.nodes[n], input) && LogInv(c) && MatchInv(c)
    ensures MatchInv(Advance(c, n, input, t))
  {
    hide Step, NodeInv, ElectionInv, NodeAnchored, Holds, Unique;
    var s, c' := c.nodes[n], Advance(c, n, input, t);
    AdvanceUnique(c, n, input, t);
    StepAnchored(s, input, t, c.h.created, c'.h.created);
    OthersAnchored(c, n, c'.h.created);
    forall m | m in c'.net && CarriesEntry(m) ensures Fits(c'.h.created, EntryOf(m), m.prevTerm) {
      if m in t.sends { SentFits(s, input, t, m, c.h.created); }
      FitsGrows(c.h.created, c'.h.created, EntryOf(m), m.prevTerm);
    }
    forall x, k | x in c'.nodes && k in c'.h.created ensures Holds(c'.nodes[x], k) {
      AdvanceHolds(c, n, input, t, x, k);
    }
  }

  lemma OthersAnchored(c: State, n: NodeId, created: set<Creation>)
    requires MatchInv(c) && c.h.created <= created
    ensures forall k :: k in c.nodes && k != n ==> NodeAnchored(created, c.nodes[k])
  {
    forall e, q | Fits(c.h.created, e, q) ensures Fits(created, e, q) { FitsGrows(c.h.created, created, e, q); }
    forall k | k in c.nodes && k != n ensures NodeAnchored(created, c.nodes[k]) {
      assert NodeAnchored(c.h.created, c.nodes[k]);
      AnchoredGrows(c.h.created, created, c.nodes[k].p.log);
    }
  }

  lemma SentFits(s: Node, input: Input, t: Node, m: Message, created: set<Creation>)
    requires NodeInv(s) && Step(s, input, t) && NodeAnchored(created, s)
    requires m in t.sends && CarriesEntry(m)
    ensures Fits(created, EntryOf(m), m.prevTerm)
  {
    assert Sent(s, input, t, m);
    if m.commit < |s.p.log| { assert FitsAt(created, s.p.log, m.commit); }
  }

  lemma RecoverMatch(c: State, n: NodeId, p: Persistent, made: set<Creation>)
    requires Found(c, n, p) && MatchInv(c) && Anchored(c.h.created + made, p.log)
    requires Unique(c.h.created + made)
    requires forall x, k :: x in c.nodes && x != n && k in made ==> Holds(c.nodes[x], k)
    ensures MatchInv(Recover(c, n, p, made))
  {
    var c' := Recover(c, n, p, made);
    OthersAnchored(c, n, c'.h.created);
    forall m | m in c'.net && CarriesEntry(m) ensures Fits(c'.h.created, EntryOf(m), m.prevTerm) {
      FitsGrows(c.h.created, c'.h.created, EntryOf(m), m.prevTerm);
    }
  }

  lemma InterruptMatch(c: State, n: NodeId, input: Input, t: Node, p: Persistent)
    requires Advances(c, n, input, t) && LogInv(c) && MatchInv(c)
    requires Found(c, n, p) && CrashPoint(c.nodes[n], t, p)
    ensures MatchInv(Recover(c, n, p, CreatedBy(c.nodes[n], input)))
  {
    hide Step, NodeInv;
    var s, made := c.nodes[n], CreatedBy(c.nodes[n], input);
    AdvanceUnique(c, n, input, t);
    assert NodeAnchored(c.h.created, s);
    StepLogAnchored(s, input, t, c.h.created, c.h.created + made);
    if p.log <= s.p.log {
      OwnAnchored(c, n, made);
      PrefixAnchored(c.h.created + made, s.p.log, p.log);
    }
    forall x, k | x in c.nodes && x != n && k in made ensures Holds(c.nodes[x], k) {
      AdvanceHolds(c, n, input, t, x, k);
    }
    RecoverMatch(c, n, p, made);
  }

  lemma OwnAnchored(c: State, n: NodeId, made: set<Creation>)
    requires MatchInv(c) && n in c.nodes
    ensures Anchored(c.h.created + made, c.nodes[n].p.log)
  {
    assert NodeAnchored(c.h.created, c.nodes[n]);
    AnchoredGrows(c.h.created, c.h.created + made, c.nodes[n].p.log);
  }

  lemma CrashMatch(c: State, n: NodeId)
    requires LogInv(c) && MatchInv(c) && n in c.nodes
    ensures MatchInv(Recover(c, n, c.nodes[n].p, {}))
  {
    OwnAnchored(c, n, {});
    assert c.h.created + {} == c.h.created;
    RecoverMatch(c, n, c.nodes[n].p, {});
  }

  lemma NextMatch(c: State, e: Event)
    requires LogInv(c) && MatchInv(c) && Enabled(c, e) && Spares(c, e)
    ensures MatchInv(Next(c, e))
  {
    match e
    case Act(n, input) =>
      ActAdvances(c, n, input);
      AdvanceMatch(c, n, input, Handle(c.nodes[n], input));
    case Crash(n) =>
      CrashMatch(c, n);
    case Interrupt(n, input, writes) =>
      InterruptFinds(c, n, input, writes);
      InterruptMatch(c, n, input, Handle(c.nodes[n], input), Handle(c.nodes[n], input).trail[writes - 1]);
  }

  lemma SpareStep(cs: seq<State>, es: seq<Event>, i: nat)
    requires SparingRun(cs, es) && i < |es|
    ensures Enabled(cs[i], es[i]) && Spares(cs[i], es[i]) && cs[i + 1] == Next(cs[i], es[i])
  {
  }

  lemma InitMatch(c: State)
    requires Init(c)
    ensures MatchInv(c)
  {
  }

  lemma {:induction false} RunMatch(cs: seq<State>, es: seq<Event>, i: nat)
    requires SparingRun(cs, es) && i < |cs|
    ensures MatchInv(cs[i])
  {
    hide SparingRun, Run, Init, Next, Handle, LogInv, MatchInv, Enabled, Spares;
    SparingIsRun(cs, es);
    RunShape(cs, es);
    if i == 0 {
      InitMatch(cs[0]);
    } else {
      RunMatch(cs, es, i - 1);
      RunLog(cs, es, i - 1);
      SpareStep(cs, es, i - 1);
      NextMatch(cs[i - 1], es[i - 1]);
    }
  }

  // ----- the theorem -----

  lemma {:induction false} SameTermSamePrefix(created: set<Creation>, a: seq<LogEntry>, b: seq<LogEntry>, i: nat)
    requires Unique(created) && Anchored(created, a) && Anchored(created, b)
    requires WellIndexed(a) && WellIndexed(b)
    requires i < |a| && i < |b| && a[i].term == b[i].term
    ensures a[..i + 1] == b[..i + 1]
  {
    assert FitsAt(created, a, i) && FitsAt(created, b, i);
    var x :| Creation(a[i].term, a[i].id, a[i].command, PrevTerm(a, i), x) in created;
    var y :| Creation(b[i].term, b[i].id, b[i].command, PrevTerm(b, i), y) in created;
    assert a[i] == b[i] && PrevTerm(a, i) == PrevTerm(b, i);
    if i > 0 {
      SameTermSamePrefix(created, a, b, i - 1);
      assert a[..i + 1] == a[..i] + [a[i]] && b[..i + 1] == b[..i] + [b[i]];
    }
  }

  /** What the invariants say about one node. */
  lemma NodeLogFacts(c: State, n: NodeId)
    requires BaseInv(c) && MatchInv(c) && n in c.nodes
    ensures WellIndexed(c.nodes[n].p.log) && Anchored(c.h.created, c.nodes[n].p.log) && Unique(c.h.created)
    ensures c.nodes[n].pending.Some? ==>
              var e := c.nodes[n].pending.value.entry;
              e.id == |c.nodes[n].p.log| && Fits(c.h.created, e, PrevTerm(c.nodes[n].p.log, |c.nodes[n].p.log|))
  {
    assert NodeInv(c.nodes[n]) && NodeAnchored(c.h.created, c.nodes[n]);
  }

  /** The invariants at two moments of a sparing run. */
  lemma TwoMoments(cs: seq<State>, es: seq<Event>, j: nat, k: nat, n: NodeId)
    requires SparingRun(cs, es) && j <= k < |cs| && n in cs[j].nodes
    ensures BaseInv(cs[j]) && MatchInv(cs[j]) && BaseInv(cs[k]) && MatchInv(cs[k])
    ensures cs[j].h.created <= cs[k].h.created
  {
    hide SparingRun, Run, MatchInv, NodeInv;
    SparingIsRun(cs, es);
    RunMatch(cs, es, j);
    RunMatch(cs, es, k);
    RunBase(cs, es, j);
    RunBase(cs, es, k);
    TermsRise(cs, es, j, k, n);
  }

  /** Log Matching, within one moment and across time: if the log of a at one moment of the run and the log of b at
      the same or a later moment hold the same term at index i, they are identical on 0..i, commands included. */
  lemma LogMatching(cs: seq<State>, es: seq<Event>, j: nat, k: nat, a: NodeId, b: NodeId, i: nat)
    requires SparingRun(cs, es) && j <= k < |cs| && a in cs[j].nodes && b in cs[k].nodes
    requires i < |cs[j].nodes[a].p.log| && i < |cs[k].nodes[b].p.log|
    requires cs[j].nodes[a].p.log[i].term == cs[k].nodes[b].p.log[i].term
    ensures cs[j].nodes[a].p.log[..i + 1] == cs[k].nodes[b].p.log[..i + 1]
  {
    hide SparingRun, BaseInv, MatchInv, NodeInv, Unique, Anchored;
    TwoMoments(cs, es, j, k, a);
    NodeLogFacts(cs[j], a);
    NodeLogFacts(cs[k], b);
    AnchoredGrows(cs[j].h.created, cs[k].h.created, cs[j].nodes[a].p.log);
    SameTermSamePrefix(cs[k].h.created, cs[j].nodes[a].p.log, cs[k].nodes[b].p.log, i);
  }

  // ----- a leader's own log -----

  lemma LeaderExtends(s: Node, input: Input, t: Node)
    requires NodeInv(s) && Step(s, input, t) && LeaderSpared(s, input) && s.role.Leader? && t.role.Leader?
    ensures s.p.log <= t.p.log
  {
    hide NodeInv, ElectionStep, SendStep, TrailStep, Rewrites, Rewritten;
  }

  lemma LeaderExtendsInStep(c: State, e: Event, n: NodeId)
    requires BaseInv(c) && Enabled(c, e) && Spares(c, e) && n in c.nodes && n in Next(c, e).nodes
    requires c.nodes[n].role.Leader? && Next(c, e).nodes[n].role.Leader?
    ensures c.nodes[n].p.log <= Next(c, e).nodes[n].p.log
  {
    hide Handle, NodeInv, Step, LeaderSpared, Record;
    if e.Act? && e.n == n {
      ActAdvances(c, n, e.input);
      LeaderExtends(c.nodes[n], e.input, Handle(c.nodes[n], e.input));
    }
  }

  /** Leader Append-Only: as long as a node leads, it only extends its log. */
  lemma {:induction false} LeaderAppendOnly(cs: seq<State>, es: seq<Event>, i: nat, j: nat, n: NodeId)
    requires SparingRun(cs, es) && i <= j < |cs|
    requires forall k :: i <= k <= j ==> n in cs[k].nodes && cs[k].nodes[n].role.Leader?
    ensures cs[i].nodes[n].p.log <= cs[j].nodes[n].p.log
  {
    hide SparingRun, Run, Next, Enabled, Spares, BaseInv;
    SparingIsRun(cs, es);
    if i < j {
      LeaderAppendOnly(cs, es, i, j - 1, n);
      SpareStep(cs, es, j - 1);
      RunBase(cs, es, j - 1);
      LeaderExtendsInStep(cs[j - 1], es[j - 1], n);
    }
  }
}
