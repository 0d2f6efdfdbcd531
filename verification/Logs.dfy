/** What the logs look like in every reachable state, without any assumption on delivery:
    terms are sorted and bounded, and every entry was made by the leader of its term. */
module Logs {
  import opened Types
  import opened NodeSpec
  import opened NodeFacts
  import opened Cluster
  import opened Elections

  ghost predicate CarriesEntry(m: Message) {
    m.AppendRequest? && m.entries != []
  }

  function EntryOf(m: Message): LogEntry
    requires m.AppendRequest?
  {
    LogEntry(m.commit, m.term, m.entries)
  }

  // ----- sorted and bounded terms -----

  ghost predicate Sorted(log: seq<LogEntry>) {
    forall i, j :: 0 <= i <= j < |log| ==> log[i].term <= log[j].term
  }

  ghost predicate Bounded(log: seq<LogEntry>, term: nat) {
    forall i :: 0 <= i < |log| ==> log[i].term <= term
  }

  ghost predicate Ordered(s: Node) {
    Sorted(s.p.log) && Bounded(s.p.log, s.p.term)
  }

  /** A request with an entry at index k > 0 names index k-1, and a term no later than the entry's;
      at index 0 it names no predecessor. */
  ghost predicate Chained(m: Message)
    requires m.AppendRequest?
  {
    if m.commit > 0 then m.prevIndex == m.commit - 1 && m.prevTerm <= m.term
    else m.prevIndex == 0 && m.prevTerm == 0
  }

  ghost predicate SortedInv(c: State) {
    && (forall n :: n in c.nodes ==> Ordered(c.nodes[n]))
    && (forall m :: m in c.net && CarriesEntry(m) ==> Chained(m))
  }

  lemma StepOrdered(s: Node, input: Input, t: Node)
    requires NodeInv(s) && Step(s, input, t) && Ordered(s)
    requires Stores(s, input) ==> Chained(input.message)
    ensures Ordered(t)
  {
  }

  lemma SentChained(s: Node, input: Input, t: Node, m: Message)
    requires NodeInv(s) && Step(s, input, t) && Ordered(s)
    requires m in t.sends && CarriesEntry(m)
    ensures Chained(m)
  {
  }

  lemma AdvanceSorted(c: State, n: NodeId, input: Input, t: Node)
    requires Advances(c, n, input, t) && SortedInv(c)
    ensures SortedInv(Advance(c, n, input, t))
  {
    hide Step, NodeInv;
    StepOrdered(c.nodes[n], input, t);
    forall m | m in t.sends && CarriesEntry(m) ensures Chained(m) { SentChained(c.nodes[n], input, t, m); }
  }

  lemma CrashOrdered(s: Node, t: Node, p: Persistent)
    requires Ordered(s) && Ordered(t) && CrashPoint(s, t, p)
    ensures Sorted(p.log) && Bounded(p.log, p.term)
  {
  }

  lemma RecoverSorted(c: State, n: NodeId, p: Persistent, made: set<Creation>)
    requires Found(c, n, p) && SortedInv(c) && Sorted(p.log) && Bounded(p.log, p.term)
    ensures SortedInv(Recover(c, n, p, made))
  {
  }

  // ----- provenance -----

  ghost predicate Made(created: set<Creation>, e: LogEntry) {
    exists q, l :: Creation(e.term, e.id, e.command, q, l) in created
  }

  ghost predicate AllMade(created: set<Creation>, log: seq<LogEntry>) {
    forall i :: 0 <= i < |log| ==> Made(created, log[i])
  }

  ghost predicate NodeMade(created: set<Creation>, s: Node) {
    AllMade(created, s.p.log) && (s.pending.Some? ==> Made(created, s.pending.value.entry))
  }

  ghost predicate OriginInv(c: State) {
    && (forall n :: n in c.nodes ==> NodeMade(c.h.created, c.nodes[n]))
    && (forall m :: m in c.net && CarriesEntry(m) ==> Made(c.h.created, EntryOf(m)))
    && (forall k :: k in c.h.created ==> (k.term, k.leader) in c.h.leaders)
  }

  lemma MadeGrows(a: set<Creation>, b: set<Creation>, e: LogEntry)
    requires a <= b && Made(a, e)
    ensures Made(b, e)
  {
  }

  lemma StepMade(s: Node, input: Input, t: Node, a: set<Creation>, b: set<Creation>)
    requires NodeInv(s) && Step(s, input, t) && NodeMade(a, s) && a <= b
    requires Stores(s, input) ==> Made(a, EntryOf(input.message))
    requires CreatedBy(s, input) <= b
    ensures NodeMade(b, t)
  {
  }

  lemma SentMade(s: Node, input: Input, t: Node, m: Message, created: set<Creation>)
    requires NodeInv(s) && Step(s, input, t) && NodeMade(created, s)
    requires m in t.sends && CarriesEntry(m)
    ensures Made(created, EntryOf(m))
  {
  }

  lemma AdvanceOrigin(c: State, n: NodeId, input: Input, t: Node)
    requires Advances(c, n, input, t) && LeaderInv(c) && OriginInv(c)
    ensures OriginInv(Advance(c, n, input, t))
  {
    hide Step, NodeInv, Made, BallotInv, CountInv;
    var s, c' := c.nodes[n], Advance(c, n, input, t);
    StepMade(s, input, t, c.h.created, c'.h.created);
    forall e | Made(c.h.created, e) ensures Made(c'.h.created, e) { MadeGrows(c.h.created, c'.h.created, e); }
    forall m | m in t.sends && CarriesEntry(m) ensures Made(c'.h.created, EntryOf(m)) {
      SentMade(s, input, t, m, c.h.created);
    }
    forall k | k in c'.nodes ensures NodeMade(c'.h.created, c'.nodes[k]) {
      if k != n { assert NodeMade(c.h.created, c.nodes[k]); }
    }
  }

  lemma RecoverOrigin(c: State, n: NodeId, p: Persistent, made: set<Creation>)
    requires Found(c, n, p) && OriginInv(c) && AllMade(c.h.created + made, p.log)
    requires forall k :: k in made ==> (k.term, k.leader) in c.h.leaders
    ensures OriginInv(Recover(c, n, p, made))
  {
  }

  // ----- both, over runs -----

  ghost predicate LogInv(c: State) {
    ElectionInv(c) && SortedInv(c) && OriginInv(c)
  }

  lemma AdvanceLog(c: State, n: NodeId, input: Input, t: Node)
    requires Advances(c, n, input, t) && LogInv(c)
    ensures LogInv(Advance(c, n, input, t))
  {
    AdvanceElection(c, n, input, t);
    AdvanceSorted(c, n, input, t);
    AdvanceOrigin(c, n, input, t);
  }

  lemma CreatorLeads(c: State, n: NodeId, input: Input)
    requires ElectionInv(c) && n in c.nodes
    ensures forall k :: k in CreatedBy(c.nodes[n], input) ==> (k.term, k.leader) in c.h.leaders
  {
  }

  lemma CrashPointOrdered(c: State, n: NodeId, input: Input, t: Node, p: Persistent)
    requires Advances(c, n, input, t) && SortedInv(c) && CrashPoint(c.nodes[n], t, p)
    ensures Sorted(p.log) && Bounded(p.log, p.term)
  {
    hide Step, NodeInv, CrashPoint;
    StepOrdered(c.nodes[n], input, t);
    CrashOrdered(c.nodes[n], t, p);
  }

  lemma CrashPointMade(c: State, n: NodeId, input: Input, t: Node, p: Persistent)
    requires Advances(c, n, input, t) && OriginInv(c) && CrashPoint(c.nodes[n], t, p)
    ensures AllMade(c.h.created + CreatedBy(c.nodes[n], input), p.log)
  {
    hide Step, NodeInv, Made;
    var s, made := c.nodes[n], CreatedBy(c.nodes[n], input);
    StepMade(s, input, t, c.h.created, c.h.created + made);
    forall e | Made(c.h.created, e) ensures Made(c.h.created + made, e) {
      MadeGrows(c.h.created, c.h.created + made, e);
    }
    assert NodeMade(c.h.created, s);
  }

  lemma RecoverLog(c: State, n: NodeId, input: Input, t: Node, p: Persistent)
    requires Advances(c, n, input, t) && LogInv(c) && Found(c, n, p) && CrashPoint(c.nodes[n], t, p)
    ensures LogInv(Recover(c, n, p, CreatedBy(c.nodes[n], input)))
  {
    hide Step, NodeInv, BaseInv, ElectionInv, SortedInv, OriginInv, CreatedBy, CrashPoint, Recover;
    var made := CreatedBy(c.nodes[n], input);
    CreatorLeads(c, n, input);
    CrashPointOrdered(c, n, input, t, p);
    CrashPointMade(c, n, input, t, p);
    RecoverElection(c, n, p, made);
    RecoverSorted(c, n, p, made);
    RecoverOrigin(c, n, p, made);
  }

  lemma CrashLog(c: State, n: NodeId)
    requires LogInv(c) && n in c.nodes
    ensures LogInv(Recover(c, n, c.nodes[n].p, {}))
  {
    hide Recover, CountInv, BallotInv, LeaderInv, SortedInv, OriginInv, NodeInv;
    var p := c.nodes[n].p;
    StoredFacts(c, n);
    assert c.h.created + {} == c.h.created;
    RecoverElection(c, n, p, {});
    RecoverSorted(c, n, p, {});
    RecoverOrigin(c, n, p, {});
  }

  lemma StoredFacts(c: State, n: NodeId)
    requires LogInv(c) && n in c.nodes
    ensures Found(c, n, c.nodes[n].p) && AllMade(c.h.created, c.nodes[n].p.log)
    ensures Sorted(c.nodes[n].p.log) && Bounded(c.nodes[n].p.log, c.nodes[n].p.term)
  {
    assert Ordered(c.nodes[n]) && NodeMade(c.h.created, c.nodes[n]);
  }

  lemma NextLog(c: State, e: Event)
    requires LogInv(c) && Enabled(c, e)
    ensures LogInv(Next(c, e))
  {
    match e
    case Act(n, input) =>
      ActAdvances(c, n, input);
      AdvanceLog(c, n, input, Handle(c.nodes[n], input));
    case Crash(n) =>
      CrashLog(c, n);
    case Interrupt(n, input, writes) =>
      InterruptFinds(c, n, input, writes);
      RecoverLog(c, n, input, Handle(c.nodes[n], input), Handle(c.nodes[n], input).trail[writes - 1]);
  }

  lemma InitLog(c: State)
    requires Init(c)
    ensures LogInv(c)
  {
  }

  lemma {:induction false} RunLog(cs: seq<State>, es: seq<Event>, i: nat)
    requires Run(cs, es) && i < |cs|
    ensures LogInv(cs[i])
  {
    hide Run, Init, Next, Handle, LogInv, Enabled;
    RunShape(cs, es);
    if i == 0 {
      InitLog(cs[0]);
    } else {
      RunLog(cs, es, i - 1);
      RunStep(cs, es, i - 1);
      NextLog(cs[i - 1], es[i - 1]);
    }
  }
}
