/** Where entries come from, and how their terms are ordered, over whole runs and without assumption (A). */
module Provenance {
  import opened Types
  import opened NodeFacts
  import opened Cluster
  import opened ElectionTheorems
  import opened Logs

  /** The entry is in a log, waits as a pending commit, or travels in a request. */
  ghost predicate Appears(c: State, e: LogEntry) {
    || (exists n, i :: n in c.nodes && 0 <= i < |c.nodes[n].p.log| && c.nodes[n].p.log[i] == e)
    || (exists n :: n in c.nodes && c.nodes[n].pending.Some? && c.nodes[n].pending.value.entry == e)
    || (exists m :: m in c.net && CarriesEntry(m) && EntryOf(m) == e)
  }

  /** In step k the node accepts a commit_command call that makes the entry. */
  ghost predicate Commands(cs: seq<State>, es: seq<Event>, k: nat, n: NodeId, e: LogEntry) {
    && k < |es| && k < |cs| && !es[k].Crash? && es[k].n == n && n in cs[k].nodes
    && Creates(cs[k].nodes[n], es[k].input) && e == NewEntry(cs[k].nodes[n], es[k].input)
  }

  ghost function CreatedIn(c: State, e: Event): set<Creation> {
    if !e.Crash? && e.n in c.nodes then CreatedBy(c.nodes[e.n], e.input) else {}
  }

  lemma NextCreates(c: State, e: Event)
    requires Enabled(c, e)
    ensures Next(c, e).h.created == c.h.created + CreatedIn(c, e)
  {
  }

  lemma CreatedInStep(c: State, e: Event, x: Creation)
    requires BaseInv(c) && Enabled(c, e) && x in Next(c, e).h.created && x !in c.h.created
    ensures !e.Crash? && e.n == x.leader && e.n in c.nodes && Creates(c.nodes[e.n], e.input)
    ensures LogEntry(x.index, x.term, x.command) == NewEntry(c.nodes[e.n], e.input)
  {
    hide Next, NodeInv;
    NextCreates(c, e);
  }

  lemma {:induction false} CreatedInRun(cs: seq<State>, es: seq<Event>, i: nat, x: Creation) returns (k: nat)
    requires Run(cs, es) && i < |cs| && x in cs[i].h.created
    ensures k < i && Commands(cs, es, k, x.leader, LogEntry(x.index, x.term, x.command))
  {
    hide Run, Init, Next, Enabled, BaseInv, Creates;
    RunShape(cs, es);
    NothingMadeYet(cs[0]);
    RunStep(cs, es, i - 1);
    RunBase(cs, es, i - 1);
    k := i - 1;
    if x in cs[i - 1].h.created {
      k := CreatedInRun(cs, es, i - 1, x);
    } else {
      CreatedInStep(cs[i - 1], es[i - 1], x);
    }
  }

  lemma NothingMadeYet(c: State)
    requires Init(c)
    ensures c.h.created == {}
  {
  }

  /** Every entry anywhere was made by a commit_command call on the one node that ever leads its term. */
  lemma EntriesComeFromLeader(cs: seq<State>, es: seq<Event>, i: nat, e: LogEntry) returns (k: nat, n: NodeId)
    requires Run(cs, es) && i < |cs| && Appears(cs[i], e)
    ensures k < i && Commands(cs, es, k, n, e) && Leads(cs[k], n, e.term)
    ensures forall j, x :: 0 <= j < |cs| && Leads(cs[j], x, e.term) ==> x == n
  {
    hide Run, Init, Next, BaseInv;
    RunShape(cs, es);
    EntryMade(cs, es, i, e);
    var q, l :| Creation(e.term, e.id, e.command, q, l) in cs[i].h.created;
    RunBase(cs, es, i);
    k := CreatedInRun(cs, es, i, Creation(e.term, e.id, e.command, q, l));
    n := l;
    forall j, x | 0 <= j < |cs| && Leads(cs[j], x, e.term) ensures x == n {
      ElectionSafety(cs, es, j, k, x, n, e.term);
    }
  }

  lemma EntryMade(cs: seq<State>, es: seq<Event>, i: nat, e: LogEntry)
    requires Run(cs, es) && i < |cs| && Appears(cs[i], e)
    ensures Made(cs[i].h.created, e)
  {
    hide Run;
    RunShape(cs, es);
    RunLog(cs, es, i);
    assert forall n :: n in cs[i].nodes ==> NodeMade(cs[i].h.created, cs[i].nodes[n]);
  }

  /** Terms never decrease along a log and never exceed the node's term, and every request with an entry at an
      index above 0 names the index before it and a term no later than the entry's. */
  lemma TermsSorted(cs: seq<State>, es: seq<Event>, i: nat, n: NodeId)
    requires Run(cs, es) && i < |cs| && n in cs[i].nodes
    ensures Sorted(cs[i].nodes[n].p.log) && Bounded(cs[i].nodes[n].p.log, cs[i].nodes[n].p.term)
    ensures forall m :: m in cs[i].net && CarriesEntry(m) && m.commit > 0 ==>
              m.prevIndex == m.commit - 1 && m.prevTerm <= m.term
  {
    hide Run;
    RunShape(cs, es);
    RunLog(cs, es, i);
    assert Ordered(cs[i].nodes[n]);
    assert forall m :: m in cs[i].net && CarriesEntry(m) ==> Chained(m);
  }
}
