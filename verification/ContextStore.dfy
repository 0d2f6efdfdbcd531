/** The context store: the raft data in memory, and a database of byte strings that a restart reads. */
module ContextStores {
  import opened Types
  import opened Encoding

  type Database = map<string, seq<Byte>>

  // ----- what a restart reads -----

  /** A missing value, or one of the wrong size, reads as zero. */
  function ReadNumber(db: Database, key: string, size: nat): nat {
    if key in db && |db[key]| == size then FromBytes(db[key]) else 0
  }

  function ReadFlag(db: Database, key: string): bool {
    key in db && |db[key]| == 1 && db[key][0] != 0
  }

  /** A missing command reads as the bytes of the term, since the two reads share one buffer. */
  function ReadEntry(db: Database, id: nat): Option<LogEntry> {
    if TermKey(id) !in db || |db[TermKey(id)]| < 8 then None
    else
      var term := db[TermKey(id)];
      Some(LogEntry(id, FromBytes(term[..8]), if DataKey(id) in db then db[DataKey(id)] else term))
  }

  /** The entries below n, up to the first that cannot be read. */
  function ReadLog(db: Database, n: nat): (log: seq<LogEntry>)
    ensures |log| <= n && WellIndexed(log)
  {
    if n == 0 then []
    else
      var log := ReadLog(db, n - 1);
      var e := ReadEntry(db, n - 1);
      if |log| < n - 1 || e.None? then log else log + [e.value]
  }

  function LogSize(db: Database): nat {
    ReadNumber(db, LOG_SIZE_KEY, 8)
  }

  function Reload(db: Database): (p: Persistent)
    ensures WellIndexed(p.log)
  {
    Persistent(ReadNumber(db, CURRENT_TERM_KEY, 8), ReadNumber(db, VOTED_FOR_KEY, 4),
               ReadFlag(db, VOTED_KEY), ReadLog(db, LogSize(db)))
  }

  /** The log that is read is the longest prefix of readable entries below n. */
  lemma {:induction false} LongestReadablePrefix(db: Database, n: nat)
    ensures forall i :: 0 <= i < |ReadLog(db, n)| ==> ReadEntry(db, i) == Some(ReadLog(db, n)[i])
    ensures |ReadLog(db, n)| < n ==> ReadEntry(db, |ReadLog(db, n)|).None?
  {
    hide ReadEntry;
    if n > 0 { LongestReadablePrefix(db, n - 1); }
  }

  /** What counts as readable, and what damaged values read as. */
  lemma DamagedValues(db: Database, id: nat)
    ensures ReadEntry(db, id).None? <==> TermKey(id) !in db || |db[TermKey(id)]| < 8
    ensures CURRENT_TERM_KEY !in db || |db[CURRENT_TERM_KEY]| != 8 ==> Reload(db).term == 0
    ensures VOTED_FOR_KEY !in db || |db[VOTED_FOR_KEY]| != 4 ==> Reload(db).votedFor == 0
    ensures Reload(db).voted ==> VOTED_KEY in db && |db[VOTED_KEY]| == 1
    ensures LOG_SIZE_KEY !in db || |db[LOG_SIZE_KEY]| != 8 ==> Reload(db).log == []
  {
  }

  lemma StoredNumberFits(db: Database, key: string)
    ensures ReadNumber(db, key, 8) < TWO_TO_THE_64
  {
    WordSizes();
    if key in db { BytesBounded(db[key]); }
  }

  // ----- the effect of one write on what is read -----

  lemma {:induction false} SameEntriesSameLog(db: Database, db': Database, n: nat)
    requires forall i :: 0 <= i < n ==> ReadEntry(db, i) == ReadEntry(db', i)
    ensures ReadLog(db, n) == ReadLog(db', n)
  {
    if n > 0 {
      assert ReadEntry(db, n - 1) == ReadEntry(db', n - 1);
      SameEntriesSameLog(db, db', n - 1);
    }
  }

  lemma OtherKeySameLog(db: Database, key: string, value: seq<Byte>, n: nat)
    requires forall i :: 0 <= i < n ==> key != TermKey(i) && key != DataKey(i)
    ensures ReadLog(db[key := value], n) == ReadLog(db, n)
  {
    SameEntriesSameLog(db, db[key := value], n);
  }

  lemma WriteTerm(db: Database, term: nat)
    requires term < TWO_TO_THE_64
    ensures Reload(db[CURRENT_TERM_KEY := ToBytes(term, 8)]) == Reload(db).(term := term)
    ensures LogSize(db[CURRENT_TERM_KEY := ToBytes(term, 8)]) == LogSize(db)
  {
    forall i { SingleKeysDiffer(i); }
    OtherKeySameLog(db, CURRENT_TERM_KEY, ToBytes(term, 8), LogSize(db));
    WordSizes();
    BytesRoundTrip(term, 8);
    assert CURRENT_TERM_KEY[0] != VOTED_KEY[0] && CURRENT_TERM_KEY[0] != LOG_SIZE_KEY[0];
    assert CURRENT_TERM_KEY[0] != VOTED_FOR_KEY[0];
  }

  lemma WriteVotedFor(db: Database, id: NodeId)
    requires id < TWO_TO_THE_32
    ensures Reload(db[VOTED_FOR_KEY := ToBytes(id, 4)]) == Reload(db).(votedFor := id)
    ensures LogSize(db[VOTED_FOR_KEY := ToBytes(id, 4)]) == LogSize(db)
  {
    forall i { SingleKeysDiffer(i); }
    OtherKeySameLog(db, VOTED_FOR_KEY, ToBytes(id, 4), LogSize(db));
    WordSizes();
    BytesRoundTrip(id, 4);
    assert VOTED_FOR_KEY[0] != CURRENT_TERM_KEY[0] && VOTED_FOR_KEY[0] != LOG_SIZE_KEY[0];
    assert |VOTED_FOR_KEY| != |VOTED_KEY|;
  }

  function FlagBytes(flag: bool): seq<Byte> {
    if flag then [1] else [0]
  }

  lemma WriteVoted(db: Database, voted: bool)
    ensures Reload(db[VOTED_KEY := FlagBytes(voted)]) == Reload(db).(voted := voted)
    ensures LogSize(db[VOTED_KEY := FlagBytes(voted)]) == LogSize(db)
  {
    forall i { SingleKeysDiffer(i); }
    OtherKeySameLog(db, VOTED_KEY, FlagBytes(voted), LogSize(db));
    assert VOTED_KEY[0] != CURRENT_TERM_KEY[0] && VOTED_KEY[0] != LOG_SIZE_KEY[0];
    assert |VOTED_FOR_KEY| != |VOTED_KEY|;
  }

  /** Entries at or above the stored size are invisible: writing one changes nothing that is read. */
  lemma WriteBeyondSize(db: Database, id: nat, key: string, value: seq<Byte>)
    requires key == TermKey(id) || key == DataKey(id)
    requires LogSize(db) <= id
    ensures Reload(db[key := value]) == Reload(db)
    ensures LogSize(db[key := value]) == LogSize(db)
  {
    SingleKeysDiffer(id);
    forall i | 0 <= i < LogSize(db) ensures key != TermKey(i) && key != DataKey(i) {
      EntryKeysDiffer(i, id);
      EntryKeysDiffer(id, i);
    }
    OtherKeySameLog(db, key, value, LogSize(db));
  }

  lemma {:induction false} ReadLogPrefix(db: Database, m: nat, n: nat)
    requires m <= n && |ReadLog(db, n)| == n
    ensures ReadLog(db, m) == ReadLog(db, n)[..m]
    decreases n - m
  {
    if m < n {
      ReadLogPrefix(db, m + 1, n);
      assert ReadLog(db, n)[..m + 1][..m] == ReadLog(db, n)[..m];
    }
  }

  /** Writing a smaller size cuts the log that is read. */
  lemma WriteSmallerSize(db: Database, size: nat)
    requires size <= LogSize(db) == |Reload(db).log| && LogSize(db) < TWO_TO_THE_64
    ensures Reload(db[LOG_SIZE_KEY := ToBytes(size, 8)]) == Reload(db).(log := Reload(db).log[..size])
    ensures LogSize(db[LOG_SIZE_KEY := ToBytes(size, 8)]) == size
  {
    WriteSize(db, size);
    ReadLogPrefix(db, size, LogSize(db));
  }

  lemma WriteSize(db: Database, size: nat)
    requires size < TWO_TO_THE_64
    ensures Reload(db[LOG_SIZE_KEY := ToBytes(size, 8)]) == Reload(db).(log := ReadLog(db, size))
    ensures LogSize(db[LOG_SIZE_KEY := ToBytes(size, 8)]) == size
  {
    forall i { SingleKeysDiffer(i); }
    OtherKeySameLog(db, LOG_SIZE_KEY, ToBytes(size, 8), size);
    WordSizes();
    BytesRoundTrip(size, 8);
    assert LOG_SIZE_KEY[0] != CURRENT_TERM_KEY[0] && LOG_SIZE_KEY[0] != VOTED_KEY[0];
    assert LOG_SIZE_KEY[0] != VOTED_FOR_KEY[0];
  }

  /** The size written last makes the new entry visible. */
  lemma WriteLargerSize(db: Database, e: LogEntry)
    requires LogSize(db) == |Reload(db).log| == e.id && e.id + 1 < TWO_TO_THE_64
    requires ReadEntry(db, e.id) == Some(e)
    ensures Reload(db[LOG_SIZE_KEY := ToBytes(e.id + 1, 8)]) == Reload(db).(log := Reload(db).log + [e])
    ensures LogSize(db[LOG_SIZE_KEY := ToBytes(e.id + 1, 8)]) == e.id + 1
  {
    WriteSize(db, e.id + 1);
  }

  lemma WrittenEntry(db: Database, e: LogEntry)
    requires e.term < TWO_TO_THE_64
    ensures ReadEntry(db[TermKey(e.id) := ToBytes(e.term, 8)][DataKey(e.id) := e.command], e.id) == Some(e)
  {
    EntryKeysDiffer(e.id, e.id);
    WordSizes();
    BytesRoundTrip(e.term, 8);
    assert ToBytes(e.term, 8)[..8] == ToBytes(e.term, 8);
  }

  // ----- the store -----

  class ContextStore {
    /** Whether the database takes its k-th write; a database that could not be opened takes none. */
    const accepts: nat -> bool

    var db: Database
    var puts: nat

    var currentTerm: nat
    var votedFor: NodeId
    var voted: bool
    var voteReceived: nat
    var logs: seq<LogEntry>

    /** What a restart would load after each write so far. */
    ghost var trail: seq<Persistent>

    ghost predicate Healthy()
    {
      forall k :: accepts(k)
    }

    function P(): Persistent
      reads this
    {
      Persistent(currentTerm, votedFor, voted, logs)
    }

    /** A restart would load exactly what is in memory. */
    ghost predicate Synced()
      reads this
    {
      Reload(db) == P() && LogSize(db) == |logs| < TWO_TO_THE_64
    }

    /** Opens the database: init_current_term, init_voted_for, init_voted, init_logs. */
    constructor (contents: Database, accepts: nat -> bool)
      ensures P() == Reload(contents) && voteReceived == 0 && currentTerm < TWO_TO_THE_64
      ensures Healthy() ==> Synced()
      ensures this.accepts == accepts
    {
      this.accepts := accepts;
      db, puts := contents, 0;
      currentTerm := ReadNumber(contents, CURRENT_TERM_KEY, 8);
      votedFor := ReadNumber(contents, VOTED_FOR_KEY, 4);
      voted := ReadFlag(contents, VOTED_KEY);
      voteReceived, logs, trail := 0, [], [];
      new;
      StoredNumberFits(contents, CURRENT_TERM_KEY);
      StoredNumberFits(contents, LOG_SIZE_KEY);
      InitLogs();
    }

    /** Loads entries up to the stored size; at the first unreadable one it stops and stores the smaller size. */
    method InitLogs()
      requires LogSize(db) < TWO_TO_THE_64
      modifies this
      ensures logs == ReadLog(old(db), LogSize(old(db)))
      ensures Healthy() ==> Reload(db) == Reload(old(db)) && LogSize(db) == |logs|
      ensures currentTerm == old(currentTerm) && votedFor == old(votedFor) && voted == old(voted)
      ensures voteReceived == old(voteReceived)
    {
      logs := [];
      var i := 0;
      while i < LogSize(db)
        invariant 0 <= i <= LogSize(db)
        invariant logs == ReadLog(db, i) && |logs| == i
        invariant unchanged(`db) && unchanged(`currentTerm) && unchanged(`votedFor) && unchanged(`voted)
        invariant unchanged(`voteReceived)
      {
        var log := ReadEntry(db, i);
        if log == None {
          StoppedLog(db, i, LogSize(db));
          WriteSize(db, i);
          var _ := Put(LOG_SIZE_KEY, ToBytes(i, 8));
          break;
        }
        logs := logs + [log.value];
        i := i + 1;
      }
    }

    method Put(key: string, value: seq<Byte>) returns (ok: bool)
      modifies `db, `puts, `trail
      ensures ok == accepts(old(puts)) && puts == old(puts) + 1
      ensures db == if ok then old(db)[key := value] else old(db)
      ensures trail == if ok then old(trail) + [Reload(db)] else old(trail)
    {
      ok := accepts(puts);
      puts := puts + 1;
      if ok {
        db := db[key := value];
        trail := trail + [Reload(db)];
      }
    }

    method SetCurrentTerm(term: nat) returns (ok: bool)
      requires term < TWO_TO_THE_64
      modifies this
      ensures P() == old(P()).(term := term) && voteReceived == old(voteReceived)
      ensures ok && old(Synced()) ==> Synced() && trail == old(trail) + [P()]
      ensures ok ==> db == Perform(old(db), Writes(|old(logs)|, NewTerm(term)))
      ensures Healthy() ==> ok
    {
      currentTerm := term;
      WriteTerm(db, term);
      var write := (CURRENT_TERM_KEY, ToBytes(term, 8));
      PerformThree(db, write, write, write);
      ok := Put(CURRENT_TERM_KEY, ToBytes(term, 8));
    }

    method SetVotedFor(id: NodeId) returns (ok: bool)
      requires id < TWO_TO_THE_32
      modifies this
      ensures P() == old(P()).(votedFor := id) && voteReceived == old(voteReceived)
      ensures ok && old(Synced()) ==> Synced() && trail == old(trail) + [P()]
      ensures ok ==> db == Perform(old(db), Writes(|old(logs)|, NewVotedFor(id)))
      ensures Healthy() ==> ok
    {
      votedFor := id;
      WriteVotedFor(db, id);
      var write := (VOTED_FOR_KEY, ToBytes(id, 4));
      PerformThree(db, write, write, write);
      ok := Put(VOTED_FOR_KEY, ToBytes(id, 4));
    }

    method SetVoted(flag: bool) returns (ok: bool)
      modifies this
      ensures P() == old(P()).(voted := flag) && voteReceived == old(voteReceived)
      ensures ok && old(Synced()) ==> Synced() && trail == old(trail) + [P()]
      ensures ok ==> db == Perform(old(db), Writes(|old(logs)|, NewVoted(flag)))
      ensures Healthy() ==> ok
    {
      voted := flag;
      WriteVoted(db, flag);
      var write := (VOTED_KEY, FlagBytes(flag));
      PerformThree(db, write, write, write);
      ok := Put(VOTED_KEY, FlagBytes(flag));
    }

    method IncreaseVoteReceived()
      modifies `voteReceived
      ensures voteReceived == old(voteReceived) + 1
    {
      voteReceived := voteReceived + 1;
    }

    method ResetVoteReceived()
      modifies `voteReceived
      ensures voteReceived == 0
    {
      voteReceived := 0;
    }

    function Log(id: nat): Option<LogEntry>
      reads this
    {
      if |logs| <= id then None else Some(logs[id])
    }

    function LastLog(): Option<LogEntry>
      reads this
    {
      if logs == [] then None else Some(logs[|logs| - 1])
    }

    /** Writes one part of an entry that the stored size does not cover. */
    method StorePart(ghost id: nat, key: string, value: seq<Byte>) returns (ok: bool)
      requires key == TermKey(id) || key == DataKey(id)
      modifies `db, `puts, `trail
      ensures db == if ok then old(db)[key := value] else old(db)
      ensures Healthy() ==> ok
      ensures old(Synced()) && |logs| <= id ==> Synced()
      ensures old(Synced()) && |logs| <= id ==> trail == old(trail) + if ok then [P()] else []
    {
      if LogSize(db) <= id {
        WriteBeyondSize(db, id, key, value);
      }
      ok := Put(key, value);
    }

    /** Writes the size that makes the entry behind the log visible. */
    method StoreLargerSize(ghost e: LogEntry) returns (ok: bool)
      requires e.id == |logs| && |logs| + 1 < TWO_TO_THE_64 && ReadEntry(db, e.id) == Some(e)
      modifies `db, `puts, `trail
      ensures db == if ok then old(db)[LOG_SIZE_KEY := ToBytes(|logs| + 1, 8)] else old(db)
      ensures Healthy() ==> ok
      ensures !ok && old(Synced()) ==> Synced() && trail == old(trail)
      ensures ok && old(Synced()) ==>
                var p := P().(log := logs + [e]);
                Reload(db) == p && LogSize(db) == |logs| + 1 && trail == old(trail) + [p]
    {
      if LogSize(db) == |logs| == |Reload(db).log| {
        WriteLargerSize(db, e);
      }
      ok := Put(LOG_SIZE_KEY, ToBytes(|logs| + 1, 8));
    }

    /** Three writes: term, data, size. Whether they succeed or not, and wherever the process stops, a restart loads
        the log before the call or the log after it. */
    method PushLog(e: LogEntry) returns (ok: bool)
      requires e.term < TWO_TO_THE_64 && |logs| + 1 < TWO_TO_THE_64
      modifies this
      ensures ok ==> e.id == |old(logs)| && P() == old(P()).(log := old(logs) + [e])
      ensures !ok ==> P() == old(P())
      ensures voteReceived == old(voteReceived)
      ensures e.id != |old(logs)| ==> !ok && trail == old(trail)
      ensures Healthy() && e.id == |old(logs)| ==> ok
      ensures ok ==> db == Perform(old(db), Writes(|old(logs)|, Append(e)))
      ensures old(Synced()) ==> Synced()
      ensures old(Synced()) && ok ==> trail == old(trail) + [old(P()), old(P()), P()]
      ensures old(Synced()) && !ok ==>
                old(trail) <= trail && forall p :: p in trail[|old(trail)|..] ==> p == old(P())
    {
      hide Reload, LogSize, ReadEntry;
      if e.id != |logs| {
        return false;
      }
      WrittenEntry(db, e);
      var writes := Writes(|logs|, Append(e));
      PerformThree(db, writes[0], writes[1], writes[2]);
      ok := StorePart(e.id, TermKey(e.id), ToBytes(e.term, 8));
      if !ok {
        return false;
      }
      ok := StorePart(e.id, DataKey(e.id), e.command);
      if !ok {
        return false;
      }
      ok := StoreLargerSize(e);
      if !ok {
        return false;
      }
      logs := logs + [e];
    }

    /** One write, of the smaller size; the entries above it stay in the database, unseen. */
    method RevertLog(id: nat) returns (ok: bool)
      requires |logs| < TWO_TO_THE_64
      modifies this
      ensures ok <==> id < |old(logs)|
      ensures P() == if ok then old(P()).(log := old(logs)[..id]) else old(P())
      ensures voteReceived == old(voteReceived)
      ensures Healthy() ==> db == Perform(old(db), Writes(|old(logs)|, Cut(id)))
      ensures !ok ==> trail == old(trail) && (old(Synced()) ==> Synced())
      ensures ok && old(Synced()) && Healthy() ==> Synced() && trail == old(trail) + [P()]
    {
      if id >= |logs| {
        return false;
      }
      if LogSize(db) == |logs| == |Reload(db).log| {
        WriteSmallerSize(db, id);
      }
      var write := (LOG_SIZE_KEY, ToBytes(id, 8));
      PerformThree(db, write, write, write);
      logs := logs[..id];
      var _ := Put(LOG_SIZE_KEY, ToBytes(id, 8));
      return true;
    }
  }

  /** Loading stops for good at the first entry that cannot be read. */
  lemma {:induction false} StoppedLog(db: Database, i: nat, n: nat)
    requires i < n && |ReadLog(db, i)| == i && ReadEntry(db, i).None?
    ensures ReadLog(db, n) == ReadLog(db, i)
  {
    if i + 1 < n { StoppedLog(db, i, n - 1); }
  }

  // ----- crash atomicity of any sequence of changes -----

  datatype Change =
    | Append(e: LogEntry)
    | Cut(id: nat)
    | NewTerm(term: nat)
    | NewVotedFor(votedFor: NodeId)
    | NewVoted(voted: bool)

  /** What is stored after a change: entries that do not fit are refused. */
  function Changed(p: Persistent, change: Change): Persistent {
    match change
    case Append(e) => if e.id == |p.log| then p.(log := p.log + [e]) else p
    case Cut(id) => if id < |p.log| then p.(log := p.log[..id]) else p
    case NewTerm(term) => p.(term := term)
    case NewVotedFor(id) => p.(votedFor := id)
    case NewVoted(voted) => p.(voted := voted)
  }

  /** The database writes of one change to a log of this size, in order. */
  function Writes(size: nat, change: Change): seq<(string, seq<Byte>)> {
    match change
    case Append(e) =>
      if e.id == size then
        [(TermKey(e.id), ToBytes(e.term, 8)), (DataKey(e.id), e.command), (LOG_SIZE_KEY, ToBytes(size + 1, 8))]
      else []
    case Cut(id) => if id < size then [(LOG_SIZE_KEY, ToBytes(id, 8))] else []
    case NewTerm(term) => [(CURRENT_TERM_KEY, ToBytes(term, 8))]
    case NewVotedFor(id) => [(VOTED_FOR_KEY, ToBytes(id, 4))]
    case NewVoted(voted) => [(VOTED_KEY, FlagBytes(voted))]
  }

  function Perform(db: Database, writes: seq<(string, seq<Byte>)>): Database {
    if writes == [] then db
    else
      var w := writes[|writes| - 1];
      Perform(db, writes[..|writes| - 1])[w.0 := w.1]
  }

  /** All stored entries can be read, and the numbers fit their words. */
  ghost predicate Readable(db: Database) {
    |Reload(db).log| == LogSize(db) < TWO_TO_THE_64
  }

  ghost predicate FitsWords(change: Change, size: nat) {
    match change
    case Append(e) => e.term < TWO_TO_THE_64 && size + 1 < TWO_TO_THE_64
    case Cut(_) => true
    case NewTerm(term) => term < TWO_TO_THE_64
    case NewVotedFor(id) => id < TWO_TO_THE_32
    case NewVoted(_) => true
  }

  lemma PerformThree(db: Database, a: (string, seq<Byte>), b: (string, seq<Byte>), c: (string, seq<Byte>))
    ensures Perform(db, []) == db && Perform(db, [a]) == db[a.0 := a.1]
    ensures Perform(db, [a, b]) == db[a.0 := a.1][b.0 := b.1]
    ensures Perform(db, [a, b, c]) == db[a.0 := a.1][b.0 := b.1][c.0 := c.1]
  {
    assert [a, b, c][..2] == [a, b] && [a, b][..1] == [a] && [a][..0] == [];
  }

  /** The three writes of a push: the first two are invisible, the third adds the entry. */
  lemma PushSteps(db: Database, e: LogEntry)
    requires Readable(db) && e.id == LogSize(db) && e.term < TWO_TO_THE_64 && e.id + 1 < TWO_TO_THE_64
    ensures var one := db[TermKey(e.id) := ToBytes(e.term, 8)];
            var two := one[DataKey(e.id) := e.command];
            var three := two[LOG_SIZE_KEY := ToBytes(e.id + 1, 8)];
            && Readable(one) && Reload(one) == Reload(db)
            && Readable(two) && Reload(two) == Reload(db)
            && Readable(three) && Reload(three) == Reload(db).(log := Reload(db).log + [e])
  {
    hide Reload, LogSize, ReadEntry;
    var one := db[TermKey(e.id) := ToBytes(e.term, 8)];
    WriteBeyondSize(db, e.id, TermKey(e.id), ToBytes(e.term, 8));
    WriteBeyondSize(one, e.id, DataKey(e.id), e.command);
    WrittenEntry(db, e);
    WriteLargerSize(one[DataKey(e.id) := e.command], e);
  }

  /** One write changes exactly the one number or flag, or cuts the log. */
  lemma SingleWrite(db: Database, change: Change)
    requires Readable(db) && FitsWords(change, LogSize(db))
    requires !change.Append? && (change.Cut? ==> change.id < LogSize(db))
    ensures var after := Perform(db, Writes(LogSize(db), change));
            Readable(after) && Reload(after) == Changed(Reload(db), change)
  {
    hide Reload, LogSize, Perform;
    var write := Writes(LogSize(db), change)[0];
    PerformThree(db, write, write, write);
    match change
    case Cut(id) => WriteSmallerSize(db, id);
    case NewTerm(term) => WriteTerm(db, term);
    case NewVotedFor(id) => WriteVotedFor(db, id);
    case NewVoted(voted) => WriteVoted(db, voted);
    case Append(_) =>
  }

  /** Stopped after any of its writes, a change is stored completely or not at all. */
  lemma ChangeIsAtomic(db: Database, change: Change, j: nat)
    requires Readable(db) && FitsWords(change, LogSize(db)) && j <= |Writes(LogSize(db), change)|
    ensures var writes := Writes(LogSize(db), change);
            var stopped := Perform(db, writes[..j]);
            && Readable(stopped)
            && Reload(stopped) == if j == |writes| then Changed(Reload(db), change) else Reload(db)
  {
    hide Reload, LogSize, Perform;
    var writes := Writes(LogSize(db), change);
    if change.Append? && change.e.id == LogSize(db) {
      PerformThree(db, writes[0], writes[1], writes[2]);
      PushSteps(db, change.e);
      assert writes[..0] == [] && writes[..1] == [writes[0]];
      assert writes[..2] == [writes[0], writes[1]] && writes[..3] == writes;
      assert j == 0 || j == 1 || j == 2 || j == 3;
    } else if writes == [] {
      PerformThree(db, ("", []), ("", []), ("", []));
      assert writes[..j] == [];
    } else {
      PerformThree(db, writes[0], writes[0], writes[0]);
      assert writes[..0] == [] && writes[..1] == writes;
      SingleWrite(db, change);
    }
  }

  /** A change, and after how many of its writes the process stops; with all of them done the change is complete,
      and the process may stop or go on. */
  datatype Attempt = Attempt(change: Change, puts: nat)

  function Cutoff(writes: seq<(string, seq<Byte>)>, puts: nat): (j: nat)
    ensures j <= |writes|
  {
    if puts < |writes| then puts else |writes|
  }

  /** The database after the attempts, with a restart after every one that was cut off. */
  function AllAttempted(db: Database, attempts: seq<Attempt>): Database {
    if attempts == [] then db
    else
      var before, last := AllAttempted(db, attempts[..|attempts| - 1]), attempts[|attempts| - 1];
      var writes := Writes(LogSize(before), last.change);
      Perform(before, writes[..Cutoff(writes, last.puts)])
  }

  /** The stored values after the attempts: each takes place completely or not at all. */
  function AllStored(p: Persistent, attempts: seq<Attempt>): Persistent {
    if attempts == [] then p
    else
      var before, last := AllStored(p, attempts[..|attempts| - 1]), attempts[|attempts| - 1];
      if last.puts < |Writes(|before.log|, last.change)| then before else Changed(before, last.change)
  }

  /** Crash atomicity over whole histories: any sequence of changes to log, term and vote, with a crash and a restart
      after any database write of any of them. At every moment a restart loads exactly the result of the changes that
      were complete - whatever reverted and half-written entries the database still holds. */
  lemma {:induction false} StoreIsCrashAtomic(db: Database, attempts: seq<Attempt>)
    requires Readable(db) && |Reload(db).log| + |attempts| < TWO_TO_THE_64
    requires forall x :: x in attempts ==> FitsWords(x.change, 0)
    ensures var after := AllAttempted(db, attempts);
            && Readable(after)
            && Reload(after) == AllStored(Reload(db), attempts)
            && LogSize(after) <= LogSize(db) + |attempts|
  {
    hide Reload, LogSize, Perform, Writes;
    if attempts != [] {
      var init, last := attempts[..|attempts| - 1], attempts[|attempts| - 1];
      StoreIsCrashAtomic(db, init);
      var before := AllAttempted(db, init);
      var writes := Writes(LogSize(before), last.change);
      assert last in attempts;
      ChangeIsAtomic(before, last.change, Cutoff(writes, last.puts));
    }
  }

  lemma EntriesReadable(db: Database, n: nat, i: nat)
    requires |ReadLog(db, n)| == n && i < n
    ensures ReadEntry(db, i) == Some(ReadLog(db, n)[i])
  {
    hide ReadEntry;
    ReadLogPrefix(db, i, n);
    ReadLogPrefix(db, i + 1, n);
    assert ReadLog(db, n)[..i + 1][i] == ReadLog(db, n)[i];
  }

  /** Loading a database after a crash finds every entry below the stored size, so the restart repairs nothing. */
  lemma RestartKeepsDatabase(db: Database, attempts: seq<Attempt>)
    requires Readable(db) && |Reload(db).log| + |attempts| < TWO_TO_THE_64
    requires forall x :: x in attempts ==> FitsWords(x.change, 0)
    ensures var after := AllAttempted(db, attempts);
            && Readable(after)
            && forall i :: 0 <= i < LogSize(after) ==> ReadEntry(after, i) == Some(Reload(after).log[i])
  {
    hide AllAttempted, AllStored, ReadLog, ReadEntry, LogSize;
    StoreIsCrashAtomic(db, attempts);
    var after := AllAttempted(db, attempts);
    forall i | 0 <= i < LogSize(after) ensures ReadEntry(after, i) == Some(Reload(after).log[i]) {
      EntriesReadable(after, LogSize(after), i);
    }
  }
}
