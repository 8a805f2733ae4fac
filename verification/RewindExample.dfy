/** A concrete run whose log cannot be rewound. Two sessions read a customer named "a"; one renames
    it to "b", and then the other, which still holds "a", renames it to "c". The second entry's old
    value says "a", where the row held "b". */
module RewindExample {
  import opened Wrappers
  import opened Json
  import opened Chain
  import opened Database
  import opened Replay
  import opened Sessions
  import opened Rewind
  import opened Schedules
  import opened RewindRuns
  import opened Admission
  import opened Reachability

  function IdOf(c: char): Uuid { seq(36, _ => c) }

  const TENANT: Uuid := IdOf('t')
  const PERSON: Key := Key("customers", IdOf('p'))

  function Named(name: string): Columns { map["full_name" := Str(name)] }

  function Person(name: string): Object { Image(PERSON, TENANT, ["full_name"], Named(name)) }

  function Rename(before: string, after: string): Change { Update(Person(after), Named(before)) }

  /** A flush of this change alone. */
  function Only(c: Change): UnitOfWork
    requires Loaded(c)
  {
    Flush([c], [c])
  }

  // ---------- One change, committed ----------

  /** The tenant has one customer of this name. */
  predicate OneCustomer(db: Db, name: string, created: int) {
    TENANT in db.heads && db.rows == map[PERSON := Row(TENANT, created, Named(name))]
  }

  /** What a session that flushes one effective change has prepared. */
  lemma OneChangeRuns(sha: Sha, db: Db, now: int, c: Change)
    requires Loaded(c) && Effective(c) && c.obj.tenant == TENANT && TENANT in db.heads
    requires WriteChange(db.rows, Some(TENANT), now, map[], c).Some?
    ensures var r := RunOps(sha, db, Some(TENANT), now, [Op.Wrote(Only(c))]);
            var e := EntryFor(sha, db.heads[TENANT], c);
      r == Some(Pending([e], WriteChange(db.rows, Some(TENANT), now, map[], c).value,
                        Some(Head(e.seqNo, e.recordHash))))
  {
    hide EntryFor, WriteChange, Effective;
    AppendOne(sha, db, Some(TENANT), c);
    WriteOne(db.rows, Some(TENANT), now, c);
    NothingRun(sha, db, TENANT, now);
    Admission.RunSnoc(sha, db, Some(TENANT), now, [], NOTHING, Only(c));
    assert [] + [Op.Wrote(Only(c))] == [Op.Wrote(Only(c))];
    assert [] + [EntryFor(sha, db.heads[TENANT], c)] == [EntryFor(sha, db.heads[TENANT], c)];
  }

  /** Committing it adds its entry and overlays its row. */
  lemma OneChangeCommits(sha: Sha, db: Db, now: int, c: Change)
    requires Loaded(c) && Effective(c) && c.obj.tenant == TENANT && TENANT in db.heads
    requires WriteChange(db.rows, Some(TENANT), now, map[], c).Some?
    ensures RunOps(sha, db, Some(TENANT), now, [Op.Wrote(Only(c))]).Some?
    ensures var db' := Atomic(sha, db, Session(Some(TENANT), now, [Op.Wrote(Only(c))]));
      && db'.rows == Overlay(db.rows, WriteChange(db.rows, Some(TENANT), now, map[], c).value)
      && db'.log == db.log + [EntryFor(sha, db.heads[TENANT], c)] && TENANT in db'.heads
  {
    hide EntryFor, WriteChange, Effective, RunOps, Overlay;
    OneChangeRuns(sha, db, now, c);
  }

  lemma Unrounded(name: string)
    ensures CoerceAll("customers", Written(Named(name))) == Named(name) && Written(Named(name)) == Named(name)
  {}

  lemma InsertCommits(sha: Sha, db: Db, now: int)
    requires TENANT in db.heads && db.rows == map[]
    ensures var c := Insert(Person("a"));
            var t := Session(Some(TENANT), now, [Op.Wrote(Only(c))]);
      && RunOps(sha, db, Some(TENANT), now, t.ops).Some? && OneCustomer(Atomic(sha, db, t), "a", now)
      && Atomic(sha, db, t).log == db.log + [EntryFor(sha, db.heads[TENANT], c)]
  {
    hide EntryFor, RunOps, Atomic, CoerceAll, Written;
    Unrounded("a");
    OneChangeCommits(sha, db, now, Insert(Person("a")));
  }

  lemma RenameEffective(before: string, after: string)
    requires before != after
    ensures Loaded(Rename(before, after)) && Effective(Rename(before, after))
    ensures Assigned(Rename(before, after)) == Named(after) && "full_name" in ChangedColumns(Rename(before, after))
  {
    EffectiveMeans(Person(after), Named(before));
    assert Named(before)["full_name"] != Named(after)["full_name"];
  }

  lemma RenameCommits(sha: Sha, db: Db, created: int, now: int, name: string, before: string, after: string)
    requires OneCustomer(db, name, created) && before != after
    ensures Loaded(Rename(before, after))
    ensures var c := Rename(before, after);
            var t := Session(Some(TENANT), now, [Op.Wrote(Only(c))]);
      && RunOps(sha, db, Some(TENANT), now, t.ops).Some? && OneCustomer(Atomic(sha, db, t), after, created)
      && Atomic(sha, db, t).log == db.log + [EntryFor(sha, db.heads[TENANT], c)]
  {
    hide EntryFor, RunOps, Atomic, CoerceAll, Written, Effective, Assigned;
    Unrounded(after);
    RenameEffective(before, after);
    RenameStatement(db.rows, created, now, name, before, after);
    OneChangeCommits(sha, db, now, Rename(before, after));
  }

  lemma RenameStatement(rows: Rows, created: int, now: int, name: string, before: string, after: string)
    requires rows == map[PERSON := Row(TENANT, created, Named(name))] && before != after
    requires Loaded(Rename(before, after)) && Effective(Rename(before, after))
    requires Assigned(Rename(before, after)) == Named(after)
    ensures WriteChange(rows, Some(TENANT), now, map[], Rename(before, after))
         == Some(map[PERSON := Some(Row(TENANT, created, Named(after)))])
  {
    hide Effective, Assigned;
    Unrounded(after);
    assert Named(name) + Named(after) == Named(after);
  }

  // ---------- The run ----------

  const A: Sid := Sid(Some(TENANT), 0)
  const B: Sid := Sid(Some(TENANT), 1)
  const C: Sid := Sid(Some(TENANT), 2)

  /** A session that read this row and has done nothing else. */
  function Reader(now: int, name: string): SessionState {
    SessionState(now, map[PERSON := Named(name)], [], [], NOTHING)
  }

  lemma ReadsPerson(sha: Sha, s: System, sid: Sid, now: int, name: string, created: int)
    requires sid.pin == Some(TENANT) && sid !in s.sessions && OneCustomer(s.db, name, created)
    ensures Step(sha, Step(sha, s, Begun(sid, now)), Got(sid, PERSON))
        == s.(sessions := s.sessions[sid := Reader(now, name)])
  {}

  lemma HonestMore(sha: Sha, evs: seq<Event>, ev: Event)
    requires HonestDiffs(sha, evs, TENANT)
    requires Flushing(Run(sha, evs), ev, TENANT) ==> DiffsHeld(Run(sha, evs).sessions[ev.sid], ev.unit)
    ensures HonestDiffs(sha, evs + [ev], TENANT)
  {
    hide Run, DiffsHeld;
    var more := evs + [ev];
    forall n | 0 <= n < |more| && Flushing(Run(sha, more[..n]), more[n], TENANT)
      ensures DiffsHeld(Run(sha, more[..n]).sessions[more[n].sid], more[n].unit)
    {
      if n < |evs| {
        assert more[..n] == evs[..n] && more[n] == evs[n];
      } else {
        assert more[..n] == evs;
      }
    }
  }

  /** A session that flushes one change it holds the other side of, and commits. */
  lemma ServesOne(sha: Sha, evs: seq<Event>, sid: Sid, c: Change)
    requires HonestDiffs(sha, evs, TENANT) && sid in Run(sha, evs).sessions && OthersIdle(Run(sha, evs), sid)
    requires Run(sha, evs).sessions[sid].ops == [] && Pend(Run(sha, evs), sid) == NOTHING && Loaded(c)
    requires DiffsHeld(Run(sha, evs).sessions[sid], Only(c))
    requires RunOps(sha, Run(sha, evs).db, sid.pin, Run(sha, evs).sessions[sid].now, [Op.Wrote(Only(c))]).Some?
    ensures HonestDiffs(sha, evs + Serving(sid, [Op.Wrote(Only(c))]), TENANT)
    ensures var s := Run(sha, evs);
      Run(sha, evs + Serving(sid, [Op.Wrote(Only(c))]))
        == System(Atomic(sha, s.db, Session(sid.pin, s.sessions[sid].now, [Op.Wrote(Only(c))])), s.sessions - {sid})
  {
    hide Run, HonestDiffs, RunOps, Atomic, DiffsHeld, OthersIdle;
    var ops := [Op.Wrote(Only(c))];
    ServingCommits(sha, evs, sid, ops);
    HonestMore(sha, evs, Flushed(sid, Only(c)));
    HonestMore(sha, evs + [Flushed(sid, Only(c))], Committed(sid));
    assert evs + Serving(sid, ops) == evs + [Flushed(sid, Only(c))] + [Committed(sid)];
  }

  lemma Provisioned1(sha: Sha)
    ensures var s := Run(sha, [Provisioned(TENANT)]);
      s.sessions == map[] && s.db.rows == map[] && s.db.log == [] && TENANT in s.db.heads
    ensures HonestDiffs(sha, [Provisioned(TENANT)], TENANT)
  {
    NothingHappened(sha);
    RunAppend(sha, [], Provisioned(TENANT));
    assert [] + [Provisioned(TENANT)] == [Provisioned(TENANT)];
  }

  /** The customer is there. */
  lemma Founded(sha: Sha) returns (evs: seq<Event>, h1: Head)
    ensures HonestDiffs(sha, evs, TENANT) && Run(sha, evs).sessions == map[] && OneCustomer(Run(sha, evs).db, "a", 0)
    ensures Run(sha, evs).db.log == [EntryFor(sha, h1, Insert(Person("a")))]
  {
    hide Run, HonestDiffs, RunOps, Atomic, EntryFor, OneCustomer, OthersIdle, Serving;
    Provisioned1(sha);
    var first := [Provisioned(TENANT)];
    var db := Run(sha, first).db;
    h1 := db.heads[TENANT];
    BeginsAlone(sha, first, A, 0);
    HonestMore(sha, first, Begun(A, 0));
    InsertCommits(sha, db, 0);
    var c := Insert(Person("a"));
    ServesOne(sha, first + [Begun(A, 0)], A, c);
    evs := first + [Begun(A, 0)] + Serving(A, [Op.Wrote(Only(c))]);
    assert db.log + [EntryFor(sha, h1, c)] == [EntryFor(sha, h1, c)];
  }

  /** A new session reads the customer. */
  lemma OneReads(sha: Sha, evs: seq<Event>, sid: Sid, now: int, name: string, created: int) returns (evs': seq<Event>)
    requires HonestDiffs(sha, evs, TENANT) && OneCustomer(Run(sha, evs).db, name, created)
    requires sid.pin == Some(TENANT) && sid !in Run(sha, evs).sessions
    ensures HonestDiffs(sha, evs', TENANT)
    ensures Run(sha, evs') == Run(sha, evs).(sessions := Run(sha, evs).sessions[sid := Reader(now, name)])
  {
    hide Run, HonestDiffs, Step, OneCustomer;
    RunAppend(sha, evs, Begun(sid, now));
    HonestMore(sha, evs, Begun(sid, now));
    RunAppend(sha, evs + [Begun(sid, now)], Got(sid, PERSON));
    HonestMore(sha, evs + [Begun(sid, now)], Got(sid, PERSON));
    ReadsPerson(sha, Run(sha, evs), sid, now, name, created);
    evs' := evs + [Begun(sid, now)] + [Got(sid, PERSON)];
  }

  lemma HeldRename(now: int, before: string, after: string)
    requires before != after
    ensures Loaded(Rename(before, after)) && DiffsHeld(Reader(now, before), Only(Rename(before, after)))
  {
    RenameEffective(before, after);
    Unrounded(before);
  }

  /** A session that read the customer as `before` renames it, whatever it is called by then. */
  lemma OneRenames(sha: Sha, evs: seq<Event>, sid: Sid, name: string, before: string, after: string)
    returns (evs': seq<Event>, h: Head)
    requires HonestDiffs(sha, evs, TENANT) && OneCustomer(Run(sha, evs).db, name, 0) && before != after
    requires sid.pin == Some(TENANT) && sid in Run(sha, evs).sessions && OthersIdle(Run(sha, evs), sid)
    requires exists now :: Run(sha, evs).sessions[sid] == Reader(now, before)
    ensures HonestDiffs(sha, evs', TENANT) && OneCustomer(Run(sha, evs').db, after, 0)
    ensures Run(sha, evs').sessions == Run(sha, evs).sessions - {sid} && Loaded(Rename(before, after))
    ensures Run(sha, evs').db.log == Run(sha, evs).db.log + [EntryFor(sha, h, Rename(before, after))]
  {
    hide Run, HonestDiffs, RunOps, Atomic, EntryFor, OthersIdle, Serving, DiffsHeld, Rename;
    var now :| Run(sha, evs).sessions[sid] == Reader(now, before);
    HeldRename(now, before, after);
    h := Run(sha, evs).db.heads[TENANT];
    RenameCommits(sha, Run(sha, evs).db, 0, now, name, before, after);
    ServesOne(sha, evs, sid, Rename(before, after));
    evs' := evs + Serving(sid, [Op.Wrote(Only(Rename(before, after)))]);
  }

  /** The three entries of the run. */
  predicate ThreeEntries(sha: Sha, h1: Head, h2: Head, h3: Head, log: seq<Entry>) {
    && Loaded(Rename("a", "b")) && Loaded(Rename("a", "c"))
    && log == [EntryFor(sha, h1, Insert(Person("a"))), EntryFor(sha, h2, Rename("a", "b")),
               EntryFor(sha, h3, Rename("a", "c"))]
  }

  lemma ReplayedTwo(sha: Sha, h1: Head, h2: Head, h3: Head, log: seq<Entry>)
    requires ThreeEntries(sha, h1, h2, h3, log)
    ensures At(Replayed(log[..2]), PERSON) == Some(Named("b"))
  {
    hide EntryFor, Replayed, Rename, Effective, ApplyChange, At, Assigned, IdOf;
    RenameEffective("a", "b");
    EmptyReplays();
    InsertEffective();
    RecordsOne(sha, [], h1, Insert(Person("a")));
    assert [] + [log[0]] == [log[0]];
    RecordsOne(sha, [log[0]], h2, Rename("a", "b"));
    assert log[..2] == [log[0]] + [log[1]];
    TwoChanges();
  }

  lemma InsertEffective()
    ensures Effective(Insert(Person("a")))
  {}

  lemma ShownNamed(name: string)
    ensures Shown(Named(name)) == Named(name) && CoerceAll("customers", Named(name)) == Named(name)
  {}

  lemma TwoChanges()
    ensures Loaded(Rename("a", "b"))
    ensures At(ApplyChange(ApplyChange(map[], Insert(Person("a"))), Rename("a", "b")), PERSON) == Some(Named("b"))
  {
    hide Shown, CoerceAll, Effective, Assigned;
    RenameEffective("a", "b");
    ShownNamed("a");
    ShownNamed("b");
    assert Named("a") + Named("b") == Named("b");
  }

  /** The last entry says the name was "a". */
  lemma LastSaysA(sha: Sha, h: Head)
    ensures Loaded(Rename("a", "c"))
    ensures var e := EntryFor(sha, h, Rename("a", "c"));
      && e.action == "UPDATE" && EntryKey(e) == PERSON
      && "full_name" in Recorded(e.oldValues) && Recorded(e.oldValues)["full_name"] == Str("a")
  {
    hide EntryFor, Recorded, Effective, ChangedColumns, OldValues, NewValues, Assigned;
    RenameEffective("a", "c");
    EntryFields(sha, h, Rename("a", "c"));
    OldValueRecorded(sha, h, Rename("a", "c"), "full_name");
  }

  lemma NotUndoable(sha: Sha, h1: Head, h2: Head, h3: Head, log: seq<Entry>)
    requires ThreeEntries(sha, h1, h2, h3, log)
    ensures !Undoable(log)
  {
    hide EntryFor, Replayed, Rename, Recorded, IdOf, EntryKey, At;
    ReplayedTwo(sha, h1, h2, h3, log);
    LastSaysA(sha, h3);
    assert log[2] == EntryFor(sha, h3, Rename("a", "c"));
    assert !Holds(Named("b"), Recorded(log[2].oldValues));
    assert !UndoableAt(log, 2);
  }

  lemma RenameIs(before: string, after: string)
    ensures var c := Rename(before, after);
      c.Update? && c.obj.key == PERSON && c.obj.tenant == TENANT && c.loaded == Named(before) && Action(c) == "UPDATE"
  {}

  lemma OwnEntry(sha: Sha, h: Head, c: Change)
    requires Loaded(c) && c.obj.tenant == TENANT
    ensures EntryFor(sha, h, c).tenant == TENANT
  {
    hide EntryFor, OldValues, NewValues;
    EntryFields(sha, h, c);
  }

  lemma AllOwn(sha: Sha, h1: Head, h2: Head, h3: Head, log: seq<Entry>)
    requires ThreeEntries(sha, h1, h2, h3, log)
    ensures Where(log, TENANT) == log
  {
    hide EntryFor, Rename, Where, IdOf;
    RenameIs("a", "b");
    RenameIs("a", "c");
    OwnEntry(sha, h1, Insert(Person("a")));
    OwnEntry(sha, h2, Rename("a", "b"));
    OwnEntry(sha, h3, Rename("a", "c"));
    WhereOwn(log, TENANT, TENANT);
  }

  /** Both sessions read before either writes, each diffs against what it read, and what they
      commit cannot be rewound. */
  lemma StaleDiffsLoseHistory(sha: Sha) returns (evs: seq<Event>)
    ensures HonestDiffs(sha, evs, TENANT)
    ensures var db := Run(sha, evs).db;
      !Recoverable(TenantTables(db.rows, TENANT), SelectLog(db.log, TENANT))
    ensures !FreshRun(sha, History(sha, evs), TENANT)
  {
    hide Run, HonestDiffs, EntryFor, OneCustomer, Recoverable, TenantTables, SelectLog, Undoable, Where, LogGood,
        Rename, Replayed, FreshRun, History;
    var h1, h2, h3;
    evs, h1 := Founded(sha);
    evs := OneReads(sha, evs, B, 1, "a", 0);
    evs := OneReads(sha, evs, C, 2, "a", 0);
    evs, h2 := OneRenames(sha, evs, C, "a", "a", "b");
    evs, h3 := OneRenames(sha, evs, B, "b", "a", "c");
    var log := Run(sha, evs).db.log;
    assert ThreeEntries(sha, h1, h2, h3, log);
    AllOwn(sha, h1, h2, h3, log);
    NotUndoable(sha, h1, h2, h3, log);
    ReplayUnderInterleaving(sha, evs, TENANT);
    RewindUnderInterleaving(sha, evs, TENANT);
    RewindExactlyFresh(sha, evs, TENANT);
  }
}
