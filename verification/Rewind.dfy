/** old_values as an undo log. Going backwards needs more than going forwards: the recorded old
    values must be what the row held, and under concurrency a diff may be taken against a stale
    read. RewindsExactly says when one entry can be undone, FreshExactly when a whole log can: when
    each change was diffed against what its row showed. */
module Rewind {
  import opened Wrappers
  import opened Json
  import opened CanonicalJson
  import opened Chain
  import opened ColumnTypes
  import opened Database
  import opened Replay

  /** Undo one entry from its old_values. */
  function UndoEntry(t: Tables, e: Entry): Tables {
    var key := EntryKey(e);
    if e.action == "INSERT" then t - {key}
    else if e.action == "UPDATE" then if key in t then t[key := t[key] + Recorded(e.oldValues)] else t
    else if e.action == "DELETE" then t[key := Recorded(e.oldValues)]
    else t
  }

  /** Undo entries, the last one first. */
  function Rewound(t: Tables, es: seq<Entry>): Tables
    decreases |es|
  {
    if es == [] then t else Rewound(UndoEntry(t, es[|es| - 1]), es[..|es| - 1])
  }

  predicate Holds(row: Columns, part: Columns) { forall c :: c in part ==> c in row && row[c] == part[c] }

  /** The entry's old side is what the row held. */
  predicate Fits(before: Option<Columns>, e: Entry) {
    && (e.action == "INSERT" ==> before.None?)
    && (e.action == "UPDATE" && before.Some? ==> Holds(before.value, Recorded(e.oldValues)))
    && (e.action == "DELETE" ==> before == Some(Recorded(e.oldValues)))
  }

  /** Undoing an entry right after applying it restores the tables exactly when it fits them. */
  lemma RewindsExactly(t: Tables, e: Entry)
    requires e.action == "UPDATE" ==> Recorded(e.oldValues).Keys == Recorded(e.newValues).Keys
    ensures UndoEntry(ApplyEntry(t, e), e) == t <==> Fits(At(t, EntryKey(e)), e)
  {
    hide Coerce, Recorded;
    var key, news := EntryKey(e), CoerceAll(e.table, Recorded(e.newValues));
    var u := UndoEntry(ApplyEntry(t, e), e);
    if u == t {
      assert At(u, key) == At(t, key);
      if e.action == "UPDATE" && key in t {
        assert u[key] == t[key] + news + Recorded(e.oldValues);
        forall c | c in Recorded(e.oldValues)
          ensures c in t[key] && t[key][c] == Recorded(e.oldValues)[c]
        {
          assert c in u[key];
        }
      }
    }
    if Fits(At(t, key), e) {
      if e.action == "UPDATE" && key in t {
        assert t[key] + news + Recorded(e.oldValues) == t[key];
      }
      forall k
        ensures At(u, k) == At(t, k)
      {}
      TablesEqual(u, t);
    }
  }

  // ---------- What the listener records ----------

  /** Every UPDATE entry has a nonempty set of columns, the same on both sides, and each of them
      really changed. */
  lemma UpdateShape(c: Change)
    requires c.Update? && Loaded(c) && Effective(c)
    ensures OldValues(c).Obj? && NewValues(c).Obj?
    ensures Keys(OldValues(c).members) == Keys(NewValues(c).members) != {}
    ensures forall k :: k in Keys(NewValues(c).members) ==>
              && k in c.loaded && Lookup(OldValues(c).members, k) == c.loaded[k]
              && Lookup(NewValues(c).members, k) == c.obj.vals[k] != c.loaded[k]
    ensures forall k :: k in c.loaded && c.loaded[k] != c.obj.vals[k] ==> k in Keys(NewValues(c).members)
  {
    hide Serialize, Changed, Lookup;
    ChangedDistinct(c.obj.columns, c.loaded, c.obj.vals);
    SerializeLookup(ChangedColumns(c), c.loaded);
    SerializeLookup(ChangedColumns(c), c.obj.vals);
    assert ChangedColumns(c)[0] in ChangedColumns(c);
  }

  lemma UpdateKeys(sha: Sha, head: Head, c: Change)
    requires c.Update? && Loaded(c) && Effective(c)
    ensures var e := EntryFor(sha, head, c); Recorded(e.oldValues).Keys == Recorded(e.newValues).Keys
  {
    hide EntryFor, Recorded, Norm, Rendered, Serialize, Changed;
    EntryFields(sha, head, c);
    ChangedDistinct(c.obj.columns, c.loaded, c.obj.vals);
    var e := EntryFor(sha, head, c);
    RecordedSerialized(ChangedColumns(c), c.loaded, e.oldValues);
    RecordedSerialized(ChangedColumns(c), c.obj.vals, e.newValues);
  }

  lemma OldValueRecorded(sha: Sha, head: Head, c: Change, k: string)
    requires c.Update? && Loaded(c) && k in ChangedColumns(c) && k !in SERVER_COLUMNS
    ensures var before := Recorded(EntryFor(sha, head, c).oldValues);
      k in before && before[k] == Norm(Rendered(c.loaded[k]))
  {
    hide EntryFor, Recorded, Norm, Rendered;
    EntryFields(sha, head, c);
    ChangedDistinct(c.obj.columns, c.loaded, c.obj.vals);
    RecordedSerialized(ChangedColumns(c), c.loaded, EntryFor(sha, head, c).oldValues);
  }

  // ---------- Fresh reads ----------

  /** The row shows the values these columns had when the session loaded them. */
  predicate ShowsLoaded(row: Columns, c: Change)
    requires c.Update? && Loaded(c)
  {
    forall k :: k in Assigned(c) && k !in SERVER_COLUMNS ==> k in row && row[k] == Norm(Rendered(c.loaded[k]))
  }

  /** The change was diffed against what its row shows: an UPDATE in the columns it changes, a
      DELETE in all of them. */
  predicate Fresh(rows: Rows, writes: Writes, tenant: Uuid, c: Change)
    requires Loaded(c)
  {
    var row := SeenRow(rows, writes, tenant, c.obj.key);
    match c
    case Insert(_) => true
    case Update(_, _) => Effective(c) ==> row.Some? && ShowsLoaded(row.value, c)
    case Delete(o) => row == Some(Shown(o.vals))
  }

  predicate FreshFlush(rows: Rows, writes: Writes, tenant: Uuid, f: UnitOfWork) {
    forall c :: c in f.changes ==> Fresh(rows, writes, tenant, c)
  }

  /** So was every change of a session. */
  predicate FreshOps(sha: Sha, db: Db, tenant: Uuid, now: int, ops: seq<Op>) {
    if ops == [] then true
    else
      var n := |ops| - 1;
      var before := RunOps(sha, db, Some(tenant), now, ops[..n]);
      && FreshOps(sha, db, tenant, now, ops[..n])
      && (ops[n].Wrote? && before.Some? ==> FreshFlush(db.rows, before.value.writes, tenant, ops[n].unit))
  }

  predicate FreshTxn(sha: Sha, db: Db, t: Txn, tenant: Uuid) {
    t.Session? && t.pin == Some(tenant) && RunOps(sha, db, t.pin, t.now, t.ops).Some? ==>
      FreshOps(sha, db, tenant, t.now, t.ops)
  }

  /** Every committed change of the tenant was diffed against what its row showed when its
      statement ran. */
  predicate FreshRun(sha: Sha, ts: seq<Txn>, tenant: Uuid) {
    forall i :: 0 <= i < |ts| ==> FreshTxn(sha, Serial(sha, EMPTY, ts[..i]), ts[i], tenant)
  }

  lemma ShownWritten(m: Columns)
    ensures Shown(Written(m)) == Shown(m)
  {}

  lemma DeleteRecorded(c: Change, v: Jsonb)
    requires c.Delete? && v == Rendered(OldValues(c))
    ensures Recorded(v) == Shown(c.obj.vals)
  {
    RecordedSerialized(c.obj.columns, c.obj.vals, v);
  }

  lemma UpdateHolds(c: Change, v: Jsonb, row: Columns)
    requires c.Update? && Loaded(c) && v == Rendered(OldValues(c))
    ensures Holds(row, Recorded(v)) <==> ShowsLoaded(row, c)
  {
    hide Norm, Rendered, Recorded;
    ChangedDistinct(c.obj.columns, c.loaded, c.obj.vals);
    RecordedSerialized(ChangedColumns(c), c.loaded, v);
  }

  /** What a statement that does not raise found: nothing where it inserts, a row where it updates. */
  predicate FoundRow(rows: Rows, writes: Writes, tenant: Uuid, c: Change)
    requires Loaded(c)
  {
    && (c.Insert? ==> Current(rows, writes, c.obj.key).None?)
    && (c.Update? && Effective(c) ==> SeenRow(rows, writes, tenant, c.obj.key).Some?)
  }

  /** The entry fits the row exactly when the change was diffed against what the row shows. */
  lemma FitsExactly(sha: Sha, head: Head, rows: Rows, writes: Writes, tenant: Uuid, c: Change)
    requires Loaded(c) && Effective(c) && FoundRow(rows, writes, tenant, c)
    ensures Fits(SeenRow(rows, writes, tenant, c.obj.key), EntryFor(sha, head, c)) <==> Fresh(rows, writes, tenant, c)
  {
    hide EntryFor, ShowsLoaded, Shown, Recorded, OldValues, NewValues;
    EntryFields(sha, head, c);
    var e := EntryFor(sha, head, c);
    match c
    case Insert(_) =>
    case Update(_, _) => UpdateHolds(c, e.oldValues, SeenRow(rows, writes, tenant, c.obj.key).value);
    case Delete(_) => DeleteRecorded(c, e.oldValues);
  }

  lemma FoundRowHere(rows: Rows, tenant: Uuid, now: int, writes: Writes, c: Change)
    requires Loaded(c) && WriteChange(rows, Some(tenant), now, writes, c).Some?
    ensures FoundRow(rows, writes, tenant, c)
  {
    hide Shown, Effective, Assigned, CoerceAll;
  }

  lemma {:induction false} FoundRowEach(rows: Rows, t: Uuid, now: int, writes: Writes, cs: seq<Change>, i: nat)
    requires forall c :: c in cs ==> Loaded(c)
    requires WriteAll(rows, Some(t), now, writes, cs).Some? && DistinctKeys(cs)
    requires i < |cs|
    ensures FoundRow(rows, writes, t, cs[i])
  {
    hide Shown, Effective, WriteChange, Current;
    var n := |cs| - 1;
    assert cs[n] in cs;
    if i < n {
      FoundRowEach(rows, t, now, writes, cs[..n], i);
    } else {
      KeyNotBefore(cs, n);
      Untouched(rows, t, now, writes, cs[..n], cs[n].obj.key);
      FoundRowHere(rows, t, now, WriteAll(rows, Some(t), now, writes, cs[..n]).value, cs[n]);
    }
  }

  lemma {:induction false} Untouched(rows: Rows, t: Uuid, now: int, writes: Writes, cs: seq<Change>, k: Key)
    requires forall c :: c in cs ==> Loaded(c) && c.obj.key != k
    requires WriteAll(rows, Some(t), now, writes, cs).Some?
    ensures Current(rows, WriteAll(rows, Some(t), now, writes, cs).value, k) == Current(rows, writes, k)
  {
    if cs != [] {
      assert cs[|cs| - 1] in cs;
      Untouched(rows, t, now, writes, cs[..|cs| - 1], k);
    }
  }

  // ---------- Fresh logs can be undone ----------

  /** Entry i fits the tables its predecessors leave. */
  predicate UndoableAt(log: seq<Entry>, i: nat)
    requires i < |log|
  {
    && Fits(At(Replayed(log[..i]), EntryKey(log[i])), log[i])
    && (log[i].action == "UPDATE" ==> Recorded(log[i].oldValues).Keys == Recorded(log[i].newValues).Keys)
  }

  predicate Undoable(log: seq<Entry>) { forall i :: 0 <= i < |log| ==> UndoableAt(log, i) }

  lemma UndoableInPrefix(log: seq<Entry>, n: nat, i: nat)
    requires i < n <= |log|
    ensures UndoableAt(log[..n], i) <==> UndoableAt(log, i)
  {
    assert log[..n][..i] == log[..i];
  }

  lemma UndoableAppend(log: seq<Entry>, e: Entry)
    requires e.action == "UPDATE" ==> Recorded(e.oldValues).Keys == Recorded(e.newValues).Keys
    ensures Undoable(log + [e]) <==> Undoable(log) && Fits(At(Replayed(log), EntryKey(e)), e)
  {
    hide Fits, Recorded, At, Replayed;
    var longer := log + [e];
    assert longer[..|log|] == log;
    forall i | 0 <= i < |log|
      ensures UndoableAt(longer, i) <==> UndoableAt(log, i)
    {
      UndoableInPrefix(longer, |log|, i);
    }
    assert UndoableAt(longer, |log|) <==> Fits(At(Replayed(log), EntryKey(e)), e);
  }

  lemma UndoablePrefix(log: seq<Entry>, n: nat)
    requires n <= |log| && Undoable(log)
    ensures Undoable(log[..n])
  {
    forall i | 0 <= i < n
      ensures UndoableAt(log[..n], i)
    {
      UndoableInPrefix(log, n, i);
    }
  }

  lemma LastUndone(log: seq<Entry>)
    requires log != [] && UndoableAt(log, |log| - 1)
    ensures UndoEntry(Replayed(log), log[|log| - 1]) == Replayed(log[..|log| - 1])
  {
    RewindsExactly(Replayed(log[..|log| - 1]), log[|log| - 1]);
  }

  /** Rewinding the current tables past any suffix of the log recovers the tables before it. */
  lemma {:induction false} RewindRecovers(log: seq<Entry>, k: nat)
    requires Undoable(log) && k <= |log|
    ensures Rewound(Replayed(log), log[k..]) == Replayed(log[..k])
    decreases |log| - k
  {
    if k == |log| {
      assert log[..k] == log && log[k..] == [];
    } else {
      var n := |log| - 1;
      UndoablePrefix(log, n);
      LastUndone(log);
      RewindRecovers(log[..n], k);
      assert log[..n][..k] == log[..k];
      var es := log[k..];
      assert es[|es| - 1] == log[n] && es[..|es| - 1] == log[..n][k..];
    }
  }

  // ---------- Exactly the logs of fresh reads can be undone ----------

  lemma {:induction false} AppendsUndoable(sha: Sha, db: Db, tenant: Uuid, p: Pending, cs: seq<Change>, log: seq<Entry>)
    requires forall c :: c in cs ==> Loaded(c)
    requires (forall c :: c in cs ==> FoundRow(db.rows, p.writes, tenant, c)) && DistinctKeys(cs)
    requires tenant in db.heads && LogGood(sha, tenant, log + p.entries, HeadOf(db, tenant, p))
    requires AppendAll(sha, db, Some(tenant), p, cs).Some?
    requires Replayed(log + p.entries) == TenantTables(Overlay(db.rows, p.writes), tenant)
    ensures Undoable(log + AppendAll(sha, db, Some(tenant), p, cs).value.entries) <==>
              Undoable(log + p.entries) && forall c :: c in cs ==> Fresh(db.rows, p.writes, tenant, c)
  {
    hide Fresh, FoundRow, Undoable, LogGood, Replayed, TenantTables, Effective, AppendChange;
    if cs != [] {
      var n := |cs| - 1;
      var c := cs[n];
      assert cs == cs[..n] + [c];
      AppendsUndoable(sha, db, tenant, p, cs[..n], log);
      if Effective(c) {
        var q := AppendAll(sha, db, Some(tenant), p, cs[..n]).value;
        RowStillThere(sha, db, tenant, p, cs, log);
        AppendUndoable(sha, db, tenant, q, p.writes, c, log);
      } else {
        NoEffectFresh(db.rows, p.writes, tenant, c);
      }
    }
  }

  lemma NoEffectFresh(rows: Rows, writes: Writes, tenant: Uuid, c: Change)
    requires Loaded(c) && !Effective(c)
    ensures Fresh(rows, writes, tenant, c)
  {
    hide ShowsLoaded;
  }

  /** The entries of one flush before an object's own do not touch its row. */
  lemma RowStillThere(sha: Sha, db: Db, tenant: Uuid, p: Pending, cs: seq<Change>, log: seq<Entry>)
    requires cs != [] && (forall c :: c in cs ==> Loaded(c)) && DistinctKeys(cs)
    requires tenant in db.heads && LogGood(sha, tenant, log + p.entries, HeadOf(db, tenant, p))
    requires AppendAll(sha, db, Some(tenant), p, cs[..|cs| - 1]).Some?
    requires Replayed(log + p.entries) == TenantTables(Overlay(db.rows, p.writes), tenant)
    ensures var q := AppendAll(sha, db, Some(tenant), p, cs[..|cs| - 1]).value;
            var key := cs[|cs| - 1].obj.key;
      At(Replayed(log + q.entries), key) == SeenRow(db.rows, p.writes, tenant, key)
  {
    var n := |cs| - 1;
    AppendsRecord(sha, db, tenant, p, cs[..n], log);
    KeyNotBefore(cs, n);
    ChangesElsewhere(Replayed(log + p.entries), cs[..n], cs[n].obj.key);
    OverlayAt(db.rows, p.writes, tenant, cs[n].obj.key);
  }

  lemma AppendUndoable(sha: Sha, db: Db, tenant: Uuid, q: Pending, writes: Writes, c: Change, log: seq<Entry>)
    requires Loaded(c) && Effective(c) && FoundRow(db.rows, writes, tenant, c)
    requires AppendChange(sha, db, Some(tenant), q, c).Some?
    requires At(Replayed(log + q.entries), c.obj.key) == SeenRow(db.rows, writes, tenant, c.obj.key)
    ensures Undoable(log + AppendChange(sha, db, Some(tenant), q, c).value.entries)
       <==> Undoable(log + q.entries) && Fresh(db.rows, writes, tenant, c)
  {
    hide EntryFor, Undoable, Fresh, FoundRow, Fits, Effective, Recorded;
    var e := EntryFor(sha, HeadOf(db, tenant, q), c);
    EntryFields(sha, HeadOf(db, tenant, q), c);
    FitsExactly(sha, HeadOf(db, tenant, q), db.rows, writes, tenant, c);
    if c.Update? { UpdateKeys(sha, HeadOf(db, tenant, q), c); }
    assert EntryKey(e) == c.obj.key;
    UndoableAppend(log + q.entries, e);
    assert log + (q.entries + [e]) == (log + q.entries) + [e];
  }

  lemma FlushUndoable(sha: Sha, db: Db, tenant: Uuid, now: int, p: Pending, f: UnitOfWork)
    requires tenant in db.heads && PendingGood(sha, db, tenant, p)
    requires FlushOn(sha, db, Some(tenant), now, p, f).Some?
    ensures Undoable(Where(db.log, tenant) + FlushOn(sha, db, Some(tenant), now, p, f).value.entries)
       <==> Undoable(Where(db.log, tenant) + p.entries) && FreshFlush(db.rows, p.writes, tenant, f)
  {
    hide Fresh, FoundRow, Undoable, LogGood, Replayed, TenantTables, AppendAll, WriteAll;
    AppendsTakeHead(sha, db, tenant, p, f.changes);
    forall c | c in f.changes
      ensures FoundRow(db.rows, p.writes, tenant, c)
    {
      var i :| 0 <= i < |f.order| && f.order[i] == c;
      FoundRowEach(db.rows, tenant, now, p.writes, f.order, i);
    }
    AppendsUndoable(sha, db, tenant, p, f.changes, Where(db.log, tenant));
  }

  lemma {:induction false} OpsUndoable(sha: Sha, db: Db, tenant: Uuid, now: int, ops: seq<Op>)
    requires tenant in db.heads && Consistent(sha, db) && RunOps(sha, db, Some(tenant), now, ops).Some?
    ensures Undoable(Where(db.log, tenant) + RunOps(sha, db, Some(tenant), now, ops).value.entries)
       <==> Undoable(Where(db.log, tenant)) && FreshOps(sha, db, tenant, now, ops)
  {
    hide Consistent, Undoable, FlushOn, FreshFlush, PendingGood;
    var log := Where(db.log, tenant);
    if ops == [] {
      assert log + [] == log;
    } else {
      var n := |ops| - 1;
      OpsUndoable(sha, db, tenant, now, ops[..n]);
      if ops[n].Wrote? {
        OpsKeepGood(sha, db, tenant, now, ops[..n]);
        FlushUndoable(sha, db, tenant, now, RunOps(sha, db, Some(tenant), now, ops[..n]).value, ops[n].unit);
      }
    }
  }

  /** A session that sees no head row changed nothing. */
  lemma {:induction false} NoHeadFresh(sha: Sha, db: Db, tenant: Uuid, now: int, ops: seq<Op>)
    requires tenant !in db.heads && RunOps(sha, db, Some(tenant), now, ops).Some?
    ensures FreshOps(sha, db, tenant, now, ops)
  {
    hide Fresh, Effective;
    if ops != [] {
      var n := |ops| - 1;
      NoHeadFresh(sha, db, tenant, now, ops[..n]);
      if ops[n].Wrote? {
        var p, f := RunOps(sha, db, Some(tenant), now, ops[..n]).value, ops[n].unit;
        AppendNeedsHead(sha, db, Some(tenant), p, f.changes);
        forall c | c in f.changes
          ensures Fresh(db.rows, p.writes, tenant, c)
        {
          NoEffectFresh(db.rows, p.writes, tenant, c);
        }
      }
    }
  }

  lemma AtomicUndoable(sha: Sha, db: Db, t: Txn, tenant: Uuid)
    requires Consistent(sha, db)
    ensures Undoable(Where(Atomic(sha, db, t).log, tenant))
       <==> Undoable(Where(db.log, tenant)) && FreshTxn(sha, db, t, tenant)
  {
    hide Undoable, RunOps, PendingGood, Consistent, FreshOps, Where, CommitOn;
    if t.Session? && RunOps(sha, db, t.pin, t.now, t.ops).Some? {
      if t.pin.Some? && t.pin.value in db.heads {
        OpsKeepGood(sha, db, t.pin.value, t.now, t.ops);
        CommitAddsBlock(sha, db, t.pin.value, RunOps(sha, db, t.pin, t.now, t.ops).value, tenant);
        if tenant == t.pin.value {
          OpsUndoable(sha, db, tenant, t.now, t.ops);
        } else {
          assert Where(db.log, tenant) + [] == Where(db.log, tenant);
        }
      } else {
        NoHeadNoEffect(sha, db, t.pin, t.now, t.ops);
        NothingCommits(db, t.pin);
        if t.pin == Some(tenant) { NoHeadFresh(sha, db, tenant, t.now, t.ops); }
      }
    }
  }

  lemma FreshRunNext(sha: Sha, ts: seq<Txn>, tenant: Uuid)
    requires ts != []
    ensures var n := |ts| - 1;
      FreshRun(sha, ts, tenant) <==>
        FreshRun(sha, ts[..n], tenant) && FreshTxn(sha, Serial(sha, EMPTY, ts[..n]), ts[n], tenant)
  {
    hide FreshTxn, Serial;
    var n := |ts| - 1;
    forall i | 0 <= i < n
      ensures ts[..n][..i] == ts[..i] && ts[..n][i] == ts[i]
    {}
  }

  /** After transactions run one at a time, a tenant's log can be undone exactly when every
      committed change of the tenant was diffed against what its row showed. */
  lemma {:induction false} FreshExactly(sha: Sha, ts: seq<Txn>, tenant: Uuid)
    ensures Undoable(Where(Serial(sha, EMPTY, ts).log, tenant)) <==> FreshRun(sha, ts, tenant)
  {
    hide FreshTxn, Atomic, Undoable, Where, Consistent;
    if ts == [] {
      NothingToUndo(sha, tenant);
    } else {
      var n := |ts| - 1;
      FreshExactly(sha, ts[..n], tenant);
      SerialConsistent(sha, ts[..n]);
      AtomicUndoable(sha, Serial(sha, EMPTY, ts[..n]), ts[n], tenant);
      FreshRunNext(sha, ts, tenant);
    }
  }

  lemma NothingToUndo(sha: Sha, tenant: Uuid)
    ensures Undoable(Where(Serial(sha, EMPTY, []).log, tenant))
  {}
}
