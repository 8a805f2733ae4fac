/** The audit log as the history of the tables: folding a tenant's log gives the tenant's rows.

    Only application-written columns take part, compared as the JSON they render to, with
    the keys of nested objects in order; so a log whose objects JSONB reordered replays alike. */
module Replay {
  import opened Wrappers
  import opened Json
  import opened CanonicalJson
  import opened Chain
  import opened ColumnTypes
  import opened Database

  type Tables = map<Key, Columns>

  /** A row as the log can show it. */
  function Shown(m: Columns): Columns {
    map c | c in m && c !in SERVER_COLUMNS :: Norm(Rendered(m[c]))
  }

  /** The columns recorded in old_values or new_values. */
  function Recorded(v: Jsonb): Columns {
    if v.Obj? then map c | c in Keys(v.members) && c !in SERVER_COLUMNS :: Norm(Lookup(v.members, c))
    else map[]
  }

  function EntryKey(e: Entry): Key { Key(e.table, e.record) }

  /** INSERT creates, UPDATE overlays the recorded columns, DELETE removes; a column keeps of a
      recorded value what it keeps of an assigned one. */
  function ApplyEntry(t: Tables, e: Entry): Tables {
    var key, news := EntryKey(e), CoerceAll(e.table, Recorded(e.newValues));
    if e.action == "INSERT" then t[key := news]
    else if e.action == "UPDATE" then if key in t then t[key := t[key] + news] else t
    else if e.action == "DELETE" then t - {key}
    else t
  }

  function Replayed(log: seq<Entry>): Tables {
    if log == [] then map[] else ApplyEntry(Replayed(log[..|log| - 1]), log[|log| - 1])
  }

  lemma EmptyReplays()
    ensures Replayed([]) == map[]
  {}

  /** One tenant's rows, as the log can show them. */
  function TenantTables(rows: Rows, tenant: Uuid): Tables {
    map k | k in rows && rows[k].tenant == tenant :: Shown(rows[k].cols)
  }

  /** What one change means for the tables. */
  function ApplyChange(t: Tables, c: Change): Tables
    requires Loaded(c)
  {
    var key := c.obj.key;
    match c
    case Insert(o) => t[key := CoerceAll(key.table, Shown(o.vals))]
    case Update(_, _) =>
      if Effective(c) && key in t then t[key := t[key] + CoerceAll(key.table, Shown(Assigned(c)))] else t
    case Delete(_) => t - {key}
  }

  function ApplyChanges(t: Tables, cs: seq<Change>): Tables
    requires forall c :: c in cs ==> Loaded(c)
  {
    if cs == [] then t else ApplyChange(ApplyChanges(t, cs[..|cs| - 1]), cs[|cs| - 1])
  }

  // ---------- An entry records its change ----------

  lemma RecordedSerialized(columns: seq<string>, vals: Columns, v: Jsonb)
    requires Distinct(columns) && (forall c :: c in columns ==> c in vals)
    requires v == Rendered(Obj(Serialize(columns, vals)))
    ensures Recorded(v) == map c | c in vals && c in columns && c !in SERVER_COLUMNS :: Norm(Rendered(vals[c]))
  {
    SerializeLookup(columns, vals);
    forall c | c in columns
      ensures Lookup(v.members, c) == Rendered(vals[c])
    {
      RenderedLookup(Serialize(columns, vals), c);
    }
  }

  lemma InsertRecorded(c: Change, v: Jsonb)
    requires c.Insert? && v == Rendered(NewValues(c))
    ensures Recorded(v) == Shown(c.obj.vals)
  {
    RecordedSerialized(c.obj.columns, c.obj.vals, v);
  }

  lemma UpdateRecorded(c: Change, v: Jsonb)
    requires c.Update? && Loaded(c) && v == Rendered(NewValues(c))
    ensures Recorded(v) == Shown(Assigned(c))
  {
    ChangedDistinct(c.obj.columns, c.loaded, c.obj.vals);
    RecordedSerialized(ChangedColumns(c), c.obj.vals, v);
  }

  lemma EntryAppliesChange(sha: Sha, head: Head, c: Change, t: Tables)
    requires Loaded(c) && Effective(c)
    ensures ApplyEntry(t, EntryFor(sha, head, c)) == ApplyChange(t, c)
  {
    hide EntryFor, Recorded, Shown, NewValues, OldValues;
    var e := EntryFor(sha, head, c);
    EntryFields(sha, head, c);
    match c
    case Insert(_) => InsertRecorded(c, e.newValues);
    case Update(_, _) => UpdateRecorded(c, e.newValues);
    case Delete(_) =>
  }

  lemma EntryFields(sha: Sha, head: Head, c: Change)
    requires Loaded(c)
    ensures var e := EntryFor(sha, head, c);
      && e.action == Action(c) && EntryKey(e) == c.obj.key && e.tenant == c.obj.tenant
      && e.oldValues == Rendered(OldValues(c)) && e.newValues == Rendered(NewValues(c))
  {
    ValuesUnique(c);
  }

  /** The columns a log row shows do not depend on the order JSONB keeps keys in. */
  lemma RecordedOrderBlind(a: Jsonb, b: Jsonb)
    requires Equiv(a, b)
    ensures Recorded(a) == Recorded(b)
  {
    NormDecides(a, b);
    if a.Obj? {
      NormSorted(a.members);
      NormSorted(b.members);
      forall c | c in Keys(a.members)
        ensures Norm(Lookup(a.members, c)) == Norm(Lookup(b.members, c))
      {
        assert Lookup(NormMembers(a.members), c) == Lookup(NormMembers(b.members), c);
      }
    }
  }

  /** Replaying the log as stored gives what replaying the log as appended gives. */
  lemma {:induction false} ReplayOrderBlind(tenant: Uuid, log: seq<Entry>, stored: seq<Entry>)
    requires SameLog(tenant, log, tenant, stored)
    ensures Replayed(log) == Replayed(stored)
  {
    if log != [] {
      var n := |log| - 1;
      assert SameRow(log[n], stored[n]);
      RecordedOrderBlind(log[n].newValues, stored[n].newValues);
      forall i | 0 <= i < n
        ensures SameRow(log[..n][i], stored[..n][i])
      {
        assert SameRow(log[i], stored[i]);
      }
      ReplayOrderBlind(tenant, log[..n], stored[..n]);
    }
  }

  // ---------- Log order and write order within one flush ----------

  function At(t: Tables, k: Key): Option<Columns> { if k in t then Some(t[k]) else None }

  lemma TablesEqual(s: Tables, t: Tables)
    requires forall k :: At(s, k) == At(t, k)
    ensures s == t
  {
    forall k | k in s
      ensures k in t && s[k] == t[k]
    {
      assert At(s, k) == At(t, k);
    }
    forall k | k in t
      ensures k in s
    {
      assert At(s, k) == At(t, k);
    }
  }

  lemma {:induction false} ChangesElsewhere(t: Tables, cs: seq<Change>, k: Key)
    requires forall c :: c in cs ==> Loaded(c) && c.obj.key != k
    ensures At(ApplyChanges(t, cs), k) == At(t, k)
  {
    if cs != [] {
      var n := |cs| - 1;
      assert cs[n] in cs;
      ChangesElsewhere(t, cs[..n], k);
    }
  }

  lemma SameRowSameEffect(s: Tables, t: Tables, c: Change)
    requires Loaded(c) && At(s, c.obj.key) == At(t, c.obj.key)
    ensures At(ApplyChange(s, c), c.obj.key) == At(ApplyChange(t, c), c.obj.key)
  {}

  lemma KeyNotBefore(cs: seq<Change>, n: nat)
    requires n < |cs| && DistinctKeys(cs)
    ensures forall c :: c in cs[..n] ==> c.obj.key != cs[n].obj.key
  {
    forall c | c in cs[..n]
      ensures c.obj.key != cs[n].obj.key
    {
      var j :| 0 <= j < n && cs[j] == c;
    }
  }

  lemma {:induction false} ChangesHere(t: Tables, cs: seq<Change>, i: nat)
    requires i < |cs| && DistinctKeys(cs) && forall c :: c in cs ==> Loaded(c)
    ensures At(ApplyChanges(t, cs), cs[i].obj.key) == At(ApplyChange(t, cs[i]), cs[i].obj.key)
  {
    var n := |cs| - 1;
    var init := cs[..n];
    if i < n {
      ChangesHere(t, init, i);
      assert cs[n].obj.key != cs[i].obj.key;
      AnotherKey(ApplyChanges(t, init), cs[n], cs[i].obj.key);
    } else {
      KeyNotBefore(cs, n);
      ChangesElsewhere(t, init, cs[n].obj.key);
      SameRowSameEffect(ApplyChanges(t, init), t, cs[n]);
    }
  }

  lemma AnotherKey(t: Tables, c: Change, k: Key)
    requires Loaded(c) && c.obj.key != k
    ensures At(ApplyChange(t, c), k) == At(t, k)
  {}

  /** The unit of work may write in any order: each object changes once per flush. */
  lemma OrderIrrelevant(t: Tables, cs: seq<Change>, order: seq<Change>)
    requires (forall c :: c in cs ==> Loaded(c)) && (forall c :: c in cs <==> c in order)
    requires DistinctKeys(cs) && DistinctKeys(order)
    ensures ApplyChanges(t, cs) == ApplyChanges(t, order)
  {
    forall k
      ensures At(ApplyChanges(t, cs), k) == At(ApplyChanges(t, order), k)
    {
      if c :| c in cs && c.obj.key == k {
        var i :| 0 <= i < |cs| && cs[i] == c;
        var j :| 0 <= j < |order| && order[j] == c;
        ChangesHere(t, cs, i);
        ChangesHere(t, order, j);
      } else {
        ChangesElsewhere(t, cs, k);
        ChangesElsewhere(t, order, k);
      }
    }
    TablesEqual(ApplyChanges(t, cs), ApplyChanges(t, order));
  }

  // ---------- Statements change the tables as the changes say ----------

  /** A session touches rows of its own tenant only. */
  predicate OwnWrites(rows: Rows, writes: Writes, tenant: Uuid) {
    forall k :: k in writes ==>
      (k in rows ==> rows[k].tenant == tenant) && (writes[k].Some? ==> writes[k].value.tenant == tenant)
  }

  function SeenRow(rows: Rows, writes: Writes, tenant: Uuid, k: Key): Option<Columns> {
    var r := Current(rows, writes, k);
    if r.Some? && r.value.tenant == tenant then Some(Shown(r.value.cols)) else None
  }

  lemma OverlayAt(rows: Rows, writes: Writes, tenant: Uuid, k: Key)
    ensures At(TenantTables(Overlay(rows, writes), tenant), k) == SeenRow(rows, writes, tenant, k)
  {}

  lemma InsertHere(rows: Rows, now: int, writes: Writes, c: Change, tenant: Uuid)
    requires c.Insert? && WriteChange(rows, Some(tenant), now, writes, c).Some?
    ensures SeenRow(rows, WriteChange(rows, Some(tenant), now, writes, c).value, tenant, c.obj.key)
         == Some(CoerceAll(c.obj.key.table, Shown(c.obj.vals)))
  {
    ShownStored(c.obj.key.table, c.obj.vals);
  }

  /** Rounding an amount and rendering it commute. */
  lemma ShownCoerced(table: string, column: string, v: Value)
    ensures Norm(Rendered(Coerce(table, column, v))) == Coerce(table, column, Norm(Rendered(v)))
  {}

  lemma ShownStored(table: string, m: Columns)
    ensures Shown(CoerceAll(table, Written(m))) == CoerceAll(table, Shown(m))
  {
    hide Coerce, Norm, Rendered;
    forall c | c in m && c !in SERVER_COLUMNS
      ensures Norm(Rendered(Coerce(table, c, m[c]))) == Coerce(table, c, Norm(Rendered(m[c])))
    {
      ShownCoerced(table, c, m[c]);
    }
  }

  lemma ShownOverlay(table: string, a: Columns, b: Columns)
    ensures Shown(a + CoerceAll(table, Written(b))) == Shown(a) + CoerceAll(table, Shown(b))
  {
    hide Coerce, Norm, Rendered;
    ShownStored(table, b);
    assert Shown(a + CoerceAll(table, Written(b))) == Shown(a) + Shown(CoerceAll(table, Written(b)));
  }

  lemma UpdateHere(rows: Rows, now: int, writes: Writes, c: Change, tenant: Uuid)
    requires c.Update? && Loaded(c) && Effective(c)
    requires WriteChange(rows, Some(tenant), now, writes, c).Some?
    ensures SeenRow(rows, writes, tenant, c.obj.key).Some?
    ensures SeenRow(rows, WriteChange(rows, Some(tenant), now, writes, c).value, tenant, c.obj.key)
         == Some(SeenRow(rows, writes, tenant, c.obj.key).value + CoerceAll(c.obj.key.table, Shown(Assigned(c))))
  {
    hide Shown, Assigned, Written, CoerceAll;
    ShownOverlay(c.obj.key.table, Current(rows, writes, c.obj.key).value.cols, Assigned(c));
  }

  lemma DeleteHere(rows: Rows, now: int, writes: Writes, c: Change, tenant: Uuid)
    requires c.Delete? && WriteChange(rows, Some(tenant), now, writes, c).Some?
    ensures SeenRow(rows, WriteChange(rows, Some(tenant), now, writes, c).value, tenant, c.obj.key) == None
  {}

  /** A statement that does not raise does to the row it names what its change says. */
  lemma StatementHere(rows: Rows, now: int, writes: Writes, c: Change, tenant: Uuid, before: Tables)
    requires Loaded(c) && At(before, c.obj.key) == SeenRow(rows, writes, tenant, c.obj.key)
    requires WriteChange(rows, Some(tenant), now, writes, c).Some?
    ensures SeenRow(rows, WriteChange(rows, Some(tenant), now, writes, c).value, tenant, c.obj.key)
         == At(ApplyChange(before, c), c.obj.key)
  {
    match c
    case Insert(_) => InsertHere(rows, now, writes, c, tenant);
    case Update(_, _) => if Effective(c) { UpdateHere(rows, now, writes, c, tenant); }
    case Delete(_) => DeleteHere(rows, now, writes, c, tenant);
  }

  lemma StatementOwn(rows: Rows, now: int, writes: Writes, c: Change, tenant: Uuid)
    requires Loaded(c) && OwnWrites(rows, writes, tenant)
    requires WriteChange(rows, Some(tenant), now, writes, c).Some?
    ensures var w := WriteChange(rows, Some(tenant), now, writes, c).value;
      && OwnWrites(rows, w, tenant)
      && (forall k :: k != c.obj.key ==> Current(rows, w, k) == Current(rows, writes, k))
  {}

  lemma StatementApplies(rows: Rows, now: int, writes: Writes, c: Change, tenant: Uuid)
    requires Loaded(c) && (Effective(c) ==> c.obj.tenant == tenant) && OwnWrites(rows, writes, tenant)
    requires WriteChange(rows, Some(tenant), now, writes, c).Some?
    ensures var w := WriteChange(rows, Some(tenant), now, writes, c).value;
      && OwnWrites(rows, w, tenant)
      && TenantTables(Overlay(rows, w), tenant) == ApplyChange(TenantTables(Overlay(rows, writes), tenant), c)
  {
    var w := WriteChange(rows, Some(tenant), now, writes, c).value;
    var before := TenantTables(Overlay(rows, writes), tenant);
    StatementOwn(rows, now, writes, c, tenant);
    OverlayAt(rows, writes, tenant, c.obj.key);
    StatementHere(rows, now, writes, c, tenant, before);
    forall k
      ensures At(TenantTables(Overlay(rows, w), tenant), k) == At(ApplyChange(before, c), k)
    {
      OverlayAt(rows, w, tenant, k);
      if k != c.obj.key {
        OverlayAt(rows, writes, tenant, k);
        AnotherKey(before, c, k);
      }
    }
    TablesEqual(TenantTables(Overlay(rows, w), tenant), ApplyChange(before, c));
  }

  lemma {:induction false} StatementsApply(rows: Rows, now: int, writes: Writes, cs: seq<Change>, tenant: Uuid)
    requires forall c :: c in cs ==> Loaded(c) && (Effective(c) ==> c.obj.tenant == tenant)
    requires OwnWrites(rows, writes, tenant)
    requires WriteAll(rows, Some(tenant), now, writes, cs).Some?
    ensures var w := WriteAll(rows, Some(tenant), now, writes, cs).value;
      && OwnWrites(rows, w, tenant)
      && (TenantTables(Overlay(rows, w), tenant)
          == ApplyChanges(TenantTables(Overlay(rows, writes), tenant), cs))
  {
    if cs != [] {
      var n := |cs| - 1;
      assert cs[n] in cs;
      StatementsApply(rows, now, writes, cs[..n], tenant);
      var w := WriteAll(rows, Some(tenant), now, writes, cs[..n]).value;
      StatementApplies(rows, now, w, cs[n], tenant);
    }
  }

  // ---------- Appending keeps the chain ----------

  /** A tenant's log and head as every reader should find them: a chain from genesis whose
      sequence numbers are 1, 2, ..., last_seq and whose tip is the head. */
  predicate LogGood(sha: Sha, tenant: Uuid, log: seq<Entry>, head: Head) {
    && Accepted(sha, tenant, log, head)
    && head.lastSeq == |log|
    && forall i :: 0 <= i < |log| ==> log[i].seqNo == i + 1 && log[i].tenant == tenant
  }

  lemma LogGoodAppend(sha: Sha, tenant: Uuid, log: seq<Entry>, head: Head, c: Change)
    requires LogGood(sha, tenant, log, head) && Loaded(c) && c.obj.tenant == tenant
    ensures var e := EntryFor(sha, head, c); LogGood(sha, tenant, log + [e], Head(e.seqNo, e.recordHash))
  {
    LinksAppend(sha, tenant, log, EntryFor(sha, head, c));
  }

  /** The head a session would append to next. */
  function HeadOf(db: Db, tenant: Uuid, p: Pending): Head
    requires p.head.None? ==> tenant in db.heads
  {
    if p.head.Some? then p.head.value else db.heads[tenant]
  }

  lemma ReplayedAppend(log: seq<Entry>, e: Entry)
    ensures Replayed(log + [e]) == ApplyEntry(Replayed(log), e)
  {
    assert (log + [e])[..|log|] == log;
  }

  lemma AppendRecords(sha: Sha, db: Db, tenant: Uuid, q: Pending, c: Change, log: seq<Entry>)
    requires Loaded(c) && Effective(c)
    requires tenant in db.heads && LogGood(sha, tenant, log + q.entries, HeadOf(db, tenant, q))
    requires AppendChange(sha, db, Some(tenant), q, c).Some?
    ensures var r := AppendChange(sha, db, Some(tenant), q, c).value;
      && r.head.Some?
      && LogGood(sha, tenant, log + r.entries, r.head.value)
      && Replayed(log + r.entries) == ApplyChange(Replayed(log + q.entries), c)
  {
    hide EntryFor, LogGood, Replayed, ApplyChange;
    var head := HeadOf(db, tenant, q);
    var e := EntryFor(sha, head, c);
    var r := AppendChange(sha, db, Some(tenant), q, c).value;
    assert c.obj.tenant == tenant;
    assert r == Pending(q.entries + [e], q.writes, Some(Head(e.seqNo, e.recordHash)));
    var before := log + q.entries;
    assert log + r.entries == before + [e];
    LogGoodAppend(sha, tenant, before, head, c);
    RecordsOne(sha, before, head, c);
  }

  lemma RecordsOne(sha: Sha, log: seq<Entry>, head: Head, c: Change)
    requires Loaded(c) && Effective(c)
    ensures Replayed(log + [EntryFor(sha, head, c)]) == ApplyChange(Replayed(log), c)
  {
    ReplayedAppend(log, EntryFor(sha, head, c));
    EntryAppliesChange(sha, head, c, Replayed(log));
  }

  predicate Recording(sha: Sha, db: Db, tenant: Uuid, p: Pending, q: Pending, cs: seq<Change>, log: seq<Entry>)
    requires forall c :: c in cs ==> Loaded(c)
  {
    && tenant in db.heads && LogGood(sha, tenant, log + q.entries, HeadOf(db, tenant, q))
    && Replayed(log + q.entries) == ApplyChanges(Replayed(log + p.entries), cs)
  }

  lemma {:induction false} AppendsRecord(sha: Sha, db: Db, tenant: Uuid, p: Pending, cs: seq<Change>, log: seq<Entry>)
    requires forall c :: c in cs ==> Loaded(c)
    requires tenant in db.heads && LogGood(sha, tenant, log + p.entries, HeadOf(db, tenant, p))
    requires AppendAll(sha, db, Some(tenant), p, cs).Some?
    ensures Recording(sha, db, tenant, p, AppendAll(sha, db, Some(tenant), p, cs).value, cs, log)
  {
    if cs != [] {
      var n := |cs| - 1;
      var c := cs[n];
      assert c in cs;
      AppendsRecord(sha, db, tenant, p, cs[..n], log);
      var q := AppendAll(sha, db, Some(tenant), p, cs[..n]).value;
      if Effective(c) {
        AppendRecords(sha, db, tenant, q, c, log);
      }
    }
  }

  /** What appending leaves alone, and when it takes the head row. */
  lemma {:induction false} AppendsTakeHead(sha: Sha, db: Db, tenant: Uuid, p: Pending, cs: seq<Change>)
    requires forall c :: c in cs ==> Loaded(c)
    requires AppendAll(sha, db, Some(tenant), p, cs).Some?
    ensures var q := AppendAll(sha, db, Some(tenant), p, cs).value;
      && q.writes == p.writes
      && (p.head.Some? ==> q.head.Some?) && (q.head.None? ==> q == p)
      && (forall c :: c in cs && Effective(c) ==> c.obj.tenant == tenant && tenant in db.heads && q.head.Some?)
  {
    hide EntryFor;
    if cs != [] {
      var n := |cs| - 1;
      assert cs == cs[..n] + [cs[n]];
      AppendsTakeHead(sha, db, tenant, p, cs[..n]);
    }
  }

  // ---------- The invariant, through a transaction ----------

  predicate PendingGood(sha: Sha, db: Db, tenant: Uuid, p: Pending)
    requires tenant in db.heads
  {
    var log := Where(db.log, tenant) + p.entries;
    && LogGood(sha, tenant, log, HeadOf(db, tenant, p))
    && OwnWrites(db.rows, p.writes, tenant)
    && Replayed(log) == TenantTables(Overlay(db.rows, p.writes), tenant)
    && (p.head.None? ==> p == NOTHING)
  }

  predicate TenantGood(sha: Sha, db: Db, tenant: Uuid)
    requires tenant in db.heads
  {
    && LogGood(sha, tenant, Where(db.log, tenant), db.heads[tenant])
    && Replayed(Where(db.log, tenant)) == TenantTables(db.rows, tenant)
  }

  /** Every tenant's log is a good chain whose replay is the tenant's rows. */
  predicate Consistent(sha: Sha, db: Db) {
    && (forall t :: t in db.heads ==> TenantGood(sha, db, t))
    && (forall e :: e in db.log ==> e.tenant in db.heads)
    && (forall k :: k in db.rows ==> db.rows[k].tenant in db.heads)
  }

  lemma FlushKeepsGood(sha: Sha, db: Db, tenant: Uuid, now: int, p: Pending, f: UnitOfWork)
    requires tenant in db.heads && PendingGood(sha, db, tenant, p)
    requires FlushOn(sha, db, Some(tenant), now, p, f).Some?
    ensures PendingGood(sha, db, tenant, FlushOn(sha, db, Some(tenant), now, p, f).value)
    ensures p.head.Some? ==> FlushOn(sha, db, Some(tenant), now, p, f).value.head.Some?
  {
    var log := Where(db.log, tenant);
    AppendsRecord(sha, db, tenant, p, f.changes, log);
    AppendsTakeHead(sha, db, tenant, p, f.changes);
    var q := AppendAll(sha, db, Some(tenant), p, f.changes).value;
    var r := FlushOn(sha, db, Some(tenant), now, p, f).value;
    StatementsApply(db.rows, now, q.writes, f.order, tenant);
    OrderIrrelevant(Replayed(log + p.entries), f.changes, f.order);
    if q.head.None? {
      forall c | c in f.order
        ensures !Effective(c)
      {
        assert c in f.changes;
      }
      NoEffectNoWrites(db.rows, Some(tenant), now, q.writes, f.order);
    }
  }

  lemma {:induction false} NoEffectNoWrites(rows: Rows, pin: Option<Uuid>, now: int, writes: Writes, cs: seq<Change>)
    requires forall c :: c in cs ==> Loaded(c) && !Effective(c)
    ensures WriteAll(rows, pin, now, writes, cs) == Some(writes)
  {
    if cs != [] {
      assert cs[|cs| - 1] in cs;
      NoEffectNoWrites(rows, pin, now, writes, cs[..|cs| - 1]);
    }
  }

  lemma OverlayNothing(rows: Rows)
    ensures Overlay(rows, map[]) == rows
  {}

  lemma NothingGood(sha: Sha, db: Db, tenant: Uuid)
    requires tenant in db.heads && TenantGood(sha, db, tenant)
    ensures PendingGood(sha, db, tenant, NOTHING)
  {
    OverlayNothing(db.rows);
    var log := Where(db.log, tenant);
    var log' := log + NOTHING.entries;
    assert log' == log;
  }

  lemma {:induction false} OpsKeepGood(sha: Sha, db: Db, tenant: Uuid, now: int, ops: seq<Op>)
    requires tenant in db.heads && Consistent(sha, db)
    requires RunOps(sha, db, Some(tenant), now, ops).Some?
    ensures PendingGood(sha, db, tenant, RunOps(sha, db, Some(tenant), now, ops).value)
  {
    if ops == [] {
      NothingGood(sha, db, tenant);
    } else {
      var n := |ops| - 1;
      OpsKeepGood(sha, db, tenant, now, ops[..n]);
      if ops[n].Wrote? {
        FlushKeepsGood(sha, db, tenant, now, RunOps(sha, db, Some(tenant), now, ops[..n]).value, ops[n].unit);
      }
    }
  }

  /** A session that sees no head row (unpinned, or pinned to an unknown tenant) changes nothing. */
  lemma {:induction false} NoHeadNoEffect(sha: Sha, db: Db, pin: Option<Uuid>, now: int, ops: seq<Op>)
    requires pin.Some? ==> pin.value !in db.heads
    ensures RunOps(sha, db, pin, now, ops) in {None, Some(NOTHING)}
  {
    if ops != [] {
      var n := |ops| - 1;
      NoHeadNoEffect(sha, db, pin, now, ops[..n]);
      if ops[n].Wrote? {
        var f := ops[n].unit;
        AppendNeedsHead(sha, db, pin, NOTHING, f.changes);
        if AppendAll(sha, db, pin, NOTHING, f.changes).Some? {
          forall c | c in f.order
            ensures !Effective(c)
          {
            assert c in f.changes;
          }
          NoEffectNoWrites(db.rows, pin, now, map[], f.order);
        }
      }
    }
  }

  lemma {:induction false} AppendNeedsHead(sha: Sha, db: Db, pin: Option<Uuid>, p: Pending, cs: seq<Change>)
    requires forall c :: c in cs ==> Loaded(c)
    requires pin.Some? ==> pin.value !in db.heads
    ensures AppendAll(sha, db, pin, p, cs) == if exists c :: c in cs && Effective(c) then None else Some(p)
  {
    if cs != [] {
      var n := |cs| - 1;
      assert cs == cs[..n] + [cs[n]];
      AppendNeedsHead(sha, db, pin, p, cs[..n]);
    }
  }

  lemma {:induction false} WhereAppend(a: seq<Entry>, b: seq<Entry>, tenant: Uuid)
    ensures Where(a + b, tenant) == Where(a, tenant) + Where(b, tenant)
  {
    if a == [] {
      assert a + b == b;
    } else {
      assert (a + b)[1..] == a[1..] + b;
      WhereAppend(a[1..], b, tenant);
    }
  }

  lemma {:induction false} WhereOwn(es: seq<Entry>, owner: Uuid, tenant: Uuid)
    requires forall e :: e in es ==> e.tenant == owner
    ensures Where(es, tenant) == if tenant == owner then es else []
  {
    if es != [] {
      WhereOwn(es[1..], owner, tenant);
    }
  }

  lemma OthersKept(rows: Rows, writes: Writes, tenant: Uuid, other: Uuid)
    requires OwnWrites(rows, writes, tenant) && other != tenant
    ensures TenantTables(Overlay(rows, writes), other) == TenantTables(rows, other)
  {}

  lemma TailOwned(sha: Sha, tenant: Uuid, own: seq<Entry>, entries: seq<Entry>, head: Head)
    requires LogGood(sha, tenant, own + entries, head)
    ensures forall e :: e in entries ==> e.tenant == tenant
  {
    forall i | 0 <= i < |entries|
      ensures entries[i].tenant == tenant
    {
      assert (own + entries)[|own| + i] == entries[i];
    }
  }

  lemma EntriesOwned(sha: Sha, db: Db, tenant: Uuid, p: Pending)
    requires tenant in db.heads && PendingGood(sha, db, tenant, p)
    ensures forall e :: e in p.entries ==> e.tenant == tenant
  {
    TailOwned(sha, tenant, Where(db.log, tenant), p.entries, HeadOf(db, tenant, p));
  }

  /** After a commit the committer's log has grown by one block, and no other tenant's has. */
  lemma CommitAddsBlock(sha: Sha, db: Db, tenant: Uuid, p: Pending, t: Uuid)
    requires tenant in db.heads && PendingGood(sha, db, tenant, p)
    ensures Where(CommitOn(db, Some(tenant), p).log, t)
         == Where(db.log, t) + if t == tenant then p.entries else []
  {
    EntriesOwned(sha, db, tenant, p);
    WhereAppend(db.log, p.entries, t);
    WhereOwn(p.entries, tenant, t);
  }

  lemma NothingCommits(db: Db, pin: Option<Uuid>)
    ensures CommitOn(db, pin, NOTHING) == db
  {}

  lemma CommitKeepsTenant(sha: Sha, db: Db, tenant: Uuid, p: Pending, t: Uuid)
    requires Consistent(sha, db) && tenant in db.heads && PendingGood(sha, db, tenant, p)
    requires p.head.Some? && t in db.heads
    ensures TenantGood(sha, CommitOn(db, Some(tenant), p), t)
  {
    CommitAddsBlock(sha, db, tenant, p, t);
    if t != tenant {
      assert Where(db.log, t) + [] == Where(db.log, t);
      OthersKept(db.rows, p.writes, tenant, t);
    }
  }

  lemma CommitKeepsConsistent(sha: Sha, db: Db, tenant: Uuid, p: Pending)
    requires Consistent(sha, db) && tenant in db.heads && PendingGood(sha, db, tenant, p)
    ensures Consistent(sha, CommitOn(db, Some(tenant), p))
  {
    if p.head.Some? {
      var db' := CommitOn(db, Some(tenant), p);
      EntriesOwned(sha, db, tenant, p);
      forall t | t in db'.heads
        ensures TenantGood(sha, db', t)
      {
        CommitKeepsTenant(sha, db, tenant, p, t);
      }
    }
  }

  lemma AtomicKeepsConsistent(sha: Sha, db: Db, t: Txn)
    requires Consistent(sha, db)
    ensures Consistent(sha, Atomic(sha, db, t))
  {
    match t
    case Provision(tenant) => ProvisionKeepsConsistent(sha, db, tenant);
    case Session(pin, now, ops) =>
      if RunOps(sha, db, pin, now, ops).Some? {
        if pin.Some? && pin.value in db.heads {
          OpsKeepGood(sha, db, pin.value, now, ops);
          CommitKeepsConsistent(sha, db, pin.value, RunOps(sha, db, pin, now, ops).value);
        } else {
          NoHeadNoEffect(sha, db, pin, now, ops);
        }
      }
  }

  lemma {:induction false} WhereNone(es: seq<Entry>, tenant: Uuid)
    requires forall e :: e in es ==> e.tenant != tenant
    ensures Where(es, tenant) == []
  {
    if es != [] {
      assert es[0] in es;
      WhereNone(es[1..], tenant);
    }
  }

  lemma UnknownTenantEmpty(db: Db, tenant: Uuid)
    requires forall e :: e in db.log ==> e.tenant in db.heads
    requires forall k :: k in db.rows ==> db.rows[k].tenant in db.heads
    requires tenant !in db.heads
    ensures Where(db.log, tenant) == [] && TenantTables(db.rows, tenant) == map[]
  {
    WhereNone(db.log, tenant);
  }

  lemma ProvisionKeepsConsistent(sha: Sha, db: Db, tenant: Uuid)
    requires Consistent(sha, db)
    ensures Consistent(sha, ProvisionOn(sha, db, tenant))
  {
    if tenant !in db.heads {
      UnknownTenantEmpty(db, tenant);
      var db' := ProvisionOn(sha, db, tenant);
      forall t | t in db'.heads
        ensures TenantGood(sha, db', t)
      {
        assert t != tenant ==> TenantGood(sha, db, t);
      }
    }
  }

  /** From an empty database, after any transactions run one at a time, every tenant's log is a
      good chain and replays to exactly the tenant's rows. */
  lemma {:induction false} SerialConsistent(sha: Sha, ts: seq<Txn>)
    ensures Consistent(sha, Serial(sha, EMPTY, ts))
  {
    if ts != [] {
      SerialConsistent(sha, ts[..|ts| - 1]);
      AtomicKeepsConsistent(sha, Serial(sha, EMPTY, ts[..|ts| - 1]), ts[|ts| - 1]);
    }
  }
}
