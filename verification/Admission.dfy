/** When a request succeeds: adding rows raises exactly when the tenant's head row is invisible or
    a key is taken, so with a provisioned tenant and fresh ids every request goes through. */
module Admission {
  import opened Wrappers
  import opened Json
  import opened Chain
  import opened ColumnTypes
  import opened Database
  import opened Replay
  import opened Sessions
  import opened Monitoring
  import opened Services
  import opened Effects
  import opened Compliance
  import opened Rewind

  predicate Storable(row: NewRow) { forall c :: c in row.vals ==> Unique(row.vals[c]) }

  predicate DistinctRows(rows: seq<NewRow>) { forall i, j :: 0 <= i < j < |rows| ==> rows[i].key != rows[j].key }

  lemma RunSnoc(sha: Sha, db: Db, pin: Option<Uuid>, now: int, ops: seq<Op>, p: Pending, f: UnitOfWork)
    requires RunOps(sha, db, pin, now, ops) == Some(p)
    ensures RunOps(sha, db, pin, now, ops + [Op.Wrote(f)]) == FlushOn(sha, db, pin, now, p, f)
  {
    hide FlushOn;
    assert (ops + [Op.Wrote(f)])[..|ops|] == ops;
  }

  lemma RunSaw(sha: Sha, db: Db, pin: Option<Uuid>, now: int, ops: seq<Op>, p: Pending)
    requires RunOps(sha, db, pin, now, ops) == Some(p) && p.head.Some?
    ensures RunOps(sha, db, pin, now, ops + [Saw(Visible(Overlay(db.rows, p.writes), pin))]) == Some(p)
  {
    hide FlushOn;
    var rows := Visible(Overlay(db.rows, p.writes), pin);
    assert (ops + [Saw(rows)])[..|ops|] == ops;
  }

  lemma PerformsMore(ops: seq<Op>, tenant: Uuid, done: seq<NewRow>, f: UnitOfWork, rows: seq<NewRow>)
    requires Performs(ops, tenant, done) && |f.changes| == |rows|
    requires forall i :: 0 <= i < |rows| ==> Adds(f.changes[i], tenant, rows[i])
    ensures Performs(ops + [Op.Wrote(f)], tenant, done + rows)
  {
    ChangesOf(ops, Op.Wrote(f));
  }

  // ---------- When a flush of new objects succeeds ----------

  lemma {:induction false} AppendsAdmitted(sha: Sha, db: Db, pin: Option<Uuid>, tenant: Uuid, p: Pending,
                                           cs: seq<Change>)
    requires OnlyInserts(tenant, cs)
    ensures AppendAll(sha, db, pin, p, cs).Some? <==> cs == [] || (pin == Some(tenant) && tenant in db.heads)
  {
    hide EntryFor;
    if cs != [] {
      var n := |cs| - 1;
      assert cs[n] in cs;
      AppendsAdmitted(sha, db, pin, tenant, p, cs[..n]);
    }
  }

  lemma {:induction false} StatementsAdmitted(rows: Rows, tenant: Uuid, now: int, writes: Writes, cs: seq<Change>)
    requires OnlyInserts(tenant, cs) && DistinctKeys(cs)
    ensures WriteAll(rows, Some(tenant), now, writes, cs).Some?
       <==> forall c :: c in cs ==> Current(rows, writes, c.obj.key).None?
  {
    hide Current;
    if cs != [] {
      var n := |cs| - 1;
      assert cs == cs[..n] + [cs[n]];
      StatementsAdmitted(rows, tenant, now, writes, cs[..n]);
      if WriteAll(rows, Some(tenant), now, writes, cs[..n]).Some? {
        KeyNotBefore(cs, n);
        Untouched(rows, tenant, now, writes, cs[..n], cs[n].obj.key);
        OneAdmitted(rows, tenant, now, WriteAll(rows, Some(tenant), now, writes, cs[..n]).value, cs[n]);
      }
    }
  }

  lemma OneAdmitted(rows: Rows, tenant: Uuid, now: int, writes: Writes, c: Change)
    requires c.Insert? && c.obj.tenant == tenant
    ensures WriteChange(rows, Some(tenant), now, writes, c).Some? <==> Current(rows, writes, c.obj.key).None?
  {}

  /** The keys are neither in the table nor already added. */
  predicate FreeKeys(rows: Rows, done: seq<NewRow>, news: seq<NewRow>) {
    forall i :: 0 <= i < |news| ==> news[i].key !in rows && forall j :: 0 <= j < |done| ==> done[j].key != news[i].key
  }

  predicate Admitted(db: Db, pin: Option<Uuid>, tenant: Uuid, done: seq<NewRow>, news: seq<NewRow>) {
    news == [] || (pin == Some(tenant) && tenant in db.heads && FreeKeys(db.rows, done, news))
  }

  /** Two batches are admitted together exactly when they are one after the other. */
  lemma AdmittedSplit(db: Db, pin: Option<Uuid>, tenant: Uuid, done: seq<NewRow>, a: seq<NewRow>, b: seq<NewRow>)
    requires DistinctRows(a + b)
    ensures Admitted(db, pin, tenant, done, a + b)
       <==> Admitted(db, pin, tenant, done, a) && Admitted(db, pin, tenant, done + a, b)
  {
    assert forall i :: 0 <= i < |a| ==> (a + b)[i] == a[i];
    assert forall i :: 0 <= i < |b| ==> (a + b)[|a| + i] == b[i];
    assert forall j :: 0 <= j < |done| ==> (done + a)[j] == done[j];
    assert forall j :: 0 <= j < |a| ==> (done + a)[|done| + j] == a[j];
    if FreeKeys(db.rows, done, a + b) {
      forall i, j | 0 <= i < |b| && 0 <= j < |done + a|
        ensures (done + a)[j].key != b[i].key && b[i].key !in db.rows
      {
        assert (a + b)[|a| + i].key !in db.rows;
      }
      assert FreeKeys(db.rows, done, a);
    }
    if FreeKeys(db.rows, done, a) && FreeKeys(db.rows, done + a, b) {
      forall i | 0 <= i < |a + b|
        ensures (a + b)[i].key !in db.rows && forall j :: 0 <= j < |done| ==> done[j].key != (a + b)[i].key
      {
        if i >= |a| { assert (a + b)[i] == b[i - |a|]; }
      }
    }
  }

  lemma FreeOf(rows: Rows, now: int, writes: Writes, tenant: Uuid, cs: seq<Change>, done: seq<NewRow>, key: Key)
    requires Inserted(rows, now, writes, cs)
    requires |cs| == |done| && forall i :: 0 <= i < |done| ==> Adds(cs[i], tenant, done[i])
    ensures Current(rows, writes, key).None? <==> key !in rows && forall j :: 0 <= j < |done| ==> done[j].key != key
  {
    forall j | 0 <= j < |done|
      ensures done[j].key in writes && writes[done[j].key].Some?
    {
      assert Adds(cs[j], tenant, done[j]) && cs[j] in cs;
    }
    if key in writes {
      var c :| c in cs && c.obj.key == key;
      var j :| 0 <= j < |cs| && cs[j] == c;
      assert Adds(cs[j], tenant, done[j]);
    }
  }

  /** A flush of new objects succeeds exactly when they are admitted. */
  lemma FlushAdmitted(sha: Sha, db: Db, pin: Option<Uuid>, tenant: Uuid, now: int, ops: seq<Op>, done: seq<NewRow>,
                      p: Pending, f: UnitOfWork, news: seq<NewRow>)
    requires RunOps(sha, db, pin, now, ops) == Some(p) && Performs(ops, tenant, done)
    requires |f.changes| == |news| && forall i :: 0 <= i < |news| ==> Adds(f.changes[i], tenant, news[i])
    ensures FlushOn(sha, db, pin, now, p, f).Some? <==> Admitted(db, pin, tenant, done, news)
  {
    hide RunOps, Inserted, WriteAll, AppendAll;
    assert OnlyInserts(tenant, f.changes) && OnlyInserts(tenant, f.order);
    AppendsAdmitted(sha, db, pin, tenant, p, f.changes);
    if news == [] {
      assert f.changes == [];
      NoEffectNoWrites(db.rows, pin, now, p.writes, f.order);
      AppendNothing(sha, db, pin, p);
    } else if pin == Some(tenant) && tenant in db.heads {
      PerformsPolite(ops, tenant, done);
      InsertSession(sha, db, tenant, now, ops);
      StatementsAdmitted(db.rows, tenant, now, p.writes, f.order);
      InsertsLeaveWrites(sha, db, tenant, p, f.changes);
      ChangesFree(db.rows, now, p.writes, tenant, Changes(ops), done, f.changes, news);
    }
  }

  lemma InsertsLeaveWrites(sha: Sha, db: Db, tenant: Uuid, p: Pending, cs: seq<Change>)
    requires (forall c :: c in cs ==> Loaded(c)) && AppendAll(sha, db, Some(tenant), p, cs).Some?
    ensures AppendAll(sha, db, Some(tenant), p, cs).value.writes == p.writes
  {
    AppendsTakeHead(sha, db, tenant, p, cs);
  }

  lemma ChangesFree(rows: Rows, now: int, writes: Writes, tenant: Uuid, cs: seq<Change>, done: seq<NewRow>,
                    changes: seq<Change>, news: seq<NewRow>)
    requires Inserted(rows, now, writes, cs)
    requires |cs| == |done| && forall i :: 0 <= i < |done| ==> Adds(cs[i], tenant, done[i])
    requires |changes| == |news| && forall i :: 0 <= i < |news| ==> Adds(changes[i], tenant, news[i])
    ensures FreeKeys(rows, done, news) <==> forall c :: c in changes ==> Current(rows, writes, c.obj.key).None?
  {
    hide Inserted, Current;
    forall i | 0 <= i < |news|
      ensures changes[i].obj.key == news[i].key && changes[i] in changes
      ensures Current(rows, writes, news[i].key).None?
         <==> news[i].key !in rows && forall j :: 0 <= j < |done| ==> done[j].key != news[i].key
    {
      assert Adds(changes[i], tenant, news[i]);
      FreeOf(rows, now, writes, tenant, cs, done, news[i].key);
    }
  }

  // ---------- Flushes of one object ----------

  lemma EffectiveMeans(o: Object, loaded: Columns)
    requires Loaded(Update(o, loaded))
    ensures Effective(Update(o, loaded)) <==> o.vals != loaded
  {
    var changed := ChangedColumns(Update(o, loaded));
    if o.vals != loaded {
      var c :| c in o.vals && loaded[c] != o.vals[c];
      assert c in changed;
    }
    if changed != [] {
      assert changed[0] in changed;
    }
  }

  lemma WriteOne(rows: Rows, pin: Option<Uuid>, now: int, c: Change)
    requires Loaded(c)
    ensures WriteAll(rows, pin, now, map[], [c]) == WriteChange(rows, pin, now, map[], c)
  {
    hide WriteChange;
    assert [c][..0] == [];
  }

  lemma AppendOne(sha: Sha, db: Db, pin: Option<Uuid>, c: Change)
    requires Loaded(c)
    ensures AppendAll(sha, db, pin, NOTHING, [c])
         == if Effective(c) then AppendChange(sha, db, pin, NOTHING, c) else Some(NOTHING)
  {
    hide EntryFor, Effective;
    assert [c][..0] == [];
  }

  // ---------- Rows that can be stored ----------

  /** uuid4 does not repeat itself within a request, which takes at most seven ids: for the
      transaction, an alert per rule, and a case per alert. */
  predicate DistinctIds(ids: Ids) { forall i, j :: 0 <= i < j < 7 ==> ids(i) != ids(j) }

  lemma UniqueMore(key: string, v: Value, rest: Members)
    requires UniqueMembers(rest) && Unique(v) && key !in Keys(rest)
    ensures UniqueMembers(Member(key, v, rest)) && Keys(Member(key, v, rest)) == {key} + Keys(rest)
  {}

  lemma DetailStorable(d: Detail)
    ensures Unique(DetailValue(d))
  {
    match d
    case VelocityDetail(hours, total, currency, count, threshold) =>
      UniqueMore("threshold", FloatOf(threshold), NoMembers);
      var m1 := Member("threshold", FloatOf(threshold), NoMembers);
      UniqueMore("transaction_count", Int(count), m1);
      var m2 := Member("transaction_count", Int(count), m1);
      UniqueMore("currency", Str(currency), m2);
      var m3 := Member("currency", Str(currency), m2);
      UniqueMore("total_amount", FloatOf(total), m3);
      UniqueMore("window_hours", Int(hours), Member("total_amount", FloatOf(total), m3));
    case LargeDetail(amount, currency, threshold) =>
      UniqueMore("threshold", FloatOf(threshold), NoMembers);
      UniqueMore("currency", Str(currency), Member("threshold", FloatOf(threshold), NoMembers));
    case RoundDetail(amount, currency, modulus) =>
      UniqueMore("modulus", FloatOf(modulus), NoMembers);
      UniqueMore("currency", Str(currency), Member("modulus", FloatOf(modulus), NoMembers));
  }

  lemma AlertStorable(tenant: Uuid, customer: Uuid, txn: Uuid, f: Finding, id: Uuid)
    ensures Storable(AlertRow(tenant, customer, txn, f, id))
  {
    hide DetailValue;
    DetailStorable(f.detail);
  }

  /** A session that flushed an audited change holds its head row. */
  lemma {:induction false} HeadTaken(sha: Sha, db: Db, pin: Option<Uuid>, now: int, ops: seq<Op>)
    requires RunOps(sha, db, pin, now, ops).Some? && RunOps(sha, db, pin, now, ops).value.head.None?
    ensures forall c :: c in Changes(ops) ==> Loaded(c) && !Effective(c)
  {
    if ops != [] {
      var n := |ops| - 1;
      QuietOps(sha, db, pin, now, ops, db);
      if ops[n].Wrote? {
        var p := RunOps(sha, db, pin, now, ops[..n]).value;
        QuietFlush(sha, db, pin, now, p, ops[n].unit, db);
        QuietAppend(sha, db, pin, p, ops[n].unit.changes, db);
      }
      HeadTaken(sha, db, pin, now, ops[..n]);
    }
  }

  lemma HoldsHead(sha: Sha, db: Db, pin: Option<Uuid>, now: int, ops: seq<Op>, tenant: Uuid, row: NewRow)
    requires RunOps(sha, db, pin, now, ops).Some? && Performs(ops, tenant, [row])
    ensures RunOps(sha, db, pin, now, ops).value.head.Some?
  {
    assert Adds(Changes(ops)[0], tenant, [row][0]);
    assert Changes(ops)[0] in Changes(ops);
    if RunOps(sha, db, pin, now, ops).value.head.None? {
      HeadTaken(sha, db, pin, now, ops);
    }
  }

  lemma AlertsStorable(tenant: Uuid, customer: Uuid, ids: Ids, fs: seq<Finding>)
    requires DistinctIds(ids) && |fs| <= 3
    ensures DistinctRows(AlertRows(tenant, customer, ids, fs))
    ensures forall i :: 0 <= i < |fs| ==> Storable(AlertRows(tenant, customer, ids, fs)[i])
  {
    hide AlertRow, Storable;
    forall i | 0 <= i < |fs|
      ensures Storable(AlertRows(tenant, customer, ids, fs)[i])
    {
      AlertStorable(tenant, customer, ids(0), fs[i], ids(1 + i));
    }
  }

  lemma RowStorable(tenant: Uuid, req: Request)
    requires req.RecordTransaction? && Positive(req.amount)
    ensures Storable(TransactionRow(tenant, req.customer, req.amount, req.currency, req.ids(0)))
  {}

  lemma CaseStorable(tenant: Uuid, customer: Uuid, sourceType: string, source: Uuid, priority: string, id: Uuid)
    ensures Storable(CaseRow(tenant, customer, sourceType, source, priority, id))
  {}


  /** The rows of a record_transaction can be mapped and have keys of their own. */
  lemma RecordStorable(s: Settings, tenant: Uuid, req: Request, fs: seq<Finding>)
    requires req.RecordTransaction? && Positive(req.amount) && DistinctIds(req.ids) && |fs| <= 3
    ensures var news := RecordRows(s, tenant, req, fs);
      DistinctRows(news) && forall i :: 0 <= i < |news| ==> Storable(news[i])
  {
    hide TransactionRow, AlertRow, CaseRow, RecordRows, Escalated, Storable;
    var news := RecordRows(s, tenant, req, fs);
    RecordedLength(s, tenant, req, fs);
    EscalatedFew(s, fs);
    forall i | 0 <= i < |news|
      ensures Storable(news[i]) && news[i].key == Key(TableAt(fs, i), req.ids(i))
    {
      RowAt(s, tenant, req, fs, i);
    }
  }

  lemma {:induction false} EscalatedFew(s: Settings, fs: seq<Finding>)
    ensures |Escalated(s, fs)| <= |fs|
  {
    if fs != [] {
      EscalatedFew(s, fs[..|fs| - 1]);
    }
  }

  function TableAt(fs: seq<Finding>, i: nat): string {
    if i == 0 then "transactions" else if i <= |fs| then "transaction_alerts" else "cases"
  }

  lemma RowAt(s: Settings, tenant: Uuid, req: Request, fs: seq<Finding>, i: nat)
    requires req.RecordTransaction? && Positive(req.amount) && i < |RecordRows(s, tenant, req, fs)|
    ensures RecordRows(s, tenant, req, fs)[i].key == Key(TableAt(fs, i), req.ids(i))
    ensures Storable(RecordRows(s, tenant, req, fs)[i])
  {
    hide TransactionRow, AlertRow, CaseRow, RecordRows, Escalated, Storable, SeverityText;
    RecordedLength(s, tenant, req, fs);
    if i == 0 {
      RowStorable(tenant, req);
    } else if i <= |fs| {
      AlertAt(s, tenant, req, fs, i - 1);
      AlertStorable(tenant, req.customer, req.ids(0), fs[i - 1], req.ids(i));
    } else {
      var j := i - 1 - |fs|;
      CaseAt(s, tenant, req, fs, j);
      var n := Escalated(s, fs)[j];
      CaseStorable(tenant, req.customer, "transaction_alert", req.ids(1 + n), SeverityText(fs[n].severity), req.ids(i));
    }
  }

  // ---------- What the tables hold can be stored ----------

  predicate UniqueCols(m: Columns) { forall c :: c in m ==> Unique(m[c]) }

  predicate UniqueRows(rows: Rows) { forall k :: k in rows ==> UniqueCols(rows[k].cols) }

  predicate UniqueWrites(writes: Writes) {
    forall k :: k in writes && writes[k].Some? ==> UniqueCols(writes[k].value.cols)
  }

  lemma UniqueStored(table: string, m: Columns)
    requires forall c :: c in m && c !in SERVER_COLUMNS ==> Unique(m[c])
    ensures UniqueCols(CoerceAll(table, Written(m)))
  {}

  lemma UniqueWritten(rows: Rows, pin: Option<Uuid>, now: int, writes: Writes, c: Change)
    requires Loaded(c) && UniqueRows(rows) && UniqueWrites(writes) && WriteChange(rows, pin, now, writes, c).Some?
    ensures UniqueWrites(WriteChange(rows, pin, now, writes, c).value)
  {
    hide CoerceAll, Written, Effective;
    UniqueStored(c.obj.key.table, c.obj.vals);
    if c.Update? { UniqueStored(c.obj.key.table, Assigned(c)); }
  }

  lemma {:induction false} UniqueStatements(rows: Rows, pin: Option<Uuid>, now: int, writes: Writes, cs: seq<Change>)
    requires (forall c :: c in cs ==> Loaded(c)) && UniqueRows(rows) && UniqueWrites(writes)
    requires WriteAll(rows, pin, now, writes, cs).Some?
    ensures UniqueWrites(WriteAll(rows, pin, now, writes, cs).value)
  {
    hide UniqueRows, UniqueWrites;
    if cs != [] {
      var n := |cs| - 1;
      assert cs[n] in cs;
      UniqueStatements(rows, pin, now, writes, cs[..n]);
      UniqueWritten(rows, pin, now, WriteAll(rows, pin, now, writes, cs[..n]).value, cs[n]);
    }
  }

  lemma {:induction false} AppendsLeaveWrites(sha: Sha, db: Db, pin: Option<Uuid>, p: Pending, cs: seq<Change>)
    requires (forall c :: c in cs ==> Loaded(c)) && AppendAll(sha, db, pin, p, cs).Some?
    ensures AppendAll(sha, db, pin, p, cs).value.writes == p.writes
  {
    hide EntryFor;
    if cs != [] {
      AppendsLeaveWrites(sha, db, pin, p, cs[..|cs| - 1]);
    }
  }

  lemma {:induction false} UniqueOps(sha: Sha, db: Db, pin: Option<Uuid>, now: int, ops: seq<Op>)
    requires UniqueRows(db.rows) && RunOps(sha, db, pin, now, ops).Some?
    ensures UniqueWrites(RunOps(sha, db, pin, now, ops).value.writes)
  {
    hide UniqueRows, AppendAll, WriteAll, UniqueCols;
    if ops != [] {
      var n := |ops| - 1;
      UniqueOps(sha, db, pin, now, ops[..n]);
      if ops[n].Wrote? {
        var p, f := RunOps(sha, db, pin, now, ops[..n]).value, ops[n].unit;
        AppendsLeaveWrites(sha, db, pin, p, f.changes);
        UniqueStatements(db.rows, pin, now, p.writes, f.order);
      }
    }
  }

  /** No reachable row holds an object with a repeated key. */
  lemma {:induction false} ReachableRowsUnique(sha: Sha, ts: seq<Txn>)
    ensures UniqueRows(Serial(sha, EMPTY, ts).rows)
  {
    hide RunOps, UniqueCols;
    if ts != [] {
      var t := ts[|ts| - 1];
      var db := Serial(sha, EMPTY, ts[..|ts| - 1]);
      ReachableRowsUnique(sha, ts[..|ts| - 1]);
      if t.Session? && RunOps(sha, db, t.pin, t.now, t.ops).Some? {
        UniqueOps(sha, db, t.pin, t.now, t.ops);
      }
    }
  }

  // ---------- What the rules of a new request see ----------

  /** A tenant's rows with one added. */
  function SeenWith(rows: Rows, tenant: Uuid, now: int, row: NewRow): Rows {
    Visible(rows[row.key := Row(tenant, now, StoredCols(row))], Some(tenant))
  }

  function NewTransactionRow(tenant: Uuid, req: Request): NewRow
    requires req.RecordTransaction?
  {
    TransactionRow(tenant, req.customer, req.amount, req.currency, req.ids(0))
  }

  /** The findings of a request made on these rows. */
  ghost function FindingsFor(s: Settings, rows: Rows, tenant: Uuid, now: int, req: Request): seq<Finding>
    requires req.RecordTransaction?
  {
    Evaluate(s, SeenWith(rows, tenant, now, NewTransactionRow(tenant, req)), Evaluated(req, now))
  }

  lemma ViewIs(view: Rows, rows: Rows, tenant: Uuid, now: int, row: NewRow)
    requires SeesAlso(view, rows, tenant, now, row)
    ensures view == SeenWith(rows, tenant, now, row)
  {
    hide StoredCols;
  }

  // ---------- A session that serves a request ----------

  ghost function ColumnsOf(keys: set<string>): (r: seq<string>)
    ensures (forall c :: c in r <==> c in keys) && Distinct(r)
  {
    if keys == {} then []
    else
      var c :| c in keys;
      ColumnsOf(keys - {c}) + [c]
  }

  ghost function ObjectOf(tenant: Uuid, row: NewRow): (o: Object)
    requires Storable(row)
    ensures Adds(Insert(o), tenant, row)
  {
    Image(row.key, tenant, ColumnsOf(row.vals.Keys), row.vals)
  }

  ghost function UnitOf(tenant: Uuid, rows: seq<NewRow>): (f: UnitOfWork)
    requires DistinctRows(rows) && forall i :: 0 <= i < |rows| ==> Storable(rows[i])
    ensures |f.changes| == |rows| && forall i :: 0 <= i < |rows| ==> Adds(f.changes[i], tenant, rows[i])
  {
    var cs := seq(|rows|, i requires 0 <= i < |rows| => Insert(ObjectOf(tenant, rows[i])));
    Flush(cs, cs)
  }

  /** Every request whose keys are free has a session that serves it: no statement raises. */
  lemma RecordRuns(sha: Sha, s: Settings, db: Db, tenant: Uuid, now: int, req: Request) returns (ops: seq<Op>)
    requires req.RecordTransaction? && Positive(req.amount) && DistinctIds(req.ids) && tenant in db.heads
    requires FreeKeys(db.rows, [], RecordRows(s, tenant, req, FindingsFor(s, db.rows, tenant, now, req)))
    ensures Records(s, tenant, now, req, ops) && RunOps(sha, db, Some(tenant), now, ops).Some?
    ensures Evaluate(s, ops[1].rows, Evaluated(req, now)) == FindingsFor(s, db.rows, tenant, now, req)
  {
    hide RecordRows, Evaluate, TransactionRow, Storable, RunOps, FlushOn, Performs, SeenWith, SeesAlso, Overlay,
        Visible;
    var fs := FindingsFor(s, db.rows, tenant, now, req);
    AtMostThree(s, SeenWith(db.rows, tenant, now, NewTransactionRow(tenant, req)), Evaluated(req, now));
    var news := RecordRows(s, tenant, req, fs);
    RecordStorable(s, tenant, req, fs);
    RecordedLength(s, tenant, req, fs);
    assert news == [news[0]] + news[1..];
    var p0 := NOTHING;
    NothingRun(sha, db, tenant, now);
    var first, p1 := FlushNext(sha, db, tenant, now, [], [], p0, [news[0]]);
    assert [] + [news[0]] == [news[0]];
    HoldsHead(sha, db, Some(tenant), now, first, tenant, news[0]);
    InsertedView(sha, db, tenant, now, first, news[0]);
    var view := Visible(Overlay(db.rows, p1.writes), Some(tenant));
    ViewIs(view, db.rows, tenant, now, news[0]);
    RunSaw(sha, db, Some(tenant), now, first, p1);
    SawPerforms(first, view, tenant, [news[0]]);
    var p3;
    ops, p3 := FlushNext(sha, db, tenant, now, first + [Saw(view)], [news[0]], p1, news[1..]);
    OneFlush(first, view, ops);
  }

  /** Ids no row has are free. */
  lemma FreshIdsFree(s: Settings, rows: Rows, tenant: Uuid, req: Request, fs: seq<Finding>)
    requires req.RecordTransaction? && Positive(req.amount)
    requires forall k, n: nat :: k in rows ==> k.id != req.ids(n)
    ensures FreeKeys(rows, [], RecordRows(s, tenant, req, fs))
  {
    hide RecordRows;
    forall i | 0 <= i < |RecordRows(s, tenant, req, fs)|
      ensures RecordRows(s, tenant, req, fs)[i].key !in rows
    {
      RowAt(s, tenant, req, fs, i);
    }
  }

  /** With a provisioned tenant and fresh ids a request is served: no statement raises. */
  lemma FreshRequestServed(sha: Sha, s: Settings, db: Db, tenant: Uuid, now: int, req: Request) returns (ops: seq<Op>)
    requires req.RecordTransaction? && Positive(req.amount) && DistinctIds(req.ids) && tenant in db.heads
    requires forall k, n: nat :: k in db.rows ==> k.id != req.ids(n)
    ensures Records(s, tenant, now, req, ops) && RunOps(sha, db, Some(tenant), now, ops).Some?
  {
    hide RecordRows, Records, RunOps, Evaluate;
    FreshIdsFree(s, db.rows, tenant, req, FindingsFor(s, db.rows, tenant, now, req));
    ops := RecordRuns(sha, s, db, tenant, now, req);
  }

  lemma NothingRun(sha: Sha, db: Db, tenant: Uuid, now: int)
    ensures RunOps(sha, db, Some(tenant), now, []) == Some(NOTHING) && Performs([], tenant, [])
  {}

  lemma SawPerforms(ops: seq<Op>, view: Rows, tenant: Uuid, rows: seq<NewRow>)
    requires Performs(ops, tenant, rows)
    ensures Performs(ops + [Saw(view)], tenant, rows)
  {
    ChangesOf(ops, Saw(view));
  }

  lemma OneFlush(first: seq<Op>, view: Rows, ops: seq<Op>)
    requires |first| == 1 && first + [Saw(view)] <= ops
    ensures |ops| >= 2 && ops[1] == Saw(view) && ops[..1] == first
  {}

  lemma FlushNext(sha: Sha, db: Db, tenant: Uuid, now: int, ops: seq<Op>, done: seq<NewRow>, p: Pending,
                  rows: seq<NewRow>)
    returns (ops': seq<Op>, q: Pending)
    requires RunOps(sha, db, Some(tenant), now, ops) == Some(p) && Performs(ops, tenant, done)
    requires DistinctRows(done + rows) && (forall i :: 0 <= i < |rows| ==> Storable(rows[i]))
    requires tenant in db.heads && FreeKeys(db.rows, [], done + rows)
    ensures RunOps(sha, db, Some(tenant), now, ops') == Some(q) && Performs(ops', tenant, done + rows)
    ensures |ops'| == |ops| + 1 && ops <= ops'
  {
    hide RunOps, FlushOn, Performs, Storable;
    assert forall i :: 0 <= i < |rows| ==> rows[i] == (done + rows)[|done| + i];
    assert forall i :: 0 <= i < |done| ==> done[i] == (done + rows)[i];
    var f := UnitOf(tenant, rows);
    FlushAdmitted(sha, db, Some(tenant), tenant, now, ops, done, p, f, rows);
    RunSnoc(sha, db, Some(tenant), now, ops, p, f);
    PerformsMore(ops, tenant, done, f, rows);
    q := FlushOn(sha, db, Some(tenant), now, p, f).value;
    ops' := ops + [Op.Wrote(f)];
  }
}
