/** What one served request does to the guarded tables and to the log. */
module Effects {
  import opened Wrappers
  import opened Chain
  import opened Database
  import opened Replay
  import opened Sessions
  import opened Monitoring
  import opened Services

  // ---------- Sessions that only add objects ----------

  function RowOf(now: int, o: Image): Row { Row(o.tenant, now, CoerceAll(o.key.table, Written(o.vals))) }

  predicate OnlyInserts(tenant: Uuid, cs: seq<Change>) {
    forall c :: c in cs ==> c.Insert? && c.obj.tenant == tenant
  }

  /** The uncommitted rows are exactly those of the added objects, none of them there before. */
  predicate Inserted(rows: Rows, now: int, writes: Writes, cs: seq<Change>) {
    && DistinctKeys(cs)
    && (forall k :: k in writes ==> k !in rows && exists c :: c in cs && c.obj.key == k)
    && (forall c :: c in cs ==> c.obj.key in writes && writes[c.obj.key] == Some(RowOf(now, c.obj)))
  }

  lemma {:induction false} InsertsWrite(rows: Rows, tenant: Uuid, now: int, writes: Writes, before: seq<Change>,
                                        cs: seq<Change>)
    requires OnlyInserts(tenant, cs) && Inserted(rows, now, writes, before)
    requires WriteAll(rows, Some(tenant), now, writes, cs).Some?
    ensures Inserted(rows, now, WriteAll(rows, Some(tenant), now, writes, cs).value, before + cs)
  {
    hide Inserted;
    if cs == [] {
      assert before + cs == before;
    } else {
      var n := |cs| - 1;
      assert cs[n] in cs;
      InsertsWrite(rows, tenant, now, writes, before, cs[..n]);
      var w := WriteAll(rows, Some(tenant), now, writes, cs[..n]).value;
      assert before + cs == before + cs[..n] + [cs[n]];
      InsertWrites(rows, tenant, now, w, before + cs[..n], cs[n]);
    }
  }

  /** A statement of an added object that does not raise. */
  lemma InsertSucceeds(rows: Rows, tenant: Uuid, now: int, writes: Writes, c: Change)
    requires c.Insert? && c.obj.tenant == tenant && WriteChange(rows, Some(tenant), now, writes, c).Some?
    ensures Current(rows, writes, c.obj.key).None?
    ensures WriteChange(rows, Some(tenant), now, writes, c).value == writes[c.obj.key := Some(RowOf(now, c.obj))]
  {}

  lemma InsertWrites(rows: Rows, tenant: Uuid, now: int, writes: Writes, before: seq<Change>, c: Change)
    requires c.Insert? && c.obj.tenant == tenant && Inserted(rows, now, writes, before)
    requires WriteChange(rows, Some(tenant), now, writes, c).Some?
    ensures Inserted(rows, now, WriteChange(rows, Some(tenant), now, writes, c).value, before + [c])
  {
    hide WriteChange, RowOf;
    InsertSucceeds(rows, tenant, now, writes, c);
    assert c.obj.key !in writes;
    forall k | k in writes
      ensures k !in rows && exists b :: b in before + [c] && b.obj.key == k
    {
      var b :| b in before && b.obj.key == k;
      assert b in before + [c];
    }
    assert c in before + [c];
  }

  lemma WroteOrderBlind(rows: Rows, now: int, writes: Writes, before: seq<Change>, cs: seq<Change>, order: seq<Change>)
    requires (forall c :: c in cs <==> c in order) && DistinctKeys(cs) && Inserted(rows, now, writes, before + order)
    ensures Inserted(rows, now, writes, before + cs)
  {
    forall i, j | 0 <= i < j < |before + cs|
      ensures (before + cs)[i].obj.key != (before + cs)[j].obj.key
    {
      if i < |before| <= j {
        assert cs[j - |before|] in order;
        var k :| 0 <= k < |order| && order[k] == cs[j - |before|];
        assert (before + order)[i] == before[i] && (before + order)[|before| + k] == order[k];
      } else if j < |before| {
        assert (before + order)[i] == before[i] && (before + order)[j] == before[j];
      }
    }
    forall c
      ensures c in before + cs <==> c in before + order
    {}
  }

  /** The log shows an added object. */
  predicate Shows(e: Entry, c: Change) {
    e.action == "INSERT" && EntryKey(e) == c.obj.key && Recorded(e.newValues) == Shown(c.obj.vals)
  }

  predicate Logged(entries: seq<Entry>, cs: seq<Change>) {
    |entries| == |cs| && forall i :: 0 <= i < |cs| ==> Shows(entries[i], cs[i])
  }

  lemma InsertShown(sha: Sha, head: Head, c: Change)
    requires c.Insert?
    ensures Shows(EntryFor(sha, head, c), c)
  {
    hide EntryFor;
    EntryFields(sha, head, c);
    InsertRecorded(c, EntryFor(sha, head, c).newValues);
  }

  lemma {:induction false} InsertsLogged(sha: Sha, db: Db, tenant: Uuid, p: Pending, before: seq<Change>,
                                         cs: seq<Change>)
    requires OnlyInserts(tenant, cs) && Logged(p.entries, before)
    requires AppendAll(sha, db, Some(tenant), p, cs).Some?
    ensures Logged(AppendAll(sha, db, Some(tenant), p, cs).value.entries, before + cs)
    ensures AppendAll(sha, db, Some(tenant), p, cs).value.writes == p.writes
  {
    hide EntryFor, Shows;
    if cs == [] {
      assert before + cs == before;
    } else {
      var n := |cs| - 1;
      assert cs[n] in cs;
      InsertsLogged(sha, db, tenant, p, before, cs[..n]);
      assert before + cs == before + cs[..n] + [cs[n]];
      var q := AppendAll(sha, db, Some(tenant), p, cs[..n]).value;
      InsertShown(sha, if q.head.Some? then q.head.value else db.heads[tenant], cs[n]);
    }
  }

  /** A session that only added objects wrote exactly their rows and logged exactly them, in order. */
  lemma {:induction false} InsertSession(sha: Sha, db: Db, tenant: Uuid, now: int, ops: seq<Op>)
    requires RunOps(sha, db, Some(tenant), now, ops).Some? && OnlyInserts(tenant, Changes(ops))
    ensures var p := RunOps(sha, db, Some(tenant), now, ops).value;
      Inserted(db.rows, now, p.writes, Changes(ops)) && Logged(p.entries, Changes(ops))
  {
    hide Inserted, Logged;
    if ops == [] {
      NothingWrote(db.rows, now);
    } else {
      var n := |ops| - 1;
      assert forall c :: c in Changes(ops[..n]) ==> c in Changes(ops);
      InsertSession(sha, db, tenant, now, ops[..n]);
      if ops[n].Wrote? {
        var p := RunOps(sha, db, Some(tenant), now, ops[..n]).value;
        assert forall c :: c in ops[n].unit.changes ==> c in Changes(ops);
        InsertFlush(sha, db, tenant, now, p, ops[n].unit, Changes(ops[..n]));
      } else {
        assert Changes(ops) == Changes(ops[..n]);
      }
    }
  }

  lemma NothingWrote(rows: Rows, now: int)
    ensures Inserted(rows, now, map[], []) && Logged([], [])
  {}

  lemma InsertFlush(sha: Sha, db: Db, tenant: Uuid, now: int, p: Pending, f: UnitOfWork, before: seq<Change>)
    requires OnlyInserts(tenant, f.changes) && Inserted(db.rows, now, p.writes, before) && Logged(p.entries, before)
    requires FlushOn(sha, db, Some(tenant), now, p, f).Some?
    ensures var q := FlushOn(sha, db, Some(tenant), now, p, f).value;
      Inserted(db.rows, now, q.writes, before + f.changes) && Logged(q.entries, before + f.changes)
  {
    hide Inserted, Logged;
    InsertsLogged(sha, db, tenant, p, before, f.changes);
    InsertsWrite(db.rows, tenant, now, p.writes, before, f.order);
    var q := FlushOn(sha, db, Some(tenant), now, p, f).value;
    WroteOrderBlind(db.rows, now, q.writes, before, f.changes, f.order);
  }

  /** The rows of a request after it commits. */
  predicate Added(rows: Rows, rows': Rows, tenant: Uuid, now: int, news: seq<NewRow>) {
    && (forall i, j :: 0 <= i < j < |news| ==> news[i].key != news[j].key)
    && (forall i :: 0 <= i < |news| ==>
          && news[i].key !in rows && news[i].key in rows'
          && rows'[news[i].key] == Row(tenant, now, StoredCols(news[i])))
    && (forall k :: k in rows' && k !in rows && k.table in GUARDED ==> exists i :: 0 <= i < |news| && news[i].key == k)
  }

  lemma PerformedRows(sha: Sha, db: Db, tenant: Uuid, now: int, ops: seq<Op>, news: seq<NewRow>)
    requires RunOps(sha, db, Some(tenant), now, ops).Some? && Performs(ops, tenant, news)
    ensures Added(db.rows, Overlay(db.rows, RunOps(sha, db, Some(tenant), now, ops).value.writes), tenant, now, news)
  {
    assert OnlyInserts(tenant, Changes(ops));
    InsertSession(sha, db, tenant, now, ops);
    InsertedAdds(db.rows, tenant, now, RunOps(sha, db, Some(tenant), now, ops).value.writes, Changes(ops), news);
  }

  lemma InsertedAdds(rows: Rows, tenant: Uuid, now: int, writes: Writes, cs: seq<Change>, news: seq<NewRow>)
    requires Inserted(rows, now, writes, cs)
    requires |cs| == |news| && forall i :: 0 <= i < |news| ==> Adds(cs[i], tenant, news[i])
    ensures Added(rows, Overlay(rows, writes), tenant, now, news)
  {
    forall i | 0 <= i < |news|
      ensures cs[i].obj.key == news[i].key && cs[i] in cs
      ensures RowOf(now, cs[i].obj) == Row(tenant, now, StoredCols(news[i]))
    {
      assert Adds(cs[i], tenant, news[i]);
    }
  }

  // ---------- What stays ----------

  /** A guarded row keeps its columns; a case keeps all but the fields update_case_status sets. */
  predicate SameFrozen(k: Key, r: Row, r': Row) {
    && r'.tenant == r.tenant && r'.createdAt == r.createdAt
    && (if k.table == "cases" then r'.cols - CASE_FIELDS == r.cols - CASE_FIELDS else r'.cols == r.cols)
  }

  predicate Kept(rows: Rows, rows': Rows) {
    forall k :: k in rows && k.table in GUARDED ==> k in rows' && SameFrozen(k, rows[k], rows'[k])
  }

  predicate KeptBy(rows: Rows, writes: Writes) {
    forall k :: k in rows && k.table in GUARDED && k in writes ==>
      writes[k].Some? && SameFrozen(k, rows[k], writes[k].value)
  }

  /** A change of a guarded row adds it, or sets only the fields a case update sets. */
  predicate Polite(c: Change)
    requires Loaded(c)
  {
    c.obj.key.table in GUARDED ==>
      c.Insert? || (c.Update? && c.obj.key.table == "cases" && Assigned(c).Keys <= CASE_FIELDS)
  }

  lemma FieldsOnly(cols: Columns, part: Columns)
    requires part.Keys <= CASE_FIELDS
    ensures (cols + Written(part)) - CASE_FIELDS == cols - CASE_FIELDS
  {}

  lemma PoliteWrite(rows: Rows, tenant: Uuid, now: int, writes: Writes, c: Change)
    requires Loaded(c) && Polite(c) && KeptBy(rows, writes)
    requires WriteChange(rows, Some(tenant), now, writes, c).Some?
    ensures KeptBy(rows, WriteChange(rows, Some(tenant), now, writes, c).value)
  {
    hide Assigned, Written;
    if c.Update? && Effective(c) && c.obj.key.table == "cases" {
      CoerceElsewhere("cases", Written(Assigned(c)));
      FieldsOnly(Current(rows, writes, c.obj.key).value.cols, Assigned(c));
    }
  }

  lemma {:induction false} PoliteWrites(rows: Rows, tenant: Uuid, now: int, writes: Writes, cs: seq<Change>)
    requires forall c :: c in cs ==> Loaded(c) && Polite(c)
    requires KeptBy(rows, writes) && WriteAll(rows, Some(tenant), now, writes, cs).Some?
    ensures KeptBy(rows, WriteAll(rows, Some(tenant), now, writes, cs).value)
  {
    hide KeptBy, Polite;
    if cs != [] {
      var n := |cs| - 1;
      assert cs[n] in cs;
      PoliteWrites(rows, tenant, now, writes, cs[..n]);
      PoliteWrite(rows, tenant, now, WriteAll(rows, Some(tenant), now, writes, cs[..n]).value, cs[n]);
    }
  }

  lemma {:induction false} PoliteSession(sha: Sha, db: Db, tenant: Uuid, now: int, ops: seq<Op>)
    requires forall c :: c in Changes(ops) ==> Loaded(c) && Polite(c)
    requires RunOps(sha, db, Some(tenant), now, ops).Some?
    ensures KeptBy(db.rows, RunOps(sha, db, Some(tenant), now, ops).value.writes)
  {
    hide Polite;
    if ops != [] {
      var n := |ops| - 1;
      assert forall c :: c in Changes(ops[..n]) ==> c in Changes(ops);
      PoliteSession(sha, db, tenant, now, ops[..n]);
      if ops[n].Wrote? {
        var p := RunOps(sha, db, Some(tenant), now, ops[..n]).value;
        var f := ops[n].unit;
        assert forall c :: c in f.order ==> c in f.changes && c in Changes(ops);
        AppendsTakeHead(sha, db, tenant, p, f.changes);
        PoliteWrites(db.rows, tenant, now, p.writes, f.order);
      }
    }
  }

  lemma CaseUpdatePolite(tenant: Uuid, req: Request, c: Change)
    requires req.UpdateCase? && UpdatesCase(tenant, req, c) && Loaded(c)
    ensures Polite(c)
  {
    hide UpdatedCase;
    forall k | k in Assigned(c)
      ensures k in CASE_FIELDS
    {
      if k !in CASE_FIELDS { UpdatedElsewhere(c.loaded, req.update, req.clock, k); }
    }
  }

  lemma UpdatedElsewhere(c: Columns, u: CaseUpdate, clock: string, k: string)
    requires UpdatedCase(c, u, clock).Some? && k !in CASE_FIELDS
    ensures k in UpdatedCase(c, u, clock).value <==> k in c
    ensures k in c ==> UpdatedCase(c, u, clock).value[k] == c[k]
  {}

  lemma {:induction false} ChangesLoaded(ops: seq<Op>)
    ensures forall c :: c in Changes(ops) ==> Loaded(c)
  {
    if ops != [] {
      ChangesLoaded(ops[..|ops| - 1]);
    }
  }

  lemma PerformsPolite(ops: seq<Op>, tenant: Uuid, news: seq<NewRow>)
    requires Performs(ops, tenant, news)
    ensures OnlyInserts(tenant, Changes(ops))
  {}

  lemma ServesPolite(s: Settings, tenant: Uuid, now: int, req: Request, ops: seq<Op>)
    requires Serves(s, tenant, now, req, ops)
    ensures forall c :: c in Changes(ops) ==> Loaded(c) && Polite(c)
  {
    ChangesLoaded(ops);
    if req.UpdateCase? {
      forall c | c in Changes(ops)
        ensures Polite(c)
      {
        CaseUpdatePolite(tenant, req, c);
      }
    } else if !req.OtherRequest? {
      PerformsPolite(ops, tenant, NewRows(s, tenant, now, req, ops));
    }
  }

  // ---------- What is new ----------

  /** A session adds guarded rows only by inserting them. */
  lemma {:induction false} NothingNew(sha: Sha, db: Db, tenant: Uuid, now: int, ops: seq<Op>)
    requires RunOps(sha, db, Some(tenant), now, ops).Some?
    requires forall c :: c in Changes(ops) ==> !c.Insert? || c.obj.key.table !in GUARDED
    ensures forall k :: k in RunOps(sha, db, Some(tenant), now, ops).value.writes && k.table in GUARDED ==> k in db.rows
  {
    if ops != [] {
      var n := |ops| - 1;
      assert forall c :: c in Changes(ops[..n]) ==> c in Changes(ops);
      NothingNew(sha, db, tenant, now, ops[..n]);
      if ops[n].Wrote? {
        var p := RunOps(sha, db, Some(tenant), now, ops[..n]).value;
        var f := ops[n].unit;
        assert forall c :: c in f.order ==> c in f.changes && c in Changes(ops);
        AppendsTakeHead(sha, db, tenant, p, f.changes);
        NewKeys(db.rows, tenant, now, p.writes, f.order);
      }
    }
  }

  /** What a request that ran did to the guarded tables. */
  ghost predicate Effect(s: Settings, rows: Rows, rows': Rows, tenant: Uuid, now: int, req: Request, ops: seq<Op>) {
    && Serves(s, tenant, now, req, ops) && Kept(rows, rows')
    && Added(rows, rows', tenant, now, NewRows(s, tenant, now, req, ops))
  }

  lemma KeptOverlay(rows: Rows, writes: Writes)
    requires KeptBy(rows, writes)
    ensures Kept(rows, Overlay(rows, writes))
  {}

  lemma ServedEffect(sha: Sha, s: Settings, db: Db, tenant: Uuid, now: int, req: Request, ops: seq<Op>)
    requires Serves(s, tenant, now, req, ops) && RunOps(sha, db, Some(tenant), now, ops).Some?
    ensures Effect(s, db.rows, Overlay(db.rows, RunOps(sha, db, Some(tenant), now, ops).value.writes), tenant, now, req,
                   ops)
  {
    hide KeptBy, Kept, Polite;
    var p := RunOps(sha, db, Some(tenant), now, ops).value;
    ServesPolite(s, tenant, now, req, ops);
    PoliteSession(sha, db, tenant, now, ops);
    KeptOverlay(db.rows, p.writes);
    if req.UpdateCase? || req.OtherRequest? {
      NothingNew(sha, db, tenant, now, ops);
    } else {
      PerformedRows(sha, db, tenant, now, ops, NewRows(s, tenant, now, req, ops));
    }
  }

  lemma CommittedRows(sha: Sha, db: Db, tenant: Uuid, now: int, ops: seq<Op>)
    requires RunOps(sha, db, Some(tenant), now, ops).Some?
    ensures Atomic(sha, db, Session(Some(tenant), now, ops)).rows
         == Overlay(db.rows, RunOps(sha, db, Some(tenant), now, ops).value.writes)
  {
    var p := RunOps(sha, db, Some(tenant), now, ops).value;
    if p.head.None? {
      QuietOps(sha, db, Some(tenant), now, ops, db);
      OverlayNothing(db.rows);
    }
  }

  /** One committed transaction: either no row moved, or it served its request. */
  ghost predicate Moved(s: Settings, rows: Rows, rows': Rows, t: Txn, req: Request) {
    rows' == rows || (t.Session? && t.pin.Some? && Effect(s, rows, rows', t.pin.value, t.now, req, t.ops))
  }

  lemma StepEffect(sha: Sha, s: Settings, db: Db, t: Txn, req: Request)
    requires t.Session? && t.pin.Some? ==> Serves(s, t.pin.value, t.now, req, t.ops)
    ensures Moved(s, db.rows, Atomic(sha, db, t).rows, t, req)
  {
    if t.Session? && RunOps(sha, db, t.pin, t.now, t.ops).Some? {
      if t.pin.Some? {
        ServedEffect(sha, s, db, t.pin.value, t.now, req, t.ops);
        CommittedRows(sha, db, t.pin.value, t.now, t.ops);
      }
    }
  }

  // ---------- What the rules saw ----------

  lemma {:induction false} RunPrefix(sha: Sha, db: Db, pin: Option<Uuid>, now: int, ops: seq<Op>, k: nat)
    requires RunOps(sha, db, pin, now, ops).Some? && k <= |ops|
    ensures RunOps(sha, db, pin, now, ops[..k]).Some?
  {
    if k < |ops| {
      RunPrefix(sha, db, pin, now, ops[..|ops| - 1], k);
      assert ops[..|ops| - 1][..k] == ops[..k];
    } else {
      assert ops[..k] == ops;
    }
  }

  /** A tenant's rows as they are with one row added. */
  ghost predicate SeesAlso(view: Rows, rows: Rows, tenant: Uuid, now: int, row: NewRow) {
    forall k ::
      && (k in view <==> k == row.key || (k in rows && rows[k].tenant == tenant))
      && (k in view ==> view[k] == if k == row.key then Row(tenant, now, StoredCols(row)) else rows[k])
  }

  /** The rules query the tenant's committed rows and the new transaction, and no other. */
  lemma RulesView(sha: Sha, s: Settings, db: Db, tenant: Uuid, now: int, req: Request, ops: seq<Op>)
    requires req.RecordTransaction? && Records(s, tenant, now, req, ops)
    requires RunOps(sha, db, Some(tenant), now, ops).Some?
    ensures SeesAlso(ops[1].rows, db.rows, tenant, now,
                     TransactionRow(tenant, req.customer, req.amount, req.currency, req.ids(0)))
  {
    hide SeesAlso, TransactionRow;
    RunPrefix(sha, db, Some(tenant), now, ops, 2);
    assert ops[..2][..1] == ops[..1] && ops[..2][1] == ops[1];
    InsertedView(sha, db, tenant, now, ops[..1],
                 TransactionRow(tenant, req.customer, req.amount, req.currency, req.ids(0)));
  }

  lemma InsertedView(sha: Sha, db: Db, tenant: Uuid, now: int, ops: seq<Op>, row: NewRow)
    requires Performs(ops, tenant, [row]) && RunOps(sha, db, Some(tenant), now, ops).Some?
    ensures SeesAlso(Visible(Overlay(db.rows, RunOps(sha, db, Some(tenant), now, ops).value.writes), Some(tenant)),
                     db.rows, tenant, now, row)
  {
    hide SeesAlso, Overlay, RunOps, Inserted, Visible;
    assert Adds(Changes(ops)[0], tenant, [row][0]);
    assert Changes(ops) == [Changes(ops)[0]];
    InsertSession(sha, db, tenant, now, ops);
    OneRowSeen(db.rows, tenant, now, RunOps(sha, db, Some(tenant), now, ops).value.writes, Changes(ops)[0], row);
  }

  lemma OneRowSeen(rows: Rows, tenant: Uuid, now: int, writes: Writes, c: Change, row: NewRow)
    requires Inserted(rows, now, writes, [c]) && Adds(c, tenant, row)
    ensures SeesAlso(Visible(Overlay(rows, writes), Some(tenant)), rows, tenant, now, row)
  {
    assert c in [c];
    assert writes == map[row.key := Some(Row(tenant, now, StoredCols(row)))];
  }
}
