/** The case state machine under concurrent, column-wise updates.

    Each update checks the case as its session read it, which may be stale, and writes only the
    columns its diff records. Still no committed case is ever resolved without a resolution. */
module Cases {
  import opened Wrappers
  import opened Json
  import opened Chain
  import opened Database
  import opened Replay
  import opened Sessions
  import opened Monitoring
  import opened Services
  import opened Effects
  import opened Compliance

  // ---------- update_case_status ----------

  /** The fields update_case_status may assign. */
  datatype Fields = Fields(
    status: string,
    resolution: Option<string>,
    notes: Option<string>,
    assignedTo: Option<string>,
    resolvedAt: Option<string>)

  function Nullable(v: Option<string>): Value { Given(v, Null) }

  /** The columns of a case object; `identity` is what no update touches. */
  function Attributes(identity: Columns, f: Fields): Columns {
    identity["status" := Str(f.status)]["resolution" := Nullable(f.resolution)]["resolution_notes" := Nullable(f.notes)]
      ["assigned_to" := Nullable(f.assignedTo)]
      ["resolved_at" := if f.resolvedAt.Some? then Foreign(f.resolvedAt.value) else Null]
  }

  /** The columns show these fields. */
  predicate ShowsFields(m: Columns, f: Fields) {
    && Col(m, "status") == Str(f.status)
    && Col(m, "resolution") == (if f.resolution.Some? then Str(f.resolution.value) else Null)
    && Col(m, "resolution_notes") == (if f.notes.Some? then Str(f.notes.value) else Null)
    && Col(m, "assigned_to") == (if f.assignedTo.Some? then Str(f.assignedTo.value) else Null)
    && Col(m, "resolved_at") == (if f.resolvedAt.Some? then Foreign(f.resolvedAt.value) else Null)
  }

  lemma AttributesShow(identity: Columns, f: Fields)
    ensures ShowsFields(Attributes(identity, f), f)
    ensures Attributes(identity, f) - CASE_FIELDS == identity - CASE_FIELDS
  {}

  lemma AttributesDiffer(identity: Columns, f: Fields, g: Fields)
    ensures Attributes(identity, f) == Attributes(identity, g) <==> f == g
  {
    hide Attributes;
    AttributesShow(identity, f);
    AttributesShow(identity, g);
  }

  /** The fields after an update: what the payload gives, and otherwise what was there; the time of
      resolving is the clock's exactly when the payload resolves the case. */
  predicate Applied(before: Fields, u: CaseUpdate, clock: string, after: Fields) {
    && after.status == (if u.status.Some? then u.status.value else before.status)
    && after.resolution == (if u.resolution.Some? then u.resolution else before.resolution)
    && after.notes == (if u.notes.Some? then u.notes else before.notes)
    && after.assignedTo == (if u.assignedTo.Some? then u.assignedTo else before.assignedTo)
    && after.resolvedAt == (if u.status == Some("resolved") then Some(clock) else before.resolvedAt)
  }

  lemma SetStatus(identity: Columns, f: Fields, v: string)
    ensures Attributes(identity, f)["status" := Str(v)] == Attributes(identity, f.(status := v))
  {}

  lemma SetResolvedAt(identity: Columns, f: Fields, v: string)
    ensures Attributes(identity, f)["resolved_at" := Foreign(v)] == Attributes(identity, f.(resolvedAt := Some(v)))
  {}

  lemma SetResolution(identity: Columns, f: Fields, v: string)
    ensures Attributes(identity, f)["resolution" := Str(v)] == Attributes(identity, f.(resolution := Some(v)))
  {}

  lemma SetNotes(identity: Columns, f: Fields, v: string)
    ensures Attributes(identity, f)["resolution_notes" := Str(v)] == Attributes(identity, f.(notes := Some(v)))
  {}

  lemma SetAssignedTo(identity: Columns, f: Fields, v: string)
    ensures Attributes(identity, f)["assigned_to" := Str(v)] == Attributes(identity, f.(assignedTo := Some(v)))
  {}

  predicate Refuses(f: Fields, u: CaseUpdate) {
    (if u.status.Some? then u.status.value else f.status) == "resolved" && u.resolution.None? && f.resolution.None?
  }

  /** Refused is exactly the update that would leave a resolved case without a resolution. */
  lemma RefusesExactly(f: Fields, u: CaseUpdate, clock: string)
    ensures Refuses(f, u) <==> exists g :: Applied(f, u, clock, g) && g.status == "resolved" && g.resolution.None?
  {
    var g := Fields(if u.status.Some? then u.status.value else f.status,
                    if u.resolution.Some? then u.resolution else f.resolution,
                    if u.notes.Some? then u.notes else f.notes,
                    if u.assignedTo.Some? then u.assignedTo else f.assignedTo,
                    if u.status == Some("resolved") then Some(clock) else f.resolvedAt);
    assert Applied(f, u, clock, g);
  }

  lemma RefusedUpdate(identity: Columns, f: Fields, u: CaseUpdate, clock: string)
    ensures UpdatedCase(Attributes(identity, f), u, clock).None? <==> Refuses(f, u)
  {
    var m := Attributes(identity, f);
    assert Col(m, "status") == Str(f.status) && Col(m, "resolution") == Nullable(f.resolution);
  }

  /** The case object a session holds. */
  class CaseRecord {
    const identity: Columns
    var f: Fields

    constructor (identity: Columns, f: Fields)
      ensures this.identity == identity && this.f == f
    {
      this.identity, this.f := identity, f;
    }

    /** false: ValueError, resolving needs a resolution; the case is unchanged. */
    method UpdateCaseStatus(u: CaseUpdate, clock: string) returns (ok: bool)
      modifies this
      ensures ok <==> !exists g :: Applied(old(f), u, clock, g) && g.status == "resolved" && g.resolution.None?
      ensures ok <==> !Refuses(old(f), u)
      ensures ok ==> Applied(old(f), u, clock, f)
      ensures ok <==> UpdatedCase(Attributes(identity, old(f)), u, clock).Some?
      ensures ok ==> UpdatedCase(Attributes(identity, old(f)), u, clock) == Some(Attributes(identity, f))
      ensures !ok ==> f == old(f)
    {
      hide Attributes;
      RefusedUpdate(identity, f, u, clock);
      RefusesExactly(f, u, clock);
      var nextStatus := if u.status.Some? then u.status.value else f.status;
      var nextResolution := if u.resolution.Some? then u.resolution else f.resolution;
      if nextStatus == "resolved" && nextResolution.None? {
        return false;
      }
      if u.status.Some? {
        SetStatus(identity, f, u.status.value);
        f := f.(status := u.status.value);
        if u.status.value == "resolved" {
          SetResolvedAt(identity, f, clock);
          f := f.(resolvedAt := Some(clock));
        }
      }
      if u.resolution.Some? {
        SetResolution(identity, f, u.resolution.value);
        f := f.(resolution := u.resolution);
      }
      if u.notes.Some? {
        SetNotes(identity, f, u.notes.value);
        f := f.(notes := u.notes);
      }
      if u.assignedTo.Some? {
        SetAssignedTo(identity, f, u.assignedTo.value);
        f := f.(assignedTo := u.assignedTo);
      }
      return true;
    }
  }

  // ---------- What one update does to a committed case ----------

  predicate Set(m: Columns, name: string) { Col(m, name) != Null }

  /** Resolved cases have a resolution and a time; a time comes with a resolution. */
  predicate Settled(m: Columns) {
    && (Col(m, "status") == Str("resolved") ==> Set(m, "resolution") && Set(m, "resolved_at"))
    && (Set(m, "resolved_at") ==> Set(m, "resolution") && Col(m, "resolved_at").Foreign?)
  }

  /** The columns of the updated case: each of the five is the payload's if given and otherwise as it
      was, and every other column is as it was. */
  lemma UpdatedColumns(m: Columns, u: CaseUpdate, clock: string)
    requires UpdatedCase(m, u, clock).Some?
    ensures UpdatedCase(m, u, clock).value - CASE_FIELDS == m - CASE_FIELDS
    ensures var r := UpdatedCase(m, u, clock).value;
      && Col(r, "resolution_notes") == (if u.notes.Some? then Str(u.notes.value) else Col(m, "resolution_notes"))
      && Col(r, "assigned_to") == (if u.assignedTo.Some? then Str(u.assignedTo.value) else Col(m, "assigned_to"))
      && Col(r, "status") == Given(u.status, Col(m, "status"))
      && Col(r, "resolution") == Given(u.resolution, Col(m, "resolution"))
      && Col(r, "resolved_at") == (if u.status == Some("resolved") then Foreign(clock) else Col(m, "resolved_at"))
      && (u.status == Some("resolved") ==> Set(r, "resolution"))
  {}

  lemma AssignedColumn(c: Change, name: string)
    requires c.Update? && Loaded(c)
    ensures name in Assigned(c) <==> Col(c.obj.vals, name) != Col(c.loaded, name)
    ensures name in Assigned(c) ==> Assigned(c)[name] == Col(c.obj.vals, name)
  {
    assert name in c.obj.vals <==> name in c.loaded;
  }

  lemma OverlayColumn(m: Columns, a: Columns, name: string)
    requires name !in SERVER_COLUMNS
    ensures Col(m + Written(a), name) == if name in a then a[name] else Col(m, name)
  {}

  /** A column after the update's statement ran on the row as it now is. */
  lemma WrittenColumn(c: Change, now: Columns, name: string)
    requires c.Update? && Loaded(c) && name !in SERVER_COLUMNS
    ensures Col(now + Written(Assigned(c)), name)
         == if Col(c.obj.vals, name) != Col(c.loaded, name) then Col(c.obj.vals, name) else Col(now, name)
  {
    hide Assigned, Col, Written;
    AssignedColumn(c, name);
    OverlayColumn(now, Assigned(c), name);
  }

  /** An update that read a past version keeps the case settled. */
  lemma UpdateSettles(tenant: Uuid, req: Request, c: Change, now: Columns)
    requires req.UpdateCase? && UpdatesCase(tenant, req, c) && Loaded(c) && Settled(now)
    requires Set(c.loaded, "resolution") ==> Set(now, "resolution")
    requires Set(c.loaded, "resolved_at") ==> Set(now, "resolved_at")
    ensures Settled(now + Written(Assigned(c)))
  {
    hide UpdatedCase, Assigned, Col, Written;
    UpdatedColumns(c.loaded, req.update, req.clock);
    WrittenColumn(c, now, "status");
    WrittenColumn(c, now, "resolution");
    WrittenColumn(c, now, "resolved_at");
  }

  /** No update, however stale, takes a resolution or its time back. */
  lemma UpdateKeepsSet(tenant: Uuid, req: Request, c: Change, now: Columns, name: string)
    requires req.UpdateCase? && UpdatesCase(tenant, req, c) && Loaded(c)
    requires name in {"resolution", "resolved_at"} && Set(now, name)
    ensures Set(now + Written(Assigned(c)), name)
  {
    hide UpdatedCase, Assigned, Col, Written;
    UpdatedColumns(c.loaded, req.update, req.clock);
    WrittenColumn(c, now, name);
  }

  // ---------- What a session's flushes do to one row ----------

  lemma NamesMore(part: seq<Change>, all: seq<Change>, key: Key)
    requires Names(part, key) && forall c :: c in part ==> c in all
    ensures Names(all, key)
  {
    var c :| c in part && c.obj.key == key;
    assert c in all;
  }

  lemma {:induction false} StatementsNamed(rows: Rows, pin: Option<Uuid>, now: int, writes: Writes, cs: seq<Change>,
                                           key: Key)
    requires (forall c :: c in cs ==> Loaded(c)) && WriteAll(rows, pin, now, writes, cs).Some?
    requires key in WriteAll(rows, pin, now, writes, cs).value && key !in writes
    ensures Names(cs, key)
  {
    hide Names, WriteChange;
    var n := |cs| - 1;
    assert cs != [];
    assert cs[n] in cs;
    var w := WriteAll(rows, pin, now, writes, cs[..n]).value;
    if key in w {
      StatementsNamed(rows, pin, now, writes, cs[..n], key);
      NamesMore(cs[..n], cs, key);
    } else {
      StatementGrows(rows, pin, now, w, cs[n]);
      NamesOwn(cs, n);
    }
  }

  lemma NamesOwn(cs: seq<Change>, i: nat)
    requires i < |cs|
    ensures Names(cs, cs[i].obj.key)
  {
    assert cs[i] in cs;
  }

  /** A session writes only rows its changes name. */
  lemma {:induction false} WritesNamed(sha: Sha, db: Db, tenant: Uuid, now: int, ops: seq<Op>, key: Key)
    requires RunOps(sha, db, Some(tenant), now, ops).Some?
    requires key in RunOps(sha, db, Some(tenant), now, ops).value.writes
    ensures Names(Changes(ops), key)
  {
    hide Names, WriteAll, AppendAll;
    var n := |ops| - 1;
    assert ops != [];
    var p := RunOps(sha, db, Some(tenant), now, ops[..n]).value;
    if key in p.writes {
      WritesNamed(sha, db, tenant, now, ops[..n], key);
      NamesMore(Changes(ops[..n]), Changes(ops), key);
    } else {
      var f := ops[n].unit;
      AppendsTakeHead(sha, db, tenant, p, f.changes);
      StatementsNamed(db.rows, Some(tenant), now, p.writes, f.order, key);
      NamesMore(f.order, Changes(ops), key);
    }
  }

  lemma SameIndex(cs: seq<Change>, i: nat, j: nat)
    requires DistinctKeys(cs) && i < |cs| && j < |cs| && cs[i] == cs[j]
    ensures i == j
  {}

  lemma OneStatement(rows: Rows, pin: Option<Uuid>, now: int, writes: Writes, order: seq<Change>, c: Change)
    requires (forall x :: x in order <==> x == c) && DistinctKeys(order) && Loaded(c)
    ensures WriteAll(rows, pin, now, writes, order) == WriteChange(rows, pin, now, writes, c)
  {
    assert c in order;
    assert order[0] in order && order[|order| - 1] in order;
    SameIndex(order, 0, |order| - 1);
    assert order == [c];
    assert order[..0] == [];
  }

  lemma OneFlush(sha: Sha, db: Db, tenant: Uuid, now: int, p: Pending, f: UnitOfWork)
    requires FlushOn(sha, db, Some(tenant), now, p, f).Some? && |f.changes| <= 1
    ensures var w := FlushOn(sha, db, Some(tenant), now, p, f).value.writes;
      if f.changes == [] then w == p.writes
      else WriteChange(db.rows, Some(tenant), now, p.writes, f.changes[0]) == Some(w)
  {
    hide WriteChange, AppendAll;
    AppendsTakeHead(sha, db, tenant, p, f.changes);
    if f.changes == [] {
      NoEffectNoWrites(db.rows, Some(tenant), now, p.writes, f.order);
    } else {
      assert forall x :: x in f.changes <==> x == f.changes[0];
      OneStatement(db.rows, Some(tenant), now, p.writes, f.order, f.changes[0]);
    }
  }

  /** A session whose only change is c wrote what c's statement writes. */
  lemma {:induction false} OneChange(sha: Sha, db: Db, tenant: Uuid, now: int, ops: seq<Op>)
    requires RunOps(sha, db, Some(tenant), now, ops).Some? && |Changes(ops)| <= 1
    requires forall c :: c in Changes(ops) ==> Loaded(c)
    ensures var w := RunOps(sha, db, Some(tenant), now, ops).value.writes;
      if Changes(ops) == [] then w == map[]
      else WriteChange(db.rows, Some(tenant), now, map[], Changes(ops)[0]) == Some(w)
  {
    hide WriteChange, FlushOn, Loaded;
    if ops != [] {
      var n := |ops| - 1;
      assert forall c :: c in Changes(ops[..n]) ==> c in Changes(ops);
      OneChange(sha, db, tenant, now, ops[..n]);
      if ops[n].Wrote? {
        OneFlush(sha, db, tenant, now, RunOps(sha, db, Some(tenant), now, ops[..n]).value, ops[n].unit);
        if ops[n].unit.changes == [] {
          assert Changes(ops) == Changes(ops[..n]);
        } else {
          assert Changes(ops[..n]) == [] && Changes(ops) == ops[n].unit.changes;
        }
      } else {
        assert Changes(ops) == Changes(ops[..n]);
      }
    }
  }

  // ---------- One step of a run, seen from one case ----------

  /** The update c of case k ran on its row. */
  ghost predicate UpdatedBy(row: Row, row': Row, tenant: Uuid, req: Request, c: Change) {
    && req.UpdateCase? && Loaded(c) && UpdatesCase(tenant, req, c)
    && row' == row.(cols := row.cols + Written(Assigned(c)))
  }

  ghost predicate CaseMoved(row: Row, row': Row, tenant: Uuid, req: Request, ops: seq<Op>, k: Key) {
    row' == row
    || (|Changes(ops)| == 1 && Changes(ops)[0].obj.key == k && UpdatedBy(row, row', tenant, req, Changes(ops)[0]))
  }

  lemma UpdateMoves(sha: Sha, db: Db, tenant: Uuid, now: int, req: Request, ops: seq<Op>, k: Key)
    requires req.UpdateCase? && |Changes(ops)| <= 1 && forall c :: c in Changes(ops) ==> UpdatesCase(tenant, req, c)
    requires RunOps(sha, db, Some(tenant), now, ops).Some? && k in db.rows
    ensures var rows' := Overlay(db.rows, RunOps(sha, db, Some(tenant), now, ops).value.writes);
      k in rows' && CaseMoved(db.rows[k], rows'[k], tenant, req, ops, k)
  {
    hide Assigned, Written, UpdatedCase, RunOps;
    ChangesLoaded(ops);
    OneChange(sha, db, tenant, now, ops);
    if |Changes(ops)| == 1 {
      assert Changes(ops)[0] in Changes(ops);
      UpdatedRow(db.rows, tenant, now, Changes(ops)[0]);
    }
  }

  lemma InsertsMove(sha: Sha, db: Db, tenant: Uuid, now: int, ops: seq<Op>, news: seq<NewRow>, k: Key)
    requires Performs(ops, tenant, news) && RunOps(sha, db, Some(tenant), now, ops).Some? && k in db.rows
    ensures var rows' := Overlay(db.rows, RunOps(sha, db, Some(tenant), now, ops).value.writes);
      k in rows' && rows'[k] == db.rows[k]
  {
    hide RunOps;
    PerformsPolite(ops, tenant, news);
    InsertSession(sha, db, tenant, now, ops);
  }

  lemma CaseMoves(sha: Sha, s: Settings, db: Db, tenant: Uuid, now: int, req: Request, ops: seq<Op>, k: Key)
    requires Serves(s, tenant, now, req, ops) && RunOps(sha, db, Some(tenant), now, ops).Some?
    requires k in db.rows && k.table == "cases"
    ensures var rows' := Overlay(db.rows, RunOps(sha, db, Some(tenant), now, ops).value.writes);
      k in rows' && CaseMoved(db.rows[k], rows'[k], tenant, req, ops, k)
  {
    hide CaseMoved, RunOps, UpdatesCase, Performs, RecordRows, ScreeningRows, ReportRow, CaseRow, Evaluate;
    if req.UpdateCase? {
      UpdateMoves(sha, db, tenant, now, req, ops, k);
    } else if req.OtherRequest? {
      if k in RunOps(sha, db, Some(tenant), now, ops).value.writes { WritesNamed(sha, db, tenant, now, ops, k); }
      Unmoved(db.rows[k], tenant, req, ops, k);
    } else {
      InsertsMove(sha, db, tenant, now, ops, NewRows(s, tenant, now, req, ops), k);
      Unmoved(db.rows[k], tenant, req, ops, k);
    }
  }

  lemma Unmoved(row: Row, tenant: Uuid, req: Request, ops: seq<Op>, k: Key)
    ensures CaseMoved(row, row, tenant, req, ops, k)
  {}

  lemma UpdatedRow(rows: Rows, tenant: Uuid, now: int, c: Change)
    requires c.Update? && Loaded(c) && WriteChange(rows, Some(tenant), now, map[], c).Some?
    requires c.obj.key.table == "cases"
    ensures var w := WriteChange(rows, Some(tenant), now, map[], c).value;
      && w.Keys <= {c.obj.key}
      && (c.obj.key in w ==>
            && c.obj.key in rows
            && w[c.obj.key] == Some(rows[c.obj.key].(cols := rows[c.obj.key].cols + Written(Assigned(c)))))
  {
    CoerceElsewhere("cases", Written(Assigned(c)));
  }

  // ---------- Runs ----------

  /** The case the update read is some version committed before its transaction. */
  ghost predicate ReadPast(sha: Sha, ts: seq<Txn>, i: nat, c: Change)
    requires i < |ts| && c.Update?
  {
    exists j :: 0 <= j <= i && c.obj.key in RowsAfter(sha, ts[..j])
        && RowsAfter(sha, ts[..j])[c.obj.key].cols == Written(c.loaded)
  }

  /** However stale, every case update read a committed version of its case. */
  ghost predicate ReadsPast(sha: Sha, ts: seq<Txn>, reqs: seq<Request>)
    requires |reqs| == |ts|
  {
    forall i, c ::
      0 <= i < |ts| && ts[i].Session? && ts[i].pin.Some? && reqs[i].UpdateCase? && c in Changes(ts[i].ops) && c.Update?
      ==> ReadPast(sha, ts, i, c)
  }

  /** The last step of a run, seen from a case it found there. */
  lemma LastMove(sha: Sha, s: Settings, ts: seq<Txn>, reqs: seq<Request>, k: Key)
    requires ts != [] && Served(s, ts, reqs)
    requires k in RowsAfter(sha, ts[..|ts| - 1]) && k.table == "cases"
    ensures k in RowsAfter(sha, ts)
    ensures var n := |ts| - 1;
            var rows, rows' := RowsAfter(sha, ts[..n]), RowsAfter(sha, ts);
      rows'[k] == rows[k] || (ts[n].Session? && ts[n].pin.Some?
                              && CaseMoved(rows[k], rows'[k], ts[n].pin.value, reqs[n], ts[n].ops, k))
  {
    hide CaseMoved, Serves;
    var n := |ts| - 1;
    var db, t := Serial(sha, EMPTY, ts[..n]), ts[n];
    if t.Session? && t.pin.Some? && RunOps(sha, db, t.pin, t.now, t.ops).Some? {
      CaseMoves(sha, s, db, t.pin.value, t.now, reqs[n], t.ops, k);
      CommittedRows(sha, db, t.pin.value, t.now, t.ops);
    }
  }

  /** Once set, a case's resolution and its time stay set. */
  lemma {:induction false} StaysSet(sha: Sha, s: Settings, ts: seq<Txn>, reqs: seq<Request>, j: nat, k: Key,
                                    name: string)
    requires Served(s, ts, reqs) && j <= |ts| && k.table == "cases" && name in {"resolution", "resolved_at"}
    requires k in RowsAfter(sha, ts[..j]) && Set(RowsAfter(sha, ts[..j])[k].cols, name)
    ensures k in RowsAfter(sha, ts) && Set(RowsAfter(sha, ts)[k].cols, name)
  {
    hide Serial, Serves, Set, UpdatesCase, Assigned;
    if j == |ts| {
      assert ts[..j] == ts;
    } else {
      var n := |ts| - 1;
      assert ts[..n][..j] == ts[..j];
      StaysSet(sha, s, ts[..n], reqs[..n], j, k, name);
      LastMove(sha, s, ts, reqs, k);
      var rows, rows' := RowsAfter(sha, ts[..n]), RowsAfter(sha, ts);
      if rows'[k] != rows[k] {
        UpdateKeepsSet(ts[n].pin.value, reqs[n], Changes(ts[n].ops)[0], rows[k].cols, name);
      }
    }
  }

  lemma WrittenRead(m: Columns, name: string)
    requires name !in SERVER_COLUMNS
    ensures Col(Written(m), name) == Col(m, name)
  {}

  lemma {:induction false} ReadsPastPrefix(sha: Sha, ts: seq<Txn>, reqs: seq<Request>, n: nat)
    requires n <= |ts| == |reqs| && ReadsPast(sha, ts, reqs)
    ensures ReadsPast(sha, ts[..n], reqs[..n])
  {
    forall i, c | 0 <= i < n && ts[..n][i].Session? && ts[..n][i].pin.Some? && reqs[..n][i].UpdateCase?
        && c in Changes(ts[..n][i].ops) && c.Update?
      ensures ReadPast(sha, ts[..n], i, c)
    {
      assert ReadPast(sha, ts, i, c);
      var j :| 0 <= j <= i && c.obj.key in RowsAfter(sha, ts[..j])
          && RowsAfter(sha, ts[..j])[c.obj.key].cols == Written(c.loaded);
      assert ts[..n][..j] == ts[..j];
    }
  }

  /** A stale read is no more settled than the case has become. */
  lemma StaleRead(sha: Sha, s: Settings, ts: seq<Txn>, reqs: seq<Request>, c: Change)
    requires ts != [] && Served(s, ts, reqs) && c.Update? && c.obj.key.table == "cases"
    requires ReadPast(sha, ts, |ts| - 1, c)
    ensures var rows := RowsAfter(sha, ts[..|ts| - 1]);
      && c.obj.key in rows
      && (Set(c.loaded, "resolution") ==> Set(rows[c.obj.key].cols, "resolution"))
      && (Set(c.loaded, "resolved_at") ==> Set(rows[c.obj.key].cols, "resolved_at"))
  {
    hide Serial, Serves, RowsAfter, Col;
    var n := |ts| - 1;
    var j :| 0 <= j <= n && c.obj.key in RowsAfter(sha, ts[..j])
        && RowsAfter(sha, ts[..j])[c.obj.key].cols == Written(c.loaded);
    WrittenRead(c.loaded, "resolution");
    WrittenRead(c.loaded, "resolved_at");
    assert ts[..n][..j] == ts[..j];
    CaseThereAfter(sha, s, ts[..n], reqs[..n], j, c.obj.key);
    if Set(c.loaded, "resolution") { StaysSet(sha, s, ts[..n], reqs[..n], j, c.obj.key, "resolution"); }
    if Set(c.loaded, "resolved_at") { StaysSet(sha, s, ts[..n], reqs[..n], j, c.obj.key, "resolved_at"); }
  }

  lemma {:induction false} CaseThereAfter(sha: Sha, s: Settings, ts: seq<Txn>, reqs: seq<Request>, j: nat, k: Key)
    requires Served(s, ts, reqs) && j <= |ts| && k.table == "cases" && k in RowsAfter(sha, ts[..j])
    ensures k in RowsAfter(sha, ts)
  {
    hide Serial, Serves, CaseMoved;
    if j == |ts| {
      assert ts[..j] == ts;
    } else {
      assert ts[..|ts| - 1][..j] == ts[..j];
      CaseThereAfter(sha, s, ts[..|ts| - 1], reqs[..|ts| - 1], j, k);
      LastMove(sha, s, ts, reqs, k);
    }
  }

  /** Every case a request adds is one open_case made. */
  lemma AddedCase(s: Settings, tenant: Uuid, now: int, req: Request, ops: seq<Op>, n: nat)
    returns (customer: Uuid, sourceType: string, source: Uuid, priority: string, id: Uuid)
    requires Serves(s, tenant, now, req, ops)
    requires n < |NewRows(s, tenant, now, req, ops)| && NewRows(s, tenant, now, req, ops)[n].key.table == "cases"
    ensures NewRows(s, tenant, now, req, ops)[n] == CaseRow(tenant, customer, sourceType, source, priority, id)
  {
    hide TransactionRow, AlertRow, CaseRow, ScreeningRow, ReportRow, RecordRows, Evaluate, Performs, Escalated;
    match req
    case RecordTransaction(_, _, _, _) =>
      var fs := Evaluate(s, ops[1].rows, Evaluated(req, now));
      RecordedTable(s, tenant, req, fs, n);
      RecordedLength(s, tenant, req, fs);
      var j := n - 1 - |fs|;
      CaseAt(s, tenant, req, fs, j);
      var i := Escalated(s, fs)[j];
      return req.customer, "transaction_alert", req.ids(1 + i), SeverityText(fs[i].severity), req.ids(1 + |fs| + j);
    case ScreenCustomer(_, _, _, _, _) =>
      return req.customer, "sanctions_screening", req.ids(0), "high", req.ids(1);
    case OpenCase(_, _, _, _, _) =>
      return req.customer, req.sourceType, req.sourceId, req.priority, req.ids(0);
    case _ =>
  }

  /** A new case is open, without a resolution. */
  lemma NewCaseSettled(s: Settings, rows: Rows, rows': Rows, tenant: Uuid, now: int, req: Request, ops: seq<Op>, k: Key)
    requires Effect(s, rows, rows', tenant, now, req, ops) && k in rows' && k !in rows && k.table == "cases"
    ensures Settled(rows'[k].cols)
  {
    hide CaseRow, NewRows, Serves, Kept, StoredCols, Col;
    var news := NewRows(s, tenant, now, req, ops);
    var n :| 0 <= n < |news| && news[n].key == k;
    var customer, sourceType, source, priority, id := AddedCase(s, tenant, now, req, ops, n);
    CaseColumns(tenant, customer, sourceType, source, priority, id);
  }

  /** In every reachable state every case is settled, though each update checks the case as its
      session read it, however long ago. */
  lemma {:induction false} CasesSettled(sha: Sha, s: Settings, ts: seq<Txn>, reqs: seq<Request>, k: Key)
    requires Served(s, ts, reqs) && ReadsPast(sha, ts, reqs)
    requires k in RowsAfter(sha, ts) && k.table == "cases"
    ensures Settled(RowsAfter(sha, ts)[k].cols)
  {
    hide Serial, Serves, Settled, UpdatedCase, Assigned, Set, Effect;
    if ts == [] {
      NoTransactions(sha);
    } else {
      var n := |ts| - 1;
      var rows, rows' := RowsAfter(sha, ts[..n]), RowsAfter(sha, ts);
      LastStep(sha, s, ts, reqs);
      if k in rows {
        ReadsPastPrefix(sha, ts, reqs, n);
        CasesSettled(sha, s, ts[..n], reqs[..n], k);
        LastMove(sha, s, ts, reqs, k);
        if rows'[k] != rows[k] {
          var c := Changes(ts[n].ops)[0];
          assert c in Changes(ts[n].ops) && ReadPast(sha, ts, n, c);
          StaleRead(sha, s, ts, reqs, c);
          UpdateSettles(ts[n].pin.value, reqs[n], c, rows[k].cols);
        }
      } else {
        NewCaseSettled(s, rows, rows', ts[n].pin.value, ts[n].now, reqs[n], ts[n].ops, k);
      }
    }
  }
}
