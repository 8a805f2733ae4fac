/** Every report in the audit log is justified by the log before it. */
module Reports {
  import opened Wrappers
  import opened Json
  import opened CanonicalJson
  import opened Chain
  import opened Database
  import opened Replay
  import opened Sessions
  import opened Monitoring
  import opened Services
  import opened Compliance
  import opened Conservation
  import opened Cases
  import opened StaleReads
  import opened Schedules

  // ---------- What the log says of a report ----------

  /** The fields _build_payload copies from the case. */
  const COPIED: set<string> := {"customer_id", "priority", "source_type", "source_id", "resolution", "resolution_notes"}

  /** Replaying `before` gives case ck resolved and confirmed, at a known time, and entry e reports
      exactly that case. */
  predicate Justifies(before: seq<Entry>, ck: Key, e: Entry) {
    var tables := Replayed(before);
    && ck.table == "cases" && ck in tables
    && Col(tables[ck], "status") == Str("resolved") && Col(tables[ck], "resolution") == Str("confirmed")
    && Col(tables[ck], "resolved_at").Str?
    && Col(Recorded(e.newValues), "case_id") == Str(ck.id)
    && Col(Recorded(e.newValues), "customer_id") == Col(tables[ck], "customer_id")
    && var payload := Col(Recorded(e.newValues), "payload");
    && Field(payload, "case_id") == Str(ck.id)
    && Field(payload, "resolved_at") == Str(IsoFormat(Col(tables[ck], "resolved_at").text))
    && forall name :: name in COPIED ==> Field(payload, name) == Col(tables[ck], name)
  }

  /** The entry shows what the client asked for and what the regulator answered. */
  predicate Files(e: Entry, req: Request)
    requires req.GenerateReport?
  {
    var m := Recorded(e.newValues);
    && e.action == "INSERT" && e.table == "reports" && e.record == req.ids(0)
    && Col(m, "report_type") == Str(req.reportType) && Col(m, "provider_name") == Str(req.provider)
    && Col(m, "status") == Str(req.status) && Col(m, "provider_reference") == Norm(Rendered(req.reference))
    && Col(m, "error_detail") == Norm(Rendered(req.errorDetail))
    && Field(Col(m, "payload"), "report_type") == Str(req.reportType)
    && Field(Col(m, "payload"), "opened_at") == Str(IsoFormat(req.openedAt))
  }

  // ---------- Values through rendering ----------

  lemma ShownColumn(m: Columns, name: string)
    requires name !in SERVER_COLUMNS
    ensures Col(Shown(m), name) == Norm(Rendered(Col(m, name)))
    ensures Col(Shown(Written(m)), name) == Col(Shown(m), name)
  {}

  lemma ShownStoredWritten(m: Columns)
    ensures Shown(Written(m)) == Shown(m)
  {}

  lemma PayloadDistinct()
    ensures Distinct(PAYLOAD_FIELDS)
  {}

  lemma PayloadField(req: Request, name: string)
    requires req.GenerateReport? && name in PAYLOAD_FIELDS && UniqueMembers(ReportPayload(req))
    ensures Field(Norm(Rendered(Obj(ReportPayload(req)))), name) == Norm(Rendered(PayloadValues(req)[name]))
  {
    var ms := ReportPayload(req);
    PayloadDistinct();
    SerializeLookup(PAYLOAD_FIELDS, PayloadValues(req));
    RenderedLookup(ms, name);
    RenderedMembersUnique(ms);
    NormSorted(RenderedMembers(ms));
  }

  lemma TextShows(v: Value)
    ensures Rendered(Text(v)) == Rendered(v)
  {}

  /** What a report's payload says: the case it is about and how it was resolved. */
  predicate PayloadSays(p: Value, caseId: Uuid, case_: Columns, openedAt: string, reportType: string) {
    && p.Obj? && Keys(p.members)
       == {"report_type", "case_id", "customer_id", "priority", "source_type", "source_id", "opened_at", "resolved_at",
           "resolution", "resolution_notes"}
    && Field(p, "report_type") == Str(reportType) && Field(p, "case_id") == Str(caseId)
    && Field(p, "opened_at") == Str(IsoFormat(openedAt))
    && Field(p, "customer_id") == Text(Col(case_, "customer_id")) && Field(p, "priority") == Col(case_, "priority")
    && Field(p, "source_type") == Col(case_, "source_type") && Field(p, "source_id") == Text(Col(case_, "source_id"))
    && Field(p, "resolved_at")
       == (if Col(case_, "resolved_at").Foreign? then Str(IsoFormat(Col(case_, "resolved_at").text))
           else Col(case_, "resolved_at"))
    && Field(p, "resolution") == Col(case_, "resolution")
    && Field(p, "resolution_notes") == Col(case_, "resolution_notes")
  }

  /** What a stored report says. */
  predicate ReportSays(m: Columns, tenant: Uuid, id: Uuid, caseId: Uuid, case_: Columns, openedAt: string,
                       reportType: string, provider: string, status: string, reference: Value, errorDetail: Value) {
    && Identified(m, tenant, id)
    && Col(m, "case_id") == Foreign(caseId) && Col(m, "customer_id") == Col(case_, "customer_id")
    && Col(m, "report_type") == Str(reportType) && Col(m, "provider_name") == Str(provider)
    && Col(m, "status") == Str(status) && Col(m, "provider_reference") == reference
    && Col(m, "error_detail") == errorDetail
    && PayloadSays(Col(m, "payload"), caseId, case_, openedAt, reportType)
  }

  lemma TextExact(v: Value)
    ensures Text(v) == if v.Foreign? then Str(v.text) else v
  {}

  lemma PayloadValue(req: Request, name: string)
    requires req.GenerateReport? && name in PAYLOAD_FIELDS
    ensures Field(Obj(ReportPayload(req)), name) == PayloadValues(req)[name]
  {
    hide PayloadValues;
    PayloadDistinct();
    SerializeLookup(PAYLOAD_FIELDS, PayloadValues(req));
  }

  lemma PayloadEach(req: Request)
    requires req.GenerateReport?
    ensures var m, c := PayloadValues(req), req.case_;
      && m["report_type"] == Str(req.reportType) && m["case_id"] == Str(req.caseId)
      && m["opened_at"] == Str(IsoFormat(req.openedAt)) && m["priority"] == Col(c, "priority")
      && m["customer_id"] == Text(Col(c, "customer_id")) && m["source_type"] == Col(c, "source_type")
      && m["source_id"] == Text(Col(c, "source_id")) && m["resolved_at"] == IsoText(Col(c, "resolved_at"))
      && m["resolution"] == Col(c, "resolution") && m["resolution_notes"] == Col(c, "resolution_notes")
  {
    hide IsoFormat, Col, Text, IsoText;
  }

  lemma PayloadWhole(req: Request)
    requires req.GenerateReport?
    ensures PayloadSays(Obj(ReportPayload(req)), req.caseId, req.case_, req.openedAt, req.reportType)
  {
    hide Field, IsoFormat, ReportPayload, PayloadValues, Col, Text;
    PayloadKeys(req);
    PayloadEach(req);
    PayloadValue(req, "report_type");
    PayloadValue(req, "case_id");
    PayloadValue(req, "opened_at");
    PayloadValue(req, "priority");
    PayloadValue(req, "customer_id");
    PayloadValue(req, "source_type");
    PayloadValue(req, "source_id");
    PayloadValue(req, "resolved_at");
    PayloadValue(req, "resolution");
    PayloadValue(req, "resolution_notes");
  }

  lemma PayloadKeys(req: Request)
    requires req.GenerateReport?
    ensures Keys(ReportPayload(req))
         == {"report_type", "case_id", "customer_id", "priority", "source_type", "source_id", "opened_at",
             "resolved_at", "resolution", "resolution_notes"}
  {
    hide PayloadValues, Serialize, Keys;
    forall name
      ensures name in PAYLOAD_FIELDS <==>
        name in {"report_type", "case_id", "customer_id", "priority", "source_type", "source_id", "opened_at",
                 "resolved_at", "resolution", "resolution_notes"}
    {}
  }

  /** The columns of a report row. */
  lemma ReportColumns(tenant: Uuid, req: Request)
    requires req.GenerateReport?
    ensures var vals := ReportRow(tenant, req).vals;
      && Col(vals, "case_id") == Foreign(req.caseId) && Col(vals, "payload") == Obj(ReportPayload(req))
      && ReportSays(vals, tenant, req.ids(0), req.caseId, req.case_, req.openedAt, req.reportType, req.provider,
                    req.status, req.reference, req.errorDetail)
  {
    hide ReportPayload, PayloadSays;
    PayloadWhole(req);
  }

  /** What the log shows of a report. */
  lemma ReportShows(tenant: Uuid, req: Request, e: Entry)
    requires req.GenerateReport? && EntryOf(e, ReportRow(tenant, req)) && UniqueMembers(ReportPayload(req))
    ensures Col(Recorded(e.newValues), "case_id") == Str(req.caseId)
    ensures forall name :: name in PAYLOAD_FIELDS ==>
              Field(Col(Recorded(e.newValues), "payload"), name) == Norm(Rendered(PayloadValues(req)[name]))
  {
    hide ReportRow, ReportPayload, PayloadValues, Recorded, Shown, Col, Field;
    ReportColumns(tenant, req);
    ShownColumn(ReportRow(tenant, req).vals, "case_id");
    ShownColumn(ReportRow(tenant, req).vals, "payload");
    forall name | name in PAYLOAD_FIELDS
      ensures Field(Norm(Rendered(Obj(ReportPayload(req)))), name) == Norm(Rendered(PayloadValues(req)[name]))
    {
      PayloadField(req, name);
    }
  }

  lemma ColumnShows(row: NewRow, e: Entry, name: string)
    requires EntryOf(e, row) && name !in SERVER_COLUMNS
    ensures Col(Recorded(e.newValues), name) == Norm(Rendered(Col(row.vals, name)))
  {
    ShownColumn(row.vals, name);
  }

  lemma TextRenders(text: string)
    ensures Norm(Rendered(Str(text))) == Str(text)
  {}

  lemma ReportColumnsLogged(tenant: Uuid, req: Request, e: Entry)
    requires req.GenerateReport? && EntryOf(e, ReportRow(tenant, req))
    ensures var m := Recorded(e.newValues);
      && Col(m, "customer_id") == Norm(Rendered(Col(req.case_, "customer_id")))
      && Col(m, "report_type") == Str(req.reportType) && Col(m, "provider_name") == Str(req.provider)
      && Col(m, "status") == Str(req.status) && Col(m, "provider_reference") == Norm(Rendered(req.reference))
      && Col(m, "error_detail") == Norm(Rendered(req.errorDetail))
  {
    hide ReportRow, ReportPayload, PayloadSays, Recorded, Shown, Col, Norm, Rendered, EntryOf;
    var row := ReportRow(tenant, req);
    ReportColumns(tenant, req);
    ColumnShows(row, e, "customer_id");
    ColumnShows(row, e, "report_type");
    ColumnShows(row, e, "provider_name");
    ColumnShows(row, e, "status");
    ColumnShows(row, e, "provider_reference");
    ColumnShows(row, e, "error_detail");
    TextRenders(req.reportType);
    TextRenders(req.provider);
    TextRenders(req.status);
  }

  lemma ReportFiles(tenant: Uuid, req: Request, e: Entry)
    requires req.GenerateReport? && EntryOf(e, ReportRow(tenant, req)) && UniqueMembers(ReportPayload(req))
    ensures Files(e, req)
    ensures Col(Recorded(e.newValues), "customer_id") == Norm(Rendered(Col(req.case_, "customer_id")))
  {
    hide ReportRow, ReportPayload, PayloadValues, Recorded, Shown, Col, Field, IsoFormat, Norm, Rendered;
    ReportColumnsLogged(tenant, req, e);
    TextRenders(req.reportType);
    TextRenders(IsoFormat(req.openedAt));
    ReportShows(tenant, req, e);
    PayloadEach(req);
  }

  /** The copied fields of the payload, as they render. */
  lemma CopiedValues(req: Request, name: string)
    requires req.GenerateReport? && name in COPIED
    ensures name in PAYLOAD_FIELDS && name !in SERVER_COLUMNS
    ensures Rendered(PayloadValues(req)[name]) == Rendered(Col(req.case_, name))
  {
    TextShows(Col(req.case_, name));
  }

  lemma StampValues(req: Request)
    requires req.GenerateReport? && Col(req.case_, "resolved_at").Foreign?
    ensures "resolved_at" in PAYLOAD_FIELDS && "case_id" in PAYLOAD_FIELDS
    ensures PayloadValues(req)["case_id"] == Str(req.caseId)
    ensures PayloadValues(req)["resolved_at"] == Str(IsoFormat(Col(req.case_, "resolved_at").text))
  {}

  /** The row the tables hold, column by column, as the request read it. */
  lemma TableColumn(rows: Rows, tenant: Uuid, ck: Key, c: Columns, name: string)
    requires ck in rows && rows[ck].tenant == tenant && rows[ck].cols == Written(c)
    requires name in COPIED + {"status", "resolved_at"}
    ensures ck in TenantTables(rows, tenant)
    ensures Col(TenantTables(rows, tenant)[ck], name) == Norm(Rendered(Col(c, name)))
    ensures Col(rows[ck].cols, name) == Col(c, name)
  {
    hide Shown, Col, Written;
    ServerFree(name);
    ShownColumn(c, name);
    WrittenRead(c, name);
  }

  lemma PayloadShows(tenant: Uuid, req: Request, e: Entry, name: string)
    requires req.GenerateReport? && EntryOf(e, ReportRow(tenant, req)) && UniqueMembers(ReportPayload(req))
    requires name in COPIED
    ensures Field(Col(Recorded(e.newValues), "payload"), name) == Norm(Rendered(Col(req.case_, name)))
  {
    hide ReportRow, ReportPayload, PayloadValues, EntryOf, Recorded, Col, Field;
    ReportShows(tenant, req, e);
    CopiedValues(req, name);
  }

  lemma StampShows(tenant: Uuid, req: Request, e: Entry)
    requires req.GenerateReport? && EntryOf(e, ReportRow(tenant, req)) && UniqueMembers(ReportPayload(req))
    requires Col(req.case_, "resolved_at").Foreign?
    ensures Col(Recorded(e.newValues), "case_id") == Str(req.caseId)
    ensures Field(Col(Recorded(e.newValues), "payload"), "case_id") == Str(req.caseId)
    ensures Field(Col(Recorded(e.newValues), "payload"), "resolved_at")
        == Str(IsoFormat(Col(req.case_, "resolved_at").text))
  {
    hide ReportRow, ReportPayload, PayloadValues, EntryOf, Recorded, Col, Field, IsoFormat;
    ReportShows(tenant, req, e);
    StampValues(req);
  }

  /** A report of a case the tables hold is justified by the log they replay. */
  lemma ReportOfTables(before: seq<Entry>, rows: Rows, tenant: Uuid, req: Request, e: Entry)
    requires req.GenerateReport? && Reportable(req.case_) && EntryOf(e, ReportRow(tenant, req))
    requires UniqueMembers(ReportPayload(req))
    requires Replayed(before) == TenantTables(rows, tenant)
    requires var ck := Key("cases", req.caseId);
      ck in rows && rows[ck].tenant == tenant && rows[ck].cols == Written(req.case_) && Settled(rows[ck].cols)
    ensures Justifies(before, Key("cases", req.caseId), e) && Files(e, req)
  {
    hide ReportRow, ReportPayload, EntryOf, Recorded, TenantTables, Col, Field, Written, IsoFormat, Replayed, Files;
    var ck, c := Key("cases", req.caseId), req.case_;
    TableColumn(rows, tenant, ck, c, "status");
    TableColumn(rows, tenant, ck, c, "resolution");
    TableColumn(rows, tenant, ck, c, "resolved_at");
    StampShows(tenant, req, e);
    ReportFiles(tenant, req, e);
    TableColumn(rows, tenant, ck, c, "customer_id");
    forall name | name in COPIED
      ensures Field(Col(Recorded(e.newValues), "payload"), name) == Col(Replayed(before)[ck], name)
    {
      TableColumn(rows, tenant, ck, c, name);
      PayloadShows(tenant, req, e, name);
    }
  }

  lemma ServerFree(name: string)
    requires name in COPIED + {"status", "resolved_at"}
    ensures name !in SERVER_COLUMNS
  {}

  // ---------- Which request logged a report ----------

  lemma {:induction false} AppendsNamed(sha: Sha, db: Db, tenant: Uuid, p: Pending, cs: seq<Change>)
    requires (forall c :: c in cs ==> Loaded(c)) && AppendAll(sha, db, Some(tenant), p, cs).Some?
    ensures forall e :: e in AppendAll(sha, db, Some(tenant), p, cs).value.entries && e !in p.entries ==>
              exists c :: c in cs && c.obj.key == EntryKey(e)
  {
    hide EntryFor;
    if cs != [] {
      var n := |cs| - 1;
      assert cs == cs[..n] + [cs[n]];
      AppendsNamed(sha, db, tenant, p, cs[..n]);
      var q := AppendAll(sha, db, Some(tenant), p, cs[..n]).value;
      if Effective(cs[n]) { EntryFields(sha, HeadOf(db, tenant, q), cs[n]); }
      forall e | e in AppendAll(sha, db, Some(tenant), p, cs).value.entries && e !in p.entries
        ensures exists c :: c in cs && c.obj.key == EntryKey(e)
      {
        if e in q.entries {
          var c :| c in cs[..n] && c.obj.key == EntryKey(e);
          assert c in cs;
        } else {
          assert cs[n] in cs;
        }
      }
    }
  }

  /** Every entry a session appends names a row it changed. */
  lemma {:induction false} EntriesNamed(sha: Sha, db: Db, tenant: Uuid, now: int, ops: seq<Op>)
    requires RunOps(sha, db, Some(tenant), now, ops).Some?
    ensures forall e :: e in RunOps(sha, db, Some(tenant), now, ops).value.entries ==>
              exists c :: c in Changes(ops) && c.obj.key == EntryKey(e)
  {
    if ops != [] {
      var n := |ops| - 1;
      EntriesNamed(sha, db, tenant, now, ops[..n]);
      assert forall c :: c in Changes(ops[..n]) ==> c in Changes(ops);
      if ops[n].Wrote? {
        var f := ops[n].unit;
        assert forall c :: c in f.changes ==> c in Changes(ops);
        AppendsNamed(sha, db, tenant, RunOps(sha, db, Some(tenant), now, ops[..n]).value, f.changes);
      }
    }
  }

  function LogAfter(sha: Sha, ts: seq<Txn>, tenant: Uuid): seq<Entry> { Where(Serial(sha, EMPTY, ts).log, tenant) }

  /** What a transaction appends to a tenant's log. */
  function Block(sha: Sha, db: Db, t: Txn, tenant: Uuid): seq<Entry> {
    if t.Session? && t.pin == Some(tenant) && tenant in db.heads && RunOps(sha, db, t.pin, t.now, t.ops).Some?
    then RunOps(sha, db, t.pin, t.now, t.ops).value.entries
    else []
  }

  lemma AtomicBlock(sha: Sha, db: Db, t: Txn, tenant: Uuid)
    requires Consistent(sha, db)
    ensures Where(Atomic(sha, db, t).log, tenant) == Where(db.log, tenant) + Block(sha, db, t, tenant)
  {
    hide RunOps, Consistent, PendingGood, CommitOn, Where;
    assert Where(db.log, tenant) + [] == Where(db.log, tenant);
    NothingCommits(db, if t.Session? then t.pin else None);
    if t.Session? && RunOps(sha, db, t.pin, t.now, t.ops).Some? {
      if t.pin.Some? && t.pin.value in db.heads {
        OpsKeepGood(sha, db, t.pin.value, t.now, t.ops);
        CommitAddsBlock(sha, db, t.pin.value, RunOps(sha, db, t.pin, t.now, t.ops).value, tenant);
      } else {
        NoHeadNoEffect(sha, db, t.pin, t.now, t.ops);
      }
    }
  }

  lemma PrefixExtends(a: seq<Entry>, b: seq<Entry>, x: seq<Entry>)
    requires a <= b
    ensures a <= b + x
  {}

  /** Each transaction's entries form one contiguous block of its tenant's log. */
  lemma {:induction false} LogIsBlocks(sha: Sha, ts: seq<Txn>, n: nat, tenant: Uuid)
    requires n < |ts|
    ensures LogAfter(sha, ts[..n], tenant) + Block(sha, Serial(sha, EMPTY, ts[..n]), ts[n], tenant)
         <= LogAfter(sha, ts, tenant)
  {
    hide Atomic, Block, Where;
    var m := |ts| - 1;
    SerialConsistent(sha, ts[..m]);
    AtomicBlock(sha, Serial(sha, EMPTY, ts[..m]), ts[m], tenant);
    if n < m {
      LogIsBlocks(sha, ts[..m], n, tenant);
      assert ts[..m][..n] == ts[..n];
      PrefixExtends(LogAfter(sha, ts[..n], tenant) + Block(sha, Serial(sha, EMPTY, ts[..n]), ts[n], tenant),
                    LogAfter(sha, ts[..m], tenant), Block(sha, Serial(sha, EMPTY, ts[..m]), ts[m], tenant));
    }
  }

  /** The same of the committed transactions of any interleaving. */
  lemma BlocksInterleaved(sha: Sha, evs: seq<Event>, n: nat, tenant: Uuid)
    requires n < |History(sha, evs)|
    ensures var ts := History(sha, evs);
      LogAfter(sha, ts[..n], tenant) + Block(sha, Serial(sha, EMPTY, ts[..n]), ts[n], tenant)
        <= Where(Run(sha, evs).db.log, tenant)
  {
    hide Block, Where, Serial, History, Run;
    Serialisable(sha, evs);
    LogIsBlocks(sha, History(sha, evs), n, tenant);
  }

  /** Only generate_report adds rows of the reports table. */
  lemma AddedReport(s: Settings, tenant: Uuid, now: int, req: Request, ops: seq<Op>, m: nat)
    requires Serves(s, tenant, now, req, ops) && m < |NewRows(s, tenant, now, req, ops)|
    requires NewRows(s, tenant, now, req, ops)[m].key.table == "reports"
    ensures req.GenerateReport? && m == 0 && NewRows(s, tenant, now, req, ops) == [ReportRow(tenant, req)]
  {
    hide RecordRows, ReportRow, CaseRow, ScreeningRow, Evaluate, Performs;
    if req.RecordTransaction? {
      RecordedTable(s, tenant, req, Evaluate(s, ops[1].rows, Evaluated(req, now)), m);
    }
  }

  /** The request an entry of the reports table comes from, by the entries of one transaction. */
  lemma ReportOfBlock(sha: Sha, s: Settings, db: Db, tenant: Uuid, now: int, req: Request, ops: seq<Op>, m: nat)
    requires Consistent(sha, db) && tenant in db.heads && Serves(s, tenant, now, req, ops)
    requires RunOps(sha, db, Some(tenant), now, ops).Some?
    requires m < |RunOps(sha, db, Some(tenant), now, ops).value.entries|
    requires RunOps(sha, db, Some(tenant), now, ops).value.entries[m].table == "reports"
    ensures req.GenerateReport? && m == 0 && Reportable(req.case_) && UniqueMembers(ReportPayload(req))
    ensures EntryOf(RunOps(sha, db, Some(tenant), now, ops).value.entries[m], ReportRow(tenant, req))
  {
    hide RunOps, Consistent, RecordRows, ReportRow, CaseRow, ScreeningRows, ReportPayload, Evaluate, Recorded, Shown,
        UpdatedCase;
    var entries := RunOps(sha, db, Some(tenant), now, ops).value.entries;
    if req.UpdateCase? || req.OtherRequest? {
      NoReports(sha, s, db, tenant, now, req, ops, entries[m]);
    } else {
      var news := NewRows(s, tenant, now, req, ops);
      PerformedLog(sha, db, tenant, now, ops, news, tenant);
      assert EntryOf(entries[m], news[m]);
      AddedReport(s, tenant, now, req, ops, m);
      ReportUnique(tenant, req, Changes(ops)[0]);
    }
  }

  lemma NoReports(sha: Sha, s: Settings, db: Db, tenant: Uuid, now: int, req: Request, ops: seq<Op>, e: Entry)
    requires Serves(s, tenant, now, req, ops) && (req.UpdateCase? || req.OtherRequest?)
    requires RunOps(sha, db, Some(tenant), now, ops).Some? && e in RunOps(sha, db, Some(tenant), now, ops).value.entries
    ensures e.table != "reports"
  {
    hide RunOps, UpdatedCase;
    EntriesNamed(sha, db, tenant, now, ops);
  }

  lemma ReportUnique(tenant: Uuid, req: Request, c: Change)
    requires req.GenerateReport? && Adds(c, tenant, ReportRow(tenant, req))
    ensures UniqueMembers(ReportPayload(req))
  {
    ReportColumns(tenant, req);
    assert Unique(c.obj.vals["payload"]);
  }

  /** Every entry of the reports table is the one entry of a generate_report request. */
  lemma {:induction false} ReportEntry(sha: Sha, s: Settings, ts: seq<Txn>, reqs: seq<Request>, tenant: Uuid, i: nat)
    returns (n: nat)
    requires Served(s, ts, reqs) && i < |LogAfter(sha, ts, tenant)| && LogAfter(sha, ts, tenant)[i].table == "reports"
    ensures n < |ts| == |reqs| && reqs[n].GenerateReport? && ts[n].Session? && ts[n].pin == Some(tenant)
    ensures Reportable(reqs[n].case_) && UniqueMembers(ReportPayload(reqs[n]))
    ensures i == |LogAfter(sha, ts[..n], tenant)| && LogAfter(sha, ts, tenant)[..i] == LogAfter(sha, ts[..n], tenant)
    ensures EntryOf(LogAfter(sha, ts, tenant)[i], ReportRow(tenant, reqs[n]))
  {
    hide Atomic, Serves, EntryOf, ReportRow, ReportPayload, Consistent, Where, RunOps;
    n := |ts| - 1;
    var db := Serial(sha, EMPTY, ts[..n]);
    var before := LogAfter(sha, ts[..n], tenant);
    SerialConsistent(sha, ts[..n]);
    AtomicBlock(sha, db, ts[n], tenant);
    if i < |before| {
      n := ReportEntry(sha, s, ts[..n], reqs[..n], tenant, i);
      assert ts[..|ts| - 1][..n] == ts[..n];
      assert LogAfter(sha, ts, tenant)[..i] == before[..i];
    } else {
      assert LogAfter(sha, ts, tenant)[i] == Block(sha, db, ts[n], tenant)[i - |before|];
      ReportOfBlock(sha, s, db, tenant, ts[n].now, reqs[n], ts[n].ops, i - |before|);
    }
  }

  // ---------- Justification ----------

  /** The case a report request read is the version committed by the first j transactions. */
  predicate ReportRead(sha: Sha, ts: seq<Txn>, req: Request, tenant: Uuid, j: nat)
    requires req.GenerateReport? && j <= |ts|
  {
    var ck, rows := Key("cases", req.caseId), RowsAfter(sha, ts[..j]);
    ck in rows && rows[ck].tenant == tenant && rows[ck].cols == Written(req.case_)
  }

  /** Every report request read some committed version of its case. */
  ghost predicate ReportsReadPast(sha: Sha, ts: seq<Txn>, reqs: seq<Request>)
    requires |reqs| == |ts|
  {
    forall n :: 0 <= n < |ts| && ts[n].Session? && ts[n].pin.Some? && reqs[n].GenerateReport? ==>
      exists j :: 0 <= j <= n && ReportRead(sha, ts, reqs[n], ts[n].pin.value, j)
  }

  /** Every report request of the tenant ran by itself: it read its case as it was just before. */
  ghost predicate ReportsReadFresh(sha: Sha, ts: seq<Txn>, reqs: seq<Request>, tenant: Uuid)
    requires |reqs| == |ts|
  {
    forall n :: 0 <= n < |ts| && ts[n].Session? && ts[n].pin == Some(tenant) && reqs[n].GenerateReport? ==>
      ReportRead(sha, ts, reqs[n], tenant, n)
  }

  lemma {:induction false} LogPrefix(sha: Sha, ts: seq<Txn>, j: nat, tenant: Uuid)
    requires j <= |ts|
    ensures LogAfter(sha, ts[..j], tenant) <= LogAfter(sha, ts, tenant)
  {
    hide Atomic, Block, Where;
    if j == |ts| {
      assert ts[..j] == ts;
    } else {
      var m := |ts| - 1;
      SerialConsistent(sha, ts[..m]);
      AtomicBlock(sha, Serial(sha, EMPTY, ts[..m]), ts[m], tenant);
      LogPrefix(sha, ts[..m], j, tenant);
      assert ts[..m][..j] == ts[..j];
      PrefixExtends(LogAfter(sha, ts[..j], tenant), LogAfter(sha, ts[..m], tenant),
                    Block(sha, Serial(sha, EMPTY, ts[..m]), ts[m], tenant));
    }
  }

  lemma LogReplays(sha: Sha, ts: seq<Txn>, tenant: Uuid)
    ensures Replayed(LogAfter(sha, ts, tenant)) == TenantTables(RowsAfter(sha, ts), tenant)
  {
    hide LogGood, Replayed, TenantTables, Where;
    SerialConsistent(sha, ts);
    var db := Serial(sha, EMPTY, ts);
    if tenant in db.heads {
      assert TenantGood(sha, db, tenant);
    } else {
      UnknownTenantEmpty(db, tenant);
      EmptyReplays();
    }
  }

  /** Entry e is the report some request asked for, and the log before it justifies it. */
  ghost predicate Reported(before: seq<Entry>, e: Entry, reqs: seq<Request>, n: nat) {
    && n < |reqs| && reqs[n].GenerateReport? && Files(e, reqs[n])
    && Justifies(before, Key("cases", reqs[n].caseId), e)
  }

  lemma ReportAt(sha: Sha, s: Settings, ts: seq<Txn>, reqs: seq<Request>, tenant: Uuid, n: nat, j: nat, e: Entry)
    requires Served(s, ts, reqs) && ReadsPast(sha, ts, reqs) && j <= n < |ts| && reqs[n].GenerateReport?
    requires Reportable(reqs[n].case_) && UniqueMembers(ReportPayload(reqs[n]))
    requires EntryOf(e, ReportRow(tenant, reqs[n]))
    requires ReportRead(sha, ts, reqs[n], tenant, j)
    ensures Justifies(LogAfter(sha, ts[..j], tenant), Key("cases", reqs[n].caseId), e) && Files(e, reqs[n])
    ensures LogAfter(sha, ts[..j], tenant) <= LogAfter(sha, ts[..n], tenant)
  {
    hide Serves, EntryOf, ReportRow, ReportPayload, Settled, Justifies, Files, LogAfter, RowsAfter,
         Reportable, ReadsPast;
    ServedPrefix(s, ts, reqs, j);
    ReadsPastPrefix(sha, ts, reqs, j);
    CasesSettled(sha, s, ts[..j], reqs[..j], Key("cases", reqs[n].caseId));
    LogReplays(sha, ts[..j], tenant);
    ReportOfTables(LogAfter(sha, ts[..j], tenant), RowsAfter(sha, ts[..j]), tenant, reqs[n], e);
    LogPrefix(sha, ts[..n], j, tenant);
    assert ts[..n][..j] == ts[..j];
  }

  /** Every report is justified: replaying some prefix of the log before its entry gives its case
      as resolved and confirmed, at a known time, and the payload shows exactly that case. */
  lemma ReportJustified(sha: Sha, s: Settings, ts: seq<Txn>, reqs: seq<Request>, tenant: Uuid, i: nat)
    requires Served(s, ts, reqs) && ReadsPast(sha, ts, reqs) && ReportsReadPast(sha, ts, reqs)
    requires i < |LogAfter(sha, ts, tenant)| && LogAfter(sha, ts, tenant)[i].table == "reports"
    ensures exists m, n ::
      0 <= m <= i && Reported(LogAfter(sha, ts, tenant)[..m], LogAfter(sha, ts, tenant)[i], reqs, n)
  {
    hide Served, EntryOf, ReportRow, ReportPayload, Justifies, Files, LogAfter, ReportRead, Reportable, ReadsPast;
    var log := LogAfter(sha, ts, tenant);
    var n := ReportEntry(sha, s, ts, reqs, tenant, i);
    var j :| 0 <= j <= n && ReportRead(sha, ts, reqs[n], ts[n].pin.value, j);
    ReportAt(sha, s, ts, reqs, tenant, n, j, log[i]);
    var m := |LogAfter(sha, ts[..j], tenant)|;
    assert log[..m] == log[..i][..m] == LogAfter(sha, ts[..j], tenant);
    assert Reported(log[..m], log[i], reqs, n);
  }

  /** When a tenant's requests run one at a time, the justification is the log strictly before the entry. */
  lemma ReportJustifiedJustBefore(sha: Sha, s: Settings, ts: seq<Txn>, reqs: seq<Request>, tenant: Uuid, i: nat)
    requires Served(s, ts, reqs) && ReadsPast(sha, ts, reqs) && ReportsReadFresh(sha, ts, reqs, tenant)
    requires i < |LogAfter(sha, ts, tenant)| && LogAfter(sha, ts, tenant)[i].table == "reports"
    ensures exists n :: Reported(LogAfter(sha, ts, tenant)[..i], LogAfter(sha, ts, tenant)[i], reqs, n)
  {
    hide Served, EntryOf, ReportRow, ReportPayload, Justifies, Files, LogAfter, ReportRead, Reportable, ReadsPast;
    var n := ReportEntry(sha, s, ts, reqs, tenant, i);
    ReportAt(sha, s, ts, reqs, tenant, n, n, LogAfter(sha, ts, tenant)[i]);
    assert Reported(LogAfter(sha, ts, tenant)[..i], LogAfter(sha, ts, tenant)[i], reqs, n);
  }

  // ---------- Where the case a report cites comes from ----------

  predicate CitesLoaded(se: SessionState, req: Request)
    requires req.GenerateReport?
  {
    var ck := Key("cases", req.caseId);
    ck in se.loaded && se.loaded[ck] == Written(req.case_)
  }

  /** The case a report cites is the one its session's identity map holds. */
  ghost predicate Cited(sha: Sha, evs: seq<Event>, reqs: seq<Request>) {
    forall n :: 0 <= n < |evs| && evs[n].Committed? && evs[n].sid in Run(sha, evs[..n]).sessions ==>
      var i := |History(sha, evs[..n])|;
      i < |reqs| && reqs[i].GenerateReport? ==> CitesLoaded(Run(sha, evs[..n]).sessions[evs[n].sid], reqs[i])
  }

  /** The commit that added a session to the history. */
  lemma {:induction false} CommitOf(sha: Sha, evs: seq<Event>, i: nat) returns (n: nat)
    requires i < |History(sha, evs)| && History(sha, evs)[i].Session?
    ensures n < |evs| && evs[n].Committed? && evs[n].sid in Run(sha, evs[..n]).sessions
    ensures History(sha, evs)[..i] == History(sha, evs[..n])
    ensures var se := Run(sha, evs[..n]).sessions[evs[n].sid];
      History(sha, evs)[i] == Session(evs[n].sid.pin, se.now, se.ops)
  {
    hide Run;
    n := |evs| - 1;
    var ts := History(sha, evs[..n]);
    if i < |ts| {
      n := CommitOf(sha, evs[..n], i);
      assert evs[..|evs| - 1][..n] == evs[..n];
      assert History(sha, evs)[..i] == ts[..i];
    } else {
      assert History(sha, evs)[..i] == ts;
    }
  }

  /** A session that adds a report writes no case. */
  lemma ReportWritesNoCase(ops: seq<Op>, tenant: Uuid, req: Request, key: Key)
    requires req.GenerateReport? && Performs(ops, tenant, [ReportRow(tenant, req)]) && key.table == "cases"
    ensures !Names(Changes(ops), key)
  {
    assert Adds(Changes(ops)[0], tenant, [ReportRow(tenant, req)][0]);
  }

  lemma CitedVersion(sha: Sha, s: Settings, evs: seq<Event>, reqs: seq<Request>, i: nat)
    requires Served(s, History(sha, evs), reqs) && Honest(sha, evs) && Cited(sha, evs, reqs)
    requires i < |History(sha, evs)| && History(sha, evs)[i].Session? && History(sha, evs)[i].pin.Some?
    requires reqs[i].GenerateReport?
    ensures exists j :: 0 <= j <= i && ReportRead(sha, History(sha, evs), reqs[i], History(sha, evs)[i].pin.value, j)
  {
    hide History, Run, Honest, RowsAfter, Written, Performs, Version, DiffsPast;
    var n := CommitOf(sha, evs, i);
    var sid, ts := evs[n].sid, History(sha, evs);
    var ck := Key("cases", reqs[i].caseId);
    HonestPrefix(sha, evs, n);
    RunTraced(sha, evs[..n], sid);
    assert Serves(s, ts[i].pin.value, ts[i].now, reqs[i], ts[i].ops);
    ReportWritesNoCase(ts[i].ops, ts[i].pin.value, reqs[i], ck);
    VersionInHistory(sha, evs[..n], sid.pin, ck, Written(reqs[i].case_));
    var j :| 0 <= j <= i && CommittedAs(RowsAfter(sha, History(sha, evs[..n])[..j]), sid.pin, ck,
                                        Written(reqs[i].case_));
    assert History(sha, evs[..n])[..j] == ts[..j];
    assert ReportRead(sha, ts, reqs[i], ts[i].pin.value, j);
  }

  /** A row a session holds and has not written is the committed one. */
  lemma UnwrittenHeld(sha: Sha, db: Db, sid: Sid, se: SessionState, key: Key)
    requires Repeats(sha, db, sid, se) && HoldsCurrent(db, sid, se) && key in se.loaded && !Names(Changes(se.ops), key)
    ensures CommittedAs(db.rows, sid.pin, key, se.loaded[key])
  {
    hide RunOps, Names;
    if key in se.pend.writes {
      WritesNamed(sha, db, sid.pin.value, se.now, se.ops, key);
    }
  }

  /** When a tenant's sessions do not overlap, the version its report cites is the current one. */
  lemma CitedCurrent(sha: Sha, s: Settings, evs: seq<Event>, reqs: seq<Request>, tenant: Uuid, i: nat)
    requires Served(s, History(sha, evs), reqs) && Cited(sha, evs, reqs)
    requires OneAtATime(sha, evs, tenant) && HonestDiffs(sha, evs, tenant)
    requires i < |History(sha, evs)| && History(sha, evs)[i].Session? && History(sha, evs)[i].pin == Some(tenant)
    requires reqs[i].GenerateReport?
    ensures ReportRead(sha, History(sha, evs), reqs[i], tenant, i)
  {
    hide History, Run, OneAtATime, HonestDiffs, Written, Performs, Serial, FreshSoFar, Repeats, HoldsCurrent, Names,
        Exclusive, Consistent;
    var n := CommitOf(sha, evs, i);
    var sid, ts, db := evs[n].sid, History(sha, evs), Run(sha, evs[..n]).db;
    var se := Run(sha, evs[..n]).sessions[sid];
    var ck := Key("cases", reqs[i].caseId);
    SchedulePrefix(sha, evs, n, tenant);
    RunUndisturbed(sha, evs[..n], tenant);
    Serialisable(sha, evs[..n]);
    assert Serves(s, tenant, ts[i].now, reqs[i], ts[i].ops);
    ReportWritesNoCase(ts[i].ops, tenant, reqs[i], ck);
    RunInv(sha, evs[..n]);
    assert Repeats(sha, db, sid, Run(sha, evs[..n]).sessions[sid]);
    UnwrittenHeld(sha, db, sid, se, ck);
  }

  /** Under every interleaving of sessions whose case updates and reports work from what they
      read, every report is justified by some prefix of the log before it. */
  lemma ReportJustifiedInterleaved(sha: Sha, s: Settings, evs: seq<Event>, reqs: seq<Request>, tenant: Uuid, i: nat)
    requires Served(s, History(sha, evs), reqs) && Honest(sha, evs) && Cited(sha, evs, reqs)
    requires i < |Where(Run(sha, evs).db.log, tenant)| && Where(Run(sha, evs).db.log, tenant)[i].table == "reports"
    ensures var log := Where(Run(sha, evs).db.log, tenant);
      exists m, n :: 0 <= m <= i && Reported(log[..m], log[i], reqs, n)
  {
    hide Served, ReadsPast, ReportRead, Reported, Where, Serial, History, Run, Honest, Cited;
    var ts := History(sha, evs);
    Serialisable(sha, evs);
    InterleavedReadsPast(sha, s, evs, reqs);
    assert |reqs| == |ts| by { ServedLength(s, ts, reqs); }
    forall n | 0 <= n < |ts| && ts[n].Session? && ts[n].pin.Some? && reqs[n].GenerateReport?
      ensures exists j :: 0 <= j <= n && ReportRead(sha, ts, reqs[n], ts[n].pin.value, j)
    {
      CitedVersion(sha, s, evs, reqs, n);
    }
    ReportJustified(sha, s, ts, reqs, tenant, i);
  }

  lemma ServedLength(s: Settings, ts: seq<Txn>, reqs: seq<Request>)
    requires Served(s, ts, reqs)
    ensures |reqs| == |ts|
  {
    hide Serves;
  }

  /** When the tenant's sessions do not overlap, by the whole log before it, whatever other tenants
      do. */
  lemma ReportJustifiedWhenSerial(sha: Sha, s: Settings, evs: seq<Event>, reqs: seq<Request>, tenant: Uuid, i: nat)
    requires Served(s, History(sha, evs), reqs) && Honest(sha, evs) && Cited(sha, evs, reqs)
    requires OneAtATime(sha, evs, tenant) && HonestDiffs(sha, evs, tenant)
    requires i < |Where(Run(sha, evs).db.log, tenant)| && Where(Run(sha, evs).db.log, tenant)[i].table == "reports"
    ensures var log := Where(Run(sha, evs).db.log, tenant);
      exists n :: Reported(log[..i], log[i], reqs, n)
  {
    hide Served, ReadsPast, ReportRead, Reported, Where, Serial, History, Run, Honest, Cited, OneAtATime, HonestDiffs;
    var ts := History(sha, evs);
    Serialisable(sha, evs);
    InterleavedReadsPast(sha, s, evs, reqs);
    assert |reqs| == |ts| by { ServedLength(s, ts, reqs); }
    forall n | 0 <= n < |ts| && ts[n].Session? && ts[n].pin == Some(tenant) && reqs[n].GenerateReport?
      ensures ReportRead(sha, ts, reqs[n], tenant, n)
    {
      CitedCurrent(sha, s, evs, reqs, tenant, n);
    }
    ReportJustifiedJustBefore(sha, s, ts, reqs, tenant, i);
  }
}
