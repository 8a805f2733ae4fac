/** What goes in comes out: the log entries of each request, and over a whole run a bijection
    between the cases opened automatically and the records that call for one. */
module Conservation {
  import opened Wrappers
  import opened Json
  import opened CanonicalJson
  import opened Chain
  import opened Database
  import opened Replay
  import opened Sessions
  import opened Monitoring
  import opened Services
  import opened Effects
  import opened Compliance

  // ---------- The entries of one request ----------

  /** The entry of an added row. */
  predicate EntryOf(e: Entry, row: NewRow) {
    e.action == "INSERT" && EntryKey(e) == row.key && Recorded(e.newValues) == Shown(row.vals)
  }

  /** A request that adds rows logs exactly those rows, in order, as one block at the end of its
      tenant's log, and nothing in any other tenant's. */
  lemma PerformedLog(sha: Sha, db: Db, tenant: Uuid, now: int, ops: seq<Op>, news: seq<NewRow>, t: Uuid)
    requires Consistent(sha, db) && tenant in db.heads
    requires Performs(ops, tenant, news) && RunOps(sha, db, Some(tenant), now, ops).Some?
    ensures var entries := RunOps(sha, db, Some(tenant), now, ops).value.entries;
            var after := Atomic(sha, db, Session(Some(tenant), now, ops)).log;
      && |entries| == |news| && (forall i :: 0 <= i < |news| ==> EntryOf(entries[i], news[i]))
      && Where(after, t) == Where(db.log, t) + if t == tenant then entries else []
  {
    hide Consistent, Recorded, Shown;
    PerformsPolite(ops, tenant, news);
    InsertSession(sha, db, tenant, now, ops);
    OpsKeepGood(sha, db, tenant, now, ops);
    CommitAddsBlock(sha, db, tenant, RunOps(sha, db, Some(tenant), now, ops).value, t);
    forall i | 0 <= i < |news|
      ensures EntryOf(RunOps(sha, db, Some(tenant), now, ops).value.entries[i], news[i])
    {
      assert Adds(Changes(ops)[i], tenant, news[i]);
      assert Shows(RunOps(sha, db, Some(tenant), now, ops).value.entries[i], Changes(ops)[i]);
    }
  }

  /** The entry is the INSERT of this row and shows these columns. */
  predicate Logs(e: Entry, table: string, id: Uuid, cols: Columns) {
    e.action == "INSERT" && EntryKey(e) == Key(table, id) && Recorded(e.newValues) == cols
  }

  function Own(tenant: Uuid, id: Uuid): Columns { map["id" := Str(id), "tenant_id" := Str(tenant)] }

  function TransactionShown(tenant: Uuid, req: Request): Columns
    requires req.RecordTransaction?
  {
    Own(tenant, req.ids(0))["customer_id" := Str(req.customer)]["amount" := req.amount]["currency" := Str(req.currency)]
  }

  function AlertShown(tenant: Uuid, req: Request, f: Finding, id: Uuid): Columns
    requires req.RecordTransaction?
  {
    Own(tenant, id)["transaction_id" := Str(req.ids(0))]["customer_id" := Str(req.customer)]
      ["rule_code" := Str(Code(f.rule))]["severity" := Str(SeverityText(f.severity))]
      ["detail" := Norm(Rendered(DetailValue(f.detail)))]["status" := Str("open")]
  }

  function CaseShown(tenant: Uuid, req: Request, f: Finding, alert: Uuid, id: Uuid): Columns
    requires req.RecordTransaction?
  {
    Own(tenant, id)["customer_id" := Str(req.customer)]["source_type" := Str("transaction_alert")]
      ["source_id" := Str(alert)]["priority" := Str(SeverityText(f.severity))]["status" := Str("open")]
      ["resolution" := Null]["resolution_notes" := Null]["assigned_to" := Null]["resolved_at" := Null]
  }

  /** One entry for the transaction, one per finding in order, one per escalated finding in order. */
  ghost predicate RecordEntries(s: Settings, tenant: Uuid, req: Request, fs: seq<Finding>, entries: seq<Entry>)
    requires req.RecordTransaction?
  {
    var opening := Escalated(s, fs);
    && |entries| == 1 + |fs| + |opening|
    && Logs(entries[0], "transactions", req.ids(0), TransactionShown(tenant, req))
    && (forall i :: 0 <= i < |fs| ==>
          Logs(entries[1 + i], "transaction_alerts", req.ids(1 + i), AlertShown(tenant, req, fs[i], req.ids(1 + i))))
    && (forall j :: 0 <= j < |opening| ==>
          && 0 <= opening[j] < |fs|
          && Logs(entries[1 + |fs| + j], "cases", req.ids(1 + |fs| + j),
                  CaseShown(tenant, req, fs[opening[j]], req.ids(1 + opening[j]), req.ids(1 + |fs| + j))))
  }

  lemma ShownUpdate(m: Columns, name: string, v: Value)
    ensures Shown(m[name := v]) == if name in SERVER_COLUMNS then Shown(m) else Shown(m)[name := Norm(Rendered(v))]
  {
    hide Norm, Rendered;
  }

  lemma ShownText(m: Columns, name: string, text: string)
    requires name !in SERVER_COLUMNS
    ensures Shown(m[name := Str(text)]) == Shown(m)[name := Str(text)]
    ensures Shown(m[name := Foreign(text)]) == Shown(m)[name := Str(text)]
    ensures Shown(m[name := Null]) == Shown(m)[name := Null]
  {
    ShownUpdate(m, name, Str(text));
    ShownUpdate(m, name, Foreign(text));
    ShownUpdate(m, name, Null);
  }

  lemma ShownScoped(tenant: Uuid, id: Uuid)
    ensures Shown(Scoped(tenant, id)) == Own(tenant, id)
  {}

  lemma TransactionLogs(tenant: Uuid, req: Request, e: Entry)
    requires req.RecordTransaction? && Positive(req.amount)
    requires EntryOf(e, TransactionRow(tenant, req.customer, req.amount, req.currency, req.ids(0)))
    ensures Logs(e, "transactions", req.ids(0), TransactionShown(tenant, req))
  {
    hide Recorded, Shown, Scoped, Own;
    var m := Scoped(tenant, req.ids(0));
    ShownScoped(tenant, req.ids(0));
    ShownText(m, "customer_id", req.customer);
    m := m["customer_id" := Foreign(req.customer)];
    ShownUpdate(m, "amount", req.amount);
    ShownText(m["amount" := req.amount], "currency", req.currency);
  }

  lemma AlertLogs(tenant: Uuid, req: Request, f: Finding, id: Uuid, e: Entry)
    requires req.RecordTransaction? && EntryOf(e, AlertRow(tenant, req.customer, req.ids(0), f, id))
    ensures Logs(e, "transaction_alerts", id, AlertShown(tenant, req, f, id))
  {
    hide Recorded, Shown, Scoped, Own, DetailValue, SeverityText, Code, Norm, Rendered;
    var m := Scoped(tenant, id);
    ShownScoped(tenant, id);
    ShownText(m, "transaction_id", req.ids(0));
    m := m["transaction_id" := Foreign(req.ids(0))];
    ShownText(m, "customer_id", req.customer);
    m := m["customer_id" := Foreign(req.customer)];
    ShownText(m, "rule_code", Code(f.rule));
    m := m["rule_code" := Str(Code(f.rule))];
    ShownText(m, "severity", SeverityText(f.severity));
    m := m["severity" := Str(SeverityText(f.severity))];
    ShownUpdate(m, "detail", DetailValue(f.detail));
    m := m["detail" := DetailValue(f.detail)];
    ShownText(m, "status", "open");
    ShownUpdate(m["status" := Str("open")], "evaluated_at", Null);
  }

  lemma CaseLogs(tenant: Uuid, req: Request, f: Finding, alert: Uuid, id: Uuid, e: Entry)
    requires req.RecordTransaction?
    requires EntryOf(e, CaseRow(tenant, req.customer, "transaction_alert", alert, SeverityText(f.severity), id))
    ensures Logs(e, "cases", id, CaseShown(tenant, req, f, alert, id))
  {
    hide Recorded, Shown, Scoped, Own, SeverityText, Norm, Rendered;
    var m := Scoped(tenant, id);
    ShownScoped(tenant, id);
    ShownText(m, "customer_id", req.customer);
    m := m["customer_id" := Foreign(req.customer)];
    ShownText(m, "source_type", "transaction_alert");
    m := m["source_type" := Str("transaction_alert")];
    ShownText(m, "source_id", alert);
    m := m["source_id" := Foreign(alert)];
    ShownText(m, "priority", SeverityText(f.severity));
    m := m["priority" := Str(SeverityText(f.severity))];
    ShownText(m, "status", "open");
    m := m["status" := Str("open")];
    ShownText(m, "resolution", "");
    m := m["resolution" := Null];
    ShownText(m, "resolution_notes", "");
    m := m["resolution_notes" := Null];
    ShownText(m, "assigned_to", "");
    m := m["assigned_to" := Null];
    ShownUpdate(m, "opened_at", Null);
    ShownText(m["opened_at" := Null], "resolved_at", "");
  }

  lemma RowsToEntries(s: Settings, tenant: Uuid, req: Request, fs: seq<Finding>, entries: seq<Entry>)
    requires req.RecordTransaction? && Positive(req.amount) && |entries| == |RecordRows(s, tenant, req, fs)|
    requires forall n :: 0 <= n < |entries| ==> EntryOf(entries[n], RecordRows(s, tenant, req, fs)[n])
    ensures RecordEntries(s, tenant, req, fs, entries)
  {
    hide TransactionRow, AlertRow, CaseRow, EntryOf, RecordRows, Escalated, SeverityText, Logs, TransactionShown,
         AlertShown, CaseShown;
    var news := RecordRows(s, tenant, req, fs);
    RecordedLength(s, tenant, req, fs);
    assert EntryOf(entries[0], news[0]);
    TransactionLogs(tenant, req, entries[0]);
    forall i | 0 <= i < |fs|
      ensures Logs(entries[1 + i], "transaction_alerts", req.ids(1 + i),
                   AlertShown(tenant, req, fs[i], req.ids(1 + i)))
    {
      AlertAt(s, tenant, req, fs, i);
      assert EntryOf(entries[1 + i], news[1 + i]);
      AlertLogs(tenant, req, fs[i], req.ids(1 + i), entries[1 + i]);
    }
    var opening := Escalated(s, fs);
    forall j | 0 <= j < |opening|
      ensures 0 <= opening[j] < |fs|
      ensures Logs(entries[1 + |fs| + j], "cases", req.ids(1 + |fs| + j),
                   CaseShown(tenant, req, fs[opening[j]], req.ids(1 + opening[j]), req.ids(1 + |fs| + j)))
    {
      CaseAt(s, tenant, req, fs, j);
      assert EntryOf(entries[1 + |fs| + j], news[1 + |fs| + j]);
      CaseLogs(tenant, req, fs[opening[j]], req.ids(1 + opening[j]), req.ids(1 + |fs| + j), entries[1 + |fs| + j]);
    }
  }

  /** A committed record_transaction logs its transaction, then one alert per firing rule in rule
      order, then one case per alert at or above the severity floor, and nothing else. */
  lemma RecordLogged(sha: Sha, s: Settings, db: Db, tenant: Uuid, now: int, req: Request, ops: seq<Op>)
    requires Consistent(sha, db) && tenant in db.heads
    requires req.RecordTransaction? && Records(s, tenant, now, req, ops)
    requires RunOps(sha, db, Some(tenant), now, ops).Some?
    ensures var entries := RunOps(sha, db, Some(tenant), now, ops).value.entries;
            var fs := Evaluate(s, ops[1].rows, Evaluated(req, now));
      && Where(Atomic(sha, db, Session(Some(tenant), now, ops)).log, tenant) == Where(db.log, tenant) + entries
      && RecordEntries(s, tenant, req, fs, entries)
      && FindingsInOrder(fs)
      && (forall f :: f in fs <==> EvaluateRule(s, ops[1].rows, Evaluated(req, now), f.rule) == Some(f))
  {
    hide EntryOf, RecordRows, RecordEntries, Evaluate, Consistent, Performs, EvaluateRule;
    var fs := Evaluate(s, ops[1].rows, Evaluated(req, now));
    PerformedLog(sha, db, tenant, now, ops, RecordRows(s, tenant, req, fs), tenant);
    RowsToEntries(s, tenant, req, fs, RunOps(sha, db, Some(tenant), now, ops).value.entries);
    EvaluateExact(s, ops[1].rows, Evaluated(req, now));
  }

  // ---------- Cases and the records that call for them ----------

  /** An alert at or above the severity floor, or a potential watchlist match. */
  ghost predicate Escalates(s: Settings, rows: Rows, src: Key) {
    && src in rows
    && (|| (src.table == "transaction_alerts"
            && (|| Col(rows[src].cols, "severity") == Str("high")
                || (Col(rows[src].cols, "severity") == Str("medium") && s.autoOpenFloor != High)
                || (Col(rows[src].cols, "severity") == Str("low") && s.autoOpenFloor == Low)))
        || (src.table == "sanctions_screenings" && Col(rows[src].cols, "status") == Str("potential_match")))
  }

  function SourceType(src: Key): string {
    if src.table == "transaction_alerts" then "transaction_alert" else "sanctions_screening"
  }

  function PriorityFor(row: Row, src: Key): Value {
    if src.table == "transaction_alerts" then Col(row.cols, "severity") else Str("high")
  }

  /** The case names the record, its tenant and its customer, and has the priority it calls for. */
  predicate OpenedFor(rows: Rows, c: Key, src: Key) {
    && c in rows && c.table == "cases" && src in rows && src.table in {"transaction_alerts", "sanctions_screenings"}
    && rows[c].tenant == rows[src].tenant
    && Col(rows[c].cols, "customer_id") == Col(rows[src].cols, "customer_id")
    && Col(rows[c].cols, "source_type") == Str(SourceType(src)) && Col(rows[c].cols, "source_id") == Foreign(src.id)
    && Col(rows[c].cols, "priority") == PriorityFor(rows[src], src)
  }

  /** A bijection between the cases not opened by hand and the records that call for one. */
  ghost predicate Matched(s: Settings, rows: Rows, manual: set<Key>) {
    && (forall c :: c in rows && c.table == "cases" && c !in manual ==>
          exists src :: Escalates(s, rows, src) && OpenedFor(rows, c, src))
    && (forall src :: Escalates(s, rows, src) ==> exists c :: c !in manual && OpenedFor(rows, c, src))
    && (forall src, c, c' ::
          c !in manual && c' !in manual && OpenedFor(rows, c, src) && OpenedFor(rows, c', src) ==> c == c')
  }

  lemma OneSource(rows: Rows, c: Key, src: Key, src': Key)
    requires OpenedFor(rows, c, src) && OpenedFor(rows, c, src')
    ensures src == src'
  {}

  lemma OpenedForStays(rows: Rows, rows': Rows, c: Key, src: Key)
    requires Kept(rows, rows') && OpenedFor(rows, c, src)
    ensures OpenedFor(rows', c, src)
  {
    FrozenColumn(rows[c].cols, rows'[c].cols, "customer_id");
    FrozenColumn(rows[c].cols, rows'[c].cols, "source_type");
    FrozenColumn(rows[c].cols, rows'[c].cols, "source_id");
    FrozenColumn(rows[c].cols, rows'[c].cols, "priority");
  }

  lemma OpenedForWas(rows: Rows, rows': Rows, c: Key, src: Key)
    requires Kept(rows, rows') && c in rows && src in rows && OpenedFor(rows', c, src)
    ensures OpenedFor(rows, c, src)
  {
    FrozenColumn(rows[c].cols, rows'[c].cols, "customer_id");
    FrozenColumn(rows[c].cols, rows'[c].cols, "source_type");
    FrozenColumn(rows[c].cols, rows'[c].cols, "source_id");
    FrozenColumn(rows[c].cols, rows'[c].cols, "priority");
  }

  lemma EscalatesStays(s: Settings, rows: Rows, rows': Rows, src: Key)
    requires Kept(rows, rows') && src in rows
    ensures Escalates(s, rows, src) <==> Escalates(s, rows', src)
  {}

  /** The new cases of a step match its new records. */
  ghost predicate NewlyMatched(s: Settings, rows: Rows, rows': Rows, byHand: bool) {
    && (forall c :: c in rows' && c !in rows && c.table == "cases" && !byHand ==>
          exists src :: src !in rows && Escalates(s, rows', src) && OpenedFor(rows', c, src))
    && (forall src :: src !in rows && Escalates(s, rows', src) ==>
          !byHand && exists c :: c !in rows && OpenedFor(rows', c, src))
    && (forall src, c, c' :: (src !in rows && c !in rows && c' !in rows && !byHand
                              && OpenedFor(rows', c, src) && OpenedFor(rows', c', src)) ==> c == c')
  }

  function NewCases(rows: Rows, rows': Rows): set<Key> {
    set k | k in rows' && k !in rows && k.table == "cases"
  }

  lemma StepMatched(s: Settings, rows: Rows, rows': Rows, manual: set<Key>, manual': set<Key>, byHand: bool)
    requires Matched(s, rows, manual) && Kept(rows, rows') && NewlyMatched(s, rows, rows', byHand)
    requires manual <= rows.Keys && manual' == manual + if byHand then NewCases(rows, rows') else {}
    ensures Matched(s, rows', manual')
  {
    hide OpenedFor, Escalates, Kept;
    forall c | c in rows' && c.table == "cases" && c !in manual'
      ensures exists src :: Escalates(s, rows', src) && OpenedFor(rows', c, src)
    {
      if c in rows {
        OldCase(s, rows, rows', manual, c);
      }
    }
    forall src | Escalates(s, rows', src)
      ensures exists c :: c !in manual' && OpenedFor(rows', c, src)
    {
      if src in rows {
        EscalatesStays(s, rows, rows', src);
        var c :| c !in manual && OpenedFor(rows, c, src);
        OpenedForStays(rows, rows', c, src);
        assert c in rows by { CaseThere(rows, c, src); }
      }
    }
    forall src, c, c' | c !in manual' && c' !in manual' && OpenedFor(rows', c, src) && OpenedFor(rows', c', src)
      ensures c == c'
    {
      CaseThere(rows', c, src);
      CaseThere(rows', c', src);
      if src in rows {
        NotNew(s, rows, rows', manual, byHand, c, src);
        NotNew(s, rows, rows', manual, byHand, c', src);
        OpenedForWas(rows, rows', c, src);
        OpenedForWas(rows, rows', c', src);
      } else {
        NotOld(s, rows, rows', manual, c, src);
        NotOld(s, rows, rows', manual, c', src);
      }
    }
  }

  lemma CaseThere(rows: Rows, c: Key, src: Key)
    requires OpenedFor(rows, c, src)
    ensures c in rows && c.table == "cases"
  {}

  lemma OldCase(s: Settings, rows: Rows, rows': Rows, manual: set<Key>, c: Key)
    requires Matched(s, rows, manual) && Kept(rows, rows') && c in rows && c.table == "cases" && c !in manual
    ensures exists src :: src in rows && Escalates(s, rows', src) && OpenedFor(rows', c, src)
  {
    var src :| Escalates(s, rows, src) && OpenedFor(rows, c, src);
    EscalatesStays(s, rows, rows', src);
    OpenedForStays(rows, rows', c, src);
  }

  /** A case of an old record is old. */
  lemma NotNew(s: Settings, rows: Rows, rows': Rows, manual: set<Key>, byHand: bool, c: Key, src: Key)
    requires NewlyMatched(s, rows, rows', byHand) && manual <= rows.Keys
    requires src in rows && OpenedFor(rows', c, src)
    requires c !in manual + if byHand then NewCases(rows, rows') else {}
    ensures c in rows
  {
    hide Escalates;
    if c !in rows {
      var src' :| src' !in rows && Escalates(s, rows', src') && OpenedFor(rows', c, src');
      OneSource(rows', c, src, src');
    }
  }

  /** A case of a new record is new. */
  lemma NotOld(s: Settings, rows: Rows, rows': Rows, manual: set<Key>, c: Key, src: Key)
    requires Matched(s, rows, manual) && Kept(rows, rows')
    requires src !in rows && OpenedFor(rows', c, src) && c !in manual
    ensures c !in rows
  {
    hide Escalates, Kept, Matched;
    if c in rows {
      CaseThere(rows', c, src);
      OldCase(s, rows, rows', manual, c);
      var src' :| src' in rows && Escalates(s, rows', src') && OpenedFor(rows', c, src');
      OneSource(rows', c, src, src');
    }
  }

  // ---------- Each request's new cases match its new records ----------

  /** Case j of a record_transaction stands for its escalated alert j. */
  lemma RecordedCase(s: Settings, rows: Rows, rows': Rows, tenant: Uuid, now: int, req: Request, fs: seq<Finding>,
                     j: nat)
    requires req.RecordTransaction? && Added(rows, rows', tenant, now, RecordRows(s, tenant, req, fs))
    requires j < |Escalated(s, fs)|
    ensures Escalated(s, fs)[j] < |fs|
    ensures var c := Key("cases", req.ids(1 + |fs| + j));
            var src := Key("transaction_alerts", req.ids(1 + Escalated(s, fs)[j]));
      c !in rows && src !in rows && OpenedFor(rows', c, src) && Escalates(s, rows', src)
  {
    hide AlertRow, CaseRow, RecordRows, Escalated, SeverityText, StoredCols;
    CaseAt(s, tenant, req, fs, j);
    var i := Escalated(s, fs)[j];
    AlertAt(s, tenant, req, fs, i);
    EscalatedExact(s, fs);
    ReachesText(fs[i].severity, s.autoOpenFloor);
    assert i in Escalated(s, fs);
    var a, c := RecordRows(s, tenant, req, fs)[1 + i], RecordRows(s, tenant, req, fs)[1 + |fs| + j];
    AlertColumns(tenant, req.customer, req.ids(0), fs[i], req.ids(1 + i));
    CaseColumns(tenant, req.customer, "transaction_alert", req.ids(1 + i), SeverityText(fs[i].severity),
                req.ids(1 + |fs| + j));
    assert a.key in rows' && c.key in rows';
  }

  lemma ReachesText(v: Severity, floor: Severity)
    ensures var text := SeverityText(v);
      Reaches(v, floor) <==> text == "high" || (text == "medium" && floor != High) || (text == "low" && floor == Low)
  {}

  /** A record_transaction's alert that escalates is one of those with a case. */
  lemma RecordedSource(s: Settings, rows: Rows, rows': Rows, tenant: Uuid, now: int, req: Request, fs: seq<Finding>,
                       i: nat)
    requires req.RecordTransaction? && Added(rows, rows', tenant, now, RecordRows(s, tenant, req, fs))
    requires i < |fs| && Escalates(s, rows', Key("transaction_alerts", req.ids(1 + i)))
    ensures i in Escalated(s, fs)
  {
    hide AlertRow, RecordRows, Escalated, SeverityText, StoredCols;
    AlertAt(s, tenant, req, fs, i);
    AlertColumns(tenant, req.customer, req.ids(0), fs[i], req.ids(1 + i));
    EscalatedExact(s, fs);
    var a := RecordRows(s, tenant, req, fs)[1 + i];
    assert a.key in rows';
    ReachesText(fs[i].severity, s.autoOpenFloor);
  }

  lemma NewGuarded(rows: Rows, rows': Rows, tenant: Uuid, now: int, news: seq<NewRow>, k: Key) returns (n: nat)
    requires Added(rows, rows', tenant, now, news) && k in rows' && k !in rows && k.table in GUARDED
    ensures n < |news| && news[n].key == k
  {
    n :| n < |news| && news[n].key == k;
  }

  lemma RecordMatched(s: Settings, rows: Rows, rows': Rows, tenant: Uuid, now: int, req: Request, fs: seq<Finding>)
    requires req.RecordTransaction? && Added(rows, rows', tenant, now, RecordRows(s, tenant, req, fs))
    ensures NewlyMatched(s, rows, rows', false)
  {
    hide Added, RecordRows, Escalated, OpenedFor, Escalates;
    forall c | c in rows' && c !in rows && c.table == "cases"
      ensures exists src :: src !in rows && Escalates(s, rows', src) && OpenedFor(rows', c, src)
    {
      var j := CaseIndex(s, rows, rows', tenant, now, req, fs, c);
      RecordedCase(s, rows, rows', tenant, now, req, fs, j);
    }
    forall src | src !in rows && Escalates(s, rows', src)
      ensures exists c :: c !in rows && OpenedFor(rows', c, src)
    {
      var i := AlertIndex(s, rows, rows', tenant, now, req, fs, src);
      RecordedSource(s, rows, rows', tenant, now, req, fs, i);
      var j: nat :| j < |Escalated(s, fs)| && Escalated(s, fs)[j] == i;
      RecordedCase(s, rows, rows', tenant, now, req, fs, j);
    }
    forall src, c, c' | src !in rows && c !in rows && c' !in rows && OpenedFor(rows', c, src)
        && OpenedFor(rows', c', src)
      ensures c == c'
    {
      OneCase(s, rows, rows', tenant, now, req, fs, src, c, c');
    }
  }

  lemma CaseIndex(s: Settings, rows: Rows, rows': Rows, tenant: Uuid, now: int, req: Request, fs: seq<Finding>, c: Key)
    returns (j: nat)
    requires req.RecordTransaction? && Added(rows, rows', tenant, now, RecordRows(s, tenant, req, fs))
    requires c in rows' && c !in rows && c.table == "cases"
    ensures j < |Escalated(s, fs)| && c == Key("cases", req.ids(1 + |fs| + j))
  {
    hide Added, RecordRows, Escalated;
    var n := NewGuarded(rows, rows', tenant, now, RecordRows(s, tenant, req, fs), c);
    RecordedTable(s, tenant, req, fs, n);
    RecordedLength(s, tenant, req, fs);
    j := n - 1 - |fs|;
    CaseAt(s, tenant, req, fs, j);
  }

  lemma AlertIndex(s: Settings, rows: Rows, rows': Rows, tenant: Uuid, now: int, req: Request, fs: seq<Finding>,
                   src: Key)
    returns (i: nat)
    requires req.RecordTransaction? && Added(rows, rows', tenant, now, RecordRows(s, tenant, req, fs))
    requires src !in rows && Escalates(s, rows', src)
    ensures i < |fs| && src == Key("transaction_alerts", req.ids(1 + i))
  {
    hide Added, RecordRows, Escalated, AlertRow;
    var n := NewGuarded(rows, rows', tenant, now, RecordRows(s, tenant, req, fs), src);
    RecordedTable(s, tenant, req, fs, n);
    i := n - 1;
    AlertAt(s, tenant, req, fs, i);
  }

  lemma OneCase(s: Settings, rows: Rows, rows': Rows, tenant: Uuid, now: int, req: Request, fs: seq<Finding>, src: Key,
                c: Key, c': Key)
    requires req.RecordTransaction? && Added(rows, rows', tenant, now, RecordRows(s, tenant, req, fs))
    requires c !in rows && c' !in rows && OpenedFor(rows', c, src) && OpenedFor(rows', c', src)
    ensures c == c'
  {
    hide RecordRows, Escalated, OpenedFor, Escalates, AlertRow, CaseRow;
    CaseThere(rows', c, src);
    CaseThere(rows', c', src);
    var j := CaseIndex(s, rows, rows', tenant, now, req, fs, c);
    var j' := CaseIndex(s, rows, rows', tenant, now, req, fs, c');
    RecordedCase(s, rows, rows', tenant, now, req, fs, j);
    RecordedCase(s, rows, rows', tenant, now, req, fs, j');
    var i, i' := Escalated(s, fs)[j], Escalated(s, fs)[j'];
    OneSource(rows', c, src, Key("transaction_alerts", req.ids(1 + i)));
    OneSource(rows', c', src, Key("transaction_alerts", req.ids(1 + i')));
    AlertAt(s, tenant, req, fs, i);
    AlertAt(s, tenant, req, fs, i');
    EscalatedExact(s, fs);
  }

  lemma ScreeningColumns(tenant: Uuid, req: Request)
    requires req.ScreenCustomer?
    ensures var cols := StoredCols(ScreeningRow(tenant, req));
      Col(cols, "status") == Str(req.result.status) && Col(cols, "customer_id") == Foreign(req.customer)
  {
    CoerceElsewhere("sanctions_screenings", Written(ScreeningRow(tenant, req).vals));
  }

  lemma ScreeningAdded(rows: Rows, rows': Rows, tenant: Uuid, now: int, req: Request, k: Key)
    requires req.ScreenCustomer? && Added(rows, rows', tenant, now, ScreeningRows(tenant, req))
    ensures var src, c := Key("sanctions_screenings", req.ids(0)), Key("cases", req.ids(1));
            var hit := req.result.status == "potential_match";
      && src in rows' && src !in rows
      && Col(rows'[src].cols, "status") == Str(req.result.status)
      && (hit ==> c in rows' && c !in rows && OpenedFor(rows', c, src))
      && (k in rows' && k !in rows && k.table in GUARDED ==> k == src || (hit && k == c))
  {
    hide ScreeningRow, CaseRow, StoredCols;
    var news := ScreeningRows(tenant, req);
    assert news[0].key in rows';
    ScreeningColumns(tenant, req);
    if req.result.status == "potential_match" {
      CaseColumns(tenant, req.customer, "sanctions_screening", req.ids(0), "high", req.ids(1));
      assert news[1].key in rows';
    }
  }

  lemma ScreeningMatched(s: Settings, rows: Rows, rows': Rows, tenant: Uuid, now: int, req: Request)
    requires req.ScreenCustomer? && Added(rows, rows', tenant, now, ScreeningRows(tenant, req))
    ensures NewlyMatched(s, rows, rows', false)
  {
    hide Added, ScreeningRows, OpenedFor, Col;
    forall k
      ensures var src, c := Key("sanctions_screenings", req.ids(0)), Key("cases", req.ids(1));
              var hit := req.result.status == "potential_match";
        && src in rows' && src !in rows
        && Col(rows'[src].cols, "status") == Str(req.result.status)
        && (hit ==> c in rows' && c !in rows && OpenedFor(rows', c, src))
        && (k in rows' && k !in rows && k.table in GUARDED ==> k == src || (hit && k == c))
    {
      ScreeningAdded(rows, rows', tenant, now, req, k);
    }
    forall src, c | OpenedFor(rows', c, src)
      ensures c in rows' && c.table == "cases"
    {
      CaseThere(rows', c, src);
    }
  }

  lemma OthersMatched(s: Settings, rows: Rows, rows': Rows, tenant: Uuid, now: int, news: seq<NewRow>, byHand: bool)
    requires Added(rows, rows', tenant, now, news)
    requires forall i :: 0 <= i < |news| ==>
               news[i].key.table !in {"transaction_alerts", "sanctions_screenings"}
                   && (news[i].key.table == "cases" ==> byHand)
    ensures NewlyMatched(s, rows, rows', byHand)
  {
    forall k | k in rows' && k !in rows && k.table in GUARDED
      ensures k.table !in {"transaction_alerts", "sanctions_screenings"} && (k.table == "cases" ==> byHand)
    {}
  }

  lemma EffectMatched(s: Settings, rows: Rows, rows': Rows, tenant: Uuid, now: int, req: Request, ops: seq<Op>)
    requires Effect(s, rows, rows', tenant, now, req, ops)
    ensures NewlyMatched(s, rows, rows', req.OpenCase?)
  {
    hide Added, NewlyMatched, Kept, RecordRows, ScreeningRows, CaseRow, ReportRow, Evaluate, Performs;
    match req
    case RecordTransaction(_, _, _, _) =>
      RecordMatched(s, rows, rows', tenant, now, req, Evaluate(s, ops[1].rows, Evaluated(req, now)));
    case ScreenCustomer(_, _, _, _, _) => ScreeningMatched(s, rows, rows', tenant, now, req);
    case _ => OthersMatched(s, rows, rows', tenant, now, NewRows(s, tenant, now, req, ops), req.OpenCase?);
  }

  /** The cases opened by hand in a run. */
  ghost function ByHand(sha: Sha, ts: seq<Txn>, reqs: seq<Request>): set<Key>
    requires |reqs| == |ts|
  {
    if ts == [] then {}
    else
      var n := |ts| - 1;
      ByHand(sha, ts[..n], reqs[..n])
      + if reqs[n].OpenCase? then NewCases(RowsAfter(sha, ts[..n]), RowsAfter(sha, ts)) else {}
  }

  lemma NothingMoved(s: Settings, rows: Rows, byHand: bool)
    ensures NewlyMatched(s, rows, rows, byHand) && Kept(rows, rows)
  {}

  lemma {:induction false} ByHandRecorded(sha: Sha, s: Settings, ts: seq<Txn>, reqs: seq<Request>)
    requires Served(s, ts, reqs)
    ensures ByHand(sha, ts, reqs) <= RowsAfter(sha, ts).Keys
    ensures forall k :: k in ByHand(sha, ts, reqs) ==> k.table == "cases"
  {
    hide Serial, Serves, Effect;
    if ts != [] {
      var n := |ts| - 1;
      LastStep(sha, s, ts, reqs);
      ByHandRecorded(sha, s, ts[..n], reqs[..n]);
      if RowsAfter(sha, ts) != RowsAfter(sha, ts[..n]) {
        StepKeeps(s, RowsAfter(sha, ts[..n]), RowsAfter(sha, ts), ts[n], reqs[n]);
      }
    }
  }

  /** Over every run, the cases not opened by hand are in bijection with the alerts at or above
      the severity floor and the potential watchlist matches, of the same tenant and customer. */
  lemma {:induction false} CasesMatch(sha: Sha, s: Settings, ts: seq<Txn>, reqs: seq<Request>)
    requires Served(s, ts, reqs)
    ensures Matched(s, RowsAfter(sha, ts), ByHand(sha, ts, reqs))
  {
    hide Serial, Serves, Effect, NewlyMatched, Kept, Matched;
    if ts == [] {
      NoTransactions(sha);
      NothingMatched(s);
    } else {
      var n := |ts| - 1;
      var rows, rows' := RowsAfter(sha, ts[..n]), RowsAfter(sha, ts);
      LastStep(sha, s, ts, reqs);
      CasesMatch(sha, s, ts[..n], reqs[..n]);
      ByHandRecorded(sha, s, ts[..n], reqs[..n]);
      if rows' == rows {
        NothingMoved(s, rows, reqs[n].OpenCase?);
      } else {
        StepKeeps(s, rows, rows', ts[n], reqs[n]);
        EffectMatched(s, rows, rows', ts[n].pin.value, ts[n].now, reqs[n], ts[n].ops);
      }
      StepMatched(s, rows, rows', ByHand(sha, ts[..n], reqs[..n]), ByHand(sha, ts, reqs), reqs[n].OpenCase?);
    }
  }

  lemma NothingMatched(s: Settings)
    ensures Matched(s, map[], {})
  {}

  lemma CasesMatchInterleaved(sha: Sha, s: Settings, evs: seq<Event>, reqs: seq<Request>)
    requires Served(s, History(sha, evs), reqs)
    ensures Matched(s, Run(sha, evs).db.rows, ByHand(sha, History(sha, evs), reqs))
  {
    hide Served, Matched;
    Serialisable(sha, evs);
    CasesMatch(sha, s, History(sha, evs), reqs);
  }
}
