/** Whole-run claims about transaction monitoring.

    Every theorem about `Serial` runs holds of every interleaving of sessions, whose committed
    database is that of its committed transactions run one at a time (Sessions.Serialisable):
    the rules query after the session has taken its head row, so what they see is repeated. */
module Compliance {
  import opened Wrappers
  import opened Json
  import opened Chain
  import opened ColumnTypes
  import opened Database
  import opened Sessions
  import opened Monitoring
  import opened Services
  import opened Effects

  // ---------- Reading alerts and cases ----------

  predicate Alerted(rows: Rows, tenant: Uuid, txn: Uuid, code: string, a: Key) {
    && a in rows && a.table == "transaction_alerts" && rows[a].tenant == tenant
    && Col(rows[a].cols, "transaction_id") == Foreign(txn) && Col(rows[a].cols, "rule_code") == Str(code)
  }

  predicate CaseFor(rows: Rows, tenant: Uuid, sourceType: string, source: Uuid, priority: string, c: Key) {
    && c in rows && c.table == "cases" && rows[c].tenant == tenant
    && Col(rows[c].cols, "source_type") == Str(sourceType) && Col(rows[c].cols, "source_id") == Foreign(source)
    && Col(rows[c].cols, "priority") == Str(priority)
  }

  /** The transaction raised LARGE_AMOUNT or VELOCITY_STRUCTURING, and the alert a high-priority case. */
  ghost predicate Flagged(rows: Rows, tenant: Uuid, txn: Uuid) {
    exists code, a, c :: code in {"LARGE_AMOUNT", "VELOCITY_STRUCTURING"} && Alerted(rows, tenant, txn, code, a)
                      && CaseFor(rows, tenant, "transaction_alert", a.id, "high", c)
  }

  lemma AlertStays(rows: Rows, rows': Rows, tenant: Uuid, txn: Uuid, code: string, a: Key)
    requires Kept(rows, rows') && Alerted(rows, tenant, txn, code, a)
    ensures Alerted(rows', tenant, txn, code, a)
  {}

  lemma FrozenColumn(m: Columns, m': Columns, name: string)
    requires m' - CASE_FIELDS == m - CASE_FIELDS && name !in CASE_FIELDS
    ensures Col(m', name) == Col(m, name)
  {
    assert name in m <==> name in m - CASE_FIELDS;
    assert name in m' <==> name in m' - CASE_FIELDS;
    assert name in m ==> (m - CASE_FIELDS)[name] == m[name];
    assert name in m' ==> (m' - CASE_FIELDS)[name] == m'[name];
  }

  lemma CaseStays(rows: Rows, rows': Rows, tenant: Uuid, sourceType: string, source: Uuid, priority: string, c: Key)
    requires Kept(rows, rows') && CaseFor(rows, tenant, sourceType, source, priority, c)
    ensures CaseFor(rows', tenant, sourceType, source, priority, c)
  {
    FrozenColumn(rows[c].cols, rows'[c].cols, "source_type");
    FrozenColumn(rows[c].cols, rows'[c].cols, "source_id");
    FrozenColumn(rows[c].cols, rows'[c].cols, "priority");
  }

  lemma FlaggedStays(rows: Rows, rows': Rows, tenant: Uuid, txn: Uuid)
    requires Kept(rows, rows') && Flagged(rows, tenant, txn)
    ensures Flagged(rows', tenant, txn)
  {
    hide Kept, Alerted, CaseFor;
    var code, a, c :| code in {"LARGE_AMOUNT", "VELOCITY_STRUCTURING"} && Alerted(rows, tenant, txn, code, a)
                   && CaseFor(rows, tenant, "transaction_alert", a.id, "high", c);
    AlertStays(rows, rows', tenant, txn, code, a);
    CaseStays(rows, rows', tenant, "transaction_alert", a.id, "high", c);
  }

  // ---------- Columns of the rows a request adds ----------

  lemma TransactionColumns(tenant: Uuid, customer: Uuid, amount: Value, currency: string, id: Uuid)
    ensures var cols := StoredCols(TransactionRow(tenant, customer, amount, currency, id));
      && Col(cols, "customer_id") == Foreign(customer) && Col(cols, "currency") == Str(currency)
      && Col(cols, "amount") == Coerce("transactions", "amount", amount)
  {}

  lemma AlertColumns(tenant: Uuid, customer: Uuid, txn: Uuid, f: Finding, id: Uuid)
    ensures var cols := StoredCols(AlertRow(tenant, customer, txn, f, id));
      && Col(cols, "transaction_id") == Foreign(txn) && Col(cols, "customer_id") == Foreign(customer)
      && Col(cols, "rule_code") == Str(Code(f.rule)) && Col(cols, "severity") == Str(SeverityText(f.severity))
      && Col(cols, "detail") == DetailValue(f.detail)
  {
    hide DetailValue, SeverityText, Code, CoerceAll;
    CoerceElsewhere("transaction_alerts", Written(AlertRow(tenant, customer, txn, f, id).vals));
  }

  lemma CaseColumns(tenant: Uuid, customer: Uuid, sourceType: string, source: Uuid, priority: string, id: Uuid)
    ensures var cols := StoredCols(CaseRow(tenant, customer, sourceType, source, priority, id));
      && Col(cols, "source_type") == Str(sourceType) && Col(cols, "source_id") == Foreign(source)
      && Col(cols, "priority") == Str(priority) && Col(cols, "customer_id") == Foreign(customer)
      && Col(cols, "status") == Str("open") && Col(cols, "resolution") == Null && Col(cols, "resolved_at") == Null
  {
    hide CoerceAll;
    CoerceElsewhere("cases", Written(CaseRow(tenant, customer, sourceType, source, priority, id).vals));
  }

  /** What every row shows of its own: its id and its tenant. */
  predicate Identified(m: Columns, tenant: Uuid, id: Uuid) {
    Col(m, "id") == Foreign(id) && Col(m, "tenant_id") == Foreign(tenant)
  }

  /** A new row has exactly its mapper's columns, the server's still without a value. */
  lemma MappedColumns(tenant: Uuid, customer: Uuid, amount: Value, text: string, other: Uuid, f: Finding, id: Uuid)
    ensures var own := {"id", "tenant_id", "created_at", "updated_at", "customer_id"};
      && TransactionRow(tenant, customer, amount, text, id).vals.Keys == own + {"amount", "currency"}
      && AlertRow(tenant, customer, other, f, id).vals.Keys
         == own + {"transaction_id", "rule_code", "severity", "detail", "status", "evaluated_at"}
      && CaseRow(tenant, customer, text, other, text, id).vals.Keys
         == own + {"source_type", "source_id", "priority", "status", "resolution", "resolution_notes", "assigned_to",
                   "opened_at", "resolved_at"}
  {
    hide DetailValue, SeverityText, Code;
  }

  // Where in a record_transaction's rows its alerts and cases stand.

  lemma RecordedLength(s: Settings, tenant: Uuid, req: Request, fs: seq<Finding>)
    requires req.RecordTransaction?
    ensures |RecordRows(s, tenant, req, fs)| == 1 + |fs| + |Escalated(s, fs)|
    ensures RecordRows(s, tenant, req, fs)[0]
         == TransactionRow(tenant, req.customer, req.amount, req.currency, req.ids(0))
  {
    hide TransactionRow, AlertRow, CaseRow, Escalated;
  }

  lemma AlertAt(s: Settings, tenant: Uuid, req: Request, fs: seq<Finding>, i: nat)
    requires req.RecordTransaction? && i < |fs|
    ensures 1 + i < |RecordRows(s, tenant, req, fs)|
    ensures RecordRows(s, tenant, req, fs)[1 + i]
         == AlertRow(tenant, req.customer, req.ids(0), fs[i], req.ids(1 + i))
  {
    hide TransactionRow, AlertRow, CaseRow, Escalated, CaseRows;
    assert AlertRows(tenant, req.customer, req.ids, fs)[i]
        == AlertRow(tenant, req.customer, req.ids(0), fs[i], req.ids(1 + i));
  }

  lemma CaseAt(s: Settings, tenant: Uuid, req: Request, fs: seq<Finding>, j: nat)
    requires req.RecordTransaction? && j < |Escalated(s, fs)|
    ensures 1 + |fs| + j < |RecordRows(s, tenant, req, fs)|
    ensures var i := Escalated(s, fs)[j];
      && i < |fs|
      && RecordRows(s, tenant, req, fs)[1 + |fs| + j]
         == CaseRow(tenant, req.customer, "transaction_alert", req.ids(1 + i), SeverityText(fs[i].severity),
                    req.ids(1 + |fs| + j))
  {
    hide TransactionRow, AlertRow, CaseRow, Escalated, AlertRows, SeverityText;
    EscalatedExact(s, fs);
    assert Escalated(s, fs)[j] in Escalated(s, fs);
    var cs := CaseRows(s, tenant, req.customer, req.ids, fs);
    assert RecordRows(s, tenant, req, fs)[1 + |fs| + j] == cs[j];
  }

  /** A finding of high severity becomes an alert with a high-priority case. */
  lemma HighFindingFlags(s: Settings, rows: Rows, rows': Rows, tenant: Uuid, now: int, req: Request, fs: seq<Finding>,
                         i: nat)
    requires req.RecordTransaction? && Added(rows, rows', tenant, now, RecordRows(s, tenant, req, fs))
    requires i < |fs| && fs[i].severity == High && fs[i].rule in {LargeAmount, VelocityStructuring}
    ensures Flagged(rows', tenant, req.ids(0))
  {
    hide RecordRows, AlertRow, CaseRow, Escalated, StoredCols;
    EscalatedExact(s, fs);
    var opening := Escalated(s, fs);
    assert i in opening;
    var j: nat :| j < |opening| && opening[j] == i;
    AlertAt(s, tenant, req, fs, i);
    CaseAt(s, tenant, req, fs, j);
    var a, c := RecordRows(s, tenant, req, fs)[1 + i], RecordRows(s, tenant, req, fs)[1 + |fs| + j];
    AlertColumns(tenant, req.customer, req.ids(0), fs[i], req.ids(1 + i));
    CaseColumns(tenant, req.customer, "transaction_alert", req.ids(1 + i), "high", req.ids(1 + |fs| + j));
    assert Alerted(rows', tenant, req.ids(0), Code(fs[i].rule), a.key);
    assert CaseFor(rows', tenant, "transaction_alert", a.key.id, "high", c.key);
  }

  // ---------- Transactions ----------

  /** The tables of a record_transaction's rows. */
  lemma RecordedTable(s: Settings, tenant: Uuid, req: Request, fs: seq<Finding>, i: nat)
    requires req.RecordTransaction? && i < |RecordRows(s, tenant, req, fs)|
    ensures RecordRows(s, tenant, req, fs)[i].key.table
         == if i == 0 then "transactions" else if i <= |fs| then "transaction_alerts" else "cases"
  {
    hide TransactionRow, AlertRow, CaseRow, RecordRows, Escalated;
    RecordedLength(s, tenant, req, fs);
    if 0 < i <= |fs| {
      AlertAt(s, tenant, req, fs, i - 1);
    } else if i > |fs| {
      CaseAt(s, tenant, req, fs, i - 1 - |fs|);
    }
  }

  /** The only rows of the transactions table a request adds are those record_transaction adds. */
  lemma AddedTransaction(s: Settings, tenant: Uuid, now: int, req: Request, ops: seq<Op>, i: nat)
    requires Serves(s, tenant, now, req, ops) && i < |NewRows(s, tenant, now, req, ops)|
    requires NewRows(s, tenant, now, req, ops)[i].key.table == "transactions"
    ensures req.RecordTransaction?
    ensures NewRows(s, tenant, now, req, ops)[i]
         == TransactionRow(tenant, req.customer, req.amount, req.currency, req.ids(0))
  {
    hide TransactionRow, AlertRow, CaseRow, ScreeningRow, ReportRow, RecordRows, Evaluate;
    if req.RecordTransaction? {
      var fs := Evaluate(s, ops[1].rows, Evaluated(req, now));
      RecordedTable(s, tenant, req, fs, i);
      RecordedLength(s, tenant, req, fs);
    }
  }

  /** A row of the transactions table appears only when record_transaction adds it. */
  lemma NewTransaction(s: Settings, rows: Rows, rows': Rows, tenant: Uuid, now: int, req: Request, ops: seq<Op>, k: Key)
    requires Effect(s, rows, rows', tenant, now, req, ops)
    requires k in rows' && k !in rows && k.table == "transactions"
    ensures req.RecordTransaction? && k.id == req.ids(0)
    ensures rows'[k] == Row(tenant, now,
                               StoredCols(TransactionRow(tenant, req.customer, req.amount, req.currency, k.id)))
  {
    hide TransactionRow, NewRows, Serves, Kept;
    var news := NewRows(s, tenant, now, req, ops);
    var i :| 0 <= i < |news| && news[i].key == k;
    AddedTransaction(s, tenant, now, req, ops, i);
  }

  // ---------- Runs ----------

  function RowsAfter(sha: Sha, ts: seq<Txn>): Rows { Serial(sha, EMPTY, ts).rows }

  lemma ServedPrefix(s: Settings, ts: seq<Txn>, reqs: seq<Request>, n: nat)
    requires Served(s, ts, reqs) && n <= |ts|
    ensures Served(s, ts[..n], reqs[..n])
  {
    hide Serves;
  }

  lemma LastStep(sha: Sha, s: Settings, ts: seq<Txn>, reqs: seq<Request>)
    requires ts != [] && Served(s, ts, reqs)
    ensures var n := |ts| - 1;
      && Served(s, ts[..n], reqs[..n])
      && Moved(s, RowsAfter(sha, ts[..n]), RowsAfter(sha, ts), ts[n], reqs[n])
  {
    var n := |ts| - 1;
    StepEffect(sha, s, Serial(sha, EMPTY, ts[..n]), ts[n], reqs[n]);
  }

  /** Recorded amounts are never negative. */
  lemma {:induction false} AmountsNonnegative(sha: Sha, s: Settings, ts: seq<Txn>, reqs: seq<Request>, k: Key)
    requires Served(s, ts, reqs) && k in RowsAfter(sha, ts) && k.table == "transactions"
    ensures Amount(RowsAfter(sha, ts)[k]) >= 0
  {
    hide Serial, Serves, Added, TransactionRow, NewRows;
    if ts == [] {
      assert RowsAfter(sha, ts) == map[] by { NoTransactions(sha); }
    } else {
      var n := |ts| - 1;
      var rows, rows' := RowsAfter(sha, ts[..n]), RowsAfter(sha, ts);
      LastStep(sha, s, ts, reqs);
      if k in rows {
        AmountsNonnegative(sha, s, ts[..n], reqs[..n], k);
      } else {
        NewAmount(s, rows, rows', ts[n].pin.value, ts[n].now, reqs[n], ts[n].ops, k);
      }
    }
  }

  lemma NoTransactions(sha: Sha)
    ensures RowsAfter(sha, []) == map[]
  {}

  lemma NewAmount(s: Settings, rows: Rows, rows': Rows, tenant: Uuid, now: int, req: Request, ops: seq<Op>, k: Key)
    requires Effect(s, rows, rows', tenant, now, req, ops)
    requires k in rows' && k !in rows && k.table == "transactions"
    ensures req.RecordTransaction? && Records(s, tenant, now, req, ops) && k.id == req.ids(0)
    ensures Amount(rows'[k]) == Hundredths(req.amount) >= 0
    ensures rows'[k].tenant == tenant && rows'[k].createdAt == now
    ensures forall customer, currency ::
      IsTransaction(rows', k, customer, currency) <==> customer == req.customer && currency == req.currency
  {
    hide TransactionRow, NewRows, Added, Kept, Evaluate;
    NewTransaction(s, rows, rows', tenant, now, req, ops, k);
    TransactionColumns(tenant, req.customer, req.amount, req.currency, k.id);
    CoerceStable("transactions", "amount", req.amount);
    HundredthsNearest(req.amount.mantissa, req.amount.places);
  }

  // ---------- Large amounts ----------

  lemma LargeFires(s: Settings, rows: Rows, t: Transaction)
    requires t.amount >= s.largeThreshold
    ensures EvaluateLarge(s, t).value in Evaluate(s, rows, t)
    ensures EvaluateLarge(s, t).value.rule == LargeAmount && EvaluateLarge(s, t).value.severity == High
  {
    hide EvaluateVelocity, EvaluateRound;
    assert EvaluateRule(s, rows, t, LargeAmount).Some?;
    EvaluateExact(s, rows, t);
  }

  lemma VelocityFires(s: Settings, rows: Rows, t: Transaction)
    requires EvaluateVelocity(s, rows, t).Some?
    ensures EvaluateVelocity(s, rows, t).value in Evaluate(s, rows, t)
    ensures EvaluateVelocity(s, rows, t).value.rule == VelocityStructuring
    ensures EvaluateVelocity(s, rows, t).value.severity == High
  {
    hide EvaluateLarge, EvaluateRound;
    assert EvaluateRule(s, rows, t, VelocityStructuring).Some?;
    EvaluateExact(s, rows, t);
  }

  lemma RecordedFlags(s: Settings, rows: Rows, rows': Rows, tenant: Uuid, now: int, req: Request, ops: seq<Op>,
                      f: Finding)
    requires req.RecordTransaction? && Effect(s, rows, rows', tenant, now, req, ops)
    requires f in Evaluate(s, ops[1].rows, Evaluated(req, now))
    requires f.severity == High && f.rule in {LargeAmount, VelocityStructuring}
    ensures Flagged(rows', tenant, req.ids(0))
  {
    hide Added, Flagged, Kept, RecordRows, Evaluate;
    var fs := Evaluate(s, ops[1].rows, Evaluated(req, now));
    var i: nat :| i < |fs| && fs[i] == f;
    HighFindingFlags(s, rows, rows', tenant, now, req, fs, i);
  }

  /** Every recorded transaction at or above the large-amount threshold is flagged for good. */
  lemma {:induction false} LargeFlagged(sha: Sha, s: Settings, ts: seq<Txn>, reqs: seq<Request>, k: Key)
    requires Served(s, ts, reqs) && k in RowsAfter(sha, ts) && k.table == "transactions"
    requires Amount(RowsAfter(sha, ts)[k]) >= s.largeThreshold
    ensures Flagged(RowsAfter(sha, ts), RowsAfter(sha, ts)[k].tenant, k.id)
  {
    hide Serial, Serves, Added, NewRows, Flagged, Evaluate, IsTransaction;
    if ts == [] {
      NoTransactions(sha);
    } else {
      var n := |ts| - 1;
      var rows, rows' := RowsAfter(sha, ts[..n]), RowsAfter(sha, ts);
      LastStep(sha, s, ts, reqs);
      if k in rows {
        LargeFlagged(sha, s, ts[..n], reqs[..n], k);
        if rows' != rows { FlaggedStays(rows, rows', rows[k].tenant, k.id); }
      } else {
        var t := ts[n];
        NewAmount(s, rows, rows', t.pin.value, t.now, reqs[n], t.ops, k);
        LargeFires(s, t.ops[1].rows, Evaluated(reqs[n], t.now));
        RecordedFlags(s, rows, rows', t.pin.value, t.now, reqs[n], t.ops,
                      EvaluateLarge(s, Evaluated(reqs[n], t.now)).value);
      }
    }
  }

  // ---------- No evasion by splitting ----------

  /** Transactions of one customer in one currency, within one window length of each other, at
      least as many and at least as much as the velocity rule asks for. */
  ghost predicate Burst(s: Settings, rows: Rows, tenant: Uuid, customer: Uuid, currency: string, part: set<Key>) {
    && part != {} && |part| >= s.minTransactions
    && (forall k :: k in part ==> IsTransaction(rows, k, customer, currency) && rows[k].tenant == tenant)
    && (forall a, b :: a in part && b in part ==> rows[a].createdAt - rows[b].createdAt <= WindowLength(s))
    && part <= rows.Keys && Total(rows, part) >= s.velocityThreshold
  }

  /** Transaction rows are the same in both tables. */
  predicate SameTransactions(rows: Rows, rows': Rows, part: set<Key>) {
    forall k :: k in part ==> k in rows && k in rows' && rows[k] == rows'[k]
  }

  lemma BurstBefore(s: Settings, rows: Rows, rows': Rows, tenant: Uuid, customer: Uuid, currency: string,
                    part: set<Key>)
    requires Burst(s, rows', tenant, customer, currency, part) && SameTransactions(rows, rows', part)
    ensures Burst(s, rows, tenant, customer, currency, part)
  {
    TotalFrame(rows, rows', part);
  }

  lemma KeptTransactions(rows: Rows, rows': Rows, part: set<Key>)
    requires Kept(rows, rows') && part <= rows.Keys && forall k :: k in part ==> k.table == "transactions"
    ensures SameTransactions(rows, rows', part)
  {}

  predicate Nonnegative(rows: Rows) {
    forall k :: k in rows && k.table == "transactions" ==> Amount(rows[k]) >= 0
  }

  /** The velocity rule sees at least the burst its transaction completes. */
  lemma BurstFires(s: Settings, view: Rows, tenant: Uuid, customer: Uuid, currency: string, part: set<Key>,
                   t: Transaction)
    requires Burst(s, view, tenant, customer, currency, part) && Nonnegative(view)
    requires forall k :: k in part ==> Amount(view[k]) < s.largeThreshold && view[k].createdAt <= t.createdAt
    requires exists k :: k in part && view[k].createdAt == t.createdAt
    requires t.customer == customer && t.currency == currency
    ensures EvaluateVelocity(s, view, t).Some?
  {
    var last :| last in part && view[last].createdAt == t.createdAt;
    var window := Window(s, view, t);
    forall k | k in part
      ensures k in window
    {
      assert view[last].createdAt - view[k].createdAt <= WindowLength(s);
    }
    TotalMonotone(view, part, window);
  }

  /** The rules' view, as far as transactions go. */
  lemma ViewOfBurst(sha: Sha, s: Settings, db: Db, rows': Rows, tenant: Uuid, now: int, req: Request, ops: seq<Op>,
                    part: set<Key>)
    requires req.RecordTransaction? && Effect(s, db.rows, rows', tenant, now, req, ops)
    requires RunOps(sha, db, Some(tenant), now, ops).Some?
    requires part <= rows'.Keys && (forall k :: k in part ==> k.table == "transactions" && rows'[k].tenant == tenant)
    requires Nonnegative(rows')
    ensures SameTransactions(ops[1].rows, rows', part) && Nonnegative(ops[1].rows)
  {
    hide TransactionRow, NewRows, Performs, Added, Evaluate;
    var view := ops[1].rows;
    var key := Key("transactions", req.ids(0));
    RulesView(sha, s, db, tenant, now, req, ops);
    AddedHere(s, db.rows, rows', tenant, now, req, ops);
    forall k | k in part && k != key
      ensures k in db.rows
    {
      if k !in db.rows { NewTransaction(s, db.rows, rows', tenant, now, req, ops, k); }
    }
  }

  lemma AddedHere(s: Settings, rows: Rows, rows': Rows, tenant: Uuid, now: int, req: Request, ops: seq<Op>)
    requires req.RecordTransaction? && Effect(s, rows, rows', tenant, now, req, ops)
    ensures var row := TransactionRow(tenant, req.customer, req.amount, req.currency, req.ids(0));
      row.key !in rows && row.key in rows' && rows'[row.key] == Row(tenant, now, StoredCols(row))
  {
    hide TransactionRow, AlertRow, CaseRow, RecordRows, Performs, Evaluate;
    RecordedLength(s, tenant, req, Evaluate(s, ops[1].rows, Evaluated(req, now)));
  }

  /** The transaction that completes a burst is flagged, unless an earlier large one already is. */
  lemma CompletedBurst(sha: Sha, s: Settings, db: Db, rows': Rows, t: Txn, req: Request, customer: Uuid,
                       currency: string, part: set<Key>, k: Key)
    requires t.Session? && t.pin.Some? && Effect(s, db.rows, rows', t.pin.value, t.now, req, t.ops)
    requires RunOps(sha, db, t.pin, t.now, t.ops).Some? && Nonnegative(rows')
    requires Burst(s, rows', t.pin.value, customer, currency, part) && k in part && k !in db.rows
    requires forall j :: j in part ==> Amount(rows'[j]) < s.largeThreshold && rows'[j].createdAt <= t.now
    ensures Flagged(rows', t.pin.value, k.id)
  {
    hide TransactionRow, NewRows, Added, Kept, Flagged, Evaluate, EvaluateVelocity, Nonnegative, IsTransaction;
    var tenant := t.pin.value;
    assert IsTransaction(rows', k, customer, currency);
    PartTables(s, rows', tenant, customer, currency, part);
    NewAmount(s, db.rows, rows', tenant, t.now, req, t.ops, k);
    ViewOfBurst(sha, s, db, rows', tenant, t.now, req, t.ops, part);
    var view := t.ops[1].rows;
    BurstBefore(s, view, rows', tenant, customer, currency, part);
    BurstFires(s, view, tenant, customer, currency, part, Evaluated(req, t.now));
    VelocityFires(s, view, Evaluated(req, t.now));
    RecordedFlags(s, db.rows, rows', tenant, t.now, req, t.ops, EvaluateVelocity(s, view, Evaluated(req, t.now)).value);
  }

  lemma PartTables(s: Settings, rows: Rows, tenant: Uuid, customer: Uuid, currency: string, part: set<Key>)
    requires Burst(s, rows, tenant, customer, currency, part)
    ensures part <= rows.Keys && forall k :: k in part ==> k.table == "transactions" && rows[k].tenant == tenant
  {}

  lemma RunNonnegative(sha: Sha, s: Settings, ts: seq<Txn>, reqs: seq<Request>)
    requires Served(s, ts, reqs)
    ensures Nonnegative(RowsAfter(sha, ts))
  {
    hide Serial, Served, Serves;
    forall k | k in RowsAfter(sha, ts) && k.table == "transactions"
      ensures Amount(RowsAfter(sha, ts)[k]) >= 0
    {
      AmountsNonnegative(sha, s, ts, reqs, k);
    }
  }

  predicate RecordedBetween(before: Rows, now: Rows, a: Key, b: Key) {
    a in before && b !in before && a in now && b in now
  }

  /** A member recorded before another started no later than it. */
  ghost predicate StartedInOrder(sha: Sha, ts: seq<Txn>, part: set<Key>) {
    var rows := RowsAfter(sha, ts);
    forall n, a, b ::
      0 <= n <= |ts| && a in part && b in part && RecordedBetween(RowsAfter(sha, ts[..n]), rows, a, b) ==>
      rows[a].createdAt <= rows[b].createdAt
  }

  lemma StartedBefore(sha: Sha, ts: seq<Txn>, n: nat, part: set<Key>)
    requires n <= |ts| && StartedInOrder(sha, ts, part)
    requires SameTransactions(RowsAfter(sha, ts[..n]), RowsAfter(sha, ts), part)
    ensures StartedInOrder(sha, ts[..n], part)
  {
    hide RowsAfter;
    forall m, a, b | 0 <= m <= n && a in part && b in part
        && RecordedBetween(RowsAfter(sha, ts[..n][..m]), RowsAfter(sha, ts[..n]), a, b)
      ensures RowsAfter(sha, ts[..n])[a].createdAt <= RowsAfter(sha, ts[..n])[b].createdAt
    {
      assert ts[..n][..m] == ts[..m];
      assert RecordedBetween(RowsAfter(sha, ts[..m]), RowsAfter(sha, ts), a, b);
    }
  }

  /** In every run, a burst whose members were recorded in the order they started has a member
      that raised LARGE_AMOUNT or VELOCITY_STRUCTURING and whose alert opened a high-priority
      case: splitting an amount does not evade the rules. Nothing is asked of other sessions. */
  lemma {:induction false} NoEvasion(sha: Sha, s: Settings, ts: seq<Txn>, reqs: seq<Request>,
                                     tenant: Uuid, customer: Uuid, currency: string, part: set<Key>)
    requires Served(s, ts, reqs)
    requires Burst(s, RowsAfter(sha, ts), tenant, customer, currency, part) && StartedInOrder(sha, ts, part)
    ensures exists k :: k in part && Flagged(RowsAfter(sha, ts), tenant, k.id)
  {
    hide Serial, Serves, Effect, Flagged, IsTransaction, WindowLength, StartedInOrder;
    var rows' := RowsAfter(sha, ts);
    PartTables(s, rows', tenant, customer, currency, part);
    if k :| k in part && Amount(rows'[k]) >= s.largeThreshold {
      LargeFlagged(sha, s, ts, reqs, k);
    } else if ts == [] {
      NoTransactions(sha);
      EmptyBurst(s, rows', tenant, customer, currency, part);
    } else {
      var n := |ts| - 1;
      var rows := RowsAfter(sha, ts[..n]);
      LastStep(sha, s, ts, reqs);
      if part <= rows.Keys {
        BurstStays(s, rows, rows', ts[n], reqs[n], part);
        BurstBefore(s, rows, rows', tenant, customer, currency, part);
        StartedBefore(sha, ts, n, part);
        NoEvasion(sha, s, ts[..n], reqs[..n], tenant, customer, currency, part);
        var k :| k in part && Flagged(rows, tenant, k.id);
        if rows' != rows {
          StepKeeps(s, rows, rows', ts[n], reqs[n]);
          FlaggedStays(rows, rows', tenant, k.id);
        }
      } else {
        LastCompletes(sha, s, ts, reqs, tenant, customer, currency, part);
      }
    }
  }

  lemma BurstStays(s: Settings, rows: Rows, rows': Rows, t: Txn, req: Request, part: set<Key>)
    requires Moved(s, rows, rows', t, req) && part <= rows.Keys && forall k :: k in part ==> k.table == "transactions"
    ensures SameTransactions(rows, rows', part)
  {
    if rows' != rows {
      StepKeeps(s, rows, rows', t, req);
      KeptTransactions(rows, rows', part);
    }
  }

  lemma EmptyBurst(s: Settings, rows: Rows, tenant: Uuid, customer: Uuid, currency: string, part: set<Key>)
    requires rows == map[]
    ensures !Burst(s, rows, tenant, customer, currency, part)
  {}

  lemma StepKeeps(s: Settings, rows: Rows, rows': Rows, t: Txn, req: Request)
    requires Moved(s, rows, rows', t, req) && rows' != rows
    ensures Kept(rows, rows')
  {
    hide Serves, Added;
  }

  lemma LastCompletes(sha: Sha, s: Settings, ts: seq<Txn>, reqs: seq<Request>,
                      tenant: Uuid, customer: Uuid, currency: string, part: set<Key>)
    requires ts != [] && Served(s, ts, reqs)
    requires Burst(s, RowsAfter(sha, ts), tenant, customer, currency, part) && StartedInOrder(sha, ts, part)
    requires !(part <= RowsAfter(sha, ts[..|ts| - 1]).Keys)
    requires forall k :: k in part ==> k in RowsAfter(sha, ts) && Amount(RowsAfter(sha, ts)[k]) < s.largeThreshold
    ensures exists k :: k in part && Flagged(RowsAfter(sha, ts), tenant, k.id)
  {
    hide Serves, Flagged, IsTransaction, WindowLength, NewRows, Kept, Added;
    var n := |ts| - 1;
    var db, rows' := Serial(sha, EMPTY, ts[..n]), RowsAfter(sha, ts);
    var k :| k in part && k !in db.rows;
    PartTables(s, rows', tenant, customer, currency, part);
    LastStep(sha, s, ts, reqs);
    NewAmount(s, db.rows, rows', ts[n].pin.value, ts[n].now, reqs[n], ts[n].ops, k);
    RunNonnegative(sha, s, ts, reqs);
    forall j | j in part
      ensures rows'[j].createdAt <= ts[n].now
    {
      if j !in db.rows {
        NewAmount(s, db.rows, rows', ts[n].pin.value, ts[n].now, reqs[n], ts[n].ops, j);
      } else {
        assert RecordedBetween(RowsAfter(sha, ts[..n]), rows', j, k);
      }
    }
    CompletedBurst(sha, s, db, rows', ts[n], reqs[n], customer, currency, part, k);
  }

  /** The same under any interleaving. */
  lemma NoEvasionInterleaved(sha: Sha, s: Settings, evs: seq<Event>, reqs: seq<Request>,
                             tenant: Uuid, customer: Uuid, currency: string, part: set<Key>)
    requires Served(s, History(sha, evs), reqs)
    requires Burst(s, Run(sha, evs).db.rows, tenant, customer, currency, part)
    requires StartedInOrder(sha, History(sha, evs), part)
    ensures exists k :: k in part && Flagged(Run(sha, evs).db.rows, tenant, k.id)
  {
    hide Served, Flagged, StartedInOrder;
    Serialisable(sha, evs);
    NoEvasion(sha, s, History(sha, evs), reqs, tenant, customer, currency, part);
  }
}
