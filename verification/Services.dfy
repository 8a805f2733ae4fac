/** The request handlers that write compliance records, as the changes their sessions flush.

    A request is what the client sent, together with what the world returned to the handler:
    uuid4 results, the wall clock, a provider's answer, and the case it read. The flushes of a
    request may be grouped in any way; what counts is the objects added, in order. */
module Services {
  import opened Wrappers
  import opened Json
  import opened Chain
  import opened ColumnTypes
  import opened Database
  import opened Monitoring

  /** The results of a session's successive uuid4() calls. */
  type Ids = nat -> Uuid

  /** A new object: its key and its column values. */
  datatype NewRow = NewRow(key: Key, vals: Columns)

  /** The columns of its row: not the server's, and as each column keeps its value. */
  function StoredCols(row: NewRow): Columns { CoerceAll(row.key.table, Written(row.vals)) }

  datatype Screening = Screening(status: string, highestScore: Value, threshold: Value, hits: Items, errorDetail: Value)

  datatype CaseUpdate = CaseUpdate(
    status: Option<string>,
    resolution: Option<string>,
    notes: Option<string>,
    assignedTo: Option<string>)

  datatype Request =
    | RecordTransaction(customer: Uuid, amount: Value, currency: string, ids: Ids)
    | ScreenCustomer(customer: Uuid, name: string, provider: string, result: Screening, ids: Ids)
    | OpenCase(customer: Uuid, sourceType: string, sourceId: Uuid, priority: string, ids: Ids)
    | UpdateCase(caseId: Uuid, update: CaseUpdate, clock: string)
    | GenerateReport(caseId: Uuid, case_: Columns, openedAt: string, reportType: string, provider: string,
                     status: string, reference: Value, errorDetail: Value, ids: Ids)
    | OtherRequest

  // ---------- The rows each request adds ----------

  function Scoped(tenant: Uuid, id: Uuid): Columns {
    map["id" := Foreign(id), "tenant_id" := Foreign(tenant), "created_at" := Null, "updated_at" := Null]
  }

  function TransactionRow(tenant: Uuid, customer: Uuid, amount: Value, currency: string, id: Uuid): (r: NewRow)
    ensures r.key == Key("transactions", id)
  {
    NewRow(Key("transactions", id),
           Scoped(tenant, id)["customer_id" := Foreign(customer)]["amount" := amount]["currency" := Str(currency)])
  }

  function DetailValue(d: Detail): Value {
    match d
    case LargeDetail(amount, currency, threshold) =>
      Obj(Member("amount", FloatOf(amount), Member("currency", Str(currency),
          Member("threshold", FloatOf(threshold), NoMembers))))
    case VelocityDetail(hours, total, currency, count, threshold) =>
      Obj(Member("window_hours", Int(hours), Member("total_amount", FloatOf(total), Member("currency", Str(currency),
          Member("transaction_count", Int(count), Member("threshold", FloatOf(threshold), NoMembers))))))
    case RoundDetail(amount, currency, modulus) =>
      Obj(Member("amount", FloatOf(amount), Member("currency", Str(currency),
          Member("modulus", FloatOf(modulus), NoMembers))))
  }

  function AlertRow(tenant: Uuid, customer: Uuid, txn: Uuid, f: Finding, id: Uuid): (r: NewRow)
    ensures r.key == Key("transaction_alerts", id)
  {
    NewRow(Key("transaction_alerts", id),
           Scoped(tenant, id)["transaction_id" := Foreign(txn)]["customer_id" := Foreign(customer)]
             ["rule_code" := Str(Code(f.rule))]["severity" := Str(SeverityText(f.severity))]
             ["detail" := DetailValue(f.detail)]["status" := Str("open")]["evaluated_at" := Null])
  }

  /** open_case */
  function CaseRow(tenant: Uuid, customer: Uuid, sourceType: string, sourceId: Uuid, priority: string,
                   id: Uuid): (r: NewRow)
    ensures r.key == Key("cases", id)
  {
    NewRow(Key("cases", id),
           Scoped(tenant, id)["customer_id" := Foreign(customer)]["source_type" := Str(sourceType)]
             ["source_id" := Foreign(sourceId)]["priority" := Str(priority)]["status" := Str("open")]
             ["resolution" := Null]["resolution_notes" := Null]["assigned_to" := Null]
             ["opened_at" := Null]["resolved_at" := Null])
  }

  function AlertRows(tenant: Uuid, customer: Uuid, ids: Ids, fs: seq<Finding>): (r: seq<NewRow>)
    ensures |r| == |fs|
  {
    seq(|fs|, i requires 0 <= i < |fs| => AlertRow(tenant, customer, ids(0), fs[i], ids(1 + i)))
  }

  /** The alerts among the first n that open a case: their severity is at or above the floor. */
  function Escalated(s: Settings, fs: seq<Finding>): seq<nat> {
    if fs == [] then []
    else
      var n := |fs| - 1;
      Escalated(s, fs[..n]) + if SeverityRank(fs[n].severity) < SeverityRank(s.autoOpenFloor) then [] else [n]
  }

  /** At or above the floor: everything reaches "low", only "high" reaches "high". */
  predicate Reaches(v: Severity, floor: Severity) { v == High || floor == Low || v == floor }

  lemma {:induction false} EscalatedExact(s: Settings, fs: seq<Finding>)
    ensures forall i :: i in Escalated(s, fs) <==> 0 <= i < |fs| && Reaches(fs[i].severity, s.autoOpenFloor)
    ensures forall i, j :: 0 <= i < j < |Escalated(s, fs)| ==> Escalated(s, fs)[i] < Escalated(s, fs)[j]
  {
    if fs != [] {
      var before := Escalated(s, fs[..|fs| - 1]);
      EscalatedExact(s, fs[..|fs| - 1]);
      assert forall i :: 0 <= i < |before| ==> before[i] in before;
    }
  }

  function CaseRows(s: Settings, tenant: Uuid, customer: Uuid, ids: Ids, fs: seq<Finding>): (r: seq<NewRow>)
    ensures |r| == |Escalated(s, fs)|
  {
    EscalatedExact(s, fs);
    var opening := Escalated(s, fs);
    assert forall j :: 0 <= j < |opening| ==> opening[j] in opening;
    seq(|opening|, j requires 0 <= j < |opening| =>
      CaseRow(tenant, customer, "transaction_alert", ids(1 + opening[j]),
              SeverityText(fs[opening[j]].severity), ids(1 + |fs| + j)))
  }

  /** record_transaction: the transaction, one alert per finding, one case per escalated alert. */
  function RecordRows(s: Settings, tenant: Uuid, req: Request, fs: seq<Finding>): seq<NewRow>
    requires req.RecordTransaction?
  {
    [TransactionRow(tenant, req.customer, req.amount, req.currency, req.ids(0))]
    + AlertRows(tenant, req.customer, req.ids, fs) + CaseRows(s, tenant, req.customer, req.ids, fs)
  }

  function ScreeningRow(tenant: Uuid, req: Request): (r: NewRow)
    requires req.ScreenCustomer?
    ensures r.key == Key("sanctions_screenings", req.ids(0))
  {
    NewRow(Key("sanctions_screenings", req.ids(0)),
           Scoped(tenant, req.ids(0))["customer_id" := Foreign(req.customer)]["screened_name" := Str(req.name)]
             ["provider_name" := Str(req.provider)]["status" := Str(req.result.status)]
             ["highest_score" := req.result.highestScore]["match_threshold" := req.result.threshold]
             ["hits" := Arr(req.result.hits)]["error_detail" := req.result.errorDetail]["screened_at" := Null])
  }

  /** create_sanctions_screening: the record, and a case exactly when it is a potential match. */
  function ScreeningRows(tenant: Uuid, req: Request): seq<NewRow>
    requires req.ScreenCustomer?
  {
    [ScreeningRow(tenant, req)]
    + if req.result.status != "potential_match" then []
      else [CaseRow(tenant, req.customer, "sanctions_screening", req.ids(0), "high", req.ids(1))]
  }

  /** datetime.isoformat() of a datetime whose str() is given. */
  function IsoFormat(text: string): string {
    if text == "" then "" else if text[0] == ' ' then "T" + text[1..] else [text[0]] + IsoFormat(text[1..])
  }

  /** The first space, if any, becomes a T; nothing else changes. */
  lemma {:induction false} IsoExact(text: string)
    ensures |IsoFormat(text)| == |text|
    ensures forall i :: 0 <= i < |text| ==>
              IsoFormat(text)[i] == if text[i] == ' ' && ' ' !in text[..i] then 'T' else text[i]
  {
    if text != "" && text[0] != ' ' {
      IsoExact(text[1..]);
      forall i | 0 < i < |text|
        ensures ' ' in text[..i] <==> ' ' in text[1..][..i - 1]
      {
        assert text[..i] == [text[0]] + text[1..][..i - 1];
      }
    }
  }

  /** str(x) of a UUID column, or the text of a string column. */
  function Text(v: Value): Value { if v.Foreign? then Str(v.text) else v }

  function IsoText(v: Value): Value { if v.Foreign? then Str(IsoFormat(v.text)) else v }

  const PAYLOAD_FIELDS: seq<string> :=
    ["report_type", "case_id", "customer_id", "priority", "source_type", "source_id", "opened_at", "resolved_at",
     "resolution", "resolution_notes"]

  function PayloadValues(req: Request): (m: Columns)
    requires req.GenerateReport?
    ensures forall name :: name in PAYLOAD_FIELDS ==> name in m
  {
    var c := req.case_;
    map["report_type" := Str(req.reportType), "case_id" := Str(req.caseId),
        "customer_id" := Text(Col(c, "customer_id")), "priority" := Col(c, "priority"),
        "source_type" := Col(c, "source_type"), "source_id" := Text(Col(c, "source_id")),
        "opened_at" := Str(IsoFormat(req.openedAt)), "resolved_at" := IsoText(Col(c, "resolved_at")),
        "resolution" := Col(c, "resolution"), "resolution_notes" := Col(c, "resolution_notes")]
  }

  /** _build_payload */
  function ReportPayload(req: Request): Members
    requires req.GenerateReport?
  {
    Serialize(PAYLOAD_FIELDS, PayloadValues(req))
  }

  /** The gate of generate_report. */
  predicate Reportable(c: Columns) {
    Col(c, "status") == Str("resolved") && Col(c, "resolution") == Str("confirmed")
  }

  function ReportRow(tenant: Uuid, req: Request): (r: NewRow)
    requires req.GenerateReport?
    ensures r.key == Key("reports", req.ids(0))
  {
    NewRow(Key("reports", req.ids(0)),
           Scoped(tenant, req.ids(0))["case_id" := Foreign(req.caseId)]["customer_id" := Col(req.case_, "customer_id")]
             ["report_type" := Str(req.reportType)]["provider_name" := Str(req.provider)]["status" := Str(req.status)]
             ["provider_reference" := req.reference]["payload" := Obj(ReportPayload(req))]
             ["error_detail" := req.errorDetail]["submitted_at" := Null])
  }

  // ---------- update_case_status ----------

  const CASE_FIELDS: set<string> := {"status", "resolution", "resolution_notes", "assigned_to", "resolved_at"}

  function Given(v: Option<string>, otherwise: Value): Value { if v.Some? then Str(v.value) else otherwise }

  /** The case's columns after the update; None: resolving without a resolution is refused. */
  function UpdatedCase(c: Columns, u: CaseUpdate, clock: string): Option<Columns> {
    var nextStatus := Given(u.status, Col(c, "status"));
    var nextResolution := Given(u.resolution, Col(c, "resolution"));
    if nextStatus == Str("resolved") && nextResolution == Null then None
    else
      var c1 := if u.status.Some? then c["status" := Str(u.status.value)] else c;
      var c2 := if u.status == Some("resolved") then c1["resolved_at" := Foreign(clock)] else c1;
      var c3 := if u.resolution.Some? then c2["resolution" := Str(u.resolution.value)] else c2;
      var c4 := if u.notes.Some? then c3["resolution_notes" := Str(u.notes.value)] else c3;
      Some(if u.assignedTo.Some? then c4["assigned_to" := Str(u.assignedTo.value)] else c4)
  }

  // ---------- What a session did to serve a request ----------

  /** Every change the session flushed, in order. */
  function Changes(ops: seq<Op>): seq<Change> {
    if ops == [] then []
    else Changes(ops[..|ops| - 1]) + if ops[|ops| - 1].Wrote? then ops[|ops| - 1].unit.changes else []
  }

  lemma ChangesOf(ops: seq<Op>, op: Op)
    ensures Changes(ops + [op]) == Changes(ops) + if op.Wrote? then op.unit.changes else []
  {
    assert (ops + [op])[..|ops|] == ops;
  }

  predicate Names(cs: seq<Change>, key: Key) { exists c :: c in cs && c.obj.key == key }

  predicate Adds(c: Change, tenant: Uuid, row: NewRow) {
    c.Insert? && c.obj.tenant == tenant && c.obj.key == row.key && c.obj.vals == row.vals
  }

  /** The session added exactly these objects, in this order, and did nothing else. */
  predicate Performs(ops: seq<Op>, tenant: Uuid, rows: seq<NewRow>) {
    |Changes(ops)| == |rows| && forall i :: 0 <= i < |rows| ==> Adds(Changes(ops)[i], tenant, rows[i])
  }

  /** The new transaction as db.refresh reads it back. */
  function Evaluated(req: Request, now: int): Transaction
    requires req.RecordTransaction?
  {
    Transaction(req.customer, Hundredths(req.amount), req.currency, now)
  }

  /** A float greater than zero. */
  predicate Positive(amount: Value) { amount.Fixed? && amount.mantissa > 0 }

  /** The transaction is flushed, the rules query what the session then sees, and the rest follows. */
  ghost predicate Records(s: Settings, tenant: Uuid, now: int, req: Request, ops: seq<Op>)
    requires req.RecordTransaction?
  {
    && Positive(req.amount)
    && |ops| >= 2 && ops[1].Saw?
    && Performs(ops[..1], tenant, [TransactionRow(tenant, req.customer, req.amount, req.currency, req.ids(0))])
    && Performs(ops, tenant, RecordRows(s, tenant, req, Evaluate(s, ops[1].rows, Evaluated(req, now))))
  }

  /** The tables whose rows only the requests above write. */
  const GUARDED: set<string> := {"transactions", "transaction_alerts", "sanctions_screenings", "cases", "reports"}

  predicate UpdatesCase(tenant: Uuid, req: Request, c: Change)
    requires req.UpdateCase?
  {
    && c.Update? && c.obj.tenant == tenant && c.obj.key == Key("cases", req.caseId)
    && UpdatedCase(c.loaded, req.update, req.clock) == Some(c.obj.vals)
  }

  ghost predicate Serves(s: Settings, tenant: Uuid, now: int, req: Request, ops: seq<Op>) {
    match req
    case RecordTransaction(_, _, _, _) => Records(s, tenant, now, req, ops)
    case ScreenCustomer(_, _, _, _, _) => Performs(ops, tenant, ScreeningRows(tenant, req))
    case OpenCase(customer, sourceType, sourceId, priority, ids) =>
      Performs(ops, tenant, [CaseRow(tenant, customer, sourceType, sourceId, priority, ids(0))])
    case UpdateCase(_, _, _) => |Changes(ops)| <= 1 && forall c :: c in Changes(ops) ==> UpdatesCase(tenant, req, c)
    case GenerateReport(_, c, _, _, _, _, _, _, _) => Reportable(c) && Performs(ops, tenant, [ReportRow(tenant, req)])
    case OtherRequest => forall c :: c in Changes(ops) ==> c.obj.key.table !in GUARDED
  }

  /** Each committed transaction of a pinned session served one request. */
  ghost predicate Served(s: Settings, ts: seq<Txn>, reqs: seq<Request>) {
    && |reqs| == |ts|
    && forall i :: 0 <= i < |ts| && ts[i].Session? && ts[i].pin.Some? ==>
         Serves(s, ts[i].pin.value, ts[i].now, reqs[i], ts[i].ops)
  }

  /** The guarded rows a request adds. */
  ghost function NewRows(s: Settings, tenant: Uuid, now: int, req: Request, ops: seq<Op>): seq<NewRow>
    requires Serves(s, tenant, now, req, ops)
  {
    match req
    case RecordTransaction(_, _, _, _) => RecordRows(s, tenant, req, Evaluate(s, ops[1].rows, Evaluated(req, now)))
    case ScreenCustomer(_, _, _, _, _) => ScreeningRows(tenant, req)
    case OpenCase(customer, sourceType, sourceId, priority, ids) =>
      [CaseRow(tenant, customer, sourceType, sourceId, priority, ids(0))]
    case UpdateCase(_, _, _) => []
    case GenerateReport(_, _, _, _, _, _, _, _, _) => [ReportRow(tenant, req)]
    case OtherRequest => []
  }
}
