/** The request handlers as the services write them, against a session, each proved to do what
    module Services says a session that served the request did. */
module Handlers {
  import opened Wrappers
  import opened Json
  import opened Chain
  import opened ColumnTypes
  import opened Database
  import opened Replay
  import opened Monitoring
  import opened Services
  import opened Effects
  import opened Compliance
  import opened Admission
  import opened AuditSession
  import opened Cases
  import Reports
  import Watchlist

  /** A mapped object with the given values; its columns may be in any order. */
  method MapObject(row: NewRow, tenant: Uuid) returns (o: Object)
    requires Storable(row)
    ensures Adds(Insert(o), tenant, row)
  {
    var columns: seq<string> := [];
    var left := row.vals.Keys;
    while left != {}
      invariant left <= row.vals.Keys
      invariant forall c :: c in columns <==> c in row.vals && c !in left
      invariant Distinct(columns)
      decreases |left|
    {
      var c :| c in left;
      columns := columns + [c];
      left := left - {c};
    }
    o := Image(row.key, tenant, columns, row.vals);
  }

  /** What the session has done so far in its transaction. */
  ghost predicate Did(session: TenantSession, ops: seq<Op>)
    reads session, session.head, session.database
  {
    RunOps(session.sha, session.database.db, session.pin, session.now, ops) == Some(session.Pend())
  }

  /** db.add_all(rows); db.flush(): false if it raised. */
  method AddAll(session: TenantSession, rows: seq<NewRow>, tenant: Uuid, ghost ops: seq<Op>, ghost done: seq<NewRow>)
    returns (ok: bool, ghost ops': seq<Op>)
    requires !session.closed && Did(session, ops) && Performs(ops, tenant, done)
    requires DistinctRows(rows) && forall i :: 0 <= i < |rows| ==> Storable(rows[i])
    modifies session, session.head
    ensures !session.closed && (session.head == old(session.head) || fresh(session.head))
    ensures ok <==> Admitted(session.database.db, session.pin, tenant, done, rows)
    ensures ok ==> Did(session, ops') && Performs(ops', tenant, done + rows)
    ensures ok ==> exists f :: ops' == ops + [Op.Wrote(f)]
  {
    var news: seq<Object> := [];
    for i := 0 to |rows|
      invariant |news| == i && forall j :: 0 <= j < i ==> Adds(Insert(news[j]), tenant, rows[j])
      invariant session.Pend() == old(session.Pend()) && !session.closed && session.head == old(session.head)
      invariant Did(session, ops)
    {
      var o := MapObject(rows[i], tenant);
      news := news + [o];
    }
    var cs := Inserts(news);
    assert forall i :: 0 <= i < |cs| ==> Adds(cs[i], tenant, rows[i]);
    var f: UnitOfWork := Flush(cs, cs);
    assert Inserts(news) + Updates([]) + Deletes([]) == cs;
    RunSnoc(session.sha, session.database.db, session.pin, session.now, ops, session.Pend(), f);
    FlushAdmitted(session.sha, session.database.db, session.pin, tenant, session.now, ops, done, session.Pend(), f,
                  rows);
    PerformsMore(ops, tenant, done, f, rows);
    ops' := ops + [Op.Wrote(f)];
    ok := session.Flush(f, news, [], []);
  }

  // ---------- record_transaction ----------

  lemma {:induction false} EscalatedPrefix(s: Settings, fs: seq<Finding>, i: nat)
    requires i <= |fs|
    ensures Escalated(s, fs[..i]) <= Escalated(s, fs)
  {
    if i == |fs| {
      assert fs[..i] == fs;
    } else {
      assert fs[..|fs| - 1][..i] == fs[..i];
      EscalatedPrefix(s, fs[..|fs| - 1], i);
    }
  }

  /** The cases opened for the first i findings. */
  function CasesUpTo(s: Settings, tenant: Uuid, req: Request, fs: seq<Finding>, i: nat): seq<NewRow>
    requires req.RecordTransaction? && i <= |fs|
  {
    EscalatedPrefix(s, fs, i);
    CaseRows(s, tenant, req.customer, req.ids, fs)[..|Escalated(s, fs[..i])|]
  }

  lemma NextCase(s: Settings, tenant: Uuid, req: Request, fs: seq<Finding>, i: nat)
    requires req.RecordTransaction? && i < |fs|
    ensures var j := |Escalated(s, fs[..i])|;
      CasesUpTo(s, tenant, req, fs, i + 1) == CasesUpTo(s, tenant, req, fs, i)
        + if SeverityRank(fs[i].severity) < SeverityRank(s.autoOpenFloor) then []
          else [CaseRow(tenant, req.customer, "transaction_alert", req.ids(1 + i), SeverityText(fs[i].severity),
                        req.ids(1 + |fs| + j))]
  {
    hide CaseRow, SeverityText;
    assert fs[..i + 1][..i] == fs[..i] && fs[..i + 1][i] == fs[i];
    EscalatedPrefix(s, fs, i + 1);
    if SeverityRank(fs[i].severity) >= SeverityRank(s.autoOpenFloor) {
      var j := |Escalated(s, fs[..i])|;
      assert Escalated(s, fs)[j] == Escalated(s, fs[..i + 1])[j] == i;
    }
  }

  lemma AllCases(s: Settings, tenant: Uuid, req: Request, fs: seq<Finding>)
    requires req.RecordTransaction?
    ensures CasesUpTo(s, tenant, req, fs, |fs|) == CaseRows(s, tenant, req.customer, req.ids, fs)
    ensures CasesUpTo(s, tenant, req, fs, 0) == []
  {
    assert fs[..|fs|] == fs;
  }

  /** The rules' query, while the session holds its head row. */
  method QueryTransactions(session: TenantSession, tenant: Uuid, ghost ops: seq<Op>, ghost row: NewRow)
    returns (view: Rows, ghost ops': seq<Op>)
    requires Did(session, ops) && Performs(ops, tenant, [row])
    ensures view == Visible(Overlay(session.database.db.rows, session.writes), session.pin)
    ensures Did(session, ops') && ops' == ops + [Saw(view)] && Performs(ops', tenant, [row])
  {
    hide RunOps;
    view := Visible(Overlay(session.database.db.rows, session.writes), session.pin);
    HoldsHead(session.sha, session.database.db, session.pin, session.now, ops, tenant, row);
    RunSaw(session.sha, session.database.db, session.pin, session.now, ops, session.Pend());
    ChangesOf(ops, Saw(view));
    ops' := ops + [Saw(view)];
  }

  /** open_case_for_transaction_alert for each alert in turn. */
  method OpenCases(session: TenantSession, s: Settings, tenant: Uuid, req: Request, findings: seq<Finding>,
                   ghost ops: seq<Op>, ghost done: seq<NewRow>)
    returns (ok: bool, ghost ops': seq<Op>)
    requires req.RecordTransaction? && DistinctIds(req.ids) && |findings| <= 3
    requires !session.closed && Did(session, ops) && Performs(ops, tenant, done)
    modifies session, session.head
    ensures !session.closed && (session.head == old(session.head) || fresh(session.head))
    ensures ok <==> Admitted(session.database.db, session.pin, tenant, done,
                             CaseRows(s, tenant, req.customer, req.ids, findings))
    ensures ok ==> Did(session, ops') && ops <= ops'
    ensures ok ==> Performs(ops', tenant, done + CaseRows(s, tenant, req.customer, req.ids, findings))
  {
    hide RunOps, Performs, CaseRow, CasesUpTo, Escalated, CaseRows, Admitted, DistinctRows;
    AllCases(s, tenant, req, findings);
    NothingAdmitted(session.database.db, session.pin, tenant, done);
    EscalatedNone(s, findings);
    ops' := ops;
    assert done + [] == done;
    var cases := 0;
    for i := 0 to |findings|
      invariant !session.closed && (session.head == old(session.head) || fresh(session.head))
      invariant Did(session, ops') && ops <= ops'
      invariant cases == |Escalated(s, findings[..i])|
      invariant Performs(ops', tenant, done + CasesUpTo(s, tenant, req, findings, i))
      invariant Admitted(session.database.db, session.pin, tenant, done, CasesUpTo(s, tenant, req, findings, i))
    {
      NextCase(s, tenant, req, findings, i);
      EscalatedNext(s, findings, i);
      if SeverityRank(findings[i].severity) >= SeverityRank(s.autoOpenFloor) {
        var row := CaseRow(tenant, req.customer, "transaction_alert", req.ids(1 + i),
                           SeverityText(findings[i].severity), req.ids(1 + |findings| + cases));
        CaseStorable(tenant, req.customer, "transaction_alert", req.ids(1 + i), SeverityText(findings[i].severity),
                     req.ids(1 + |findings| + cases));
        ghost var before := CasesUpTo(s, tenant, req, findings, i);
        CasesSplit(session.database.db, session.pin, tenant, done, s, req, findings, i, row);
        OneRowDistinct(row);
        ok, ops' := AddAll(session, [row], tenant, ops', done + before);
        if !ok { return; }
        assert done + before + [row] == done + (before + [row]);
        cases := cases + 1;
      } else {
        assert CasesUpTo(s, tenant, req, findings, i) + [] == CasesUpTo(s, tenant, req, findings, i);
      }
    }
    ok := true;
  }

  lemma NothingAdmitted(db: Db, pin: Option<Uuid>, tenant: Uuid, done: seq<NewRow>)
    ensures Admitted(db, pin, tenant, done, [])
  {}

  lemma OneRowDistinct(row: NewRow)
    ensures DistinctRows([row])
  {}

  lemma CasesDistinct(s: Settings, tenant: Uuid, req: Request, fs: seq<Finding>)
    requires req.RecordTransaction? && DistinctIds(req.ids) && |fs| <= 3
    ensures DistinctRows(CaseRows(s, tenant, req.customer, req.ids, fs))
  {
    hide CaseRow, Escalated, SeverityText;
    EscalatedFew(s, fs);
  }

  /** The next case is admitted, and if it is not, the cases as a whole are not. */
  lemma CasesSplit(db: Db, pin: Option<Uuid>, tenant: Uuid, done: seq<NewRow>, s: Settings, req: Request,
                   fs: seq<Finding>, i: nat, row: NewRow)
    requires req.RecordTransaction? && DistinctIds(req.ids) && i < |fs| <= 3
    requires CasesUpTo(s, tenant, req, fs, i + 1) == CasesUpTo(s, tenant, req, fs, i) + [row]
    ensures var before, all := CasesUpTo(s, tenant, req, fs, i), CaseRows(s, tenant, req.customer, req.ids, fs);
      && (Admitted(db, pin, tenant, done, before + [row])
          <==> Admitted(db, pin, tenant, done, before) && Admitted(db, pin, tenant, done + before, [row]))
      && (Admitted(db, pin, tenant, done, all) ==> Admitted(db, pin, tenant, done, before + [row]))
  {
    hide Admitted, CaseRows, Escalated;
    var before, all := CasesUpTo(s, tenant, req, fs, i), CaseRows(s, tenant, req.customer, req.ids, fs);
    var n := |Escalated(s, fs[..i + 1])|;
    CasesDistinct(s, tenant, req, fs);
    EscalatedPrefix(s, fs, i + 1);
    assert all == all[..n] + all[n..] && all[..n] == before + [row];
    assert forall k :: 0 <= k < n ==> (before + [row])[k] == all[k];
    AdmittedSplit(db, pin, tenant, done, before + [row], all[n..]);
    AdmittedSplit(db, pin, tenant, done, before, [row]);
  }

  lemma EscalatedNone(s: Settings, fs: seq<Finding>)
    ensures Escalated(s, fs[..0]) == []
  {}

  lemma EscalatedNext(s: Settings, fs: seq<Finding>, i: nat)
    requires i < |fs|
    ensures Escalated(s, fs[..i + 1])
         == Escalated(s, fs[..i]) + if SeverityRank(fs[i].severity) < SeverityRank(s.autoOpenFloor) then [] else [i]
  {
    assert fs[..i + 1][..i] == fs[..i] && fs[..i + 1][i] == fs[i];
  }

  lemma RecordSplit(db: Db, tenant: Uuid, s: Settings, req: Request, fs: seq<Finding>)
    requires req.RecordTransaction? && Positive(req.amount) && DistinctIds(req.ids) && |fs| <= 3
    ensures var row, alerts := NewTransactionRow(tenant, req), AlertRows(tenant, req.customer, req.ids, fs);
            var cases := CaseRows(s, tenant, req.customer, req.ids, fs);
      Admitted(db, Some(tenant), tenant, [], RecordRows(s, tenant, req, fs)) <==>
        && Admitted(db, Some(tenant), tenant, [], [row]) && Admitted(db, Some(tenant), tenant, [row], alerts)
        && Admitted(db, Some(tenant), tenant, [row] + alerts, cases)
  {
    hide TransactionRow, AlertRows, CaseRows, Admitted, Storable;
    var row, alerts := NewTransactionRow(tenant, req), AlertRows(tenant, req.customer, req.ids, fs);
    var cases := CaseRows(s, tenant, req.customer, req.ids, fs);
    RecordStorable(s, tenant, req, fs);
    assert forall i :: 0 <= i < |[row] + alerts| ==> ([row] + alerts)[i] == ([row] + alerts + cases)[i];
    AdmittedSplit(db, Some(tenant), tenant, [], [row] + alerts, cases);
    AdmittedSplit(db, Some(tenant), tenant, [], [row], alerts);
    assert [] + [row] == [row] && [] + ([row] + alerts) == [row] + alerts;
  }

  /** record_transaction; false: a statement raised, and the session can only roll back. */
  method RecordTransaction(session: TenantSession, s: Settings, req: Request) returns (ok: bool, ghost ops: seq<Op>)
    requires req.RecordTransaction? && Positive(req.amount) && DistinctIds(req.ids)
    requires !session.closed && session.pin.Some? && session.Pend() == NOTHING
    modifies session, session.head
    ensures !session.closed && (session.head == old(session.head) || fresh(session.head))
    ensures ok <==> Admitted(session.database.db, session.pin, session.pin.value, [],
                             RecordRows(s, session.pin.value, req,
                      FindingsFor(s, session.database.db.rows, session.pin.value, session.now, req)))
    ensures ok ==> Did(session, ops) && Records(s, session.pin.value, session.now, req, ops)
  {
    hide Performs, TransactionRow, AlertRows, CaseRows, Evaluate, Visible, Overlay, Admitted, SeenWith, DistinctRows;
    var tenant := session.pin.value;
    var row := TransactionRow(tenant, req.customer, req.amount, req.currency, req.ids(0));
    RowStorable(tenant, req);
    NothingPerformed(tenant);
    OneRowDistinct(row);
    AtMostThree(s, SeenWith(session.database.db.rows, tenant, session.now, NewTransactionRow(tenant, req)),
                Evaluated(req, session.now));
    RecordSplit(session.database.db, tenant, s, req,
                FindingsFor(s, session.database.db.rows, tenant, session.now, req));
    ok, ops := AddAll(session, [row], tenant, [], []);
    if !ok { return; }
    ghost var first := ops;
    assert [] + [row] == [row];
    InsertedView(session.sha, session.database.db, tenant, session.now, ops, row);
    var view;
    view, ops := QueryTransactions(session, tenant, ops, row);
    ViewIs(view, session.database.db.rows, tenant, session.now, row);
    var findings := EvaluateTransaction(s, view, Evaluated(req, session.now));
    AlertsStorable(tenant, req.customer, req.ids, findings);
    ok, ops := AddAll(session, AlertRows(tenant, req.customer, req.ids, findings), tenant, ops, [row]);
    if !ok { return; }
    ok, ops := OpenCases(session, s, tenant, req, findings, ops,
                         [row] + AlertRows(tenant, req.customer, req.ids, findings));
    if !ok { return; }
    assert ops[..1] == first && ops[1] == Saw(view);
  }

  lemma NothingPerformed(tenant: Uuid)
    ensures Performs([], tenant, [])
  {}

  // ---------- What a handler answers ----------

  /** Refused: ValueError before anything is written; Raised: a statement raised. */
  datatype Reply = Refused | Raised | Accepted

  // ---------- create_sanctions_screening ----------

  /** A float setting, as it is written. */
  datatype Threshold = Threshold(mantissa: int, places: Places)

  function AsReal(t: Threshold): real { t.mantissa as real / Pow10(t.places) as real }

  lemma ThresholdExact(t: Threshold)
    ensures AsReal(t) * Pow10(t.places) as real == t.mantissa as real
  {}

  /** A score: always a whole number of tenths. */
  function Tenths(x: real): Value { Fixed((x * 10.0).Floor, 1) }

  /** dataclasses.asdict of each hit. */
  function HitItems(hits: seq<Watchlist.Hit>): (r: Items)
    ensures UniqueItems(r)
  {
    if hits == [] then NoItems else Item(Obj(HitMembers(hits[0])), HitItems(hits[1..]))
  }

  function HitMembers(h: Watchlist.Hit): (r: Members)
    ensures UniqueMembers(r)
  {
    var last := Member("score", Tenths(h.score), NoMembers);
    UniqueMore("list_name", Str(h.listName), last);
    UniqueMore("matched_name", Str(h.matchedName), Member("list_name", Str(h.listName), last));
    Member("matched_name", Str(h.matchedName), Member("list_name", Str(h.listName), last))
  }

  function ScreeningOf(r: Watchlist.Screened, threshold: Threshold): Screening {
    Screening(r.status, if r.highestScore.Some? then Tenths(r.highestScore.value) else Null,
              Fixed(threshold.mantissa, threshold.places), HitItems(r.hits), Nullable(r.errorDetail))
  }

  // What a stored screening says.

  predicate TenthsOf(v: Value, x: real) { v.Fixed? && v.places == 1 && v.mantissa as real == 10.0 * x }

  predicate HitsShown(items: Items, hits: seq<Watchlist.Hit>) {
    if hits == [] then items.NoItems?
    else
      items.Item? && HitShown(items.head, hits[0]) && HitsShown(items.tail, hits[1..])
  }

  predicate HitShown(v: Value, h: Watchlist.Hit) {
    && v.Obj? && Keys(v.members) == {"matched_name", "list_name", "score"}
    && Field(v, "matched_name") == Str(h.matchedName) && Field(v, "list_name") == Str(h.listName)
    && TenthsOf(Field(v, "score"), h.score)
  }

  predicate ScreeningSays(m: Columns, tenant: Uuid, id: Uuid, customer: Uuid, name: string, provider: string,
                          threshold: Threshold, r: Watchlist.Screened) {
    && Identified(m, tenant, id) && Col(m, "customer_id") == Foreign(customer)
    && Col(m, "screened_name") == Str(name) && Col(m, "provider_name") == Str(provider)
    && Col(m, "status") == Str(r.status) && Col(m, "match_threshold") == Fixed(threshold.mantissa, threshold.places)
    && (if r.highestScore.Some? then TenthsOf(Col(m, "highest_score"), r.highestScore.value)
        else Col(m, "highest_score") == Null)
    && Col(m, "error_detail") == (if r.errorDetail.Some? then Str(r.errorDetail.value) else Null)
    && Col(m, "hits").Arr? && HitsShown(Col(m, "hits").items, r.hits)
  }

  /** What the case of a potential match says. */
  predicate ReviewSays(m: Columns, tenant: Uuid, id: Uuid, customer: Uuid, screening: Uuid) {
    && Identified(m, tenant, id) && Col(m, "customer_id") == Foreign(customer)
    && Col(m, "source_type") == Str("sanctions_screening") && Col(m, "source_id") == Foreign(screening)
    && Col(m, "priority") == Str("high") && Col(m, "status") == Str("open")
    && Col(m, "resolution") == Null && Col(m, "resolution_notes") == Null && Col(m, "assigned_to") == Null
    && Col(m, "resolved_at") == Null
  }

  lemma TenthsExact(x: real)
    requires Watchlist.WholeTenths(x)
    ensures TenthsOf(Tenths(x), x)
  {}

  lemma HitIsShown(h: Watchlist.Hit)
    requires Watchlist.WholeTenths(h.score)
    ensures HitShown(Obj(HitMembers(h)), h)
  {
    hide Tenths, TenthsOf, Watchlist.WholeTenths;
    TenthsExact(h.score);
    var last := Member("score", Tenths(h.score), NoMembers);
    var two := Member("list_name", Str(h.listName), last);
    assert HitMembers(h) == Member("matched_name", Str(h.matchedName), two);
    var all := Member("matched_name", Str(h.matchedName), two);
    assert Keys(last) == {"score"} && Keys(two) == {"list_name", "score"};
    assert Keys(all) == {"matched_name", "list_name", "score"};
    assert Lookup(last, "score") == Tenths(h.score) && Lookup(two, "score") == Tenths(h.score);
    assert Lookup(all, "score") == Lookup(two, "score") && Lookup(all, "list_name") == Lookup(two, "list_name");
    assert Field(Obj(all), "matched_name") == Str(h.matchedName);
    assert Field(Obj(all), "score") == Tenths(h.score);
  }

  lemma {:induction false} HitsAreShown(hits: seq<Watchlist.Hit>)
    requires forall h :: h in hits ==> Watchlist.WholeTenths(h.score)
    ensures HitsShown(HitItems(hits), hits)
  {
    hide HitMembers, HitShown, Watchlist.WholeTenths;
    if hits != [] {
      assert hits[0] in hits;
      HitIsShown(hits[0]);
      HitsAreShown(hits[1..]);
    }
  }

  lemma ScoreWhole(fold: Watchlist.Fold, ratio: Watchlist.Ratio, a: string, b: string)
    ensures Watchlist.WholeTenths(Watchlist.Score(fold, ratio, a, b))
  {
    hide Watchlist.Round1, Watchlist.Normalize, Watchlist.TokenSort, Watchlist.WholeTenths;
    var aN, bN := Watchlist.Normalize(fold, a), Watchlist.Normalize(fold, b);
    Watchlist.ScoreExact(fold, ratio, a, b);
    Watchlist.RoundNearest(100.0 * ratio(aN, bN));
    Watchlist.RoundNearest(100.0 * ratio(Watchlist.TokenSort(aN), Watchlist.TokenSort(bN)));
  }

  lemma ScoresWhole(fold: Watchlist.Fold, ratio: Watchlist.Ratio, list: seq<Watchlist.Entry>, name: string,
                    threshold: real)
    requires Watchlist.Screen(fold, ratio, list, name, threshold).Ok?
    ensures var r := Watchlist.Screen(fold, ratio, list, name, threshold).value;
      && (forall h :: h in r.hits ==> Watchlist.WholeTenths(h.score))
      && (r.highestScore.Some? ==> Watchlist.WholeTenths(r.highestScore.value))
  {
    hide Watchlist.WholeTenths, Watchlist.Score, Watchlist.Screen, Watchlist.Casefold, Watchlist.Strip;
    Watchlist.ScreenOutcome(fold, ratio, list, name, threshold);
    if Watchlist.Screenable(fold, name) {
      Watchlist.ScreenHits(fold, ratio, list, name, threshold);
      forall e | e in list
        ensures Watchlist.WholeTenths(Watchlist.Score(fold, ratio, name, e.name))
      {
        ScoreWhole(fold, ratio, name, e.name);
      }
    }
  }

  lemma ScreeningColumns(tenant: Uuid, customer: Uuid, name: string, provider: string, threshold: Threshold,
                         r: Watchlist.Screened, ids: Ids)
    requires forall h :: h in r.hits ==> Watchlist.WholeTenths(h.score)
    requires r.highestScore.Some? ==> Watchlist.WholeTenths(r.highestScore.value)
    ensures var req := ScreenCustomer(customer, name, provider, ScreeningOf(r, threshold), ids);
      ScreeningSays(ScreeningRow(tenant, req).vals, tenant, ids(0), customer, name, provider, threshold, r)
  {
    hide Tenths, TenthsOf, Watchlist.WholeTenths, HitItems, HitsShown, ScreeningRow;
    HitsAreShown(r.hits);
    if r.highestScore.Some? { TenthsExact(r.highestScore.value); }
    var req := ScreenCustomer(customer, name, provider, ScreeningOf(r, threshold), ids);
    ScreenedWho(tenant, req);
    ScreenedWhat(tenant, req);
  }

  lemma ScreenedWho(tenant: Uuid, req: Request)
    requires req.ScreenCustomer?
    ensures var m := ScreeningRow(tenant, req).vals;
      && Identified(m, tenant, req.ids(0)) && Col(m, "customer_id") == Foreign(req.customer)
      && Col(m, "screened_name") == Str(req.name) && Col(m, "provider_name") == Str(req.provider)
  {}

  lemma ScreenedWhat(tenant: Uuid, req: Request)
    requires req.ScreenCustomer?
    ensures var m := ScreeningRow(tenant, req).vals;
      && Col(m, "status") == Str(req.result.status) && Col(m, "highest_score") == req.result.highestScore
      && Col(m, "match_threshold") == req.result.threshold && Col(m, "hits") == Arr(req.result.hits)
      && Col(m, "error_detail") == req.result.errorDetail
  {}

  lemma ReviewColumns(tenant: Uuid, customer: Uuid, screening: Uuid, id: Uuid)
    ensures var row := CaseRow(tenant, customer, "sanctions_screening", screening, "high", id);
      ReviewSays(row.vals, tenant, id, customer, screening)
  {
    hide CaseRow;
    OpenedFor(tenant, customer, "sanctions_screening", screening, "high", id);
    OpenedAs(tenant, customer, "sanctions_screening", screening, "high", id);
  }

  lemma OpenedFor(tenant: Uuid, customer: Uuid, sourceType: string, sourceId: Uuid, priority: string, id: Uuid)
    ensures var m := CaseRow(tenant, customer, sourceType, sourceId, priority, id).vals;
      && Identified(m, tenant, id) && Col(m, "customer_id") == Foreign(customer)
      && Col(m, "source_type") == Str(sourceType) && Col(m, "source_id") == Foreign(sourceId)
      && Col(m, "priority") == Str(priority)
  {}

  lemma OpenedAs(tenant: Uuid, customer: Uuid, sourceType: string, sourceId: Uuid, priority: string, id: Uuid)
    ensures var m := CaseRow(tenant, customer, sourceType, sourceId, priority, id).vals;
      && Col(m, "status") == Str("open") && Col(m, "resolution") == Null && Col(m, "resolution_notes") == Null
      && Col(m, "assigned_to") == Null && Col(m, "resolved_at") == Null
  {}

  lemma ScreeningStorable(tenant: Uuid, req: Request)
    requires req.ScreenCustomer? && UniqueItems(req.result.hits) && Unique(req.result.highestScore)
    requires Unique(req.result.threshold) && Unique(req.result.errorDetail)
    ensures Storable(ScreeningRow(tenant, req))
  {}

  lemma ScreeningParts(r: Watchlist.Screened, threshold: Threshold)
    ensures var sc := ScreeningOf(r, threshold);
      && sc.status == r.status && UniqueItems(sc.hits) && Unique(sc.highestScore)
      && Unique(sc.threshold) && Unique(sc.errorDetail)
  {}

  lemma KeyAdmitted(db: Db, tenant: Uuid, done: seq<NewRow>, row: NewRow)
    requires forall i :: 0 <= i < |done| ==> done[i].key != row.key
    ensures Admitted(db, Some(tenant), tenant, done, [row]) <==> tenant in db.heads && row.key !in db.rows
  {
    assert [row][0] == row;
  }

  /** The head row is visible and the keys of the record and of its case, if it opens one, are free. */
  predicate ScreeningFree(db: Db, tenant: Uuid, status: string, ids: Ids) {
    && tenant in db.heads && Key("sanctions_screenings", ids(0)) !in db.rows
    && (status == "potential_match" ==> Key("cases", ids(1)) !in db.rows)
  }

  lemma ScreeningSplit(db: Db, tenant: Uuid, req: Request)
    requires req.ScreenCustomer?
    ensures var case_ := CaseRow(tenant, req.customer, "sanctions_screening", req.ids(0), "high", req.ids(1));
            var row := ScreeningRow(tenant, req);
      && (Admitted(db, Some(tenant), tenant, [], [row])
          <==> tenant in db.heads && Key("sanctions_screenings", req.ids(0)) !in db.rows)
      && (Admitted(db, Some(tenant), tenant, [row], [case_])
          <==> tenant in db.heads && Key("cases", req.ids(1)) !in db.rows)
  {
    hide CaseRow, ScreeningRow, Admitted;
    var row := ScreeningRow(tenant, req);
    KeyAdmitted(db, tenant, [], row);
    KeyAdmitted(db, tenant, [row],
                CaseRow(tenant, req.customer, "sanctions_screening", req.ids(0), "high", req.ids(1)));
  }

  /** The session added exactly the record of this result and, for a potential match, its case. */
  ghost predicate Screens(ops: seq<Op>, tenant: Uuid, ids: Ids, customer: Uuid, name: string, provider: string,
                          threshold: Threshold, r: Watchlist.Screened) {
    var cs := Changes(ops);
    && |cs| == (if r.status == "potential_match" then 2 else 1)
    && cs[0].Insert? && cs[0].obj.key == Key("sanctions_screenings", ids(0)) && cs[0].obj.tenant == tenant
    && ScreeningSays(cs[0].obj.vals, tenant, ids(0), customer, name, provider, threshold, r)
    && (r.status == "potential_match" ==>
          && cs[1].Insert? && cs[1].obj.key == Key("cases", ids(1)) && cs[1].obj.tenant == tenant
          && ReviewSays(cs[1].obj.vals, tenant, ids(1), customer, ids(0)))
  }

  lemma ScreeningAdds(ops: seq<Op>, tenant: Uuid, customer: Uuid, name: string, provider: string, threshold: Threshold,
                      r: Watchlist.Screened, ids: Ids)
    requires forall h :: h in r.hits ==> Watchlist.WholeTenths(h.score)
    requires r.highestScore.Some? ==> Watchlist.WholeTenths(r.highestScore.value)
    requires Performs(ops, tenant, ScreeningRows(tenant,
                      ScreenCustomer(customer, name, provider, ScreeningOf(r, threshold), ids)))
    ensures Screens(ops, tenant, ids, customer, name, provider, threshold, r)
  {
    hide CaseRow, ScreeningRow, ScreeningSays, ReviewSays, ScreeningOf, Watchlist.WholeTenths, Changes;
    var req := ScreenCustomer(customer, name, provider, ScreeningOf(r, threshold), ids);
    var rows := ScreeningRows(tenant, req);
    ScreeningParts(r, threshold);
    ScreeningColumns(tenant, customer, name, provider, threshold, r, ids);
    ReviewColumns(tenant, customer, ids(0), ids(1));
    assert Adds(Changes(ops)[0], tenant, rows[0]);
    assert |rows| == 2 ==> Adds(Changes(ops)[1], tenant, rows[1]);
  }

  lemma ScreenRefuses(fold: Watchlist.Fold, ratio: Watchlist.Ratio, list: seq<Watchlist.Entry>, name: string,
                      threshold: real)
    ensures Watchlist.Screen(fold, ratio, list, name, threshold).Err? <==> Watchlist.AllSpace(name)
  {
    hide *;
    Watchlist.ScreenOutcome(fold, ratio, list, name, threshold);
  }

  lemma ScreeningServed(s: Settings, tenant: Uuid, now: int, req: Request, ops: seq<Op>)
    requires req.ScreenCustomer? && Performs(ops, tenant, ScreeningRows(tenant, req))
    ensures Serves(s, tenant, now, req, ops)
  {}

  /** The record is added, and then its case if it is a potential match; false if that raised. */
  method AddScreening(session: TenantSession, req: Request) returns (ok: bool, ghost ops: seq<Op>)
    requires req.ScreenCustomer? && UniqueItems(req.result.hits) && Unique(req.result.highestScore)
    requires Unique(req.result.threshold) && Unique(req.result.errorDetail)
    requires !session.closed && session.pin.Some? && session.Pend() == NOTHING
    modifies session, session.head
    ensures !session.closed && (session.head == old(session.head) || fresh(session.head))
    ensures ok <==> ScreeningFree(session.database.db, session.pin.value, req.result.status, req.ids)
    ensures ok ==> Did(session, ops) && Performs(ops, session.pin.value, ScreeningRows(session.pin.value, req))
  {
    hide Performs, ScreeningRow, CaseRow, Admitted;
    var tenant := session.pin.value;
    NothingPerformed(tenant);
    ScreeningStorable(tenant, req);
    ScreeningSplit(session.database.db, tenant, req);
    var row := ScreeningRow(tenant, req);
    ok, ops := AddAll(session, [row], tenant, [], []);
    assert [] + [row] == [row] && [row] + [] == [row];
    if ok && req.result.status == "potential_match" {
      var opening := CaseRow(tenant, req.customer, "sanctions_screening", req.ids(0), "high", req.ids(1));
      CaseStorable(tenant, req.customer, "sanctions_screening", req.ids(0), "high", req.ids(1));
      ok, ops := AddAll(session, [opening], tenant, ops, [row]);
    }
  }

  /** create_sanctions_screening; Refused: the name is blank. */
  method CreateSanctionsScreening(session: TenantSession, s: Settings, fold: Watchlist.Fold, ratio: Watchlist.Ratio,
                                  list: seq<Watchlist.Entry>, customer: Uuid, fullName: string,
                                  nameOverride: Option<string>, provider: string, threshold: Threshold, ids: Ids)
    returns (reply: Reply, result: Option<Watchlist.Screened>, ghost ops: seq<Op>)
    requires !session.closed && session.pin.Some? && session.Pend() == NOTHING
    modifies session, session.head
    ensures !session.closed && (session.head == old(session.head) || fresh(session.head))
    ensures var name := if nameOverride.Some? && nameOverride.value != "" then nameOverride.value else fullName;
            var tenant := session.pin.value;
      if Watchlist.AllSpace(name) then reply == Refused && result.None? && session.Pend() == NOTHING
      else
        && result.Some? && Ok(result.value) == Watchlist.Screen(fold, ratio, list, name, AsReal(threshold))
        && reply == (if ScreeningFree(session.database.db, tenant, result.value.status, ids) then Accepted else Raised)
        && (reply.Accepted? ==>
              && Screens(ops, tenant, ids, customer, name, provider, threshold, result.value) && Did(session, ops)
              && Serves(s, tenant, session.now,
                        ScreenCustomer(customer, name, provider, ScreeningOf(result.value, threshold), ids), ops))
  {
    hide *;
    ops := [];
    var tenant := session.pin.value;
    var name := if nameOverride.Some? && nameOverride.value != "" then nameOverride.value else fullName;
    var screened := Watchlist.Screen(fold, ratio, list, name, AsReal(threshold));
    ScreenRefuses(fold, ratio, list, name, AsReal(threshold));
    if screened.Err? {
      return Refused, None, ops;
    }
    var r := screened.value;
    result := Some(r);
    var req := ScreenCustomer(customer, name, provider, ScreeningOf(r, threshold), ids);
    ScreeningParts(r, threshold);
    ScoresWhole(fold, ratio, list, name, AsReal(threshold));
    var ok;
    ok, ops := AddScreening(session, req);
    if ok {
      ScreeningAdds(ops, tenant, customer, name, provider, threshold, r, ids);
      ScreeningServed(s, tenant, session.now, req, ops);
    }
    reply := if ok then Accepted else Raised;
  }

  // ---------- generate_report ----------

  lemma ReportStorable(tenant: Uuid, req: Request)
    requires req.GenerateReport? && (forall c :: c in req.case_ ==> Unique(req.case_[c]))
    requires Unique(req.reference) && Unique(req.errorDetail)
    ensures Storable(ReportRow(tenant, req))
  {
    hide PayloadValues;
    PayloadStorable(req);
    assert Unique(Obj(ReportPayload(req)));
  }

  lemma PayloadStorable(req: Request)
    requires req.GenerateReport? && (forall c :: c in req.case_ ==> Unique(req.case_[c]))
    ensures UniqueMembers(ReportPayload(req))
  {
    Reports.PayloadDistinct();
    forall name | name in PAYLOAD_FIELDS
      ensures Unique(PayloadValues(req)[name])
    {}
    SerializeLookup(PAYLOAD_FIELDS, PayloadValues(req));
  }

  /** The case may be reported. */
  predicate Confirmed(case_: Columns) {
    Col(case_, "status") == Str("resolved") && Col(case_, "resolution") == Str("confirmed")
  }

  /** The session added exactly this report. */
  ghost predicate AddsReport(ops: seq<Op>, tenant: Uuid, id: Uuid, caseId: Uuid, case_: Columns, openedAt: string,
                             reportType: string, provider: string, status: string, reference: Value,
                             errorDetail: Value) {
    var cs := Changes(ops);
    && |cs| == 1 && cs[0].Insert? && cs[0].obj.key == Key("reports", id) && cs[0].obj.tenant == tenant
    && Reports.ReportSays(cs[0].obj.vals, tenant, id, caseId, case_, openedAt, reportType, provider, status, reference,
                          errorDetail)
  }

  lemma ReportAdds(ops: seq<Op>, tenant: Uuid, req: Request)
    requires req.GenerateReport? && Performs(ops, tenant, [ReportRow(tenant, req)])
    ensures AddsReport(ops, tenant, req.ids(0), req.caseId, req.case_, req.openedAt, req.reportType, req.provider,
                       req.status, req.reference, req.errorDetail)
  {
    hide ReportRow, Reports.ReportSays, Changes;
    Reports.ReportColumns(tenant, req);
    assert Adds(Changes(ops)[0], tenant, [ReportRow(tenant, req)][0]);
  }

  /** generate_report; Refused: the case is not resolved and confirmed. */
  method GenerateReportFor(session: TenantSession, s: Settings, req: Request) returns (reply: Reply, ghost ops: seq<Op>)
    requires req.GenerateReport? && (forall c :: c in req.case_ ==> Unique(req.case_[c]))
    requires Unique(req.reference) && Unique(req.errorDetail)
    requires !session.closed && session.pin.Some? && session.Pend() == NOTHING
    modifies session, session.head
    ensures !session.closed && (session.head == old(session.head) || fresh(session.head))
    ensures reply ==
      if !Confirmed(req.case_) then Refused
      else if session.pin.value in session.database.db.heads && Key("reports", req.ids(0)) !in session.database.db.rows
      then Accepted
      else Raised
    ensures reply.Refused? ==> session.Pend() == NOTHING
    ensures reply.Accepted? ==>
      && AddsReport(ops, session.pin.value, req.ids(0), req.caseId, req.case_, req.openedAt, req.reportType,
                    req.provider, req.status, req.reference, req.errorDetail)
      && Did(session, ops) && Serves(s, session.pin.value, session.now, req, ops)
  {
    hide Performs, ReportRow, Admitted, AddsReport;
    ops := [];
    if !Reportable(req.case_) {
      return Refused, ops;
    }
    var tenant := session.pin.value;
    NothingPerformed(tenant);
    ReportStorable(tenant, req);
    var row := ReportRow(tenant, req);
    KeyAdmitted(session.database.db, tenant, [], row);
    var ok;
    ok, ops := AddAll(session, [row], tenant, [], []);
    assert [] + [row] == [row];
    if ok { ReportAdds(ops, tenant, req); }
    reply := if ok then Accepted else Raised;
  }

  // ---------- update_case_status ----------

  /** An UPDATE that changes something needs its tenant's head row and a visible row of its own. */
  predicate Updatable(db: Db, pin: Option<Uuid>, o: Image) {
    && Sees(pin, o.tenant) && o.tenant in db.heads
    && o.key in db.rows && Sees(pin, db.rows[o.key].tenant)
  }

  lemma UpdateFlushes(sha: Sha, db: Db, pin: Option<Uuid>, now: int, o: Object, loaded: Columns, f: UnitOfWork)
    requires Loaded(Update(o, loaded)) && f == Flush([Update(o, loaded)], [Update(o, loaded)])
    ensures FlushOn(sha, db, pin, now, NOTHING, f).Some? <==> o.vals == loaded || Updatable(db, pin, o)
  {
    hide EntryFor, Effective, Assigned;
    var c := Update(o, loaded);
    EffectiveMeans(o, loaded);
    AppendOne(sha, db, pin, c);
    WriteOne(db.rows, pin, now, c);
  }

  /** db.flush() with one changed object; false if it raised. */
  method FlushUpdate(session: TenantSession, o: Object, loaded: Columns) returns (ok: bool, ghost ops: seq<Op>)
    requires !session.closed && session.Pend() == NOTHING && Loaded(Update(o, loaded))
    modifies session, session.head
    ensures !session.closed && (session.head == old(session.head) || fresh(session.head))
    ensures ok <==> o.vals == loaded || Updatable(session.database.db, session.pin, o)
    ensures ok ==> Did(session, ops) && Changes(ops) == [Update(o, loaded)]
  {
    hide FlushOn, Updatable;
    var c := Update(o, loaded);
    var f: UnitOfWork := Flush([c], [c]);
    ghost var none: seq<Op> := [];
    UpdateFlushes(session.sha, session.database.db, session.pin, session.now, o, loaded, f);
    RunSnoc(session.sha, session.database.db, session.pin, session.now, none, session.Pend(), f);
    ChangesOf(none, Op.Wrote(f));
    ops := none + [Op.Wrote(f)];
    assert Inserts([]) + Updates([(o, loaded)]) + Deletes([]) == [c];
    ok := session.Flush(f, [], [(o, loaded)], []);
  }

  /** update_case_status on a case the session read; Refused: resolving needs a resolution. */
  method UpdateCaseOf(session: TenantSession, s: Settings, record: CaseRecord, caseId: Uuid, u: CaseUpdate,
                      clock: string, columns: seq<string>)
    returns (reply: Reply, ghost ops: seq<Op>)
    requires !session.closed && session.pin.Some? && session.Pend() == NOTHING
    requires Mapped(Image(Key("cases", caseId), session.pin.value, columns, Attributes(record.identity, record.f)))
    modifies session, session.head, record
    ensures !session.closed && (session.head == old(session.head) || fresh(session.head))
    ensures reply ==
      if Refuses(old(record.f), u) then Refused
      else if record.f == old(record.f)
           || Updatable(session.database.db, session.pin,
                        Image(Key("cases", caseId), session.pin.value, columns, Attributes(record.identity, record.f)))
      then Accepted
      else Raised
    ensures if reply.Refused? then session.Pend() == NOTHING && record.f == old(record.f)
            else Applied(old(record.f), u, clock, record.f)
    ensures reply.Accepted? ==>
      && Did(session, ops) && Serves(s, session.pin.value, session.now, UpdateCase(caseId, u, clock), ops)
      && exists o: Object :: Changes(ops) == [Update(o, Attributes(record.identity, old(record.f)))]
           && o.key == Key("cases", caseId) && o.tenant == session.pin.value
           && ShowsFields(o.vals, record.f) && o.vals - CASE_FIELDS == record.identity - CASE_FIELDS
  {
    hide Attributes, UpdatedCase, RunOps, Updatable, Applied, Refuses, ShowsFields;
    var loaded := Attributes(record.identity, record.f);
    HasFields(record.identity, record.f);
    ops := [];
    var ok := record.UpdateCaseStatus(u, clock);
    if !ok {
      return Refused, ops;
    }
    UpdatedMapped(loaded, u, clock);
    var o: Object := Image(Key("cases", caseId), session.pin.value, columns, Attributes(record.identity, record.f));
    AttributesShow(record.identity, record.f);
    AttributesDiffer(record.identity, record.f, old(record.f));
    ok, ops := FlushUpdate(session, o, loaded);
    reply := if ok then Accepted else Raised;
  }

  lemma HasFields(identity: Columns, f: Fields)
    ensures CASE_FIELDS <= Attributes(identity, f).Keys
  {}

  lemma UpdatedMapped(m: Columns, u: CaseUpdate, clock: string)
    requires UpdatedCase(m, u, clock).Some? && CASE_FIELDS <= m.Keys
    ensures UpdatedCase(m, u, clock).value.Keys == m.Keys
    ensures (forall c :: c in m ==> Unique(m[c])) ==> forall c :: c in m ==> Unique(UpdatedCase(m, u, clock).value[c])
  {}

  // ---------- Whole requests ----------

  /** A transaction request in its tenant_session: with its tenant provisioned and its keys free it
      commits everything it did as one transaction, and otherwise nothing. */
  method PostTransaction(sha: Sha, database: SharedDatabase, tenant: Uuid, now: int, s: Settings, req: Request)
    returns (ok: bool, ghost ops: seq<Op>)
    requires req.RecordTransaction? && Positive(req.amount) && DistinctIds(req.ids)
    modifies database
    ensures var db := old(database.db);
            var news := RecordRows(s, tenant, req, FindingsFor(s, db.rows, tenant, now, req));
      ok <==> tenant in db.heads && FreeKeys(db.rows, [], news)
    ensures !ok ==> database.db == old(database.db)
    ensures ok ==>
      && Records(s, tenant, now, req, ops) && RunOps(sha, old(database.db), Some(tenant), now, ops).Some?
      && database.db == Atomic(sha, old(database.db), Session(Some(tenant), now, ops))
  {
    hide RunOps, Records, CommitOn, RecordRows, FreeKeys;
    var session := new TenantSession(sha, database, tenant, now);
    ok, ops := RecordTransaction(session, s, req);
    RowsNotEmpty(s, tenant, req, FindingsFor(s, database.db.rows, tenant, now, req));
    session.Finish(!ok);
  }

  lemma RowsNotEmpty(s: Settings, tenant: Uuid, req: Request, fs: seq<Finding>)
    requires req.RecordTransaction?
    ensures RecordRows(s, tenant, req, fs) != []
  {
    RecordedLength(s, tenant, req, fs);
  }

  /** Found nothing: 404. Refused: 400. Raised: 500, rolled back. */
  datatype PostReply = NotFound | BadRequest | ServerError | Created

  /** session.get(Case, id): the row as the session sees it. */
  method GetCase(session: TenantSession, caseId: Uuid) returns (case_: Option<Columns>)
    ensures var r := Current(session.database.db.rows, session.writes, Key("cases", caseId));
      case_ == if r.Some? && Sees(session.pin, r.value.tenant) then Some(r.value.cols) else None
  {
    var r := Current(session.database.db.rows, session.writes, Key("cases", caseId));
    if r.None? || !Sees(session.pin, r.value.tenant) {
      return None;
    }
    return Some(r.value.cols);
  }

  /** The committed database has exactly one row and one log entry more: the report, which says this. */
  ghost predicate ReportCommitted(db: Db, db': Db, tenant: Uuid, now: int, id: Uuid, caseId: Uuid, case_: Columns,
                                  openedAt: string, reportType: string, provider: string, status: string,
                                  reference: Value, errorDetail: Value) {
    var key := Key("reports", id);
    && key !in db.rows && key in db'.rows && db'.rows - {key} == db.rows
    && db'.rows[key].tenant == tenant && db'.rows[key].createdAt == now
    && Reports.ReportSays(db'.rows[key].cols, tenant, id, caseId, case_, openedAt, reportType, provider, status,
                          reference, errorDetail)
    && |db'.log| == |db.log| + 1 && db'.log[..|db.log|] == db.log
    && var e := db'.log[|db.log|];
       e.action == "INSERT" && EntryKey(e) == key && Recorded(e.newValues) == Shown(db'.rows[key].cols)
  }

  lemma StoredReportSays(m: Columns, tenant: Uuid, id: Uuid, caseId: Uuid, case_: Columns, openedAt: string,
                         reportType: string, provider: string, status: string, reference: Value, errorDetail: Value)
    requires Reports.ReportSays(m, tenant, id, caseId, case_, openedAt, reportType, provider, status, reference,
                                errorDetail)
    ensures Reports.ReportSays(Written(m), tenant, id, caseId, case_, openedAt, reportType, provider, status, reference,
                               errorDetail)
  {
    hide Reports.PayloadSays;
  }

  lemma CommitsReport(sha: Sha, db: Db, tenant: Uuid, now: int, ops: seq<Op>, id: Uuid, caseId: Uuid, case_: Columns,
                      openedAt: string, reportType: string, provider: string, status: string, reference: Value,
                      errorDetail: Value)
    requires RunOps(sha, db, Some(tenant), now, ops).Some?
    requires AddsReport(ops, tenant, id, caseId, case_, openedAt, reportType, provider, status, reference, errorDetail)
    ensures ReportCommitted(db, Atomic(sha, db, Session(Some(tenant), now, ops)), tenant, now, id, caseId, case_,
                            openedAt, reportType, provider, status, reference, errorDetail)
  {
    hide RunOps, Reports.ReportSays, Recorded, Shown, Written, CoerceAll, Changes;
    var cs, p := Changes(ops), RunOps(sha, db, Some(tenant), now, ops).value;
    assert cs == [cs[0]] && cs[0] in cs;
    InsertSession(sha, db, tenant, now, ops);
    StoredReportSays(cs[0].obj.vals, tenant, id, caseId, case_, openedAt, reportType, provider, status, reference,
                     errorDetail);
    CoerceElsewhere("reports", Written(cs[0].obj.vals));
    Reports.ShownStoredWritten(cs[0].obj.vals);
    if p.head.None? { HeadTaken(sha, db, Some(tenant), now, ops); }
    assert p.writes == map[Key("reports", id) := Some(RowOf(now, cs[0].obj))];
    assert Shows(p.entries[0], cs[0]);
    assert p.entries == [p.entries[0]];
  }

  /** A report request in its tenant_session: it reads the case itself, cites exactly what it read,
      and commits the one report or nothing. */
  method PostReport(sha: Sha, database: SharedDatabase, tenant: Uuid, now: int, s: Settings, caseId: Uuid,
                    openedAt: string, reportType: string, provider: string, status: string, reference: Value,
                    errorDetail: Value, ids: Ids)
    returns (reply: PostReply, ghost req: Request, ghost ops: seq<Op>)
    requires UniqueRows(database.db.rows) && Unique(reference) && Unique(errorDetail)
    modifies database
    ensures var db, ck := old(database.db), Key("cases", caseId);
      reply == if ck !in db.rows || db.rows[ck].tenant != tenant then NotFound
               else if !Confirmed(db.rows[ck].cols) then BadRequest
               else if tenant in db.heads && Key("reports", ids(0)) !in db.rows then Created
               else ServerError
    ensures !reply.Created? ==> database.db == old(database.db)
    ensures reply.Created? ==>
      ReportCommitted(old(database.db), database.db, tenant, now, ids(0), caseId,
                      old(database.db).rows[Key("cases", caseId)].cols, openedAt, reportType, provider, status,
                      reference, errorDetail)
    ensures reply.Created? ==>
      && req.GenerateReport? && req.caseId == caseId && req.case_ == old(database.db).rows[Key("cases", caseId)].cols
      && Serves(s, tenant, now, req, ops) && RunOps(sha, old(database.db), Some(tenant), now, ops).Some?
      && database.db == Atomic(sha, old(database.db), Session(Some(tenant), now, ops))
  {
    hide RunOps, Serves, ReportRow, Overlay, Admitted, AddsReport, ReportCommitted, Confirmed;
    ops, req := [], OtherRequest;
    var session := new TenantSession(sha, database, tenant, now);
    var found := GetCase(session, caseId);
    if found.None? {
      session.Finish(false);
      return NotFound, req, ops;
    }
    var request := GenerateReport(caseId, found.value, openedAt, reportType, provider, status, reference, errorDetail,
                                  ids);
    req := request;
    var answer;
    answer, ops := GenerateReportFor(session, s, request);
    if answer.Accepted? {
      CommitsReport(sha, database.db, tenant, now, ops, ids(0), caseId, found.value, openedAt, reportType, provider,
                    status, reference, errorDetail);
    }
    session.Finish(!answer.Accepted?);
    reply := if answer.Refused? then BadRequest else if answer.Raised? then ServerError else Created;
  }
}
