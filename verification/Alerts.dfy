/** Exactly which alerts and cases a run leaves, and why each is there. */
module Alerts {
  import opened Wrappers
  import opened Json
  import opened Chain
  import opened ColumnTypes
  import opened Database
  import opened Sessions
  import opened Monitoring
  import opened Services
  import opened Effects
  import opened Compliance

  // ---------- The request that recorded a transaction ----------

  /** Transaction j of the run served a record_transaction and committed. */
  ghost predicate Ran(sha: Sha, s: Settings, ts: seq<Txn>, reqs: seq<Request>, j: nat) {
    && j < |ts| == |reqs| && reqs[j].RecordTransaction? && ts[j].Session? && ts[j].pin.Some?
    && Effect(s, RowsAfter(sha, ts[..j]), RowsAfter(sha, ts[..j + 1]), ts[j].pin.value, ts[j].now, reqs[j], ts[j].ops)
  }

  /** The tenant's rows right after transaction j. */
  function TableAfter(sha: Sha, ts: seq<Txn>, j: nat): Rows
    requires j < |ts| && ts[j].Session?
  {
    Visible(RowsAfter(sha, ts[..j + 1]), ts[j].pin)
  }

  /** What a rule says of transaction j on the tenant's rows right after it. */
  ghost function Verdict(sha: Sha, s: Settings, ts: seq<Txn>, reqs: seq<Request>, j: nat, r: Rule): Option<Finding>
    requires j < |ts| == |reqs| && reqs[j].RecordTransaction? && ts[j].Session?
  {
    EvaluateRule(s, TableAfter(sha, ts, j), Evaluated(reqs[j], ts[j].now), r)
  }

  /** What the rules saw is, as far as transactions go, the tenant's table right after. */
  lemma ViewIsTable(sha: Sha, s: Settings, db: Db, rows': Rows, tenant: Uuid, now: int, req: Request, ops: seq<Op>,
                    k: Key)
    requires req.RecordTransaction? && Effect(s, db.rows, rows', tenant, now, req, ops)
    requires RunOps(sha, db, Some(tenant), now, ops).Some?
    requires k.table == "transactions"
    ensures k in ops[1].rows <==> k in Visible(rows', Some(tenant))
    ensures k in ops[1].rows ==> ops[1].rows[k] == Visible(rows', Some(tenant))[k]
  {
    hide TransactionRow, NewRows, Performs, Added, Evaluate;
    RulesView(sha, s, db, tenant, now, req, ops);
    AddedHere(s, db.rows, rows', tenant, now, req, ops);
    if k != Key("transactions", req.ids(0)) && k in rows' && k !in db.rows {
      NewTransaction(s, db.rows, rows', tenant, now, req, ops, k);
    }
  }

  lemma SameWindow(s: Settings, rows: Rows, rows': Rows, t: Transaction)
    requires forall k: Key :: k.table == "transactions" ==>
               (k in rows <==> k in rows') && (k in rows ==> rows[k] == rows'[k])
    ensures Window(s, rows, t) == Window(s, rows', t)
    ensures EvaluateVelocity(s, rows, t) == EvaluateVelocity(s, rows', t)
  {
    assert Window(s, rows, t) == Window(s, rows', t);
    TotalFrame(rows, rows', Window(s, rows, t));
  }

  lemma SeenVerdict(sha: Sha, s: Settings, db: Db, rows': Rows, tenant: Uuid, now: int, req: Request, ops: seq<Op>,
                    r: Rule)
    requires req.RecordTransaction? && Effect(s, db.rows, rows', tenant, now, req, ops)
    requires RunOps(sha, db, Some(tenant), now, ops).Some?
    ensures EvaluateRule(s, ops[1].rows, Evaluated(req, now), r)
         == EvaluateRule(s, Visible(rows', Some(tenant)), Evaluated(req, now), r)
  {
    hide Effect, Visible, EvaluateVelocity, Serves, Records;
    assert Effect(s, db.rows, rows', tenant, now, req, ops);
    SawSomething(s, db.rows, rows', tenant, now, req, ops);
    forall k: Key | k.table == "transactions"
      ensures (k in ops[1].rows <==> k in Visible(rows', Some(tenant)))
           && (k in ops[1].rows ==> ops[1].rows[k] == Visible(rows', Some(tenant))[k])
    {
      ViewIsTable(sha, s, db, rows', tenant, now, req, ops, k);
    }
    SameWindow(s, ops[1].rows, Visible(rows', Some(tenant)), Evaluated(req, now));
  }

  lemma SawSomething(s: Settings, rows: Rows, rows': Rows, tenant: Uuid, now: int, req: Request, ops: seq<Op>)
    requires req.RecordTransaction? && Effect(s, rows, rows', tenant, now, req, ops)
    ensures |ops| >= 2 && ops[1].Saw? && Records(s, tenant, now, req, ops)
    ensures NewRows(s, tenant, now, req, ops)
         == RecordRows(s, tenant, req, Evaluate(s, ops[1].rows, Evaluated(req, now)))
  {}

  // ---------- Prefixes of a run ----------

  lemma FrozenTrans(k: Key, a: Row, b: Row, c: Row)
    requires SameFrozen(k, a, b) && SameFrozen(k, b, c)
    ensures SameFrozen(k, a, c)
  {}

  /** A guarded row stays from the transaction that added it on. */
  lemma {:induction false} RowsStay(sha: Sha, s: Settings, ts: seq<Txn>, reqs: seq<Request>, i: nat, k: Key)
    requires Served(s, ts, reqs) && i <= |ts| && k in RowsAfter(sha, ts[..i]) && k.table in GUARDED
    ensures k in RowsAfter(sha, ts) && SameFrozen(k, RowsAfter(sha, ts[..i])[k], RowsAfter(sha, ts)[k])
  {
    hide Serial, Serves, SameFrozen, Effect;
    if i == |ts| {
      assert ts[..i] == ts;
      FrozenSame(k, RowsAfter(sha, ts)[k]);
    } else {
      var n := |ts| - 1;
      LastStep(sha, s, ts, reqs);
      assert ts[..n][..i] == ts[..i];
      RowsStay(sha, s, ts[..n], reqs[..n], i, k);
      var rows, rows' := RowsAfter(sha, ts[..n]), RowsAfter(sha, ts);
      if rows' != rows {
        StepKeeps(s, rows, rows', ts[n], reqs[n]);
        FrozenTrans(k, RowsAfter(sha, ts[..i])[k], rows[k], rows'[k]);
      }
    }
  }

  lemma FrozenSame(k: Key, r: Row)
    ensures SameFrozen(k, r, r)
  {}

  lemma RanPrefix(sha: Sha, s: Settings, ts: seq<Txn>, reqs: seq<Request>, n: nat, j: nat)
    requires n <= |ts| == |reqs| && Ran(sha, s, ts[..n], reqs[..n], j)
    ensures Ran(sha, s, ts, reqs, j)
  {
    hide Effect, RowsAfter;
    assert ts[..n][..j] == ts[..j] && ts[..n][..j + 1] == ts[..j + 1];
  }

  /** A request that ran really ran: its statements did not raise. */
  lemma RanRuns(sha: Sha, s: Settings, ts: seq<Txn>, reqs: seq<Request>, j: nat)
    requires Ran(sha, s, ts, reqs, j)
    ensures RunOps(sha, Serial(sha, EMPTY, ts[..j]), ts[j].pin, ts[j].now, ts[j].ops).Some?
    ensures |ts[j].ops| >= 2 && ts[j].ops[1].Saw?
  {
    hide Kept, Serves, NewRows, Added, RunOps;
    assert ts[..j + 1][..j] == ts[..j];
    assert ts[..j + 1][|ts[..j + 1]| - 1] == ts[j];
    AddedHere(s, RowsAfter(sha, ts[..j]), RowsAfter(sha, ts[..j + 1]), ts[j].pin.value, ts[j].now, reqs[j], ts[j].ops);
    SawSomething(s, RowsAfter(sha, ts[..j]), RowsAfter(sha, ts[..j + 1]), ts[j].pin.value, ts[j].now, reqs[j],
                 ts[j].ops);
  }

  /** The findings of transaction j. */
  ghost function Found(sha: Sha, s: Settings, ts: seq<Txn>, reqs: seq<Request>, j: nat): seq<Finding>
    requires j < |ts| == |reqs| && reqs[j].RecordTransaction? && ts[j].Session?
  {
    if |ts[j].ops| >= 2 && ts[j].ops[1].Saw? then Evaluate(s, ts[j].ops[1].rows, Evaluated(reqs[j], ts[j].now)) else []
  }

  /** They are the rules' verdicts on the tenant's table right after it, in rule order. */
  lemma FoundExact(sha: Sha, s: Settings, ts: seq<Txn>, reqs: seq<Request>, j: nat)
    requires Ran(sha, s, ts, reqs, j)
    ensures var fs := Found(sha, s, ts, reqs, j);
      && (forall f :: f in fs <==> Verdict(sha, s, ts, reqs, j, f.rule) == Some(f))
      && FindingsInOrder(fs)
  {
    hide EvaluateRule, Effect, RunOps, Serial;
    RanRuns(sha, s, ts, reqs, j);
    EvaluateExact(s, ts[j].ops[1].rows, Evaluated(reqs[j], ts[j].now));
    forall r: Rule
      ensures EvaluateRule(s, ts[j].ops[1].rows, Evaluated(reqs[j], ts[j].now), r) == Verdict(sha, s, ts, reqs, j, r)
    {
      SeenVerdict(sha, s, Serial(sha, EMPTY, ts[..j]), RowsAfter(sha, ts[..j + 1]), ts[j].pin.value, ts[j].now, reqs[j],
                  ts[j].ops, r);
    }
  }

  lemma TransactionKey(sha: Sha, s: Settings, ts: seq<Txn>, reqs: seq<Request>, j: nat)
    requires Ran(sha, s, ts, reqs, j)
    ensures Key("transactions", reqs[j].ids(0)) !in RowsAfter(sha, ts[..j])
    ensures Key("transactions", reqs[j].ids(0)) in RowsAfter(sha, ts[..j + 1])
  {
    hide Effect, RowsAfter;
    AddedHere(s, RowsAfter(sha, ts[..j]), RowsAfter(sha, ts[..j + 1]), ts[j].pin.value, ts[j].now, reqs[j], ts[j].ops);
  }

  /** A transaction is recorded once. */
  lemma RanOnce(sha: Sha, s: Settings, ts: seq<Txn>, reqs: seq<Request>, i: nat, j: nat)
    requires Served(s, ts, reqs) && Ran(sha, s, ts, reqs, i) && Ran(sha, s, ts, reqs, j)
    requires reqs[i].ids(0) == reqs[j].ids(0)
    ensures i == j
  {
    hide Serves, Effect, RowsAfter;
    TransactionKey(sha, s, ts, reqs, i);
    TransactionKey(sha, s, ts, reqs, j);
    if i < j {
      ServedPrefix(s, ts, reqs, j);
      assert ts[..j][..i + 1] == ts[..i + 1];
      RowsStay(sha, s, ts[..j], reqs[..j], i + 1, Key("transactions", reqs[i].ids(0)));
    } else if j < i {
      ServedPrefix(s, ts, reqs, i);
      assert ts[..i][..j + 1] == ts[..j + 1];
      RowsStay(sha, s, ts[..i], reqs[..i], j + 1, Key("transactions", reqs[j].ids(0)));
    }
  }

  // ---------- Where an alert comes from ----------

  /** The i-th alert of transaction j, as stored. */
  ghost predicate StoredAlert(sha: Sha, s: Settings, ts: seq<Txn>, reqs: seq<Request>, j: nat, i: nat, rows: Rows,
                              a: Key)
    requires j < |ts| == |reqs| && reqs[j].RecordTransaction? && ts[j].Session? && ts[j].pin.Some?
  {
    var fs := Found(sha, s, ts, reqs, j);
    && i < |fs| && a == Key("transaction_alerts", reqs[j].ids(1 + i)) && a in rows
    && rows[a] == Row(ts[j].pin.value, ts[j].now,
                      StoredCols(AlertRow(ts[j].pin.value, reqs[j].customer, reqs[j].ids(0), fs[i], a.id)))
  }

  lemma AddedAlert(s: Settings, rows: Rows, rows': Rows, tenant: Uuid, now: int, req: Request, ops: seq<Op>, a: Key)
    requires Effect(s, rows, rows', tenant, now, req, ops) && a in rows' && a !in rows
    requires a.table == "transaction_alerts"
    ensures req.RecordTransaction? && |ops| >= 2 && ops[1].Saw?
    ensures var fs := Evaluate(s, ops[1].rows, Evaluated(req, now));
      exists i :: 0 <= i < |fs| && a.id == req.ids(1 + i)
        && rows'[a] == Row(tenant, now, StoredCols(AlertRow(tenant, req.customer, req.ids(0), fs[i], a.id)))
  {
    hide TransactionRow, AlertRow, CaseRow, ScreeningRow, ReportRow, RecordRows, Performs, Evaluate, Kept;
    var n :| 0 <= n < |NewRows(s, tenant, now, req, ops)| && NewRows(s, tenant, now, req, ops)[n].key == a;
    if req.RecordTransaction? {
      var fs := Evaluate(s, ops[1].rows, Evaluated(req, now));
      RecordedTable(s, tenant, req, fs, n);
      AlertAt(s, tenant, req, fs, n - 1);
    }
  }

  lemma {:induction false} Provenance(sha: Sha, s: Settings, ts: seq<Txn>, reqs: seq<Request>, a: Key)
    returns (j: nat, i: nat)
    requires Served(s, ts, reqs) && a in RowsAfter(sha, ts) && a.table == "transaction_alerts"
    ensures Ran(sha, s, ts, reqs, j) && StoredAlert(sha, s, ts, reqs, j, i, RowsAfter(sha, ts), a)
  {
    hide Serial, Serves, NewRows, Added, AlertRow, Evaluate;
    if ts == [] {
      NoTransactions(sha);
    } else {
      var n := |ts| - 1;
      var rows, rows' := RowsAfter(sha, ts[..n]), RowsAfter(sha, ts);
      LastStep(sha, s, ts, reqs);
      if a in rows {
        j, i := Provenance(sha, s, ts[..n], reqs[..n], a);
        RanPrefix(sha, s, ts, reqs, n, j);
      } else {
        AddedAlert(s, rows, rows', ts[n].pin.value, ts[n].now, reqs[n], ts[n].ops, a);
        j := n;
        i :| i < |Evaluate(s, ts[n].ops[1].rows, Evaluated(reqs[n], ts[n].now))| && a.id == reqs[n].ids(1 + i)
          && rows'[a] == Row(ts[n].pin.value, ts[n].now, StoredCols(AlertRow(ts[n].pin.value, reqs[n].customer,
                                                                             reqs[n].ids(0),
               Evaluate(s, ts[n].ops[1].rows, Evaluated(reqs[n], ts[n].now))[i], a.id)));
        assert ts[..n + 1] == ts;
      }
    }
  }

  /** Reading an alert back tells which transaction, rule and finding it came from. */
  lemma AlertReads(sha: Sha, s: Settings, ts: seq<Txn>, reqs: seq<Request>, j: nat, i: nat, rows: Rows, a: Key,
                   tenant: Uuid, txn: Uuid, r: Rule)
    requires Ran(sha, s, ts, reqs, j) && StoredAlert(sha, s, ts, reqs, j, i, rows, a)
    requires Alerted(rows, tenant, txn, Code(r), a)
    ensures i < |Found(sha, s, ts, reqs, j)| && a == Key("transaction_alerts", reqs[j].ids(1 + i))
    ensures txn == reqs[j].ids(0) && tenant == ts[j].pin.value && Found(sha, s, ts, reqs, j)[i].rule == r
    ensures Col(rows[a].cols, "detail") == DetailValue(Found(sha, s, ts, reqs, j)[i].detail)
    ensures Col(rows[a].cols, "severity") == Str(SeverityText(Found(sha, s, ts, reqs, j)[i].severity))
  {
    hide Effect, AlertRow, Found, DetailValue, SeverityText;
    var f := Found(sha, s, ts, reqs, j)[i];
    AlertColumns(ts[j].pin.value, reqs[j].customer, reqs[j].ids(0), f, a.id);
    assert Code(f.rule) == Code(r);
  }

  /** Alert a of transaction j is the finding of rule r. */
  ghost predicate AlertOf(sha: Sha, s: Settings, ts: seq<Txn>, reqs: seq<Request>, j: nat, r: Rule, a: Key)
    requires j < |ts| == |reqs| && reqs[j].RecordTransaction? && ts[j].Session? && ts[j].pin.Some?
  {
    Alerted(RowsAfter(sha, ts), ts[j].pin.value, reqs[j].ids(0), Code(r), a)
  }

  lemma AlertIsVerdict(sha: Sha, s: Settings, ts: seq<Txn>, reqs: seq<Request>, j: nat, r: Rule, a: Key)
    requires Served(s, ts, reqs) && Ran(sha, s, ts, reqs, j) && AlertOf(sha, s, ts, reqs, j, r, a)
    ensures Verdict(sha, s, ts, reqs, j, r).Some?
    ensures var f := Verdict(sha, s, ts, reqs, j, r).value;
      && Col(RowsAfter(sha, ts)[a].cols, "detail") == DetailValue(f.detail)
      && Col(RowsAfter(sha, ts)[a].cols, "severity") == Str(SeverityText(f.severity))
    ensures exists i :: 0 <= i < |Found(sha, s, ts, reqs, j)| && Found(sha, s, ts, reqs, j)[i].rule == r
                     && a == Key("transaction_alerts", reqs[j].ids(1 + i))
  {
    hide Effect, Serves, Found, DetailValue, SeverityText, Verdict, RowsAfter, StoredAlert, Col;
    var j', i := Provenance(sha, s, ts, reqs, a);
    AlertReads(sha, s, ts, reqs, j', i, RowsAfter(sha, ts), a, ts[j].pin.value, reqs[j].ids(0), r);
    RanOnce(sha, s, ts, reqs, j, j');
    FoundExact(sha, s, ts, reqs, j);
    assert Found(sha, s, ts, reqs, j)[i] in Found(sha, s, ts, reqs, j);
  }

  lemma VerdictAlerts(sha: Sha, s: Settings, ts: seq<Txn>, reqs: seq<Request>, j: nat, r: Rule)
    requires Served(s, ts, reqs) && Ran(sha, s, ts, reqs, j) && Verdict(sha, s, ts, reqs, j, r).Some?
    ensures exists a :: AlertOf(sha, s, ts, reqs, j, r, a)
  {
    hide Serves, Kept, RowsAfter, Evaluate, AlertRow, Verdict, RecordRows, Performs, Added, NewRows;
    FoundExact(sha, s, ts, reqs, j);
    var fs := Found(sha, s, ts, reqs, j);
    var f := Verdict(sha, s, ts, reqs, j, r).value;
    assert f.rule == r by { VerdictNames(sha, s, ts, reqs, j, r); }
    var i: nat :| i < |fs| && fs[i] == f;
    RanRuns(sha, s, ts, reqs, j);
    var a := Key("transaction_alerts", reqs[j].ids(1 + i));
    AlertHere(s, RowsAfter(sha, ts[..j]), RowsAfter(sha, ts[..j + 1]), ts[j].pin.value, ts[j].now, reqs[j], ts[j].ops,
              i);
    RowsStay(sha, s, ts, reqs, j + 1, a);
    assert AlertOf(sha, s, ts, reqs, j, r, a);
  }

  lemma VerdictNames(sha: Sha, s: Settings, ts: seq<Txn>, reqs: seq<Request>, j: nat, r: Rule)
    requires j < |ts| == |reqs| && reqs[j].RecordTransaction? && ts[j].Session?
    requires Verdict(sha, s, ts, reqs, j, r).Some?
    ensures Verdict(sha, s, ts, reqs, j, r).value.rule == r
  {
    FindingNamesRule(s, TableAfter(sha, ts, j), Evaluated(reqs[j], ts[j].now), r);
  }

  lemma AlertHere(s: Settings, rows: Rows, rows': Rows, tenant: Uuid, now: int, req: Request, ops: seq<Op>, i: nat)
    requires req.RecordTransaction? && Effect(s, rows, rows', tenant, now, req, ops)
    requires |ops| >= 2 && ops[1].Saw? && i < |Evaluate(s, ops[1].rows, Evaluated(req, now))|
    ensures var f := Evaluate(s, ops[1].rows, Evaluated(req, now))[i];
      Alerted(rows', tenant, req.ids(0), Code(f.rule), Key("transaction_alerts", req.ids(1 + i)))
  {
    hide Serves, Kept, Evaluate, AlertRow, RecordRows;
    var fs := Evaluate(s, ops[1].rows, Evaluated(req, now));
    SawSomething(s, rows, rows', tenant, now, req, ops);
    AlertAt(s, tenant, req, fs, i);
    AlertColumns(tenant, req.customer, req.ids(0), fs[i], req.ids(1 + i));
    assert RecordRows(s, tenant, req, fs)[1 + i].key in rows';
  }

  /** Transaction j has an alert for a rule exactly when the rule fires on the tenant's table
      right after it; the alert is unique and shows that finding. */
  lemma AlertsExact(sha: Sha, s: Settings, ts: seq<Txn>, reqs: seq<Request>, j: nat, r: Rule)
    requires Served(s, ts, reqs) && Ran(sha, s, ts, reqs, j)
    ensures (exists a :: AlertOf(sha, s, ts, reqs, j, r, a)) <==> Verdict(sha, s, ts, reqs, j, r).Some?
    ensures forall a :: AlertOf(sha, s, ts, reqs, j, r, a) ==>
              && Verdict(sha, s, ts, reqs, j, r).Some?
              && Col(RowsAfter(sha, ts)[a].cols, "detail") == DetailValue(Verdict(sha, s, ts, reqs, j, r).value.detail)
    ensures forall a, b :: AlertOf(sha, s, ts, reqs, j, r, a) && AlertOf(sha, s, ts, reqs, j, r, b) ==> a == b
  {
    hide Effect, Serves, Found, DetailValue, SeverityText, Verdict, RowsAfter, Col;
    if Verdict(sha, s, ts, reqs, j, r).Some? {
      VerdictAlerts(sha, s, ts, reqs, j, r);
    }
    forall a | AlertOf(sha, s, ts, reqs, j, r, a)
      ensures Verdict(sha, s, ts, reqs, j, r).Some?
      ensures Col(RowsAfter(sha, ts)[a].cols, "detail") == DetailValue(Verdict(sha, s, ts, reqs, j, r).value.detail)
    {
      AlertIsVerdict(sha, s, ts, reqs, j, r, a);
    }
    forall a, b | AlertOf(sha, s, ts, reqs, j, r, a) && AlertOf(sha, s, ts, reqs, j, r, b)
      ensures a == b
    {
      FoundExact(sha, s, ts, reqs, j);
      AlertIsVerdict(sha, s, ts, reqs, j, r, a);
      AlertIsVerdict(sha, s, ts, reqs, j, r, b);
    }
  }

  // ---------- Velocity alerts are sound ----------

  /** A LARGE_AMOUNT alert is of a transaction at or above the threshold. */
  lemma LargeAlertIsLarge(sha: Sha, s: Settings, ts: seq<Txn>, reqs: seq<Request>, tenant: Uuid, k: Key, a: Key)
    requires Served(s, ts, reqs) && k.table == "transactions" && k in RowsAfter(sha, ts)
    requires Alerted(RowsAfter(sha, ts), tenant, k.id, "LARGE_AMOUNT", a)
    ensures Amount(RowsAfter(sha, ts)[k]) >= s.largeThreshold
  {
    hide Serves, RowsAfter, Found, StoredAlert, Verdict, Effect, Amount;
    var j, i := Provenance(sha, s, ts, reqs, a);
    AlertReads(sha, s, ts, reqs, j, i, RowsAfter(sha, ts), a, tenant, k.id, LargeAmount);
    FoundExact(sha, s, ts, reqs, j);
    assert Found(sha, s, ts, reqs, j)[i] in Found(sha, s, ts, reqs, j);
    LargeVerdict(sha, s, ts, reqs, j);
    TransactionKey(sha, s, ts, reqs, j);
    NewAmount(s, RowsAfter(sha, ts[..j]), RowsAfter(sha, ts[..j + 1]), ts[j].pin.value, ts[j].now, reqs[j], ts[j].ops,
              k);
    StaysSame(sha, s, ts, reqs, j + 1, k);
  }

  lemma StaysSame(sha: Sha, s: Settings, ts: seq<Txn>, reqs: seq<Request>, i: nat, k: Key)
    requires Served(s, ts, reqs) && i <= |ts| && k in RowsAfter(sha, ts[..i])
    requires k.table == "transactions" || k.table == "transaction_alerts" || k.table == "sanctions_screenings"
    ensures k in RowsAfter(sha, ts) && RowsAfter(sha, ts)[k] == RowsAfter(sha, ts[..i])[k]
  {
    hide Serves, RowsAfter;
    RowsStay(sha, s, ts, reqs, i, k);
  }

  lemma LargeVerdict(sha: Sha, s: Settings, ts: seq<Txn>, reqs: seq<Request>, j: nat)
    requires j < |ts| == |reqs| && reqs[j].RecordTransaction? && ts[j].Session?
    requires Verdict(sha, s, ts, reqs, j, LargeAmount).Some?
    ensures Hundredths(reqs[j].amount) >= s.largeThreshold
  {}

  /** The transactions a velocity alert counts. */
  ghost predicate Witnesses(sha: Sha, s: Settings, ts: seq<Txn>, rows: Rows, req: Request, j: nat, part: set<Key>)
    requires req.RecordTransaction? && j < |ts| && ts[j].Session? && ts[j].pin.Some?
  {
    && part <= rows.Keys && |part| >= s.minTransactions && Total(rows, part) >= s.velocityThreshold
    && forall k :: k in part ==>
         && IsTransaction(rows, k, req.customer, req.currency) && rows[k].tenant == ts[j].pin.value
         && Amount(rows[k]) < s.largeThreshold
         && ts[j].now - WindowLength(s) <= rows[k].createdAt <= ts[j].now
         && !exists b :: Alerted(rows, ts[j].pin.value, k.id, "LARGE_AMOUNT", b)
  }

  /** They are also what the alert's detail shows. */
  ghost predicate WitnessedBy(sha: Sha, s: Settings, ts: seq<Txn>, rows: Rows, req: Request, j: nat, part: set<Key>,
                              a: Key)
    requires req.RecordTransaction? && j < |ts| && ts[j].Session? && ts[j].pin.Some?
  {
    && Witnesses(sha, s, ts, rows, req, j, part) && a in rows
    && Field(Col(rows[a].cols, "detail"), "total_amount") == FloatOf(Total(rows, part))
    && Field(Col(rows[a].cols, "detail"), "transaction_count") == Int(|part|)
    && Field(Col(rows[a].cols, "detail"), "window_hours") == Int(s.windowHours)
    && Field(Col(rows[a].cols, "detail"), "currency") == Str(req.currency)
    && Field(Col(rows[a].cols, "detail"), "threshold") == FloatOf(s.velocityThreshold)
    && Col(rows[a].cols, "severity") == Str("high")
  }

  lemma FirstField(key: string, v: Value, rest: Members, name: string)
    ensures Field(Obj(Member(key, v, rest)), name) == if name == key then v else Field(Obj(rest), name)
  {}

  /** What the detail of a velocity alert shows. */
  lemma VelocityFields(hours: nat, total: int, currency: string, count: nat, threshold: int)
    ensures var d := DetailValue(VelocityDetail(hours, total, currency, count, threshold));
      && Field(d, "total_amount") == FloatOf(total) && Field(d, "transaction_count") == Int(count)
      && Field(d, "currency") == Str(currency) && Field(d, "window_hours") == Int(hours)
      && Field(d, "threshold") == FloatOf(threshold)
  {
    hide Field, FloatOf;
    var m0 := Member("threshold", FloatOf(threshold), NoMembers);
    var m1 := Member("transaction_count", Int(count), m0);
    var m2 := Member("currency", Str(currency), m1);
    var m3 := Member("total_amount", FloatOf(total), m2);
    FirstField("window_hours", Int(hours), m3, "window_hours");
    FirstField("window_hours", Int(hours), m3, "total_amount");
    FirstField("total_amount", FloatOf(total), m2, "total_amount");
    ThreeFields("window_hours", Int(hours), "total_amount", FloatOf(total), m2, "currency");
    FirstField("currency", Str(currency), m1, "currency");
    ThreeFields("window_hours", Int(hours), "total_amount", FloatOf(total), m2, "transaction_count");
    ThreeFields("currency", Str(currency), "transaction_count", Int(count), m0, "transaction_count");
    ThreeFields("window_hours", Int(hours), "total_amount", FloatOf(total), m2, "threshold");
    ThreeFields("currency", Str(currency), "transaction_count", Int(count), m0, "threshold");
    FirstField("threshold", FloatOf(threshold), NoMembers, "threshold");
  }

  lemma ThreeFields(k1: string, v1: Value, k2: string, v2: Value, rest: Members, name: string)
    ensures Field(Obj(Member(k1, v1, Member(k2, v2, rest))), name)
         == if name == k1 then v1 else if name == k2 then v2 else Field(Obj(rest), name)
  {
    hide Field;
    FirstField(k1, v1, Member(k2, v2, rest), name);
    FirstField(k2, v2, rest, name);
  }

  /** What the details of the other alerts show. */
  lemma LargeFields(amount: int, currency: string, threshold: int)
    ensures var d := DetailValue(LargeDetail(amount, currency, threshold));
      && Field(d, "amount") == FloatOf(amount) && Field(d, "currency") == Str(currency)
      && Field(d, "threshold") == FloatOf(threshold)
  {
    hide Field, FloatOf;
    var m := Member("threshold", FloatOf(threshold), NoMembers);
    ThreeFields("amount", FloatOf(amount), "currency", Str(currency), m, "amount");
    ThreeFields("amount", FloatOf(amount), "currency", Str(currency), m, "currency");
    ThreeFields("amount", FloatOf(amount), "currency", Str(currency), m, "threshold");
    FirstField("threshold", FloatOf(threshold), NoMembers, "threshold");
  }

  lemma RoundFields(amount: int, currency: string, modulus: int)
    ensures var d := DetailValue(RoundDetail(amount, currency, modulus));
      && Field(d, "amount") == FloatOf(amount) && Field(d, "currency") == Str(currency)
      && Field(d, "modulus") == FloatOf(modulus)
  {
    hide Field, FloatOf;
    var m := Member("modulus", FloatOf(modulus), NoMembers);
    ThreeFields("amount", FloatOf(amount), "currency", Str(currency), m, "amount");
    ThreeFields("amount", FloatOf(amount), "currency", Str(currency), m, "currency");
    ThreeFields("amount", FloatOf(amount), "currency", Str(currency), m, "modulus");
    FirstField("modulus", FloatOf(modulus), NoMembers, "modulus");
  }

  /** Transaction j has a LARGE_AMOUNT alert exactly when its amount reaches the threshold; the alert
      is of high severity and shows the amount, the currency and the threshold. */
  lemma LargeAlerts(sha: Sha, s: Settings, ts: seq<Txn>, reqs: seq<Request>, j: nat)
    requires Served(s, ts, reqs) && Ran(sha, s, ts, reqs, j)
    ensures var rows, tenant, txn := RowsAfter(sha, ts), ts[j].pin.value, reqs[j].ids(0);
      (exists a :: Alerted(rows, tenant, txn, "LARGE_AMOUNT", a)) <==> Hundredths(reqs[j].amount) >= s.largeThreshold
    ensures forall a :: Alerted(RowsAfter(sha, ts), ts[j].pin.value, reqs[j].ids(0), "LARGE_AMOUNT", a) ==>
              var cols := RowsAfter(sha, ts)[a].cols;
              && Col(cols, "severity") == Str("high")
              && Field(Col(cols, "detail"), "amount") == FloatOf(Hundredths(reqs[j].amount))
              && Field(Col(cols, "detail"), "currency") == Str(reqs[j].currency)
              && Field(Col(cols, "detail"), "threshold") == FloatOf(s.largeThreshold)
  {
    hide Serves, Effect, DetailValue, RowsAfter, Col, Found, Field, Alerted;
    AlertsExact(sha, s, ts, reqs, j, LargeAmount);
    assert forall a :: AlertOf(sha, s, ts, reqs, j, LargeAmount, a)
                   <==> Alerted(RowsAfter(sha, ts), ts[j].pin.value, reqs[j].ids(0), "LARGE_AMOUNT", a);
    LargeFields(Hundredths(reqs[j].amount), reqs[j].currency, s.largeThreshold);
    forall a | Alerted(RowsAfter(sha, ts), ts[j].pin.value, reqs[j].ids(0), "LARGE_AMOUNT", a)
      ensures a in RowsAfter(sha, ts) && Col(RowsAfter(sha, ts)[a].cols, "severity") == Str("high")
    {
      AlertedThere(RowsAfter(sha, ts), ts[j].pin.value, reqs[j].ids(0), "LARGE_AMOUNT", a);
      AlertIsVerdict(sha, s, ts, reqs, j, LargeAmount, a);
    }
  }

  /** And a ROUND_AMOUNT alert exactly when its amount is at least the minimum and a multiple of the
      modulus; the alert is of low severity and shows the amount, the currency and the modulus. */
  lemma RoundAlerts(sha: Sha, s: Settings, ts: seq<Txn>, reqs: seq<Request>, j: nat)
    requires Served(s, ts, reqs) && Ran(sha, s, ts, reqs, j)
    ensures var rows, tenant, txn := RowsAfter(sha, ts), ts[j].pin.value, reqs[j].ids(0);
            var amount := Hundredths(reqs[j].amount);
      (exists a :: Alerted(rows, tenant, txn, "ROUND_AMOUNT", a))
      <==> amount >= s.roundMinimum && exists n: int :: amount == n * s.roundModulus
    ensures forall a :: Alerted(RowsAfter(sha, ts), ts[j].pin.value, reqs[j].ids(0), "ROUND_AMOUNT", a) ==>
              var cols := RowsAfter(sha, ts)[a].cols;
              && Col(cols, "severity") == Str("low")
              && Field(Col(cols, "detail"), "amount") == FloatOf(Hundredths(reqs[j].amount))
              && Field(Col(cols, "detail"), "currency") == Str(reqs[j].currency)
              && Field(Col(cols, "detail"), "modulus") == FloatOf(s.roundModulus)
  {
    hide Serves, Effect, DetailValue, RowsAfter, Col, Found, Field, Alerted;
    AlertsExact(sha, s, ts, reqs, j, RoundAmount);
    assert forall a :: AlertOf(sha, s, ts, reqs, j, RoundAmount, a)
                   <==> Alerted(RowsAfter(sha, ts), ts[j].pin.value, reqs[j].ids(0), "ROUND_AMOUNT", a);
    Multiple(Hundredths(reqs[j].amount), s.roundModulus);
    RoundFields(Hundredths(reqs[j].amount), reqs[j].currency, s.roundModulus);
    forall a | Alerted(RowsAfter(sha, ts), ts[j].pin.value, reqs[j].ids(0), "ROUND_AMOUNT", a)
      ensures a in RowsAfter(sha, ts) && Col(RowsAfter(sha, ts)[a].cols, "severity") == Str("low")
    {
      AlertedThere(RowsAfter(sha, ts), ts[j].pin.value, reqs[j].ids(0), "ROUND_AMOUNT", a);
      AlertIsVerdict(sha, s, ts, reqs, j, RoundAmount, a);
    }
  }

  lemma AlertedThere(rows: Rows, tenant: Uuid, txn: Uuid, code: string, a: Key)
    requires Alerted(rows, tenant, txn, code, a)
    ensures a in rows
  {}

  /** The velocity alert of transaction j is witnessed by recorded sub-cutoff transactions of its
      window, none of which raised LARGE_AMOUNT: they meet both thresholds, and the alert's detail
      shows their exact sum and count. */
  lemma VelocityOf(sha: Sha, s: Settings, ts: seq<Txn>, reqs: seq<Request>, j: nat, a: Key)
    requires Served(s, ts, reqs) && Ran(sha, s, ts, reqs, j) && AlertOf(sha, s, ts, reqs, j, VelocityStructuring, a)
    ensures exists part :: WitnessedBy(sha, s, ts, RowsAfter(sha, ts), reqs[j], j, part, a)
  {
    hide Serves, Effect, DetailValue, RowsAfter, Alerted, Col, Found, Field;
    AlertIsVerdict(sha, s, ts, reqs, j, VelocityStructuring, a);
    AlertedThere(RowsAfter(sha, ts), ts[j].pin.value, reqs[j].ids(0), "VELOCITY_STRUCTURING", a);
    var table, t, rows := TableAfter(sha, ts, j), Evaluated(reqs[j], ts[j].now), RowsAfter(sha, ts);
    var part := Window(s, table, t);
    forall k | k in part
      ensures k in rows && rows[k] == table[k]
      ensures !exists b :: Alerted(rows, ts[j].pin.value, k.id, "LARGE_AMOUNT", b)
    {
      StaysSame(sha, s, ts, reqs, j + 1, k);
      forall b | Alerted(rows, ts[j].pin.value, k.id, "LARGE_AMOUNT", b)
        ensures false
      {
        LargeAlertIsLarge(sha, s, ts, reqs, ts[j].pin.value, k, b);
      }
    }
    TotalFrame(table, rows, part);
    VelocityFields(s.windowHours, Total(rows, part), reqs[j].currency, |part|, s.velocityThreshold);
    assert WitnessedBy(sha, s, ts, rows, reqs[j], j, part, a);
  }

  predicate VelocityAlert(rows: Rows, a: Key) {
    a in rows && a.table == "transaction_alerts" && Col(rows[a].cols, "rule_code") == Str("VELOCITY_STRUCTURING")
  }

  /** Transaction j raised velocity alert a, and these transactions are its witnesses. */
  ghost predicate Explained(sha: Sha, s: Settings, ts: seq<Txn>, reqs: seq<Request>, rows: Rows, a: Key, j: nat,
                            part: set<Key>) {
    && Ran(sha, s, ts, reqs, j)
    && Alerted(rows, ts[j].pin.value, reqs[j].ids(0), "VELOCITY_STRUCTURING", a)
    && WitnessedBy(sha, s, ts, rows, reqs[j], j, part, a)
  }

  /** Every velocity alert of every run is so witnessed. */
  lemma VelocitySound(sha: Sha, s: Settings, ts: seq<Txn>, reqs: seq<Request>, a: Key)
    requires Served(s, ts, reqs) && VelocityAlert(RowsAfter(sha, ts), a)
    ensures exists j, part :: Explained(sha, s, ts, reqs, RowsAfter(sha, ts), a, j, part)
  {
    hide Serves, RowsAfter, Found, Effect, WitnessedBy, AlertRow;
    var j, i := Provenance(sha, s, ts, reqs, a);
    var f := Found(sha, s, ts, reqs, j)[i];
    AlertColumns(ts[j].pin.value, reqs[j].customer, reqs[j].ids(0), f, a.id);
    VelocityOf(sha, s, ts, reqs, j, a);
    var part :| WitnessedBy(sha, s, ts, RowsAfter(sha, ts), reqs[j], j, part, a);
    assert Explained(sha, s, ts, reqs, RowsAfter(sha, ts), a, j, part);
  }

  // ---------- Every interleaving ----------

  lemma RowsOfRun(sha: Sha, evs: seq<Event>)
    ensures RowsAfter(sha, History(sha, evs)) == Run(sha, evs).db.rows
  {
    Serialisable(sha, evs);
  }

  lemma LargeFlaggedInterleaved(sha: Sha, s: Settings, evs: seq<Event>, reqs: seq<Request>, k: Key)
    requires Served(s, History(sha, evs), reqs) && k in Run(sha, evs).db.rows && k.table == "transactions"
    requires Amount(Run(sha, evs).db.rows[k]) >= s.largeThreshold
    ensures Flagged(Run(sha, evs).db.rows, Run(sha, evs).db.rows[k].tenant, k.id)
  {
    hide Served, Flagged, RowsAfter, Run, History;
    RowsOfRun(sha, evs);
    LargeFlagged(sha, s, History(sha, evs), reqs, k);
  }

  lemma AlertsExactInterleaved(sha: Sha, s: Settings, evs: seq<Event>, reqs: seq<Request>, j: nat, r: Rule)
    requires Served(s, History(sha, evs), reqs) && Ran(sha, s, History(sha, evs), reqs, j)
    ensures var ts, rows := History(sha, evs), Run(sha, evs).db.rows;
            var tenant, txn, verdict := ts[j].pin.value, reqs[j].ids(0), Verdict(sha, s, ts, reqs, j, r);
      && ((exists a :: Alerted(rows, tenant, txn, Code(r), a)) <==> verdict.Some?)
      && (forall a :: Alerted(rows, tenant, txn, Code(r), a) ==>
            verdict.Some? && Col(rows[a].cols, "detail") == DetailValue(verdict.value.detail))
      && (forall a, b :: Alerted(rows, tenant, txn, Code(r), a) && Alerted(rows, tenant, txn, Code(r), b) ==> a == b)
  {
    hide Served, Effect, RowsAfter, Run, History, Verdict, DetailValue, Alerted;
    var ts := History(sha, evs);
    RowsOfRun(sha, evs);
    AlertsExact(sha, s, ts, reqs, j, r);
    assert forall a :: AlertOf(sha, s, ts, reqs, j, r, a)
                  <==> Alerted(Run(sha, evs).db.rows, ts[j].pin.value, reqs[j].ids(0), Code(r), a);
    forall a | Alerted(Run(sha, evs).db.rows, ts[j].pin.value, reqs[j].ids(0), Code(r), a)
      ensures a in Run(sha, evs).db.rows
    {
      AlertedThere(Run(sha, evs).db.rows, ts[j].pin.value, reqs[j].ids(0), Code(r), a);
    }
  }

  lemma VelocitySoundInterleaved(sha: Sha, s: Settings, evs: seq<Event>, reqs: seq<Request>, a: Key)
    requires Served(s, History(sha, evs), reqs) && VelocityAlert(Run(sha, evs).db.rows, a)
    ensures exists j, part :: Explained(sha, s, History(sha, evs), reqs, Run(sha, evs).db.rows, a, j, part)
  {
    hide Served, Explained, RowsAfter, Run, History, VelocityAlert;
    RowsOfRun(sha, evs);
    VelocitySound(sha, s, History(sha, evs), reqs, a);
  }
}
