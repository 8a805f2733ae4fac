/** Exactly when splitting escapes the velocity rule. A session's transactions are stamped with the
    time it started, but the rules see what was recorded before: so the member of a burst that is
    recorded last decides, and it counts the others only if it started no earlier than they did. */
module Timing {
  import opened Chain
  import opened ColumnTypes
  import opened Database
  import opened Sessions
  import opened Monitoring
  import opened Services
  import opened Effects
  import opened Compliance
  import opened Alerts

  /** The rows meet both thresholds of the velocity rule. */
  ghost predicate Fires(s: Settings, rows: Rows, keys: set<Key>) {
    keys <= rows.Keys && keys != {} && |keys| >= s.minTransactions && Total(rows, keys) >= s.velocityThreshold
  }

  /** No member of the burst can be spared. */
  ghost predicate Minimal(s: Settings, rows: Rows, part: set<Key>) {
    forall k :: k in part ==> !Fires(s, rows, part - {k})
  }

  /** The velocity rule may count k when it evaluates member m. */
  predicate Near(s: Settings, rows: Rows, m: Key, k: Key) {
    m in rows && k in rows && rows[m].createdAt - WindowLength(s) <= rows[k].createdAt <= rows[m].createdAt
  }

  /** In the window before any member the customer has no other transaction below the cutoff in this
      currency. */
  ghost predicate Alone(s: Settings, rows: Rows, tenant: Uuid, customer: Uuid, currency: string, part: set<Key>) {
    forall k, m ::
      && m in part && Near(s, rows, m, k) && IsTransaction(rows, k, customer, currency)
      && rows[k].tenant == tenant && Amount(rows[k]) < s.largeThreshold
      ==> k in part
  }

  predicate AllBefore(before: Rows, part: set<Key>, last: Key) { last !in before && part - {last} <= before.Keys }

  /** Every other member was recorded before this one. */
  ghost predicate LastRecorded(sha: Sha, ts: seq<Txn>, part: set<Key>, last: Key) {
    last in part && exists n :: 0 <= n <= |ts| && AllBefore(RowsAfter(sha, ts[..n]), part, last)
  }

  /** It started no earlier than any other. */
  predicate StartedLast(rows: Rows, part: set<Key>, last: Key) {
    part <= rows.Keys && last in part && forall k :: k in part ==> rows[k].createdAt <= rows[last].createdAt
  }

  // ---------- The request that recorded a transaction ----------

  lemma {:induction false} TransactionProvenance(sha: Sha, s: Settings, ts: seq<Txn>, reqs: seq<Request>, k: Key)
    returns (j: nat)
    requires Served(s, ts, reqs) && k in RowsAfter(sha, ts) && k.table == "transactions"
    ensures Ran(sha, s, ts, reqs, j) && reqs[j].ids(0) == k.id
  {
    hide Serial, Serves, NewRows, Added;
    if ts == [] {
      NoTransactions(sha);
    } else {
      var n := |ts| - 1;
      var rows, rows' := RowsAfter(sha, ts[..n]), RowsAfter(sha, ts);
      LastStep(sha, s, ts, reqs);
      if k in rows {
        j := TransactionProvenance(sha, s, ts[..n], reqs[..n], k);
        RanPrefix(sha, s, ts, reqs, n, j);
      } else {
        NewAmount(s, rows, rows', ts[n].pin.value, ts[n].now, reqs[n], ts[n].ops, k);
        j := n;
        assert ts[..n + 1] == ts;
      }
    }
  }

  lemma RecordedRow(sha: Sha, s: Settings, ts: seq<Txn>, reqs: seq<Request>, j: nat)
    requires Served(s, ts, reqs) && Ran(sha, s, ts, reqs, j)
    ensures var k, rows := Key("transactions", reqs[j].ids(0)), RowsAfter(sha, ts);
      && k in rows && rows[k].tenant == ts[j].pin.value && rows[k].createdAt == ts[j].now
      && Amount(rows[k]) == Hundredths(reqs[j].amount)
      && forall customer, currency ::
           IsTransaction(rows, k, customer, currency) <==> customer == reqs[j].customer && currency == reqs[j].currency
  {
    hide Serves, RowsAfter, Effect, Amount;
    var k := Key("transactions", reqs[j].ids(0));
    TransactionKey(sha, s, ts, reqs, j);
    NewAmount(s, RowsAfter(sha, ts[..j]), RowsAfter(sha, ts[..j + 1]), ts[j].pin.value, ts[j].now, reqs[j], ts[j].ops,
              k);
    StaysSame(sha, s, ts, reqs, j + 1, k);
    forall customer, currency
      ensures IsTransaction(RowsAfter(sha, ts), k, customer, currency)
         <==> IsTransaction(RowsAfter(sha, ts[..j + 1]), k, customer, currency)
    {}
  }

  /** The member recorded last exists. */
  lemma {:induction false} LastExists(sha: Sha, s: Settings, ts: seq<Txn>, reqs: seq<Request>, part: set<Key>)
    requires Served(s, ts, reqs) && part != {} && part <= RowsAfter(sha, ts).Keys
    requires forall k :: k in part ==> k.table == "transactions"
    ensures exists last :: LastRecorded(sha, ts, part, last)
  {
    hide Serial, Serves, NewRows, Added;
    if ts == [] {
      NoTransactions(sha);
    } else {
      var n := |ts| - 1;
      var rows, rows' := RowsAfter(sha, ts[..n]), RowsAfter(sha, ts);
      LastStep(sha, s, ts, reqs);
      if part <= rows.Keys {
        LastExists(sha, s, ts[..n], reqs[..n], part);
        var last :| LastRecorded(sha, ts[..n], part, last);
        var m :| 0 <= m <= n && AllBefore(RowsAfter(sha, ts[..n][..m]), part, last);
        assert ts[..n][..m] == ts[..m];
        assert LastRecorded(sha, ts, part, last);
      } else {
        var last :| last in part && last !in rows;
        forall k | k in part - {last}
          ensures k in rows
        {
          OneRecorded(s, rows, rows', ts[n], reqs[n], last, k);
        }
        assert LastRecorded(sha, ts, part, last);
      }
    }
  }

  /** A session records at most one transaction. */
  lemma OneRecorded(s: Settings, rows: Rows, rows': Rows, t: Txn, req: Request, a: Key, b: Key)
    requires Moved(s, rows, rows', t, req) && a in rows' && a !in rows && b in rows' && a != b
    requires a.table == "transactions" && b.table == "transactions"
    ensures b in rows
  {
    hide Effect;
    NewAmount(s, rows, rows', t.pin.value, t.now, req, t.ops, a);
    if b !in rows {
      NewAmount(s, rows, rows', t.pin.value, t.now, req, t.ops, b);
    }
  }

  // ---------- If it started last, it is flagged ----------

  lemma KeptSince(sha: Sha, s: Settings, ts: seq<Txn>, reqs: seq<Request>, n: nat)
    requires Served(s, ts, reqs) && n <= |ts|
    ensures Kept(RowsAfter(sha, ts[..n]), RowsAfter(sha, ts))
  {
    hide RowsAfter, Served, SameFrozen;
    forall k | k in RowsAfter(sha, ts[..n]) && k.table in GUARDED
      ensures k in RowsAfter(sha, ts) && SameFrozen(k, RowsAfter(sha, ts[..n])[k], RowsAfter(sha, ts)[k])
    {
      RowsStay(sha, s, ts, reqs, n, k);
    }
  }

  /** The others were there when the last one was recorded. */
  lemma OthersFirst(sha: Sha, s: Settings, ts: seq<Txn>, reqs: seq<Request>, part: set<Key>, last: Key, j: nat, k: Key)
    requires Served(s, ts, reqs) && LastRecorded(sha, ts, part, last) && last.table == "transactions"
    requires Ran(sha, s, ts, reqs, j) && reqs[j].ids(0) == last.id && k in part - {last} && k.table == "transactions"
    ensures k in RowsAfter(sha, ts[..j])
  {
    hide RowsAfter, Serves, Effect;
    var n :| 0 <= n <= |ts| && AllBefore(RowsAfter(sha, ts[..n]), part, last);
    TransactionKey(sha, s, ts, reqs, j);
    if j < n {
      ServedPrefix(s, ts, reqs, n);
      assert ts[..n][..j + 1] == ts[..j + 1];
      StaysSame(sha, s, ts[..n], reqs[..n], j + 1, last);
    } else {
      ServedPrefix(s, ts, reqs, j);
      assert ts[..j][..n] == ts[..n];
      StaysSame(sha, s, ts[..j], reqs[..j], n, k);
    }
  }

  lemma BurstThen(sha: Sha, s: Settings, ts: seq<Txn>, reqs: seq<Request>,
                  tenant: Uuid, customer: Uuid, currency: string, part: set<Key>, last: Key, j: nat)
    requires Served(s, ts, reqs) && Burst(s, RowsAfter(sha, ts), tenant, customer, currency, part)
    requires LastRecorded(sha, ts, part, last) && Ran(sha, s, ts, reqs, j) && reqs[j].ids(0) == last.id
    ensures SameTransactions(RowsAfter(sha, ts[..j + 1]), RowsAfter(sha, ts), part)
    ensures Burst(s, RowsAfter(sha, ts[..j + 1]), tenant, customer, currency, part)
  {
    hide RowsAfter, Serves, Effect, IsTransaction, WindowLength, LastRecorded;
    PartTables(s, RowsAfter(sha, ts), tenant, customer, currency, part);
    assert last in part by { LastIn(sha, ts, part, last); }
    TransactionKey(sha, s, ts, reqs, j);
    forall k | k in part
      ensures k in RowsAfter(sha, ts[..j + 1]) && RowsAfter(sha, ts[..j + 1])[k] == RowsAfter(sha, ts)[k]
    {
      if k != last {
        OthersFirst(sha, s, ts, reqs, part, last, j, k);
        ServedPrefix(s, ts, reqs, j + 1);
        assert ts[..j + 1][..j] == ts[..j];
        StaysSame(sha, s, ts[..j + 1], reqs[..j + 1], j, k);
      }
      StaysSame(sha, s, ts, reqs, j + 1, k);
    }
    BurstBefore(s, RowsAfter(sha, ts[..j + 1]), RowsAfter(sha, ts), tenant, customer, currency, part);
  }

  lemma LastIn(sha: Sha, ts: seq<Txn>, part: set<Key>, last: Key)
    requires LastRecorded(sha, ts, part, last)
    ensures last in part
  {}

  lemma LastFlagged(sha: Sha, s: Settings, ts: seq<Txn>, reqs: seq<Request>,
                    tenant: Uuid, customer: Uuid, currency: string, part: set<Key>, last: Key)
    requires Served(s, ts, reqs) && Burst(s, RowsAfter(sha, ts), tenant, customer, currency, part)
    requires LastRecorded(sha, ts, part, last) && StartedLast(RowsAfter(sha, ts), part, last)
    requires forall k :: k in part ==> Amount(RowsAfter(sha, ts)[k]) < s.largeThreshold
    ensures Flagged(RowsAfter(sha, ts), tenant, last.id)
  {
    hide RowsAfter, Serves, Effect, IsTransaction, Burst, LastRecorded, Flagged, Kept, RunOps, Serial;
    var rows := RowsAfter(sha, ts);
    PartTables(s, rows, tenant, customer, currency, part);
    var j := TransactionProvenance(sha, s, ts, reqs, last);
    BurstThen(sha, s, ts, reqs, tenant, customer, currency, part, last, j);
    RecordedRow(sha, s, ts, reqs, j);
    RanRuns(sha, s, ts, reqs, j);
    TransactionKey(sha, s, ts, reqs, j);
    ServedPrefix(s, ts, reqs, j + 1);
    RunNonnegative(sha, s, ts[..j + 1], reqs[..j + 1]);
    RowsAre(sha, ts[..j]);
    CompletedBurst(sha, s, Serial(sha, EMPTY, ts[..j]), RowsAfter(sha, ts[..j + 1]), ts[j], reqs[j],
                   customer, currency, part, last);
    KeptSince(sha, s, ts, reqs, j + 1);
    FlaggedStays(RowsAfter(sha, ts[..j + 1]), rows, tenant, last.id);
  }

  lemma RowsAre(sha: Sha, ts: seq<Txn>)
    ensures RowsAfter(sha, ts) == Serial(sha, EMPTY, ts).rows
  {}

  // ---------- If it did not, nobody is ----------

  /** A velocity verdict on a member counts members only. */
  lemma WindowInBurst(sha: Sha, s: Settings, ts: seq<Txn>, reqs: seq<Request>, customer: Uuid, currency: string,
                      part: set<Key>, j: nat, k: Key)
    requires Served(s, ts, reqs) && Ran(sha, s, ts, reqs, j)
    requires reqs[j].customer == customer && reqs[j].currency == currency
    requires Alone(s, RowsAfter(sha, ts), ts[j].pin.value, customer, currency, part)
    requires Key("transactions", reqs[j].ids(0)) in part
    requires k in Window(s, TableAfter(sha, ts, j), Evaluated(reqs[j], ts[j].now))
    ensures k in part && k in RowsAfter(sha, ts[..j + 1])
    ensures k in RowsAfter(sha, ts) && k in TableAfter(sha, ts, j) && RowsAfter(sha, ts)[k] == TableAfter(sha, ts, j)[k]
    ensures RowsAfter(sha, ts)[k].createdAt <= ts[j].now
  {
    hide RowsAfter, Serves, Effect, Amount, WindowLength;
    StaysSame(sha, s, ts, reqs, j + 1, k);
    RecordedRow(sha, s, ts, reqs, j);
    assert IsTransaction(RowsAfter(sha, ts), k, customer, currency);
    assert Near(s, RowsAfter(sha, ts), Key("transactions", reqs[j].ids(0)), k);
  }

  /** The thresholds are still met by more rows, none of them negative. */
  lemma FiresMore(s: Settings, table: Rows, rows: Rows, keys: set<Key>, all: set<Key>)
    requires Fires(s, table, keys) && keys <= all <= rows.Keys && forall k :: k in keys ==> rows[k] == table[k]
    requires forall k :: k in all ==> Amount(rows[k]) >= 0
    ensures Fires(s, rows, all)
  {
    TotalFrame(table, rows, keys);
    TotalMonotone(rows, keys, all);
  }

  lemma VelocityMeans(sha: Sha, s: Settings, ts: seq<Txn>, reqs: seq<Request>, j: nat)
    requires j < |ts| == |reqs| && reqs[j].RecordTransaction? && ts[j].Session?
    requires Alerts.Verdict(sha, s, ts, reqs, j, VelocityStructuring).Some?
    ensures var table := TableAfter(sha, ts, j); Fires(s, table, Window(s, table, Evaluated(reqs[j], ts[j].now)))
  {
    hide RowsAfter, Visible;
  }

  /** A member can be spared from every window a velocity alert of the burst counted. */
  lemma MissedMember(sha: Sha, s: Settings, ts: seq<Txn>, reqs: seq<Request>, tenant: Uuid, customer: Uuid,
                     currency: string, part: set<Key>, missed: Key, j: nat)
    requires Served(s, ts, reqs) && Ran(sha, s, ts, reqs, j) && Minimal(s, RowsAfter(sha, ts), part)
    requires part <= RowsAfter(sha, ts).Keys && (forall k :: k in part ==> k.table == "transactions") && missed in part
    requires reqs[j].customer == customer && reqs[j].currency == currency && ts[j].pin.value == tenant
    requires Key("transactions", reqs[j].ids(0)) in part
    requires Alone(s, RowsAfter(sha, ts), tenant, customer, currency, part)
    requires missed !in RowsAfter(sha, ts[..j + 1]) || RowsAfter(sha, ts)[missed].createdAt > ts[j].now
    ensures Alerts.Verdict(sha, s, ts, reqs, j, VelocityStructuring).None?
  {
    hide RowsAfter, Serves, Effect, Alone, TableAfter, Fires, Alerts.Verdict, Amount, Window, Evaluated;
    if Alerts.Verdict(sha, s, ts, reqs, j, VelocityStructuring).Some? {
      VelocityMeans(sha, s, ts, reqs, j);
      var table, rows := TableAfter(sha, ts, j), RowsAfter(sha, ts);
      var window := Window(s, table, Evaluated(reqs[j], ts[j].now));
      forall k | k in window
        ensures k in part - {missed} && k in rows && k in table && rows[k] == table[k]
      {
        WindowInBurst(sha, s, ts, reqs, customer, currency, part, j, k);
      }
      forall k | k in part
        ensures Amount(rows[k]) >= 0
      {
        AmountsNonnegative(sha, s, ts, reqs, k);
      }
      FiresMore(s, table, rows, window, part - {missed});
    }
  }

  /** A flagged member was flagged by a rule that fired on it. */
  lemma FlaggedByRule(sha: Sha, s: Settings, ts: seq<Txn>, reqs: seq<Request>, j: nat)
    requires Served(s, ts, reqs) && Ran(sha, s, ts, reqs, j)
    requires Flagged(RowsAfter(sha, ts), ts[j].pin.value, reqs[j].ids(0))
    ensures Alerts.Verdict(sha, s, ts, reqs, j, LargeAmount).Some?
        || Alerts.Verdict(sha, s, ts, reqs, j, VelocityStructuring).Some?
  {
    hide RowsAfter, Serves, Effect, Alerts.Verdict, Alerted, CaseFor, Found;
    var code, a :| code in {"LARGE_AMOUNT", "VELOCITY_STRUCTURING"}
                && Alerted(RowsAfter(sha, ts), ts[j].pin.value, reqs[j].ids(0), code, a);
    var r := if code == "LARGE_AMOUNT" then LargeAmount else VelocityStructuring;
    assert AlertOf(sha, s, ts, reqs, j, r, a);
    AlertIsVerdict(sha, s, ts, reqs, j, r, a);
  }

  lemma NoneFlagged(sha: Sha, s: Settings, ts: seq<Txn>, reqs: seq<Request>,
                    tenant: Uuid, customer: Uuid, currency: string, part: set<Key>, last: Key, k: Key)
    requires Served(s, ts, reqs) && Burst(s, RowsAfter(sha, ts), tenant, customer, currency, part)
    requires Minimal(s, RowsAfter(sha, ts), part) && Alone(s, RowsAfter(sha, ts), tenant, customer, currency, part)
    requires LastRecorded(sha, ts, part, last) && !StartedLast(RowsAfter(sha, ts), part, last)
    requires k in part && Amount(RowsAfter(sha, ts)[k]) < s.largeThreshold
    ensures !Flagged(RowsAfter(sha, ts), tenant, k.id)
  {
    hide RowsAfter, Serves, Effect, Alone, Minimal, Flagged, Alerts.Verdict, Amount, LastRecorded, WindowLength;
    var rows := RowsAfter(sha, ts);
    PartTables(s, rows, tenant, customer, currency, part);
    LastIn(sha, ts, part, last);
    var j := TransactionProvenance(sha, s, ts, reqs, k);
    RecordedRow(sha, s, ts, reqs, j);
    assert IsTransaction(rows, k, customer, currency);
    var late :| late in part && rows[late].createdAt > rows[last].createdAt;
    if Flagged(rows, tenant, k.id) {
      FlaggedByRule(sha, s, ts, reqs, j);
      if k == last {
        MissedMember(sha, s, ts, reqs, tenant, customer, currency, part, late, j);
      } else {
        NotYet(sha, s, ts, reqs, part, last, k, j);
        MissedMember(sha, s, ts, reqs, tenant, customer, currency, part, last, j);
      }
      LargeVerdict(sha, s, ts, reqs, j);
    }
  }

  /** When another member was recorded, the last one was not. */
  lemma NotYet(sha: Sha, s: Settings, ts: seq<Txn>, reqs: seq<Request>, part: set<Key>, last: Key, k: Key, j: nat)
    requires Served(s, ts, reqs) && LastRecorded(sha, ts, part, last) && last.table == "transactions"
    requires k in part - {last} && k.table == "transactions" && Ran(sha, s, ts, reqs, j) && reqs[j].ids(0) == k.id
    ensures last !in RowsAfter(sha, ts[..j + 1])
  {
    hide RowsAfter, Serves, Effect;
    var n :| 0 <= n <= |ts| && AllBefore(RowsAfter(sha, ts[..n]), part, last);
    TransactionKey(sha, s, ts, reqs, j);
    if n <= j {
      ServedPrefix(s, ts, reqs, j);
      assert ts[..j][..n] == ts[..n];
      StaysSame(sha, s, ts[..j], reqs[..j], n, k);
    } else if last in RowsAfter(sha, ts[..j + 1]) {
      ServedPrefix(s, ts, reqs, n);
      assert ts[..n][..j + 1] == ts[..j + 1];
      StaysSame(sha, s, ts[..n], reqs[..n], j + 1, last);
    }
  }

  // ---------- Both ----------

  /** A burst of any size that stands alone and can spare no member has a flagged member exactly
      when one member is itself large, or the member recorded last started no earlier than the others. */
  lemma FlaggedExactly(sha: Sha, s: Settings, ts: seq<Txn>, reqs: seq<Request>,
                       tenant: Uuid, customer: Uuid, currency: string, part: set<Key>, last: Key)
    requires Served(s, ts, reqs) && Burst(s, RowsAfter(sha, ts), tenant, customer, currency, part)
    requires Minimal(s, RowsAfter(sha, ts), part) && Alone(s, RowsAfter(sha, ts), tenant, customer, currency, part)
    requires LastRecorded(sha, ts, part, last)
    ensures (exists k :: k in part && Flagged(RowsAfter(sha, ts), tenant, k.id)) <==>
      (exists k :: k in part && Amount(RowsAfter(sha, ts)[k]) >= s.largeThreshold)
      || StartedLast(RowsAfter(sha, ts), part, last)
  {
    hide RowsAfter, Serves, Alone, Minimal, Flagged, Amount, LastRecorded, WindowLength, StartedLast, IsTransaction;
    var rows := RowsAfter(sha, ts);
    PartTables(s, rows, tenant, customer, currency, part);
    LastIn(sha, ts, part, last);
    if k :| k in part && Amount(rows[k]) >= s.largeThreshold {
      LargeFlagged(sha, s, ts, reqs, k);
    } else if StartedLast(rows, part, last) {
      LastFlagged(sha, s, ts, reqs, tenant, customer, currency, part, last);
    } else {
      forall k | k in part
        ensures !Flagged(rows, tenant, k.id)
      {
        NoneFlagged(sha, s, ts, reqs, tenant, customer, currency, part, last, k);
      }
    }
  }

  /** The same of the committed rows of every interleaving. */
  lemma FlaggedExactlyInterleaved(sha: Sha, s: Settings, evs: seq<Event>, reqs: seq<Request>,
                                  tenant: Uuid, customer: Uuid, currency: string, part: set<Key>)
    requires Served(s, History(sha, evs), reqs)
    requires Burst(s, Run(sha, evs).db.rows, tenant, customer, currency, part)
    requires Minimal(s, Run(sha, evs).db.rows, part)
    requires Alone(s, Run(sha, evs).db.rows, tenant, customer, currency, part)
    ensures exists last :: LastRecorded(sha, History(sha, evs), part, last)
    ensures forall last :: LastRecorded(sha, History(sha, evs), part, last) ==>
      ((exists k :: k in part && Flagged(Run(sha, evs).db.rows, tenant, k.id)) <==>
        (exists k :: k in part && Amount(Run(sha, evs).db.rows[k]) >= s.largeThreshold)
        || StartedLast(Run(sha, evs).db.rows, part, last))
  {
    hide Served, Flagged, Run, History, RowsAfter, Alone, Minimal, LastRecorded, StartedLast, Amount, IsTransaction;
    RowsOfRun(sha, evs);
    PartTables(s, RowsAfter(sha, History(sha, evs)), tenant, customer, currency, part);
    LastExists(sha, s, History(sha, evs), reqs, part);
    forall last | LastRecorded(sha, History(sha, evs), part, last)
      ensures (exists k :: k in part && Flagged(Run(sha, evs).db.rows, tenant, k.id)) <==>
        (exists k :: k in part && Amount(Run(sha, evs).db.rows[k]) >= s.largeThreshold)
        || StartedLast(Run(sha, evs).db.rows, part, last)
    {
      FlaggedExactly(sha, s, History(sha, evs), reqs, tenant, customer, currency, part, last);
    }
  }
}
