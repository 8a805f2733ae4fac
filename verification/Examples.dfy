/** Three concrete runs, from an empty database, for any hash function: a split amount that escapes the
    velocity rule under the shipped settings, a whole float that is flagged, and a row that its log
    does not show literally. */
module Examples {
  import opened Wrappers
  import opened Json
  import opened Chain
  import opened ColumnTypes
  import opened Database
  import opened Replay
  import opened LiteralReplay
  import opened Sessions
  import opened Monitoring
  import opened Services
  import opened Effects
  import opened Compliance
  import opened Alerts
  import opened Conservation
  import opened Admission
  import opened Timing
  import opened Reachability

  /** The defaults of app/config.py, in hundredths. */
  const DEFAULTS: Settings := Settings(500_000_000, 24, 300_000_000, 3, 10_000_000, 100_000_000, Medium)

  /** A few distinct ids. */
  function Id(n: nat): Uuid { seq(35, _ => '0') + [(97 + n % 26) as char] }

  lemma IdsDiffer(i: nat, j: nat)
    requires i < 26 && j < 26 && i != j
    ensures Id(i) != Id(j)
  {
    assert Id(i)[35] != Id(j)[35];
  }

  const TENANT: Uuid := Id(24)
  const CUSTOMER: Uuid := Id(25)

  function IdsFrom(n: nat): Ids { (i: nat) => Id(n + i) }

  /** The n-th request of these runs takes its ids from 7n on. */
  function Recording(n: nat, amount: Value): Request { RecordTransaction(CUSTOMER, amount, "NGN", IdsFrom(7 * n)) }

  // ---------- Serving requests one after the other ----------

  predicate UsesIds(rows: Rows, n: nat) {
    forall k :: k in rows && k.table in GUARDED ==> exists i: nat :: i < 7 * n && k.id == Id(i)
  }

  /** n transactions have been recorded; these sessions have begun and done nothing. */
  ghost predicate Stage(sha: Sha, evs: seq<Event>, reqs: seq<Request>, n: nat, waiting: map<Sid, int>) {
    && Served(DEFAULTS, History(sha, evs), reqs)
    && UsesIds(Run(sha, evs).db.rows, n) && TENANT in Run(sha, evs).db.heads
    && Run(sha, evs).sessions == map sid | sid in waiting :: SessionState(waiting[sid], map[], [], [], NOTHING)
  }

  lemma FreeAt(rows: Rows, n: nat, amount: Value, fs: seq<Finding>)
    requires UsesIds(rows, n) && n < 3 && Positive(amount) && |fs| <= 3
    ensures FreeKeys(rows, [], RecordRows(DEFAULTS, TENANT, Recording(n, amount), fs))
  {
    hide RecordRows, Positive, Id;
    var req := Recording(n, amount);
    var news := RecordRows(DEFAULTS, TENANT, req, fs);
    SevenRows(n, amount, fs);
    forall i | 0 <= i < |news|
      ensures news[i].key !in rows
    {
      RowAt(DEFAULTS, TENANT, req, fs, i);
      if news[i].key in rows {
        var j: nat :| j < 7 * n && news[i].key.id == Id(j);
        IdsDiffer(7 * n + i, j);
      }
    }
  }

  lemma SevenRows(n: nat, amount: Value, fs: seq<Finding>)
    requires |fs| <= 3
    ensures |RecordRows(DEFAULTS, TENANT, Recording(n, amount), fs)| <= 7
  {
    hide RecordRows, Escalated;
    RecordedLength(DEFAULTS, TENANT, Recording(n, amount), fs);
    EscalatedFew(DEFAULTS, fs);
  }

  lemma DistinctAt(n: nat)
    requires n < 3
    ensures DistinctIds(IdsFrom(7 * n))
  {
    hide Id;
    forall i, j | 0 <= i < j < 7
      ensures IdsFrom(7 * n)(i) != IdsFrom(7 * n)(j)
    {
      IdsDiffer(7 * n + i, 7 * n + j);
    }
  }

  lemma StillUses(rows: Rows, rows': Rows, n: nat, amount: Value, now: int, fs: seq<Finding>)
    requires UsesIds(rows, n) && Positive(amount) && |fs| <= 3
    requires Added(rows, rows', TENANT, now, RecordRows(DEFAULTS, TENANT, Recording(n, amount), fs))
    ensures UsesIds(rows', n + 1)
  {
    hide RecordRows, Positive, Id;
    var req := Recording(n, amount);
    var news := RecordRows(DEFAULTS, TENANT, req, fs);
    SevenRows(n, amount, fs);
    forall k | k in rows' && k.table in GUARDED
      ensures exists i: nat :: i < 7 * (n + 1) && k.id == Id(i)
    {
      if k !in rows {
        var i :| 0 <= i < |news| && news[i].key == k;
        RowAt(DEFAULTS, TENANT, req, fs, i);
        assert k.id == Id(7 * n + i);
      }
    }
  }

  lemma ServedMore(s: Settings, ts: seq<Txn>, reqs: seq<Request>, t: Txn, req: Request)
    requires Served(s, ts, reqs) && (t.Session? && t.pin.Some? ==> Serves(s, t.pin.value, t.now, req, t.ops))
    ensures Served(s, ts + [t], reqs + [req])
  {
    hide Serves;
  }

  /** The database after a session that served the request. */
  lemma RecordAdds(sha: Sha, db: Db, n: nat, amount: Value, now: int, ops: seq<Op>)
    requires Records(DEFAULTS, TENANT, now, Recording(n, amount), ops) && RunOps(sha, db, Some(TENANT), now, ops).Some?
    requires UsesIds(db.rows, n) && TENANT in db.heads
    ensures var db' := Atomic(sha, db, Session(Some(TENANT), now, ops)); UsesIds(db'.rows, n + 1) && TENANT in db'.heads
  {
    hide RunOps, Records, UsesIds, RecordRows, Evaluate, Kept, Added;
    var req := Recording(n, amount);
    ServedEffect(sha, DEFAULTS, db, TENANT, now, req, ops);
    CommittedRows(sha, db, TENANT, now, ops);
    var rows' := Atomic(sha, db, Session(Some(TENANT), now, ops)).rows;
    SawSomething(DEFAULTS, db.rows, rows', TENANT, now, req, ops);
    AtMostThree(DEFAULTS, ops[1].rows, Evaluated(req, now));
    RecordsPositive(now, req, ops);
    StillUses(db.rows, rows', n, amount, now, Evaluate(DEFAULTS, ops[1].rows, Evaluated(req, now)));
  }

  lemma RecordsPositive(now: int, req: Request, ops: seq<Op>)
    requires req.RecordTransaction? && Records(DEFAULTS, TENANT, now, req, ops)
    ensures Positive(req.amount)
  {
    hide Performs, Evaluate;
  }

  /** A waiting session serves the next request and commits. */
  lemma Serve(sha: Sha, evs: seq<Event>, reqs: seq<Request>, n: nat, waiting: map<Sid, int>, sid: Sid, amount: Value)
    returns (evs': seq<Event>, ops: seq<Op>)
    requires Stage(sha, evs, reqs, n, waiting) && sid in waiting && sid.pin == Some(TENANT) && n < 3 && Positive(amount)
    ensures Stage(sha, evs', reqs + [Recording(n, amount)], n + 1, waiting - {sid})
    ensures History(sha, evs') == History(sha, evs) + [Session(sid.pin, waiting[sid], ops)]
  {
    hide RunOps, Run, History, Records, UsesIds, RecordRows, Evaluate, Served, Serving, Atomic, FreeKeys, DistinctIds;
    var db, now, req := Run(sha, evs).db, waiting[sid], Recording(n, amount);
    var fs := FindingsFor(DEFAULTS, db.rows, TENANT, now, req);
    AtMostThree(DEFAULTS, SeenWith(db.rows, TENANT, now, NewTransactionRow(TENANT, req)), Evaluated(req, now));
    FreeAt(db.rows, n, amount, fs);
    DistinctAt(n);
    ops := RecordRuns(sha, DEFAULTS, db, TENANT, now, req);
    WaitingIdle(sha, evs, waiting, sid);
    ServingCommits(sha, evs, sid, ops);
    RecordAdds(sha, db, n, amount, now, ops);
    ServedMore(DEFAULTS, History(sha, evs), reqs, Session(sid.pin, now, ops), req);
    evs' := evs + Serving(sid, ops);
    var states := map x | x in waiting :: SessionState(waiting[x], map[], [], [], NOTHING);
    assert states - {sid} == map x | x in waiting - {sid} :: SessionState((waiting - {sid})[x], map[], [], [], NOTHING);
  }

  lemma WaitingIdle(sha: Sha, evs: seq<Event>, waiting: map<Sid, int>, sid: Sid)
    requires Run(sha, evs).sessions == map x | x in waiting :: SessionState(waiting[x], map[], [], [], NOTHING)
    requires sid in waiting
    ensures OthersIdle(Run(sha, evs), sid)
    ensures Run(sha, evs).sessions[sid] == SessionState(waiting[sid], map[], [], [], NOTHING)
  {
    hide Run;
  }

  lemma Provisioning(sha: Sha)
    ensures Stage(sha, [Provisioned(TENANT)], [OtherRequest], 0, map[])
    ensures History(sha, [Provisioned(TENANT)]) == [Provision(TENANT)]
  {
    NothingHappened(sha);
    RunAppend(sha, [], Provisioned(TENANT));
    assert [] + [Provisioned(TENANT)] == [Provisioned(TENANT)];
  }

  lemma Begin(sha: Sha, evs: seq<Event>, reqs: seq<Request>, n: nat, waiting: map<Sid, int>, sid: Sid, now: int)
    requires Stage(sha, evs, reqs, n, waiting) && sid !in waiting
    ensures Stage(sha, evs + [Begun(sid, now)], reqs, n, waiting[sid := now])
    ensures History(sha, evs + [Begun(sid, now)]) == History(sha, evs)
  {
    hide Run, History, Served, UsesIds;
    RunAppend(sha, evs, Begun(sid, now));
    assert History(sha, evs) + [] == History(sha, evs);
    var more := waiting[sid := now];
    assert Run(sha, evs + [Begun(sid, now)]).sessions
        == map x | x in more :: SessionState(more[x], map[], [], [], NOTHING);
  }

  // ---------- A split amount that escapes ----------

  /** 1,000,000.50, three times: each below every threshold, together above 3,000,000. */
  const SHARE: Value := Fixed(100_000_050, 2)

  function KeyOf(n: nat): Key { Key("transactions", Id(7 * n)) }

  /** What is left of the run: three recorded transactions, the last recorded of which started first. */
  ghost predicate ThreeShares(sha: Sha, ts: seq<Txn>, reqs: seq<Request>) {
    && Served(DEFAULTS, ts, reqs) && GoThrough(sha, ts)
    && |ts| == 4 && ts[0] == Provision(TENANT)
    && reqs == [OtherRequest, Recording(0, SHARE), Recording(1, SHARE), Recording(2, SHARE)]
    && (forall i :: 1 <= i < 4 ==> ts[i].Session? && ts[i].pin == Some(TENANT))
    && ts[1].now == 10 && ts[2].now == 20 && ts[3].now == 5
  }

  /** What goes through has its effect. */
  lemma WentThrough(sha: Sha, s: Settings, ts: seq<Txn>, reqs: seq<Request>, j: nat)
    requires Served(s, ts, reqs) && GoThrough(sha, ts)
    requires j < |ts| && ts[j].Session? && ts[j].pin.Some? && reqs[j].RecordTransaction?
    ensures Ran(sha, s, ts, reqs, j)
  {
    hide RunOps, Serial, Serves, Effect;
    var db, t := Serial(sha, EMPTY, ts[..j]), ts[j];
    assert Serves(s, t.pin.value, t.now, reqs[j], t.ops);
    ServedEffect(sha, s, db, t.pin.value, t.now, reqs[j], t.ops);
    CommittedRows(sha, db, t.pin.value, t.now, t.ops);
    SerialNext(sha, ts, j);
  }

  lemma SerialNext(sha: Sha, ts: seq<Txn>, j: nat)
    requires j < |ts|
    ensures Serial(sha, EMPTY, ts[..j + 1]) == Atomic(sha, Serial(sha, EMPTY, ts[..j]), ts[j])
  {
    hide Atomic;
    assert ts[..j + 1][..j] == ts[..j] && ts[..j + 1][j] == ts[j];
  }

  lemma ShareRow(sha: Sha, ts: seq<Txn>, reqs: seq<Request>, n: nat)
    requires ThreeShares(sha, ts, reqs) && n < 3
    ensures Ran(sha, DEFAULTS, ts, reqs, n + 1) && reqs[n + 1] == Recording(n, SHARE)
    ensures reqs[n + 1].ids(0) == KeyOf(n).id
    ensures var rows, k := RowsAfter(sha, ts), KeyOf(n);
      && k in rows && rows[k].tenant == TENANT && rows[k].createdAt == ts[n + 1].now && Amount(rows[k]) == 100_000_050
      && forall customer, currency :: IsTransaction(rows, k, customer, currency)
          <==> customer == CUSTOMER && currency == "NGN"
  {
    hide RowsAfter, Served, GoThrough, Effect, Id, IsTransaction, Amount;
    WentThrough(sha, DEFAULTS, ts, reqs, n + 1);
    RecordedRow(sha, DEFAULTS, ts, reqs, n + 1);
  }

  /** No other transaction was recorded. */
  lemma OnlyShares(sha: Sha, ts: seq<Txn>, reqs: seq<Request>, k: Key)
    requires ThreeShares(sha, ts, reqs) && k in RowsAfter(sha, ts) && k.table == "transactions"
    ensures k in {KeyOf(0), KeyOf(1), KeyOf(2)}
  {
    hide RowsAfter, Served, GoThrough, Effect, Id;
    var j := TransactionProvenance(sha, DEFAULTS, ts, reqs, k);
    ShareRow(sha, ts, reqs, j - 1);
  }

  /** A share as it stands in the table. */
  predicate ShareIn(rows: Rows, k: Key, now: int) {
    && k in rows && rows[k].tenant == TENANT && rows[k].createdAt == now && Amount(rows[k]) == 100_000_050
    && IsTransaction(rows, k, CUSTOMER, "NGN")
  }

  lemma ThreeTotal(rows: Rows, a: Key, b: Key, c: Key)
    requires a != b && a != c && b != c && {a, b, c} <= rows.Keys
    ensures |{a, b, c}| == 3 && Total(rows, {a, b, c}) == Amount(rows[a]) + Amount(rows[b]) + Amount(rows[c])
  {
    hide Amount;
    var part := {a, b, c};
    TotalPick(rows, part, a);
    TotalPick(rows, part - {a}, b);
    TotalPick(rows, part - {a} - {b}, c);
    assert part - {a} - {b} - {c} == {};
  }

  lemma ThreeBurst(rows: Rows, a: Key, b: Key, c: Key)
    requires a != b && a != c && b != c && ShareIn(rows, a, 10) && ShareIn(rows, b, 20) && ShareIn(rows, c, 5)
    ensures |{a, b, c}| == 3 && Burst(DEFAULTS, rows, TENANT, CUSTOMER, "NGN", {a, b, c})
    ensures !StartedLast(rows, {a, b, c}, c)
    ensures forall k :: k in {a, b, c} ==> k in rows && Amount(rows[k]) < DEFAULTS.largeThreshold
  {
    hide Amount, IsTransaction, Id;
    ThreeTotal(rows, a, b, c);
  }

  /** Three are needed. */
  lemma ThreeMinimal(rows: Rows, part: set<Key>)
    requires |part| == 3
    ensures Minimal(DEFAULTS, rows, part)
  {
    hide Total;
    forall k | k in part
      ensures |part - {k}| == 2
    {}
  }

  lemma SharesIn(sha: Sha, ts: seq<Txn>, reqs: seq<Request>)
    requires ThreeShares(sha, ts, reqs)
    ensures var rows := RowsAfter(sha, ts);
      ShareIn(rows, KeyOf(0), 10) && ShareIn(rows, KeyOf(1), 20) && ShareIn(rows, KeyOf(2), 5)
  {
    hide RowsAfter, ThreeShares, Id, Amount, IsTransaction, Ran;
    ShareRow(sha, ts, reqs, 0);
    ShareRow(sha, ts, reqs, 1);
    ShareRow(sha, ts, reqs, 2);
    Times(sha, ts, reqs);
  }

  lemma KeysDiffer()
    ensures KeyOf(0) != KeyOf(1) && KeyOf(0) != KeyOf(2) && KeyOf(1) != KeyOf(2)
  {
    hide Id;
    IdsDiffer(0, 7);
    IdsDiffer(0, 14);
    IdsDiffer(7, 14);
  }

  lemma SharesAlone(sha: Sha, ts: seq<Txn>, reqs: seq<Request>)
    requires ThreeShares(sha, ts, reqs)
    ensures Alone(DEFAULTS, RowsAfter(sha, ts), TENANT, CUSTOMER, "NGN", {KeyOf(0), KeyOf(1), KeyOf(2)})
  {
    hide RowsAfter, ThreeShares, KeyOf, Amount, IsTransaction;
    forall k | IsTransaction(RowsAfter(sha, ts), k, CUSTOMER, "NGN")
      ensures k in {KeyOf(0), KeyOf(1), KeyOf(2)}
    {
      InTable(RowsAfter(sha, ts), k, CUSTOMER, "NGN");
      OnlyShares(sha, ts, reqs, k);
    }
  }

  lemma InTable(rows: Rows, k: Key, customer: Uuid, currency: string)
    requires IsTransaction(rows, k, customer, currency)
    ensures k in rows && k.table == "transactions"
  {}

  lemma Times(sha: Sha, ts: seq<Txn>, reqs: seq<Request>)
    requires ThreeShares(sha, ts, reqs)
    ensures ts[1].now == 10 && ts[2].now == 20 && ts[3].now == 5
  {}

  lemma ShareLast(sha: Sha, ts: seq<Txn>, reqs: seq<Request>)
    requires ThreeShares(sha, ts, reqs)
    ensures LastRecorded(sha, ts, {KeyOf(0), KeyOf(1), KeyOf(2)}, KeyOf(2))
  {
    hide RowsAfter, Id, Served, GoThrough;
    forall n: nat | n < 3
      ensures if n == 2 then KeyOf(n) !in RowsAfter(sha, ts[..3]) else KeyOf(n) in RowsAfter(sha, ts[..3])
    {
      ShareRow(sha, ts, reqs, n);
      TransactionKey(sha, DEFAULTS, ts, reqs, n + 1);
      if n < 2 {
        ServedPrefix(DEFAULTS, ts, reqs, 3);
        assert ts[..3][..n + 2] == ts[..n + 2];
        StaysSame(sha, DEFAULTS, ts[..3], reqs[..3], n + 2, KeyOf(n));
      }
    }
    assert AllBefore(RowsAfter(sha, ts[..3]), {KeyOf(0), KeyOf(1), KeyOf(2)}, KeyOf(2));
  }

  lemma ThreeServed(sha: Sha, ts: seq<Txn>, reqs: seq<Request>)
    requires ThreeShares(sha, ts, reqs)
    ensures Served(DEFAULTS, ts, reqs)
  {
    hide Served;
  }

  lemma NoneOfThem(sha: Sha, ts: seq<Txn>, reqs: seq<Request>)
    requires ThreeShares(sha, ts, reqs)
    ensures var rows, part := RowsAfter(sha, ts), {KeyOf(0), KeyOf(1), KeyOf(2)};
      && |part| == 3 && Burst(DEFAULTS, rows, TENANT, CUSTOMER, "NGN", part)
      && forall k :: k in part ==> !Flagged(rows, TENANT, k.id)
  {
    hide RowsAfter, KeyOf, Flagged, Burst, Minimal, Alone, LastRecorded, Amount, IsTransaction, StartedLast,
         ThreeShares, ShareIn, Id, Served;
    ThreeServed(sha, ts, reqs);
    var rows, part := RowsAfter(sha, ts), {KeyOf(0), KeyOf(1), KeyOf(2)};
    KeysDiffer();
    SharesIn(sha, ts, reqs);
    ThreeBurst(rows, KeyOf(0), KeyOf(1), KeyOf(2));
    ThreeMinimal(rows, part);
    SharesAlone(sha, ts, reqs);
    ShareLast(sha, ts, reqs);
    FlaggedExactly(sha, DEFAULTS, ts, reqs, TENANT, CUSTOMER, "NGN", part, KeyOf(2));
  }

  /** Under the shipped settings: three sessions begin at times 5, 10 and 20; the first of them
      records last. The burst they make is not flagged. */
  lemma SplitEscapes(sha: Sha) returns (evs: seq<Event>, reqs: seq<Request>, part: set<Key>)
    ensures Served(DEFAULTS, History(sha, evs), reqs) && |part| == 3
    ensures Burst(DEFAULTS, Run(sha, evs).db.rows, TENANT, CUSTOMER, "NGN", part)
    ensures forall k :: k in part ==> !Flagged(Run(sha, evs).db.rows, TENANT, k.id)
  {
    hide Run, History, Stage, Burst, Flagged, ThreeShares, RowsAfter, Id, KeyOf;
    var a, b, c := Sid(Some(TENANT), 0), Sid(Some(TENANT), 1), Sid(Some(TENANT), 2);
    Provisioning(sha);
    evs := [Provisioned(TENANT)];
    Begin(sha, evs, [OtherRequest], 0, map[], a, 5);
    Begin(sha, evs + [Begun(a, 5)], [OtherRequest], 0, map[a := 5], b, 10);
    Begin(sha, evs + [Begun(a, 5)] + [Begun(b, 10)], [OtherRequest], 0, map[a := 5, b := 10], c, 20);
    evs := evs + [Begun(a, 5)] + [Begun(b, 10)] + [Begun(c, 20)];
    var o1, o2, o3;
    var waiting := map[a := 5, b := 10, c := 20];
    assert waiting == map[a := 5][b := 10][c := 20];
    evs, o1 := Serve(sha, evs, [OtherRequest], 0, waiting, b, SHARE);
    evs, o2 := Serve(sha, evs, [OtherRequest] + [Recording(0, SHARE)], 1, waiting - {b}, c, SHARE);
    evs, o3 := Serve(sha, evs, [OtherRequest] + [Recording(0, SHARE)] + [Recording(1, SHARE)], 2, waiting - {b} - {c},
                     a, SHARE);
    reqs := [OtherRequest] + [Recording(0, SHARE)] + [Recording(1, SHARE)] + [Recording(2, SHARE)];
    StageServed(sha, evs, reqs, 3, waiting - {b} - {c} - {a});
    HistoriesGoThrough(sha, evs);
    IsThree(sha, History(sha, evs), reqs, o1, o2, o3);
    NoneOfThem(sha, History(sha, evs), reqs);
    RowsOfRun(sha, evs);
    part := {KeyOf(0), KeyOf(1), KeyOf(2)};
  }

  lemma StageServed(sha: Sha, evs: seq<Event>, reqs: seq<Request>, n: nat, waiting: map<Sid, int>)
    requires Stage(sha, evs, reqs, n, waiting)
    ensures Served(DEFAULTS, History(sha, evs), reqs)
  {}

  lemma IsThree(sha: Sha, ts: seq<Txn>, reqs: seq<Request>, o1: seq<Op>, o2: seq<Op>, o3: seq<Op>)
    requires Served(DEFAULTS, ts, reqs) && GoThrough(sha, ts)
    requires ts == [Provision(TENANT)] + [Session(Some(TENANT), 10, o1)] + [Session(Some(TENANT), 20, o2)]
                   + [Session(Some(TENANT), 5, o3)]
    requires reqs == [OtherRequest] + [Recording(0, SHARE)] + [Recording(1, SHARE)] + [Recording(2, SHARE)]
    ensures ThreeShares(sha, ts, reqs)
  {
    hide Served, GoThrough, Id;
  }

  // ---------- A whole float ----------

  /** 5000000.0, exactly the shipped large-amount threshold. */
  const FIVE_MILLION: Value := Fixed(50_000_000, 1)

  /** In every run under the shipped settings a recorded 5000000.0 is flagged. */
  lemma FiveMillionFlagged(sha: Sha, ts: seq<Txn>, reqs: seq<Request>, j: nat)
    requires Served(DEFAULTS, ts, reqs) && GoThrough(sha, ts)
    requires j < |ts| && ts[j].Session? && ts[j].pin.Some?
    requires reqs[j].RecordTransaction? && reqs[j].amount == FIVE_MILLION
    ensures Flagged(RowsAfter(sha, ts), ts[j].pin.value, reqs[j].ids(0))
  {
    hide RowsAfter, Served, GoThrough, Effect, Flagged, Amount, Hundredths;
    WentThrough(sha, DEFAULTS, ts, reqs, j);
    RecordedRow(sha, DEFAULTS, ts, reqs, j);
    WholeReadsAlike(5_000_000);
    LargeFlagged(sha, DEFAULTS, ts, reqs, Key("transactions", reqs[j].ids(0)));
  }

  /** There is such a run. */
  lemma FiveMillionRun(sha: Sha) returns (evs: seq<Event>, reqs: seq<Request>)
    ensures Served(DEFAULTS, History(sha, evs), reqs) && Recording(0, FIVE_MILLION) in reqs
    ensures Flagged(Run(sha, evs).db.rows, TENANT, Id(0))
  {
    hide Run, History, Stage, Served, GoThrough, RowsAfter, Flagged, Id;
    var a := Sid(Some(TENANT), 0);
    Provisioning(sha);
    Begin(sha, [Provisioned(TENANT)], [OtherRequest], 0, map[], a, 5);
    var ops;
    evs, ops := Serve(sha, [Provisioned(TENANT)] + [Begun(a, 5)], [OtherRequest], 0, map[][a := 5], a, FIVE_MILLION);
    reqs := [OtherRequest] + [Recording(0, FIVE_MILLION)];
    assert reqs[1] == Recording(0, FIVE_MILLION);
    StageServed(sha, evs, reqs, 1, map[][a := 5] - {a});
    HistoriesGoThrough(sha, evs);
    FiveMillionFlagged(sha, History(sha, evs), reqs, 1);
    RowsOfRun(sha, evs);
  }

  // ---------- A row its log does not show literally ----------

  /** 12.345 */
  const UNROUNDED: Value := Fixed(12_345, 3)

  lemma LiteralAnotherKey(t: Tables, e: Entry, k: Key)
    requires EntryKey(e) != k
    ensures At(LiteralEntry(t, e), k) == At(t, k)
  {
    hide Recorded;
  }

  lemma {:induction false} LiteralElsewhere(log: seq<Entry>, n: nat, k: Key)
    requires n <= |log| && forall i :: n <= i < |log| ==> EntryKey(log[i]) != k
    ensures At(Literal(log), k) == At(Literal(log[..n]), k)
  {
    hide LiteralEntry, At;
    if n == |log| {
      assert log[..n] == log;
    } else {
      var m := |log| - 1;
      LiteralAnotherKey(Literal(log[..m]), log[m], k);
      LiteralElsewhere(log[..m], n, k);
      assert log[..m][..n] == log[..n];
    }
  }

  /** The entries of a recorded transaction after the first are about its alerts and cases. */
  lemma LiteralFirst(s: Settings, tenant: Uuid, req: Request, fs: seq<Finding>, entries: seq<Entry>)
    requires req.RecordTransaction? && Positive(req.amount) && |entries| == |RecordRows(s, tenant, req, fs)|
    requires forall i :: 0 <= i < |entries| ==> EntryOf(entries[i], RecordRows(s, tenant, req, fs)[i])
    ensures var k := Key("transactions", req.ids(0));
      At(Literal(entries), k)
        == Some(Shown(TransactionRow(tenant, req.customer, req.amount, req.currency, req.ids(0)).vals))
  {
    hide RecordRows, TransactionRow, Shown, Recorded, Escalated;
    var k := Key("transactions", req.ids(0));
    RecordedLength(s, tenant, req, fs);
    forall i | 1 <= i < |entries|
      ensures EntryKey(entries[i]) != k
    {
      RecordedTable(s, tenant, req, fs, i);
      assert EntryOf(entries[i], RecordRows(s, tenant, req, fs)[i]);
    }
    LiteralElsewhere(entries, 1, k);
    assert EntryOf(entries[0], RecordRows(s, tenant, req, fs)[0]);
    assert entries[..1] == [entries[0]];
    LiteralOne(entries[0]);
  }

  lemma LiteralOne(e: Entry)
    ensures Literal([e]) == LiteralEntry(map[], e)
  {
    assert [e][..0] == [];
  }

  lemma UnroundedShown(tenant: Uuid, customer: Uuid, currency: string, id: Uuid)
    ensures var m := Shown(TransactionRow(tenant, customer, UNROUNDED, currency, id).vals);
      "amount" in m && m["amount"] == UNROUNDED
  {
    hide Scoped;
  }

  /** What the log of a run with this one transaction shows. */
  lemma LogShows(sha: Sha, ts: seq<Txn>, reqs: seq<Request>, now: int, ops: seq<Op>)
    requires Served(DEFAULTS, ts, reqs) && GoThrough(sha, ts)
    requires ts == [Provision(TENANT), Session(Some(TENANT), now, ops)]
    requires reqs == [OtherRequest, Recording(0, UNROUNDED)]
    ensures var literal := Literal(Where(Serial(sha, EMPTY, ts).log, TENANT));
      KeyOf(0) in literal && "amount" in literal[KeyOf(0)] && literal[KeyOf(0)]["amount"] == UNROUNDED
  {
    hide RunOps, Atomic, RecordRows, TransactionRow, Performs, Evaluate, Literal, EntryOf, Id, Where, Consistent, Shown;
    var req := Recording(0, UNROUNDED);
    var db := ProvisionOn(sha, EMPTY, TENANT);
    OnlyProvisioned(sha, ts);
    assert Serves(DEFAULTS, TENANT, now, req, ops);
    assert RunOps(sha, Serial(sha, EMPTY, ts[..1]), Some(TENANT), now, ops).Some?;
    SerialNext(sha, ts, 1);
    SerialConsistent(sha, ts[..1]);
    assert ts[..2] == ts;
    var fs := Evaluate(DEFAULTS, ops[1].rows, Evaluated(req, now));
    PerformedLog(sha, db, TENANT, now, ops, RecordRows(DEFAULTS, TENANT, req, fs), TENANT);
    var entries := RunOps(sha, db, Some(TENANT), now, ops).value.entries;
    NothingBefore(entries);
    LiteralFirst(DEFAULTS, TENANT, req, fs, entries);
    UnroundedShown(TENANT, CUSTOMER, "NGN", req.ids(0));
  }

  lemma OnlyProvisioned(sha: Sha, ts: seq<Txn>)
    requires ts != [] && ts[0] == Provision(TENANT)
    ensures Serial(sha, EMPTY, ts[..1]) == ProvisionOn(sha, EMPTY, TENANT)
  {
    assert ts[..1][..0] == [];
  }

  lemma NothingBefore(entries: seq<Entry>)
    ensures Where([], TENANT) + entries == entries
  {}

  /** One transaction of 12.345: its row holds 12.35, its log says 12.345, so the log is not what the
      rows show, and is once its values are stored. */
  lemma LogKeepsWhatRowsRound(sha: Sha) returns (evs: seq<Event>, reqs: seq<Request>)
    ensures Served(DEFAULTS, History(sha, evs), reqs)
    ensures var db := Run(sha, evs).db;
            var log, tables := SelectLog(db.log, TENANT), TenantTables(db.rows, TENANT);
      && KeyOf(0) in tables && KeyOf(0) in Literal(log)
      && Col(tables[KeyOf(0)], "amount") == Fixed(1_235, 2) && Col(Literal(log)[KeyOf(0)], "amount") == UNROUNDED
      && tables != Literal(log) && tables == Replayed(log)
  {
    hide Run, History, Stage, Literal, Served, GoThrough, Serial, LogGood, Where, SelectLog, Replayed, TenantTables,
        KeptAsLogged, Id, KeyOf;
    var a := Sid(Some(TENANT), 0);
    Provisioning(sha);
    Begin(sha, [Provisioned(TENANT)], [OtherRequest], 0, map[], a, 5);
    var ops;
    evs, ops := Serve(sha, [Provisioned(TENANT)] + [Begun(a, 5)], [OtherRequest], 0, map[][a := 5], a, UNROUNDED);
    reqs := [OtherRequest] + [Recording(0, UNROUNDED)];
    StageServed(sha, evs, reqs, 1, map[][a := 5] - {a});
    HistoriesGoThrough(sha, evs);
    LogShows(sha, History(sha, evs), reqs, 5, ops);
    Serialisable(sha, evs);
    ReplayUnderInterleaving(sha, evs, TENANT);
    LiteralUnderInterleaving(sha, evs, TENANT);
    RoundedAmount(Literal(SelectLog(Run(sha, evs).db.log, TENANT)));
  }

  lemma RoundedAmount(literal: Tables)
    requires KeyOf(0) in literal && "amount" in literal[KeyOf(0)] && literal[KeyOf(0)]["amount"] == UNROUNDED
    ensures KeyOf(0) in CoerceTables(literal) && Col(CoerceTables(literal)[KeyOf(0)], "amount") == Fixed(1_235, 2)
    ensures Col(literal[KeyOf(0)], "amount") == UNROUNDED
    ensures literal != CoerceTables(literal)
  {
    CoerceExamples();
  }
}
