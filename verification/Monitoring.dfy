/** Transaction monitoring: the three rules, the windowed aggregate, and the engine that
    applies the rules in registration order. Amounts are in hundredths (Numeric(18, 2)),
    times in microseconds. */
module Monitoring {
  import opened Wrappers
  import opened Json
  import opened Chain
  import opened ColumnTypes
  import opened Database

  datatype Severity = Low | Medium | High

  function SeverityRank(s: Severity): nat { match s case Low => 0 case Medium => 1 case High => 2 }

  function SeverityText(s: Severity): string { match s case Low => "low" case Medium => "medium" case High => "high" }

  /** app/config.py; a zero modulus would make the round-amount rule raise. */
  datatype SettingsRaw = Settings(
    largeThreshold: int,
    windowHours: nat,
    velocityThreshold: int,
    minTransactions: int,
    roundModulus: int,
    roundMinimum: int,
    autoOpenFloor: Severity)

  type Settings = s: SettingsRaw | s.roundModulus != 0 witness Settings(0, 0, 0, 0, 1, 0, Low)

  /** The transaction under evaluation, as db.refresh left it. */
  datatype Transaction = Transaction(customer: Uuid, amount: int, currency: string, createdAt: int)

  datatype Rule = LargeAmount | VelocityStructuring | RoundAmount

  function Code(r: Rule): string {
    match r
    case LargeAmount => "LARGE_AMOUNT"
    case VelocityStructuring => "VELOCITY_STRUCTURING"
    case RoundAmount => "ROUND_AMOUNT"
  }

  datatype Detail =
    | LargeDetail(amount: int, currency: string, threshold: int)
    | VelocityDetail(windowHours: nat, totalAmount: int, currency: string, transactionCount: nat, threshold: int)
    | RoundDetail(amount: int, currency: string, modulus: int)

  datatype Finding = Finding(rule: Rule, severity: Severity, detail: Detail)

  // ---------- Reading transaction rows ----------

  function Col(cols: Columns, name: string): Value { if name in cols then cols[name] else Null }

  function Amount(row: Row): int { Hundredths(Col(row.cols, "amount")) }

  predicate IsTransaction(rows: Rows, k: Key, customer: Uuid, currency: string) {
    && k in rows && k.table == "transactions"
    && Col(rows[k].cols, "customer_id") == Foreign(customer)
    && Col(rows[k].cols, "currency") == Str(currency)
  }

  /** In microseconds. */
  function WindowLength(s: Settings): int { s.windowHours * 3600 * 1000000 }

  lemma WindowHours(s: Settings)
    ensures WindowLength(s) == 3_600_000_000 * s.windowHours
  {}

  /** The WHERE clause of the velocity query. */
  function Window(s: Settings, rows: Rows, t: Transaction): set<Key> {
    set k | k in rows && IsTransaction(rows, k, t.customer, t.currency)
            && Amount(rows[k]) < s.largeThreshold
            && t.createdAt - WindowLength(s) <= rows[k].createdAt <= t.createdAt
  }

  /** sum(amount) over a set of rows. */
  ghost function Total(rows: Rows, keys: set<Key>): int
    requires keys <= rows.Keys
  {
    if keys == {} then 0
    else var k :| k in keys; Amount(rows[k]) + Total(rows, keys - {k})
  }

  lemma {:induction false} TotalPick(rows: Rows, keys: set<Key>, k: Key)
    requires keys <= rows.Keys && k in keys
    ensures Total(rows, keys) == Amount(rows[k]) + Total(rows, keys - {k})
    decreases |keys|
  {
    var j :| j in keys && Total(rows, keys) == Amount(rows[j]) + Total(rows, keys - {j});
    if j != k {
      TotalPick(rows, keys - {j}, k);
      TotalPick(rows, keys - {k}, j);
      assert keys - {j} - {k} == keys - {k} - {j};
    }
  }

  /** More rows, none of them negative, cannot lower the total. */
  lemma {:induction false} TotalMonotone(rows: Rows, part: set<Key>, all: set<Key>)
    requires part <= all <= rows.Keys
    requires forall k :: k in all - part ==> Amount(rows[k]) >= 0
    ensures Total(rows, part) <= Total(rows, all)
    ensures |part| <= |all|
    decreases |all|
  {
    if part == all {
    } else {
      var k :| k in all - part;
      TotalPick(rows, all, k);
      TotalMonotone(rows, part, all - {k});
    }
  }

  lemma {:induction false} TotalFrame(rows: Rows, rows': Rows, keys: set<Key>)
    requires keys <= rows.Keys && keys <= rows'.Keys
    requires forall k :: k in keys ==> rows[k] == rows'[k]
    ensures Total(rows, keys) == Total(rows', keys)
    decreases |keys|
  {
    if keys != {} {
      var k :| k in keys;
      TotalPick(rows, keys, k);
      TotalPick(rows', keys, k);
      TotalFrame(rows, rows', keys - {k});
    }
  }

  /** SELECT sum(amount), count(id): the sum of no rows is NULL. */
  method Aggregate(rows: Rows, keys: set<Key>) returns (total: Option<int>, count: nat)
    requires keys <= rows.Keys
    ensures count == |keys|
    ensures total == if keys == {} then None else Some(Total(rows, keys))
  {
    var left := keys;
    var sum := 0;
    count := 0;
    while left != {}
      invariant left <= keys
      invariant sum + Total(rows, left) == Total(rows, keys)
      invariant count + |left| == |keys|
      decreases |left|
    {
      var k :| k in left;
      TotalPick(rows, left, k);
      sum := sum + Amount(rows[k]);
      count := count + 1;
      left := left - {k};
    }
    total := if keys == {} then None else Some(sum);
  }

  // ---------- The rules ----------

  function EvaluateLarge(s: Settings, t: Transaction): Option<Finding> {
    if t.amount < s.largeThreshold then None
    else Some(Finding(LargeAmount, High, LargeDetail(t.amount, t.currency, s.largeThreshold)))
  }

  ghost function EvaluateVelocity(s: Settings, rows: Rows, t: Transaction): Option<Finding> {
    var keys := Window(s, rows, t);
    if keys == {} || Total(rows, keys) < s.velocityThreshold || |keys| < s.minTransactions then None
    else Some(Finding(VelocityStructuring, High,
                      VelocityDetail(s.windowHours, Total(rows, keys), t.currency, |keys|, s.velocityThreshold)))
  }

  /** Decimal % is zero exactly when Euclidean % is. */
  function EvaluateRound(s: Settings, t: Transaction): Option<Finding> {
    if t.amount < s.roundMinimum || t.amount % s.roundModulus != 0 then None
    else Some(Finding(RoundAmount, Low, RoundDetail(t.amount, t.currency, s.roundModulus)))
  }

  lemma Multiple(a: int, d: int)
    requires d != 0
    ensures a % d == 0 <==> exists n: int :: a == n * d
  {
    var q, r := a / d, a % d;
    assert a == q * d + r;
    if n: int :| a == n * d {
      assert (n - q) * d == r;
      assert 0 <= r < if d > 0 then d else -d;
      if n > q { NoSmaller(n - q, d); } else if n < q { NoSmaller(q - n, d); assert (q - n) * d == -((n - q) * d); }
    }
  }

  lemma NoSmaller(k: nat, d: int)
    requires k >= 1
    ensures d > 0 ==> k * d >= d
    ensures d < 0 ==> k * d <= d
  {
    assert k * d == (k - 1) * d + d;
  }

  ghost function EvaluateRule(s: Settings, rows: Rows, t: Transaction, r: Rule): Option<Finding> {
    match r
    case LargeAmount => EvaluateLarge(s, t)
    case VelocityStructuring => EvaluateVelocity(s, rows, t)
    case RoundAmount => EvaluateRound(s, t)
  }

  const RULES: seq<Rule> := [LargeAmount, VelocityStructuring, RoundAmount]

  /** evaluate_transaction: the findings of the rules that fire, in rule order. */
  ghost function Findings(s: Settings, rows: Rows, t: Transaction, rules: seq<Rule>): seq<Finding> {
    if rules == [] then []
    else
      var f := EvaluateRule(s, rows, t, rules[0]);
      (if f.Some? then [f.value] else []) + Findings(s, rows, t, rules[1..])
  }

  ghost function Evaluate(s: Settings, rows: Rows, t: Transaction): seq<Finding> { Findings(s, rows, t, RULES) }

  /** The order in which the rules are registered. */
  predicate Precedes(a: Rule, b: Rule) {
    (a == LargeAmount && b != LargeAmount) || (a == VelocityStructuring && b == RoundAmount)
  }

  predicate InOrder(rules: seq<Rule>) {
    forall i, j :: 0 <= i < j < |rules| ==> Precedes(rules[i], rules[j])
  }

  lemma FindingNamesRule(s: Settings, rows: Rows, t: Transaction, r: Rule)
    requires EvaluateRule(s, rows, t, r).Some?
    ensures EvaluateRule(s, rows, t, r).value.rule == r
  {}

  lemma {:induction false} FindingSound(s: Settings, rows: Rows, t: Transaction, rules: seq<Rule>, f: Finding)
    requires f in Findings(s, rows, t, rules)
    ensures f.rule in rules && EvaluateRule(s, rows, t, f.rule) == Some(f)
  {
    hide EvaluateRule;
    var first := EvaluateRule(s, rows, t, rules[0]);
    if first == Some(f) {
      FindingNamesRule(s, rows, t, rules[0]);
    } else {
      FindingSound(s, rows, t, rules[1..], f);
    }
  }

  lemma {:induction false} FindingComplete(s: Settings, rows: Rows, t: Transaction, rules: seq<Rule>, r: Rule)
    requires r in rules && EvaluateRule(s, rows, t, r).Some?
    ensures EvaluateRule(s, rows, t, r).value in Findings(s, rows, t, rules)
  {
    hide EvaluateRule;
    if r != rules[0] {
      FindingComplete(s, rows, t, rules[1..], r);
    }
  }

  predicate FindingsInOrder(fs: seq<Finding>) {
    forall i, j :: 0 <= i < j < |fs| ==> Precedes(fs[i].rule, fs[j].rule)
  }

  lemma {:induction false} FindingsOrdered(s: Settings, rows: Rows, t: Transaction, rules: seq<Rule>)
    requires InOrder(rules)
    ensures FindingsInOrder(Findings(s, rows, t, rules))
  {
    hide EvaluateRule, Precedes;
    if rules != [] {
      var tail := Findings(s, rows, t, rules[1..]);
      FindingsOrdered(s, rows, t, rules[1..]);
      var first := EvaluateRule(s, rows, t, rules[0]);
      if first.Some? {
        FindingNamesRule(s, rows, t, rules[0]);
        forall i | 0 <= i < |tail|
          ensures Precedes(rules[0], tail[i].rule)
        {
          FindingSound(s, rows, t, rules[1..], tail[i]);
          var k :| 0 <= k < |rules[1..]| && rules[1..][k] == tail[i].rule;
          assert rules[k + 1] == tail[i].rule;
        }
      }
    }
  }

  lemma AllRules(r: Rule)
    ensures r in RULES
  {
    assert RULES[0] == LargeAmount && RULES[1] == VelocityStructuring && RULES[2] == RoundAmount;
  }

  /** A transaction's findings are exactly those of the rules that fire, one per rule, in rule order. */
  lemma EvaluateExact(s: Settings, rows: Rows, t: Transaction)
    ensures forall f :: f in Evaluate(s, rows, t) <==> EvaluateRule(s, rows, t, f.rule) == Some(f)
    ensures FindingsInOrder(Evaluate(s, rows, t))
  {
    hide EvaluateRule, Findings;
    FindingsOrdered(s, rows, t, RULES);
    forall f: Finding
      ensures f in Evaluate(s, rows, t) <==> EvaluateRule(s, rows, t, f.rule) == Some(f)
    {
      AllRules(f.rule);
      if f in Evaluate(s, rows, t) { FindingSound(s, rows, t, RULES, f); }
      if EvaluateRule(s, rows, t, f.rule) == Some(f) { FindingComplete(s, rows, t, RULES, f.rule); }
    }
  }

  lemma {:induction false} FindingsFew(s: Settings, rows: Rows, t: Transaction, rules: seq<Rule>)
    ensures |Findings(s, rows, t, rules)| <= |rules|
  {
    hide EvaluateRule;
    if rules != [] {
      FindingsFew(s, rows, t, rules[1..]);
    }
  }

  /** There are three rules, so at most three findings. */
  lemma AtMostThree(s: Settings, rows: Rows, t: Transaction)
    ensures |Evaluate(s, rows, t)| <= 3
  {
    FindingsFew(s, rows, t, RULES);
  }

  /** rule.evaluate(ctx); only the velocity rule queries. */
  method RunRule(s: Settings, rows: Rows, t: Transaction, r: Rule) returns (finding: Option<Finding>)
    ensures finding == EvaluateRule(s, rows, t, r)
  {
    match r
    case LargeAmount => finding := EvaluateLarge(s, t);
    case RoundAmount => finding := EvaluateRound(s, t);
    case VelocityStructuring =>
      var total, count := Aggregate(rows, Window(s, rows, t));
      if total.None? || total.value < s.velocityThreshold || count < s.minTransactions {
        return None;
      }
      finding := Some(Finding(VelocityStructuring, High,
        VelocityDetail(s.windowHours, total.value, t.currency, count, s.velocityThreshold)));
  }

  /** evaluate_transaction as it runs: the registered rules in turn. */
  method EvaluateTransaction(s: Settings, rows: Rows, t: Transaction) returns (findings: seq<Finding>)
    ensures findings == Evaluate(s, rows, t)
  {
    hide EvaluateRule;
    findings := [];
    var rules := RULES;
    while rules != []
      invariant findings + Findings(s, rows, t, rules) == Evaluate(s, rows, t)
      decreases |rules|
    {
      var finding := RunRule(s, rows, t, rules[0]);
      if finding.Some? {
        ghost var rest := Findings(s, rows, t, rules[1..]);
        assert findings + ([finding.value] + rest) == (findings + [finding.value]) + rest;
        findings := findings + [finding.value];
      } else {
        assert [] + Findings(s, rows, t, rules[1..]) == Findings(s, rows, t, rules[1..]);
      }
      rules := rules[1..];
    }
  }

  // ---------- The two rules complement each other ----------

  /** The customer's transactions in this currency whose times are in the window. */
  function InRange(s: Settings, rows: Rows, t: Transaction): set<Key> {
    set k | k in rows && IsTransaction(rows, k, t.customer, t.currency)
            && t.createdAt - WindowLength(s) <= rows[k].createdAt <= t.createdAt
  }

  /** Those among them that LARGE_AMOUNT reports. */
  function ReportedLarge(s: Settings, rows: Rows, t: Transaction): set<Key> {
    set k | k in InRange(s, rows, t)
            && EvaluateLarge(s, Transaction(t.customer, Amount(rows[k]), t.currency, rows[k].createdAt)).Some?
  }

  lemma {:induction false} TotalSplit(rows: Rows, a: set<Key>, b: set<Key>)
    requires a !! b && a + b <= rows.Keys
    ensures Total(rows, a + b) == Total(rows, a) + Total(rows, b)
    decreases |a|
  {
    if a == {} {
      assert a + b == b;
    } else {
      var k :| k in a;
      TotalPick(rows, a, k);
      TotalPick(rows, a + b, k);
      assert a + b - {k} == (a - {k}) + b;
      TotalSplit(rows, a - {k}, b);
    }
  }

  lemma RangeSplits(s: Settings, rows: Rows, t: Transaction)
    ensures Window(s, rows, t) !! ReportedLarge(s, rows, t) && InRange(s, rows, t) <= rows.Keys
    ensures InRange(s, rows, t) == Window(s, rows, t) + ReportedLarge(s, rows, t)
  {
    hide Amount, WindowLength, IsTransaction;
    forall k
      ensures k in InRange(s, rows, t) <==> k in Window(s, rows, t) || k in ReportedLarge(s, rows, t)
      ensures !(k in Window(s, rows, t) && k in ReportedLarge(s, rows, t))
    {}
  }

  /** Large and velocity split the amounts in range between them: every transaction is counted by
      velocity or reported by LARGE_AMOUNT, none by both, and their sums and counts add up. */
  lemma LargeComplementsVelocity(s: Settings, rows: Rows, t: Transaction)
    ensures var all, small, large := InRange(s, rows, t), Window(s, rows, t), ReportedLarge(s, rows, t);
      && small !! large && all == small + large
      && Total(rows, all) == Total(rows, small) + Total(rows, large) && |all| == |small| + |large|
  {
    hide InRange, Window, ReportedLarge;
    RangeSplits(s, rows, t);
    TotalSplit(rows, Window(s, rows, t), ReportedLarge(s, rows, t));
  }
}
