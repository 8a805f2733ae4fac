/** What a column keeps of a value assigned to it.

    One audited column changes what it is given: `transactions.amount` is Numeric(18, 2), which
    rounds to two decimals, ties away from zero. A number that has at most two decimals is kept as
    it is. Every other audited column keeps its value. Amounts are taken to have at most 15
    significant digits, which is what survives their way to the column as double precision floats. */
module ColumnTypes {
  import opened Json

  function Pow10(n: nat): (r: nat)
    ensures r > 0
  {
    if n == 0 then 1 else 10 * Pow10(n - 1)
  }

  /** m / d to the nearest integer, ties away from zero. */
  function DivideRounded(m: int, d: nat): int
    requires d > 0
  {
    var q := Abs(m) / d + if 2 * (Abs(m) % d) >= d then 1 else 0;
    if m >= 0 then q else -q
  }

  /** A number in hundredths. */
  function Hundredths(v: Value): int {
    match v
    case Int(n) => 100 * n
    case Fixed(m, p) => if p <= 2 then m * Pow10(2 - p) else DivideRounded(m, Pow10(p - 2))
    case _ => 0
  }

  /** At most two decimals: the trailing ones are zero. */
  predicate TwoDecimals(v: Value) { v.Fixed? && v.places > 2 ==> Abs(v.mantissa) % Pow10(v.places - 2) == 0 }

  function Coerce(table: string, column: string, v: Value): Value {
    if table == "transactions" && column == "amount" && !TwoDecimals(v) then Fixed(Hundredths(v), 2) else v
  }

  lemma Pow10Law(n: nat)
    ensures Pow10(0) == 1 && Pow10(n + 1) == 10 * Pow10(n)
  {}

  lemma Halves(m: int, d: nat)
    requires d > 0
    ensures -(d as int) <= 2 * (DivideRounded(m, d) * d - m) <= d
    ensures Abs(m) % d == 0 ==> DivideRounded(m, d) * d == m
    ensures 0 <= m ==> 0 <= DivideRounded(m, d)
    ensures 2 * (DivideRounded(m, d) * d - m) == d ==> m >= 0
    ensures 2 * (DivideRounded(m, d) * d - m) == -(d as int) ==> m < 0
  {
    var a, q, r := Abs(m), Abs(m) / d, Abs(m) % d;
    assert a == q * d + r;
    assert (q + 1) * d == q * d + d;
    if 2 * r >= d {
      assert DivideRounded(m, d) == if m >= 0 then q + 1 else -(q + 1);
      assert -(q + 1) * d == -((q + 1) * d);
    } else {
      assert DivideRounded(m, d) == if m >= 0 then q else -q;
      assert -q * d == -(q * d);
    }
  }

  lemma ScaleLong(m: int, p: Places)
    requires p > 2
    ensures Pow10(p) == 100 * Pow10(p - 2)
    ensures 2 * (Hundredths(Fixed(m, p)) * Pow10(p) - 100 * m)
         == 100 * (2 * (DivideRounded(m, Pow10(p - 2)) * Pow10(p - 2) - m))
  {
    Pow10Law(p - 1);
    Pow10Law(p - 2);
    var h, d := Hundredths(Fixed(m, p)), Pow10(p - 2);
    assert h * (100 * d) == 100 * (h * d);
  }

  lemma ScaleShort(m: int, p: Places)
    requires p <= 2
    ensures Hundredths(Fixed(m, p)) * Pow10(p) == 100 * m
  {
    Pow10Law(0);
    Pow10Law(1);
    assert p == 1 || p == 2;
  }

  /** The number m / 10^p is read as the nearest number of hundredths, a tie away from zero, for every
      number of decimals; exactly, if it has at most two; and never below zero if it is not. */
  lemma HundredthsNearest(m: int, p: Places)
    ensures var off := 2 * (Hundredths(Fixed(m, p)) * Pow10(p) - 100 * m);
      && -(Pow10(p) as int) <= off <= Pow10(p)
      && (off == Pow10(p) ==> m >= 0) && (off == -(Pow10(p) as int) ==> m < 0)
    ensures TwoDecimals(Fixed(m, p)) ==> Hundredths(Fixed(m, p)) * Pow10(p) == 100 * m
    ensures 0 <= m ==> 0 <= Hundredths(Fixed(m, p))
  {
    if p > 2 {
      ScaleLong(m, p);
      Halves(m, Pow10(p - 2));
    } else {
      ScaleShort(m, p);
    }
  }

  /** float(x) of a number of hundredths: one decimal if that is enough. */
  function FloatOf(hundredths: int): Value {
    if hundredths % 10 == 0 then Fixed(hundredths / 10, 1) else Fixed(hundredths, 2)
  }

  /** It is that number, without a zero to spare. */
  lemma FloatExact(n: int)
    ensures FloatOf(n).Fixed? && Hundredths(FloatOf(n)) == n
    ensures FloatOf(n).places == 1 || (FloatOf(n).places == 2 && FloatOf(n).mantissa % 10 != 0)
  {
    Pow10Law(0);
  }

  /** Having at most two decimals is being a whole number of hundredths. */
  lemma TwoDecimalsMeans(m: int, p: Places)
    ensures TwoDecimals(Fixed(m, p)) <==> exists n: int :: n * Pow10(p) == 100 * m
  {
    if TwoDecimals(Fixed(m, p)) {
      HundredthsNearest(m, p);
      assert Hundredths(Fixed(m, p)) * Pow10(p) == 100 * m;
    } else if n: int :| n * Pow10(p) == 100 * m {
      ScaleLong(m, p);
      HundredOut(n, Pow10(p - 2));
      Divides(m, n, Pow10(p - 2));
    }
  }

  lemma HundredOut(n: int, d: int)
    ensures n * (100 * d) == 100 * (n * d)
  {}

  lemma Divides(m: int, n: int, d: nat)
    requires d > 0 && n * d == m
    ensures Abs(m) % d == 0
  {
    Negated(n, d);
    NoRemainder(Abs(n), d, Abs(m) / d, Abs(m) % d);
  }

  lemma Negated(n: int, d: nat)
    ensures Abs(n * d) == Abs(n) * d
  {
    if n < 0 {
      assert n * d == -((-n) * d);
      AtLeastOnce(-n, d);
    }
  }

  lemma AtLeastOnce(k: nat, d: nat)
    requires k >= 1
    ensures k * d >= d
  {
    assert k * d == (k - 1) * d + d;
  }

  lemma NoRemainder(k: nat, d: nat, q: nat, r: nat)
    requires r < d && k * d == q * d + r
    ensures r == 0
  {
    if k > q {
      assert (k - q) * d == k * d - q * d;
      AtLeastOnce(k - q, d);
    } else if k < q {
      assert (q - k) * d == q * d - k * d;
      AtLeastOnce(q - k, d);
    }
  }

  /** A whole number reads alike as an integer and as a float. */
  lemma WholeReadsAlike(n: int)
    ensures Hundredths(Int(n)) == 100 * n && Hundredths(Fixed(10 * n, 1)) == 100 * n
  {
    Pow10Law(0);
  }

  /** Storing rounds once and for all, and does not change the amount in hundredths. */
  lemma CoerceStable(table: string, column: string, v: Value)
    ensures Coerce(table, column, Coerce(table, column, v)) == Coerce(table, column, v)
    ensures Hundredths(Coerce(table, column, v)) == Hundredths(v)
    ensures Coerce(table, column, v) == v <==> (table == "transactions" && column == "amount" ==> TwoDecimals(v))
  {}

  /** 12.345 is kept as 12.35, 0.001 as 0.00. */
  lemma CoerceExamples()
    ensures Coerce("transactions", "amount", Fixed(12345, 3)) == Fixed(1235, 2)
    ensures Coerce("transactions", "amount", Fixed(1, 3)) == Fixed(0, 2)
  {
    assert Pow10(1) == 10;
  }
}
