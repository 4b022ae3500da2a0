/**
  * The parts of Python's `decimal` the repository computes with, under the default context:
  * 28 significant digits, rounding half to even.
  */
module Decimal28 {

  const PRECISION: nat := 28

  // ---- Powers of ten -------------------------------------------------------------------

  function Pow10(k: nat): (p: nat)
    ensures p > 0
  {
    if k == 0 then 1 else 10 * Pow10(k - 1)
  }

  lemma {:induction false} Pow10Sum(a: nat, b: nat)
    ensures Pow10(a + b) == Pow10(a) * Pow10(b)
  {
    if a > 0 {
      Pow10Sum(a - 1, b);
      assert Pow10(a) * Pow10(b) == 10 * (Pow10(a - 1) * Pow10(b));
    }
  }

  lemma MulLe(a: int, b: int, c: int)
    requires a <= b && c >= 0
    ensures a * c <= b * c
    ensures c * a <= c * b
  {
    assert (b - a) * c >= 0;
  }

  lemma MulLt(a: int, b: int, c: int)
    requires a < b && c > 0
    ensures a * c < b * c
    ensures c * a < c * b
  {
    assert (b - a) * c > 0;
  }

  lemma Pow10Monotone(a: nat, b: nat)
    requires a <= b
    ensures Pow10(a) <= Pow10(b)
  {
    Pow10Sum(a, b - a);
    MulLe(1, Pow10(b - a), Pow10(a));
  }

  /** Number of decimal digits; zero has none. */
  function Digits(n: nat): nat { if n == 0 then 0 else 1 + Digits(n / 10) }

  lemma {:induction false} DigitsBound(n: nat)
    requires n > 0
    ensures Digits(n) > 0 && Pow10(Digits(n) - 1) <= n < Pow10(Digits(n))
  {
    if n >= 10 {
      DigitsBound(n / 10);
    }
  }

  // ---- Rounding ------------------------------------------------------------------------

  /** Nearest integer to `num / den`, ties to even. */
  function RoundQuotient(num: nat, den: nat): nat
    requires den > 0
  {
    var q, r := num / den, num % den;
    if 2 * r < den || (2 * r == den && q % 2 == 0) then q else q + 1
  }

  lemma QuotientBelow(q: int, r: int, den: int, n: int)
    requires den > 0 && 0 <= r && q * den + r <= n * den
    ensures q <= n && (q == n ==> r == 0)
  {
    assert (n + 1) * den == n * den + den;
    if q > n {
      MulLe(n + 1, q, den);
    }
  }

  /** Rounding never carries a quotient past an integer on either side of it. */
  lemma RoundQuotientNearest(num: nat, den: nat, n: nat)
    requires den > 0
    ensures num <= n * den ==> RoundQuotient(num, den) <= n
    ensures n * den <= num ==> n <= RoundQuotient(num, den)
    ensures 2 * (n * den) + den < 2 * num ==> n < RoundQuotient(num, den)
  {
    var q, r := num / den, num % den;
    assert num == q * den + r;
    if num <= n * den {
      QuotientBelow(q, r, den, n);
    }
    assert (q + 1) * den == q * den + den;
    if q < n {
      MulLe(q + 1, n, den);
    }
  }

  /** An exact integer result brought to `prec` significant digits. */
  function RoundInteger(prec: nat, n: nat): nat {
    if Digits(n) <= prec then n
    else RoundQuotient(n, Pow10(Digits(n) - prec)) * Pow10(Digits(n) - prec)
  }

  /** The nearest integer to a quotient, and of two as near the even one. */
  lemma RoundQuotientMeaning(num: nat, den: nat, n: nat)
    requires den > 0
    ensures n == RoundQuotient(num, den) <==>
            var off: int := 2 * (n * den) - 2 * num;
            (off < den && -off < den) || (n % 2 == 0 && (off == den || -off == den))
  {
    var q, r := num / den, num % den;
    assert num == q * den + r;
    NearestOf(q, r, den, n);
  }

  lemma NearestOf(q: nat, r: nat, den: nat, n: nat)
    requires r < den
    ensures n == (if 2 * r < den || (2 * r == den && q % 2 == 0) then q else q + 1) <==>
            var off: int := 2 * (n * den) - 2 * (q * den + r);
            (off < den && -off < den) || (n % 2 == 0 && (off == den || -off == den))
  {
    assert (q + 1) * den == q * den + den && (q + 2) * den == q * den + 2 * den;
    if n < q {
      MulLe(n + 1, q, den);
      assert (n + 1) * den == n * den + den;
    } else if n > q + 1 {
      MulLe(q + 2, n, den);
    }
  }

  lemma RoundedMultiple(n: nat, unit: nat, q: nat)
    requires unit > 0 && q * unit <= n
    ensures RoundQuotient(n, unit) * unit >= q * unit
  {
    RoundQuotientNearest(n, unit, q);
    MulLe(q, RoundQuotient(n, unit), unit);
  }

  lemma RoundedTop(lead: nat, drop: nat, n: nat)
    requires Pow10(lead + drop) <= n
    ensures RoundQuotient(n, Pow10(drop)) * Pow10(drop) >= Pow10(lead + drop)
  {
    Pow10Sum(lead, drop);
    RoundedMultiple(n, Pow10(drop), Pow10(lead));
  }

  lemma RoundIntegerStaysLarge(prec: nat, n: nat)
    requires prec > 0 && Digits(n) > prec
    ensures RoundInteger(prec, n) >= Pow10(prec)
  {
    DigitsBound(n);
    RoundedTop(prec - 1, Digits(n) - prec, n);
    Pow10Monotone(prec, Digits(n) - 1);
  }

  // ---- Division ------------------------------------------------------------------------

  /** A non-negative decimal: coefficient times a power of ten. */
  datatype Decimal = Decimal(coefficient: nat, exponent: int)

  function Up(k: int): nat { if k >= 0 then k else 0 }

  /** `n / d` times `10^k`, written as a quotient of integers. */
  function ScaledNum(n: nat, k: int): nat { n * Pow10(Up(k)) }

  function ScaledDen(d: nat, k: int): nat { d * Pow10(Up(-k)) }

  lemma DenPositive(d: nat, k: int)
    requires d > 0
    ensures ScaledDen(d, k) > 0
  {
    MulLe(1, d, Pow10(Up(-k)));
  }

  /** The power of ten that gives the quotient exactly `prec` digits before the point. */
  function Shift(prec: nat, n: nat, d: nat): int
    requires prec > 0
  {
    var k := prec - 1 + Digits(d) - Digits(n);
    if ScaledNum(n, k) < Pow10(prec - 1) * ScaledDen(d, k) then k + 1 else k
  }

  /** `Decimal(n) / Decimal(d)`: the quotient correctly rounded to 28 significant digits. */
  function Divide(n: nat, d: nat): Decimal
    requires d > 0
  {
    if n == 0 then Decimal(0, 0)
    else
      var k := Shift(PRECISION, n, d);
      DenPositive(d, k);
      Decimal(RoundQuotient(ScaledNum(n, k), ScaledDen(d, k)), -k)
  }

  lemma ChainBelow(n: nat, a: nat, d: nat, b: nat, p: nat, x: nat, y: nat)
    requires n < a && b <= d && x > 0 && a * x <= p * b * y
    ensures n * x < p * (d * y)
  {
    MulLt(n, a, x);
    MulLe(b, d, p);
    MulLe(p * b, p * d, y);
    assert p * d * y == p * (d * y);
  }

  lemma ChainAbove(n: nat, a: nat, d: nat, b: nat, p: nat, x: nat, y: nat)
    requires a <= n && d <= b && p * b * y <= a * x
    ensures p * (d * y) <= n * x
  {
    MulLe(a, n, x);
    MulLe(d, b, p);
    MulLe(p * d, p * b, y);
    assert p * d * y == p * (d * y);
  }

  lemma PowsBelow(a: nat, x: nat, p: nat, b: nat, y: nat)
    requires a + x <= p + b + y
    ensures Pow10(a) * Pow10(x) <= Pow10(p) * Pow10(b) * Pow10(y)
  {
    calc {
      Pow10(a) * Pow10(x);
    == { Pow10Sum(a, x); }
      Pow10(a + x);
    <= { Pow10Monotone(a + x, p + b + y); }
      Pow10(p + b + y);
    == { PowSum3(p, b, y); }
      Pow10(p) * Pow10(b) * Pow10(y);
    }
  }

  lemma PowsAbove(a: nat, x: nat, p: nat, b: nat, y: nat)
    requires p + b + y <= a + x
    ensures Pow10(p) * Pow10(b) * Pow10(y) <= Pow10(a) * Pow10(x)
  {
    calc {
      Pow10(p) * Pow10(b) * Pow10(y);
    == { PowSum3(p, b, y); }
      Pow10(p + b + y);
    <= { Pow10Monotone(p + b + y, a + x); }
      Pow10(a + x);
    == { Pow10Sum(a, x); }
      Pow10(a) * Pow10(x);
    }
  }

  lemma PowSum3(p: nat, b: nat, y: nat)
    ensures Pow10(p + b + y) == Pow10(p) * Pow10(b) * Pow10(y)
  {
    Pow10Sum(p, b);
    Pow10Sum(p + b, y);
  }

  lemma ScaledBelow(p: nat, n: nat, d: nat, a: nat, b: nat, k: int)
    requires n < Pow10(a) && Pow10(b) <= d && a + k <= p + b
    ensures ScaledNum(n, k) < Pow10(p) * ScaledDen(d, k)
  {
    PowsBelow(a, Up(k), p, b, Up(-k));
    ChainBelow(n, Pow10(a), d, Pow10(b), Pow10(p), Pow10(Up(k)), Pow10(Up(-k)));
  }

  lemma ScaledAbove(p: nat, n: nat, d: nat, a: nat, b: nat, k: int)
    requires Pow10(a) <= n && d <= Pow10(b) && p + b <= a + k
    ensures Pow10(p) * ScaledDen(d, k) <= ScaledNum(n, k)
  {
    PowsAbove(a, Up(k), p, b, Up(-k));
    ChainAbove(n, Pow10(a), d, Pow10(b), Pow10(p), Pow10(Up(k)), Pow10(Up(-k)));
  }

  /** One more digit multiplies the quotient by ten. */
  lemma ShiftStep(p: nat, n: nat, d: nat, k: int)
    requires ScaledNum(n, k) < Pow10(p) * ScaledDen(d, k)
    ensures ScaledNum(n, k + 1) < Pow10(p + 1) * ScaledDen(d, k + 1)
  {
    if k >= 0 {
      TenFold(n, Pow10(k));
      TenFold(Pow10(p), d);
    } else {
      TenFold(d, Pow10(-k - 1));
      TenFold(Pow10(p), d * Pow10(-k - 1));
    }
  }

  lemma TenFold(x: nat, y: nat)
    ensures x * (10 * y) == 10 * (x * y)
    ensures (10 * x) * y == 10 * (x * y)
  {
  }

  /** The rounded quotient has `prec` digits: its exact value lies in `[10^(prec-1), 10^prec)`. */
  lemma ShiftBounds(prec: nat, n: nat, d: nat)
    requires prec > 0 && n > 0 && d > 0
    ensures var k := Shift(prec, n, d);
            && Pow10(prec - 1) * ScaledDen(d, k) <= ScaledNum(n, k)
            && ScaledNum(n, k) < Pow10(prec) * ScaledDen(d, k)
  {
    DigitsBound(n);
    DigitsBound(d);
    var k := prec - 1 + Digits(d) - Digits(n);
    ScaledBelow(prec, n, d, Digits(n), Digits(d) - 1, k);
    ScaledAbove(prec - 1, n, d, Digits(n) - 1, Digits(d), k + 1);
    if ScaledNum(n, k) < Pow10(prec - 1) * ScaledDen(d, k) {
      ShiftStep(prec - 1, n, d, k);
    }
  }

  /** Exact comparison of a decimal with `p / 10^places`. */
  predicate AtMost(x: Decimal, p: nat, places: nat) {
    if x.exponent >= 0 then x.coefficient * Pow10(x.exponent) * Pow10(places) <= p
    else x.coefficient * Pow10(places) <= p * Pow10(-x.exponent)
  }
}
