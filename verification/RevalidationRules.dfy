/** The 2% guard, as the 28-digit decimal arithmetic decides it. */
module RevalidationRules {
  import opened Prelude
  import opened Decimal28

  datatype RuleError = NonPositiveReference(price: int)

  function Abs(x: int): nat { if x < 0 then -x else x }

  /** `abs(Decimal(current) - Decimal(detected)) / Decimal(detected)`, rounded at each operation. */
  function Delta(detected: int, current: int): Decimal
    requires detected > 0
  {
    Divide(RoundInteger(PRECISION, Abs(current - detected)), detected)
  }

  function PriceWithinTolerance(detected: int, current: int): Result<bool, RuleError> {
    if detected <= 0 then Raise(NonPositiveReference(detected))
    else Ok(AtMost(Delta(detected, current), 2, 2))
  }

  function RevalidationChanged(detected: int, current: int, inStock: bool, wasInStock: Option<bool>)
    : Result<bool, RuleError>
  {
    if !inStock then Ok(true)
    else if wasInStock.Some? && wasInStock.value != inStock then Ok(true)
    else
      var within := PriceWithinTolerance(detected, current);
      if within.Raise? then Raise(within.error) else Ok(!within.value)
  }

  /** Below this the guard is exact whatever the price; a reference this many times `over` hides `over`. */
  const EXACT_BELOW: int := 4_000_000_000_000_000_000_000_000_000

  lemma PowerFacts()
    ensures Pow10(26) == 100_000_000_000_000_000_000_000_000
    ensures Pow10(27) == 1_000_000_000_000_000_000_000_000_000
    ensures Pow10(28) == 10_000_000_000_000_000_000_000_000_000
    ensures Pow10(29) == 100_000_000_000_000_000_000_000_000_000
  {
    assert Pow10(6) == 1_000_000;
    assert Pow10(7) == 10 * Pow10(6);
    Pow10Sum(6, 7);
    Pow10Sum(13, 13);
    assert Pow10(27) == 10 * Pow10(26);
    assert Pow10(28) == 10 * Pow10(27);
    assert Pow10(29) == 10 * Pow10(28);
  }

  lemma NotBefore29(n: nat, d: nat, k: int)
    requires d > 0 && k <= 28 && n * Pow10(28) < Pow10(27) * d
    ensures ScaledNum(n, k) < Pow10(27) * ScaledDen(d, k)
  {
    Pow10Monotone(Up(k), 28);
    MulLe(Pow10(Up(k)), Pow10(28), n);
    MulLe(1, Pow10(Up(-k)), d);
    MulLe(d, ScaledDen(d, k), Pow10(27));
  }

  /** A quotient of at most 0.02 has its 28th digit at the 29th decimal place or later. */
  lemma ShiftBelow(n: nat, d: nat)
    requires n > 0 && d > 0 && 50 * n <= d
    ensures Shift(PRECISION, n, d) >= 29
  {
    PowerFacts();
    ShiftBounds(PRECISION, n, d);
    var k := Shift(PRECISION, n, d);
    assert n * Pow10(28) < Pow10(27) * d;
    if k < 29 {
      NotBefore29(n, d, k);
    }
  }

  /** A quotient above 0.02 has it at the 29th decimal place or earlier. */
  lemma ShiftAbove(n: nat, d: nat)
    requires n > 0 && d > 0 && 50 * n > d
    ensures Shift(PRECISION, n, d) <= 29
  {
    PowerFacts();
    ShiftBounds(PRECISION, n, d);
    var k := Shift(PRECISION, n, d);
    if k > 29 {
      Pow10Monotone(30, k);
      assert Pow10(30) == 10 * Pow10(29);
      MulLe(Pow10(30), Pow10(k), n);
    }
  }

  lemma DecidesBelow(n: nat, d: nat)
    requires d > 0 && 50 * n <= d
    ensures AtMost(Divide(n, d), 2, 2)
  {
    if n > 0 {
      ShiftBelow(n, d);
      var k := Shift(PRECISION, n, d);
      var tolerance := 2 * Pow10(k - 2);
      Hundredfold(k);
      MulLe(50 * n, d, tolerance);
      assert n * Pow10(k) == 50 * n * tolerance;
      RoundQuotientNearest(ScaledNum(n, k), ScaledDen(d, k), tolerance);
    }
  }

  lemma Hundredfold(k: nat)
    requires k >= 2
    ensures Pow10(k) == 100 * Pow10(k - 2)
  {
    assert Pow10(k) == 10 * Pow10(k - 1);
  }

  lemma LargeCoefficient(m: nat, k: int)
    requires m >= Pow10(27) && k <= 28
    ensures !AtMost(Decimal(m, -k), 2, 2)
  {
    PowerFacts();
    if k > 0 {
      Pow10Monotone(k, 28);
    } else {
      MulLe(1, Pow10(-k), m);
    }
  }

  /** Rounding half to even stays at an even integer up to half a unit past it, the tie included. */
  lemma StaysAtEven(num: nat, den: nat, even: nat)
    requires den > 0 && even % 2 == 0
    ensures RoundQuotient(num, den) <= even <==> 2 * num <= 2 * (even * den) + den
  {
    var q, r := num / den, num % den;
    assert num == q * den + r;
    assert (q + 1) * den == q * den + den;
    if q < even {
      MulLe(q + 1, even, den);
    } else if q > even {
      MulLe(even + 1, q, den);
      assert (even + 1) * den == even * den + den;
    }
  }

  /** The 28th digit at the 29th place: the rounding hides an excess of half a unit and no more. */
  lemma CoefficientAt29(n: nat, d: nat)
    requires d > 0
    ensures RoundQuotient(n * Pow10(29), d) <= 2 * Pow10(27) <==> EXACT_BELOW * (50 * n - d) <= d
  {
    PowerFacts();
    StaysAtEven(n * Pow10(29), d, 2 * Pow10(27));
  }

  lemma AtMostAt29(m: nat)
    ensures AtMost(Decimal(m, -29), 2, 2) <==> m <= 2 * Pow10(27)
  {
    PowerFacts();
    Hundredfold(29);
    assert Pow10(2) == 100 by {
      Hundredfold(2);
    }
  }

  /** Past a tenth, the quotient is far above the tolerance on either reading. */
  lemma FarAbove(n: nat, d: nat, k: int)
    requires d > 0 && k <= 28 && Pow10(27) * ScaledDen(d, k) <= ScaledNum(n, k)
    ensures EXACT_BELOW * (50 * n - d) > d
  {
    PowerFacts();
    if n * Pow10(28) < Pow10(27) * d {
      NotBefore29(n, d, k);
    }
  }

  lemma DecidesAbove(n: nat, d: nat)
    requires d > 0 && 50 * n > d
    ensures AtMost(Divide(n, d), 2, 2) <==> EXACT_BELOW * (50 * n - d) <= d
  {
    ShiftAbove(n, d);
    ShiftBounds(PRECISION, n, d);
    var k := Shift(PRECISION, n, d);
    if k == 29 {
      assert Pow10(0) == 1;
      CoefficientAt29(n, d);
      AtMostAt29(RoundQuotient(n * Pow10(29), d));
    } else {
      FarAbove(n, d, k);
      DenPositive(d, k);
      RoundQuotientNearest(ScaledNum(n, k), ScaledDen(d, k), Pow10(27));
      LargeCoefficient(RoundQuotient(ScaledNum(n, k), ScaledDen(d, k)), k);
    }
  }

  /**
    * What the guard decides, for every positive reference and every current price: with
    * `over` the amount by which 50 times the (rounded) difference exceeds the reference, the
    * price counts as unchanged exactly when `4 * 10^27 * over` is at most the reference.
    */
  lemma GuardMeaning(detected: int, current: int)
    requires 0 < detected
    ensures var over := 50 * RoundInteger(PRECISION, Abs(current - detected)) - detected;
            PriceWithinTolerance(detected, current) == Ok(EXACT_BELOW * over <= detected)
  {
    var n := RoundInteger(PRECISION, Abs(current - detected));
    if 50 * n <= detected {
      DecidesBelow(n, detected);
    } else {
      DecidesAbove(n, detected);
    }
  }

  /** The exact rule, in integers. */
  predicate Unchanged(detected: int, current: int) { 50 * Abs(current - detected) <= detected }

  lemma SmallDifferenceIsExact(n: nat)
    requires n < Pow10(PRECISION)
    ensures RoundInteger(PRECISION, n) == n
  {
    if Digits(n) > PRECISION {
      DigitsBound(n);
      Pow10Monotone(PRECISION, Digits(n) - 1);
    }
  }

  /** How far 50 times a difference lies over the reference. */
  function Over(detected: int, difference: int): int { 50 * difference - detected }

  /**
    * Exactly when the guard decides the rule, boundary included, for every positive reference
    * and every current price: when the excess, as far as 28 digits hold the difference, is
    * large enough to show exactly if there is one.  Less than 10^28 apart the difference is
    * exact, and the guard fails exactly on an excess of at most a `4 * 10^27`th of the reference.
    */
  lemma ToleranceExactly(detected: int, current: int)
    requires 0 < detected
    ensures var n := Abs(current - detected);
            var decides := PriceWithinTolerance(detected, current) == Ok(Unchanged(detected, current));
            && (decides <==>
                (0 < Over(detected, n) <==> detected < EXACT_BELOW * Over(detected, RoundInteger(PRECISION, n))))
            && (n < Pow10(PRECISION) ==>
                (decides <==> !(0 < Over(detected, n) && EXACT_BELOW * Over(detected, n) <= detected)))
  {
    GuardMeaning(detected, current);
    if Abs(current - detected) < Pow10(PRECISION) {
      SmallDifferenceIsExact(Abs(current - detected));
    }
  }

  /** The difference is exact up to 28 digits, and past them it dwarfs every reference in range. */
  lemma RoundedDifference(d: int, n: nat)
    requires 0 < d < EXACT_BELOW
    ensures 50 * RoundInteger(PRECISION, n) <= d <==> 50 * n <= d
  {
    if Digits(n) > PRECISION {
      PowerFacts();
      RoundIntegerStaysLarge(PRECISION, n);
      DigitsBound(n);
      Pow10Monotone(PRECISION, Digits(n) - 1);
    }
  }

  /** No such excess exists below 4 * 10^27: there the guard is the rule, for every current price. */
  lemma ToleranceIsExact(detected: int, current: int)
    requires 0 < detected < EXACT_BELOW
    ensures PriceWithinTolerance(detected, current) == Ok(Unchanged(detected, current))
  {
    GuardMeaning(detected, current);
    RoundedDifference(detected, Abs(current - detected));
  }

  /** Past it one exists: here the rule says changed, and the rounded quotient is 0.02. */
  lemma ToleranceFailsAtBound()
    ensures var detected := EXACT_BELOW + 49;
            var current := detected + 80_000_000_000_000_000_000_000_001;
            !Unchanged(detected, current) && PriceWithinTolerance(detected, current) == Ok(true)
  {
    var detected := EXACT_BELOW + 49;
    PowerFacts();
    ToleranceExactly(detected, detected + 80_000_000_000_000_000_000_000_001);
  }

  /** The whole guard with the stock baseline unknown, on every reference price. */
  lemma ChangedMeaning(detected: int, current: int, inStock: bool)
    ensures var r := RevalidationChanged(detected, current, inStock, None);
            var over := 50 * RoundInteger(PRECISION, Abs(current - detected)) - detected;
            && (r.Raise? <==> inStock && detected <= 0)
            && (r.Ok? ==> (r.value <==> !inStock || EXACT_BELOW * over > detected))
            && (r.Ok? && detected < EXACT_BELOW ==> (r.value <==> !inStock || !Unchanged(detected, current)))
  {
    if 0 < detected {
      GuardMeaning(detected, current);
      if detected < EXACT_BELOW {
        ToleranceIsExact(detected, current);
      }
    }
  }

  /** Whatever is known of the stock before: out of stock, back in stock, or past the guard's bound. */
  lemma ChangedAgainstBaseline(detected: int, current: int, inStock: bool, wasInStock: Option<bool>)
    ensures var r := RevalidationChanged(detected, current, inStock, wasInStock);
            var flipped := !inStock || wasInStock == Some(false);
            var over := 50 * RoundInteger(PRECISION, Abs(current - detected)) - detected;
            && (r.Raise? <==> !flipped && detected <= 0)
            && (r.Raise? ==> r.error == NonPositiveReference(detected))
            && (r.Ok? ==> (r.value <==> flipped || EXACT_BELOW * over > detected))
  {
    if 0 < detected {
      GuardMeaning(detected, current);
    }
  }
}
