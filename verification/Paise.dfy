/** Rupees as recorded, paise as stored: the parser and its decimal arithmetic. */
module Paise {
  import opened Prelude
  import opened Decimal28
  import opened Normalizer

  /** `InvalidOperation` is the one exception `paise` does not turn into a parse failure. */
  datatype PaiseError = ParseFailed | InvalidOperation

  /** A JSON value at an amount's path. */
  datatype Amount = Absent | Unusable | Whole(number: int) | Text(text: string)

  /** A finite decimal: sign, digits, and how many of them follow the point. */
  datatype Number = Number(negative: bool, coefficient: nat, places: nat)

  // ---- Arithmetic ----------------------------------------------------------------------

  /** Nearest integer to `num / den`, ties up. */
  function HalfUp(num: nat, den: nat): nat
    requires den > 0
  {
    (2 * num + den) / (2 * den)
  }

  /** `int((rupees * 100).quantize(Decimal(1), ROUND_HALF_UP))` under 28-digit precision. */
  function ToPaise(x: Number): Result<int, PaiseError> {
    var product := RoundInteger(PRECISION, 100 * x.coefficient);
    var magnitude: int := HalfUp(product, Pow10(x.places));
    if Digits(magnitude) > PRECISION then Raise(InvalidOperation)
    else Ok(if x.negative then -magnitude else magnitude)
  }

  // ---- Parsing -------------------------------------------------------------------------

  predicate IsDigit(c: char) { '0' <= c <= '9' }

  predicate AllDigits(s: string) { forall i :: 0 <= i < |s| ==> IsDigit(s[i]) }

  function DigitValue(c: char): nat
    requires IsDigit(c)
  {
    c as int - '0' as int
  }

  function ValueOf(s: string): nat
    requires AllDigits(s)
  {
    if s == "" then 0 else 10 * ValueOf(s[..|s| - 1]) + DigitValue(s[|s| - 1])
  }

  /** Where the point is, or the length when there is none. */
  function PointAt(s: string): (i: nat)
    ensures i <= |s| && (forall k :: 0 <= k < i ==> s[k] != '.') && (i < |s| ==> s[i] == '.')
  {
    if s == "" || s[0] == '.' then 0 else 1 + PointAt(s[1..])
  }

  function Unsigned(negative: bool, s: string): Option<Number> {
    var i := PointAt(s);
    var whole, fraction := s[..i], if i < |s| then s[i + 1..] else "";
    if AllDigits(whole + fraction) && whole + fraction != ""
    then Some(Number(negative, ValueOf(whole + fraction), |fraction|)) else None
  }

  /** `Decimal(text)` on plain text: an optional sign, digits, at most one point. */
  function ParseDecimal(s: string): Option<Number> {
    if s != "" && (s[0] == '+' || s[0] == '-') then Unsigned(s[0] == '-', s[1..]) else Unsigned(false, s)
  }

  function WithoutCommas(s: string): string {
    if s == "" then "" else if s[0] == ',' then WithoutCommas(s[1..]) else [s[0]] + WithoutCommas(s[1..])
  }

  const RUPEE: char := '\U{20B9}'

  function RemovePrefix(s: string, c: char): string { if s != "" && s[0] == c then s[1..] else s }

  function Cleaned(s: string): string { Strip(RemovePrefix(Strip(WithoutCommas(s)), RUPEE)) }

  /** Text without exponents, underscores, special values or foreign digits. */
  predicate Plain(s: string) {
    forall i :: 0 <= i < |s| ==> IsDigit(s[i]) || IsSpace(s[i]) || s[i] in "+-.," || s[i] == RUPEE
  }

  function PaiseOf(amount: Amount): Result<int, PaiseError> {
    match amount
    case Whole(n) => ToPaise(Number(n < 0, if n < 0 then -n else n, 0))
    case Text(text) =>
      var rupees := ParseDecimal(Cleaned(text));
      if rupees.None? then Raise(ParseFailed) else ToPaise(rupees.value)
    case _ => Raise(ParseFailed)
  }

  /** The plain decimal notation: an optional sign, digits, and a point somewhere among them or not. */
  ghost predicate Denotes(s: string, x: Number) {
    exists sign, whole, point, fraction :: DenotesAs(s, x, sign, whole, point, fraction)
  }

  predicate DenotesAs(s: string, x: Number, sign: string, whole: string, point: bool, fraction: string) {
    && (sign == "" || sign == "+" || sign == "-") && AllDigits(whole + fraction) && whole + fraction != ""
    && (!point ==> fraction == "")
    && s == sign + (whole + if point then "." + fraction else "")
    && x == Number(sign == "-", ValueOf(whole + fraction), |fraction|)
  }

  /** `plain` is `s` with its commas, and nothing but its commas, left out. */
  predicate LeavesOutCommas(s: string, plain: string) {
    if s == "" then plain == ""
    else if s[0] == ',' then LeavesOutCommas(s[1..], plain)
    else plain != "" && plain[0] == s[0] && LeavesOutCommas(s[1..], plain[1..])
  }

  /** `s` is `body` with a rupee sign in front or not, spaces around both, and commas anywhere. */
  predicate Decorates(s: string, body: string, lead: string, symbol: bool, gap: string, tail: string) {
    && Spaces(lead) && Spaces(gap) && Spaces(tail)
    && LeavesOutCommas(s, lead + ((if symbol then [RUPEE] else "") + gap + body) + tail)
  }

  /** The amount a JSON value stands for, if it stands for one. */
  ghost predicate Means(amount: Amount, x: Number) {
    match amount
    case Whole(n) => x == Number(n < 0, if n < 0 then -n else n, 0)
    case Text(text) =>
      exists body, lead, symbol, gap, tail :: Decorates(text, body, lead, symbol, gap, tail) && Denotes(body, x)
    case _ => false
  }

  /**
    * `paise`: a parse failure exactly for what denotes no amount; `InvalidOperation` exactly
    * from half a paise below 10^28 paise on; otherwise the nearest paise, outside the
    * double-rounding family and only there; and every rendering of an amount reads back.
    */
  method Paise(amount: Amount) returns (result: Result<int, PaiseError>)
    requires amount.Text? ==> Plain(amount.text)
    ensures result == Raise(ParseFailed) <==> !exists x :: Means(amount, x)
    ensures forall x :: Means(amount, x) ==>
              && (result == Raise(InvalidOperation) <==>
                  2 * Hundredfold(x) + Pow10(x.places) >= 2 * (Pow10(PRECISION) * Pow10(x.places)))
              && (result.Ok? ==>
                  (result.value == Signed(x, HalfUp(Hundredfold(x), Pow10(x.places))) <==> !DoubleRounds(x)))
    ensures forall p :: amount.Text? && Renders(amount.text, p) ==>
              result == if Magnitude(p) < Pow10(PRECISION) then Ok(p) else Raise(InvalidOperation)
    ensures result == PaiseOf(amount)
  {
    PaiseMeaning(amount);
    if !amount.Whole? && !amount.Text? {
      return Raise(ParseFailed);
    }
    var rupees: Option<Number>;
    if amount.Text? {
      var text := WithoutCommas(amount.text);
      text := Strip(text);
      text := RemovePrefix(text, RUPEE);
      text := Strip(text);
      rupees := ParseDecimal(text);
    } else {
      rupees := Some(Number(amount.number < 0, if amount.number < 0 then -amount.number else amount.number, 0));
    }
    if rupees.None? {
      return Raise(ParseFailed);
    }
    return ToPaise(rupees.value);
  }

  /** `first_paise`: the first path that carries an amount decides, even by failing. */
  method FirstPaise(amounts: seq<Amount>) returns (result: Result<Option<int>, PaiseError>)
    requires forall i :: 0 <= i < |amounts| && amounts[i].Text? ==> Plain(amounts[i].text)
    ensures result == Ok(None) <==> forall i :: 0 <= i < |amounts| ==> amounts[i].Absent?
    ensures forall i :: 0 <= i < |amounts| && !amounts[i].Absent? && (forall j :: 0 <= j < i ==> amounts[j].Absent?) ==>
              match PaiseOf(amounts[i])
              case Ok(p) => result == Ok(Some(p))
              case Raise(error) => result == Raise(error)
  {
    var i := 0;
    while i < |amounts|
      invariant 0 <= i <= |amounts| && forall j :: 0 <= j < i ==> amounts[j].Absent?
    {
      if !amounts[i].Absent? {
        var p := Paise(amounts[i]);
        return match p case Ok(value) => Ok(Some(value)) case Raise(error) => Raise(error);
      }
      i := i + 1;
    }
    return Ok(None);
  }

  // ---- Rounding ------------------------------------------------------------------------

  /** Within half a unit, ties away from zero, and the only integer that is. */
  lemma HalfUpIsNearest(num: nat, den: nat, n: nat)
    requires den > 0
    ensures n == HalfUp(num, den) <==> 2 * (n * den) <= 2 * num + den < 2 * (n * den) + 2 * den
  {
    var q, r := (2 * num + den) / (2 * den), (2 * num + den) % (2 * den);
    assert 2 * num + den == q * (2 * den) + r;
    assert q * (2 * den) == 2 * (q * den);
    if n < q {
      MulLe(n + 1, q, den);
      assert (n + 1) * den == n * den + den;
    } else if n > q {
      MulLe(q + 1, n, den);
      assert (q + 1) * den == q * den + den;
    }
  }

  /** Halves up within the unit: the fraction alone decides. */
  lemma HalfUpSplit(q: nat, r: nat, den: nat)
    requires den > 0 && r <= den
    ensures HalfUp(q * den + r, den) == if 2 * r < den then q else q + 1
  {
    var n := if 2 * r < den then q else q + 1;
    assert (q + 1) * den == q * den + den;
    HalfUpIsNearest(q * den + r, den, n);
  }

  lemma Cancel(x: int, y: int, k: int)
    requires k > 0 && x * k < y * k
    ensures x < y
  {
    if x >= y {
      MulLe(y, x, k);
    }
  }

  lemma Doubled(a: int, d: int, e: int)
    ensures (2 * a + d) * e == 2 * (a * e) + d * e
  {
  }

  lemma Regrouped(x: int, d: int, e: int)
    ensures 2 * (x * d) * e == 2 * (x * (d * e))
    ensures (2 * (x * e) + 2 * e) * d == 2 * ((x + 1) * (d * e))
  {
    assert x * d * e == x * (d * e);
    assert x * e * d == x * (d * e);
    assert (2 * (x * e) + 2 * e) * d == 2 * (x * e * d) + 2 * (e * d);
  }

  lemma Crosses(a: nat, d: nat, b: nat, e: nat, x: nat, y: nat)
    requires d > 0 && e > 0 && a * e <= b * d
    requires 2 * (x * d) <= 2 * a + d && 2 * b + e < 2 * (y * e) + 2 * e
    ensures x <= y
  {
    var de := d * e;
    assert 2 * (x * de) <= 2 * (a * e) + de by {
      MulLe(2 * (x * d), 2 * a + d, e);
      Doubled(a, d, e);
      Regrouped(x, d, e);
    }
    assert 2 * (b * d) + de < 2 * ((y + 1) * de) by {
      MulLt(2 * b + e, 2 * (y * e) + 2 * e, d);
      Doubled(b, e, d);
      Regrouped(y, d, e);
    }
    assert de > 0 by {
      MulLt(0, d, e);
    }
    Cancel(x, y + 1, de);
  }

  /** Half-up rounding is monotone across different denominators. */
  lemma CrossMonotone(a: nat, d: nat, b: nat, e: nat)
    requires d > 0 && e > 0 && a * e <= b * d
    ensures HalfUp(a, d) <= HalfUp(b, e)
  {
    HalfUpIsNearest(a, d, HalfUp(a, d));
    HalfUpIsNearest(b, e, HalfUp(b, e));
    Crosses(a, d, b, e, HalfUp(a, d), HalfUp(b, e));
  }

  // ---- The exact meaning of the conversion ---------------------------------------------

  /** The amount is exactly `Hundredfold(x) / 10^places` paise. */
  function Hundredfold(x: Number): nat { 100 * x.coefficient }

  function Signed(x: Number, magnitude: int): int { if x.negative then -magnitude else magnitude }

  /** Digits past the 28th that the multiplication rounds away. */
  function Excess(x: Number): nat {
    if Digits(Hundredfold(x)) > PRECISION then Digits(Hundredfold(x)) - PRECISION else 0
  }

  /** The inputs on which the two roundings in a row miss the nearest paise. */
  predicate DoubleRounds(x: Number) {
    var n, unit, den := Hundredfold(x), Pow10(Excess(x)), Pow10(x.places);
    var rest := n % den;
    if Excess(x) == 0 then false
    else if Excess(x) == x.places then 2 * rest == den && n / den % 2 == 0
    else
      && Excess(x) < x.places && 2 * rest < den
      && (2 * rest + unit > den || (2 * rest + unit == den && Excess(x) + 2 <= x.places))
  }

  lemma DigitsPast(n: nat, k: nat)
    ensures Digits(n) > k <==> n >= Pow10(k)
  {
    if n > 0 {
      DigitsBound(n);
      if Digits(n) > k {
        Pow10Monotone(k, Digits(n) - 1);
      } else {
        Pow10Monotone(Digits(n), k);
      }
    }
  }

  lemma DivUnique(n: nat, den: nat, q: nat, r: nat)
    requires den > 0 && r < den && n == q * den + r
    ensures n / den == q && n % den == r
  {
    var q' := n / den;
    assert n == q' * den + n % den;
    assert (q' + 1) * den == q' * den + den && (q + 1) * den == q * den + den;
    if q' < q {
      MulLe(q' + 1, q, den);
    } else if q' > q {
      MulLe(q + 1, q', den);
    }
  }

  /** `n` in units: `q` paise of `10 w` units each, `a` whole units, and `b` of the next. */
  lemma InUnits(n: nat, unit: nat, w: nat, q: nat, a: nat, b: nat)
    requires unit > 0 && b < unit && n == q * (10 * w * unit) + (a * unit + b)
    ensures n / unit == q * (10 * w) + a && n % unit == b
    ensures RoundQuotient(n, unit) == q * (10 * w) + Nearby(a, b, unit)
  {
    var steps := q * (10 * w);
    assert q * (10 * w * unit) == steps * unit by {
      Grouped(q, 10 * w, unit);
    }
    assert (steps + a) * unit == steps * unit + a * unit;
    DivUnique(n, unit, steps + a, b);
    Even(q, w);
  }

  lemma Grouped(x: int, y: int, z: int)
    ensures x * (y * z) == x * y * z
  {
  }

  /** `a` and a bit, rounded half to even. */
  function Nearby(a: nat, b: nat, unit: nat): nat {
    if 2 * b < unit || (2 * b == unit && a % 2 == 0) then a else a + 1
  }

  lemma UnitsHalfUp(q: nat, a: nat, b: nat, unit: nat, w: nat)
    requires unit > 0 && w > 0 && b < unit && a * unit + b <= 10 * w * unit
    ensures 10 * w * unit > 0
    ensures HalfUp(q * (10 * w * unit) + (a * unit + b), 10 * w * unit) == if a < 5 * w then q else q + 1
  {
    MulLt(0, 10 * w, unit);
    Halves(a, b, unit, w);
    HalfUpSplit(q, a * unit + b, 10 * w * unit);
  }

  lemma RoundedSplit(n: nat, unit: nat, w: nat, q: nat, a: nat, b: nat)
    requires unit > 0 && w > 0 && b < unit && a < 10 * w && n == q * (10 * w * unit) + (a * unit + b)
    ensures 10 * w * unit > 0
    ensures HalfUp(RoundQuotient(n, unit) * unit, 10 * w * unit) == if Nearby(a, b, unit) < 5 * w then q else q + 1
  {
    InUnits(n, unit, w, q, a, b);
    var near := Nearby(a, b, unit);
    MulLe(near, 10 * w, unit);
    assert (q * (10 * w) + near) * unit == q * (10 * w * unit) + (near * unit + 0) by {
      assert q * (10 * w * unit) == q * (10 * w) * unit;
      assert (q * (10 * w) + near) * unit == q * (10 * w) * unit + near * unit;
    }
    UnitsHalfUp(q, near, 0, unit, w);
  }

  /** The decision in units: `rest` is `a` units and `b`, `den` is `10 w` units. */
  lemma Differs(a: nat, b: nat, unit: nat, w: nat, rest: nat, den: nat)
    requires unit > 0 && b < unit && a < 10 * w && rest == a * unit + b && den == 10 * w * unit
    ensures (Nearby(a, b, unit) < 5 * w <==> a < 5 * w) <==>
            !(2 * rest < den && (2 * rest + unit > den || (2 * rest + unit == den && w % 2 == 0)))
  {
    Halves(a, b, unit, w);
    Below(a, b, unit, w);
  }

  lemma UnitsBound(rest: nat, unit: nat, w: nat, a: nat, b: nat)
    requires unit > 0 && rest == a * unit + b && rest < 10 * w * unit
    ensures a < 10 * w
  {
    Cancel(a, 10 * w, unit);
  }

  lemma BothRoundings(n: nat, unit: nat, w: nat, den: nat, q: nat, rest: nat, a: nat, b: nat)
    requires unit > 0 && w > 0 && den == 10 * w * unit && den > 0
    requires n == q * den + rest && rest < den && rest == a * unit + b && b < unit
    ensures a < 10 * w
    ensures HalfUp(RoundQuotient(n, unit) * unit, den) == if Nearby(a, b, unit) < 5 * w then q else q + 1
    ensures HalfUp(n, den) == if a < 5 * w then q else q + 1
  {
    UnitsBound(rest, unit, w, a, b);
    RoundedSplit(n, unit, w, q, a, b);
    UnitsHalfUp(q, a, b, unit, w);
  }

  lemma FineRoundingAt(n: nat, unit: nat, w: nat, den: nat, q: nat, rest: nat, a: nat, b: nat)
    requires unit > 0 && w > 0 && den == 10 * w * unit && den > 0
    requires n == q * den + rest && rest < den && rest == a * unit + b && b < unit
    ensures HalfUp(RoundQuotient(n, unit) * unit, den) == HalfUp(n, den) <==>
            !(2 * rest < den && (2 * rest + unit > den || (2 * rest + unit == den && w % 2 == 0)))
  {
    BothRoundings(n, unit, w, den, q, rest, a, b);
    Differs(a, b, unit, w, rest, den);
  }

  lemma Divided(n: nat, den: nat) returns (q: nat, rest: nat)
    requires den > 0
    ensures n == q * den + rest && rest < den && rest == n % den
  {
    q, rest := n / den, n % den;
  }

  /** Rounding to a unit well below the paise goes wrong only just under a half. */
  lemma FineRounding(n: nat, unit: nat, w: nat, den: nat)
    requires unit > 0 && w > 0 && den == 10 * w * unit && den > 0
    ensures var rest := n % den;
            HalfUp(RoundQuotient(n, unit) * unit, den) == HalfUp(n, den) <==>
            !(2 * rest < den && (2 * rest + unit > den || (2 * rest + unit == den && w % 2 == 0)))
  {
    var q, rest := Divided(n, den);
    var a, b := Divided(rest, unit);
    FineRoundingAt(n, unit, w, den, q, rest, a, b);
  }

  lemma Even(q: nat, w: nat)
    ensures q * (10 * w) % 2 == 0
  {
    assert q * (10 * w) == 2 * (5 * (q * w));
  }

  /** `a` and a bit of `10 w` units is under half of them exactly when `a < 5 w`. */
  lemma Halves(a: nat, b: nat, unit: nat, w: nat)
    requires b < unit
    ensures 2 * (a * unit + b) < 10 * w * unit <==> a < 5 * w
  {
    assert 10 * w * unit == 2 * (5 * w * unit);
    assert (a + 1) * unit == a * unit + unit;
    if a < 5 * w {
      MulLe(a + 1, 5 * w, unit);
    } else {
      MulLe(5 * w, a, unit);
    }
  }

  lemma Below(a: nat, b: nat, unit: nat, w: nat)
    requires b < unit && a < 10 * w
    ensures var r := a * unit + b;
            && (a + 1 == 5 * w ==> 2 * r + unit - 10 * w * unit == 2 * b - unit)
            && (a + 1 < 5 * w ==> 2 * r + unit < 10 * w * unit)
  {
    assert 10 * w * unit == 2 * (5 * w * unit);
    assert (a + 1) * unit == a * unit + unit && (a + 2) * unit == a * unit + 2 * unit;
    if a + 1 < 5 * w {
      MulLe(a + 2, 5 * w, unit);
    }
  }

  lemma HalfUpAtLeast(num: nat, den: nat, bound: nat)
    requires den > 0
    ensures HalfUp(num, den) >= bound <==> 2 * num + den >= 2 * (bound * den)
  {
    var q := HalfUp(num, den);
    HalfUpIsNearest(num, den, q);
    assert (q + 1) * den == q * den + den;
    if q >= bound {
      MulLe(bound, q, den);
    } else {
      MulLe(q + 1, bound, den);
    }
  }

  /** What is left of the amount after the multiplication: 28 significant digits. */
  function Product(x: Number): nat { RoundInteger(PRECISION, Hundredfold(x)) }

  /** More digits are lost than there are behind the point: the amount is past `prec` digits. */
  lemma CoarseProduct(prec: nat, n: nat, e: nat, places: nat)
    requires prec > 0 && Digits(n) == prec + e && e > places
    ensures n >= Pow10(prec + places) && RoundInteger(prec, n) >= Pow10(prec + places)
  {
    DigitsBound(n);
    RoundedTop(prec - 1, e, n);
    Pow10Monotone(prec + places, prec - 1 + e);
  }

  /** Fewer: the amount has at least one digit less, before rounding and after. */
  lemma FineProduct(prec: nat, n: nat, e: nat, places: nat)
    requires prec > 0 && Digits(n) == prec + e && e < places
    ensures n <= Pow10(prec - 1 + places) && RoundInteger(prec, n) <= Pow10(prec - 1 + places)
  {
    DigitsBound(n);
    Pow10Monotone(prec + e, prec - 1 + places);
    if e > 0 {
      Pow10Sum(prec, e);
      RoundedAtMost(n, Pow10(e), Pow10(prec), Pow10(prec + e));
    }
  }

  lemma RoundedAtMost(n: nat, unit: nat, top: nat, bound: nat)
    requires unit > 0 && n <= bound == top * unit
    ensures RoundQuotient(n, unit) * unit <= bound
  {
    RoundQuotientNearest(n, unit, top);
    MulLe(RoundQuotient(n, unit), top, unit);
  }

  lemma NextPower(k: nat)
    ensures Pow10(k + 1) == 10 * Pow10(k) && Pow10(k + 1) % 2 == 0
  {
  }

  lemma TenTimes(prec: nat, places: nat)
    requires prec > 0
    ensures Pow10(prec) % 2 == 0 && Pow10(prec + places) == 10 * Pow10(prec - 1 + places)
    ensures Pow10(prec) * Pow10(places) == Pow10(prec + places) && Pow10(places) <= Pow10(prec - 1 + places)
  {
    NextPower(prec - 1);
    NextPower(prec - 1 + places);
    Pow10Sum(prec, places);
    Pow10Monotone(places, prec - 1 + places);
  }

  /** As many: the amount is rounded to whole paise, half to even, and then left alone. */
  lemma LevelProduct(n: nat, den: nat, q: nat, r: nat)
    requires den > 0 && n == q * den + r && r < den
    ensures HalfUp(RoundQuotient(n, den) * den, den) == Nearby(q, r, den)
    ensures HalfUp(n, den) == if 2 * r < den then q else q + 1
  {
    DivUnique(n, den, q, r);
    HalfUpSplit(Nearby(q, r, den), 0, den);
    HalfUpSplit(q, r, den);
  }

  lemma LevelBound(q: nat, r: nat, den: nat, bound: nat)
    requires den > 0 && r < den && bound % 2 == 0
    ensures Nearby(q, r, den) >= bound <==> 2 * (q * den + r) + den >= 2 * (bound * den)
  {
    assert (q + 1) * den == q * den + den && (q + 2) * den == q * den + 2 * den;
    if q >= bound {
      MulLe(bound, q, den);
    } else if q + 1 < bound {
      MulLe(q + 2, bound, den);
    }
  }

  lemma LevelAtLeast(n: nat, den: nat, bound: nat)
    requires den > 0 && bound % 2 == 0
    ensures HalfUp(RoundQuotient(n, den) * den, den) >= bound <==> 2 * n + den >= 2 * (bound * den)
  {
    var q, r := Divided(n, den);
    LevelProduct(n, den, q, r);
    LevelBound(q, r, den, bound);
  }

  lemma CoarseAtLeast(product: nat, n: nat, den: nat, bound: nat, top: nat)
    requires den > 0 && bound * den == top && product >= top && n >= top
    ensures HalfUp(product, den) >= bound && 2 * n + den >= 2 * (bound * den)
  {
    HalfUpAtLeast(product, den, bound);
  }

  lemma FineAtLeast(product: nat, n: nat, den: nat, bound: nat, small: nat)
    requires den > 0 && den <= small && product <= small && n <= small && bound * den == 10 * small
    ensures HalfUp(product, den) < bound && 2 * n + den < 2 * (bound * den)
  {
    HalfUpAtLeast(product, den, bound);
  }

  lemma ProductAtLeast(prec: nat, n: nat, places: nat)
    requires prec > 0
    ensures HalfUp(RoundInteger(prec, n), Pow10(places)) >= Pow10(prec) <==>
            2 * n + Pow10(places) >= 2 * (Pow10(prec) * Pow10(places))
  {
    var den, product := Pow10(places), RoundInteger(prec, n);
    TenTimes(prec, places);
    if Digits(n) <= prec {
      HalfUpAtLeast(n, den, Pow10(prec));
    } else {
      ProductPast(prec, n, Digits(n) - prec, places);
    }
  }

  lemma ProductPast(prec: nat, n: nat, e: nat, places: nat)
    requires prec > 0 && e > 0 && Digits(n) == prec + e
    ensures HalfUp(RoundInteger(prec, n), Pow10(places)) >= Pow10(prec) <==>
            2 * n + Pow10(places) >= 2 * (Pow10(prec) * Pow10(places))
  {
    TenTimes(prec, places);
    if e > places {
      CoarseProduct(prec, n, e, places);
      CoarseAtLeast(RoundInteger(prec, n), n, Pow10(places), Pow10(prec), Pow10(prec + places));
    } else if e < places {
      FineProduct(prec, n, e, places);
      FineAtLeast(RoundInteger(prec, n), n, Pow10(places), Pow10(prec), Pow10(prec - 1 + places));
    } else {
      LevelAtLeast(n, Pow10(places), Pow10(prec));
    }
  }

  /**
    * The conversion raises `InvalidOperation`, which nothing catches, exactly when the amount
    * is within half a paise of 10^28 paise or past it.
    */
  lemma RaisesExactly(x: Number)
    ensures ToPaise(x).Raise? <==> 2 * Hundredfold(x) + Pow10(x.places) >= 2 * (Pow10(PRECISION) * Pow10(x.places))
    ensures ToPaise(x).Raise? ==> ToPaise(x).error == InvalidOperation
  {
    ProductAtLeast(PRECISION, Hundredfold(x), x.places);
    DigitsPast(HalfUp(Product(x), Pow10(x.places)), PRECISION);
  }

  lemma EvenPower(k: nat)
    ensures Pow10(k) % 2 == 0 <==> k > 0
  {
  }

  lemma RoundingsAgree(x: Number)
    requires Excess(x) <= x.places
    ensures HalfUp(Product(x), Pow10(x.places)) == HalfUp(Hundredfold(x), Pow10(x.places)) <==> !DoubleRounds(x)
  {
    var n, e, den := Hundredfold(x), Excess(x), Pow10(x.places);
    if 0 < e < x.places {
      var w := Pow10(x.places - e - 1);
      assert den == 10 * w * Pow10(e) by {
        Pow10Sum(x.places - e, e);
      }
      FineRounding(n, Pow10(e), w, den);
      EvenPower(x.places - e - 1);
    } else if 0 < e {
      var q, r := Divided(n, den);
      LevelProduct(n, den, q, r);
      DivUnique(n, den, q, r);
    }
  }

  /**
    * Whatever does not raise is the half-up nearest number of paise, exactly outside the
    * double-rounding family.
    */
  lemma NearestExactly(x: Number)
    requires ToPaise(x).Ok?
    ensures ToPaise(x) == Ok(Signed(x, HalfUp(Hundredfold(x), Pow10(x.places)))) <==>
            !DoubleRounds(x)
  {
    var n, e := Hundredfold(x), Excess(x);
    RaisesExactly(x);
    if e > x.places {
      CoarseProduct(PRECISION, n, e, x.places);
      TenTimes(PRECISION, x.places);
    }
    RoundingsAgree(x);
  }

  lemma SmallHundredfold(c: nat, digits: nat)
    requires Digits(c) <= digits
    ensures 100 * c < Pow10(digits + 2) && Digits(100 * c) <= digits + 2
  {
    DigitsPast(c, digits);
    DigitsPast(100 * c, digits + 2);
    assert Pow10(digits + 2) == 10 * Pow10(digits + 1);
  }

  lemma BelowBound(n: nat, den: nat, bound: nat)
    requires n < bound && den > 0
    ensures 2 * n + den < 2 * (bound * den)
  {
    MulLe(1, den, bound - 1);
    assert bound * den == (bound - 1) * den + den;
  }

  /** Amounts of up to 26 digits never raise and convert to the nearest paise, ties away from zero. */
  lemma NearestWithinPrecision(x: Number)
    requires Digits(x.coefficient) <= 26
    ensures var m := HalfUp(Hundredfold(x), Pow10(x.places));
            && ToPaise(x) == Ok(Signed(x, m))
            && 2 * (m * Pow10(x.places)) <= 2 * Hundredfold(x) + Pow10(x.places)
            && 2 * Hundredfold(x) < 2 * (m * Pow10(x.places)) + Pow10(x.places)
  {
    SmallHundredfold(x.coefficient, 26);
    BelowBound(Hundredfold(x), Pow10(x.places), Pow10(PRECISION));
    RaisesExactly(x);
    NearestExactly(x);
    HalfUpIsNearest(Hundredfold(x), Pow10(x.places), HalfUp(Hundredfold(x), Pow10(x.places)));
  }

  // ---- Monotonicity --------------------------------------------------------------------

  /** Scaling both sides leaves a rounded quotient alone. */
  lemma QuotientScales(n: nat, den: nat, k: nat)
    requires den > 0 && k > 0
    ensures den * k > 0 && RoundQuotient(n * k, den * k) == RoundQuotient(n, den)
  {
    var q, r := Divided(n, den);
    ScaledParts(n, den, q, r, k);
    RoundedFrom(n, den, q, r);
    RoundedFrom(n * k, den * k, q, r * k);
    Compares(2 * r, den, k);
  }

  lemma ScaledParts(n: nat, den: nat, q: nat, r: nat, k: nat)
    requires k > 0 && n == q * den + r && r < den
    ensures n * k == q * (den * k) + r * k && r * k < den * k && 2 * (r * k) == 2 * r * k
  {
    MulLt(r, den, k);
    Grouped(q, den, k);
    assert (q * den + r) * k == q * den * k + r * k;
  }

  lemma RoundedFrom(num: nat, den: nat, q: nat, r: nat)
    requires den > 0 && num == q * den + r && r < den
    ensures RoundQuotient(num, den) == if 2 * r < den || (2 * r == den && q % 2 == 0) then q else q + 1
  {
    DivUnique(num, den, q, r);
  }

  lemma Compares(a: nat, b: nat, k: nat)
    requires k > 0
    ensures a * k < b * k <==> a < b
    ensures a * k == b * k <==> a == b
  {
    if a < b {
      MulLt(a, b, k);
    } else if b < a {
      MulLt(b, a, k);
    }
  }

  lemma {:induction false} DigitsScale(n: nat, k: nat)
    requires n > 0
    ensures n * Pow10(k) > 0 && Digits(n * Pow10(k)) == Digits(n) + k
  {
    if k > 0 {
      DigitsScale(n, k - 1);
      assert n * Pow10(k) == 10 * (n * Pow10(k - 1));
    }
  }

  lemma ExactMultiple(n: nat, den: nat)
    requires den > 0
    ensures RoundQuotient(n * den, den) == n
  {
    DivUnique(n * den, den, n, 0);
  }

  /** Appending zeros to the digits appends them to the rounded digits. */
  lemma RoundingScales(prec: nat, n: nat, k: nat)
    requires n > 0
    ensures RoundInteger(prec, n * Pow10(k)) == RoundInteger(prec, n) * Pow10(k)
  {
    DigitsScale(n, k);
    var e := Digits(n) + k - prec;
    if Digits(n) > prec {
      var unit := Pow10(Digits(n) - prec);
      Pow10Sum(Digits(n) - prec, k);
      QuotientScales(n, unit, Pow10(k));
      Grouped(RoundQuotient(n, unit), unit, Pow10(k));
    } else if e > 0 {
      Pow10Sum(k - e, e);
      Grouped(n, Pow10(k - e), Pow10(e));
      ExactMultiple(n * Pow10(k - e), Pow10(e));
    }
  }

  lemma QuotientMonotone(a: nat, b: nat, den: nat)
    requires den > 0 && a <= b
    ensures RoundQuotient(a, den) <= RoundQuotient(b, den)
  {
    var q, r := Divided(a, den);
    var q', r' := Divided(b, den);
    DivUnique(a, den, q, r);
    DivUnique(b, den, q', r');
    assert (q' + 1) * den == q' * den + den;
    if q > q' {
      MulLe(q' + 1, q, den);
    }
  }

  /** Rounding keeps an integer between the powers of ten around it. */
  lemma RoundedRange(prec: nat, n: nat)
    requires prec > 0 && n > 0
    ensures Pow10(Digits(n) - 1) <= RoundInteger(prec, n) <= Pow10(Digits(n))
  {
    DigitsBound(n);
    if Digits(n) > prec {
      var e := Digits(n) - prec;
      RoundedTop(prec - 1, e, n);
      Pow10Sum(prec, e);
      RoundQuotientNearest(n, Pow10(e), Pow10(prec));
      MulLe(RoundQuotient(n, Pow10(e)), Pow10(prec), Pow10(e));
    }
  }

  lemma {:induction false} DigitsMonotone(m: nat, n: nat)
    requires m <= n
    ensures Digits(m) <= Digits(n)
  {
    if m > 0 {
      DigitsMonotone(m / 10, n / 10);
    }
  }

  lemma RoundingMonotone(prec: nat, m: nat, n: nat)
    requires prec > 0 && 0 < m <= n
    ensures RoundInteger(prec, m) <= RoundInteger(prec, n)
  {
    DigitsMonotone(m, n);
    if Digits(m) == Digits(n) {
      if Digits(m) > prec {
        var unit := Pow10(Digits(m) - prec);
        QuotientMonotone(m, n, unit);
        MulLe(RoundQuotient(m, unit), RoundQuotient(n, unit), unit);
      }
    } else {
      RoundedRange(prec, m);
      RoundedRange(prec, n);
      Pow10Monotone(Digits(m), Digits(n) - 1);
    }
  }

  /** `x` is at most `y`, as exact amounts. */
  predicate AtMostAmount(x: Number, y: Number) {
    var left, right := x.coefficient * Pow10(y.places), y.coefficient * Pow10(x.places);
    Signed(x, left) <= Signed(y, right)
  }

  lemma ProductMonotone(x: Number, y: Number)
    requires 0 < x.coefficient && 0 < y.coefficient
    requires x.coefficient * Pow10(y.places) <= y.coefficient * Pow10(x.places)
    ensures Product(x) * Pow10(y.places) <= Product(y) * Pow10(x.places)
  {
    var m, n := Hundredfold(x), Hundredfold(y);
    assert m * Pow10(y.places) == 100 * (x.coefficient * Pow10(y.places));
    assert n * Pow10(x.places) == 100 * (y.coefficient * Pow10(x.places));
    MulLt(0, m, Pow10(y.places));
    RoundingMonotone(PRECISION, m * Pow10(y.places), n * Pow10(x.places));
    RoundingScales(PRECISION, m, y.places);
    RoundingScales(PRECISION, n, x.places);
  }

  /** Zero paise for a zero amount, whatever its sign. */
  lemma ZeroAmount(x: Number)
    requires x.coefficient == 0
    ensures HalfUp(Product(x), Pow10(x.places)) == 0
  {
    HalfUpIsNearest(0, Pow10(x.places), 0);
  }

  lemma ZeroProduct(c: nat, p: nat)
    requires p > 0 && c * p <= 0
    ensures c == 0
  {
    if c > 0 {
      MulLt(0, c, p);
    }
  }

  lemma MagnitudeMonotone(x: Number, y: Number)
    requires x.coefficient * Pow10(y.places) <= y.coefficient * Pow10(x.places)
    ensures HalfUp(Product(x), Pow10(x.places)) <= HalfUp(Product(y), Pow10(y.places))
  {
    if x.coefficient == 0 {
      ZeroAmount(x);
    } else if y.coefficient == 0 {
      ZeroProduct(x.coefficient, Pow10(y.places));
    } else {
      ProductMonotone(x, y);
      CrossMonotone(Product(x), Pow10(x.places), Product(y), Pow10(y.places));
    }
  }

  lemma SignedMonotone(x: Number, y: Number)
    requires AtMostAmount(x, y)
    ensures Signed(x, HalfUp(Product(x), Pow10(x.places))) <= Signed(y, HalfUp(Product(y), Pow10(y.places)))
  {
    if !x.negative && !y.negative {
      MagnitudeMonotone(x, y);
    } else if x.negative && y.negative {
      MagnitudeMonotone(y, x);
    } else if y.negative {
      ZeroProduct(x.coefficient, Pow10(y.places));
      ZeroProduct(y.coefficient, Pow10(x.places));
      ZeroAmount(x);
      ZeroAmount(y);
    }
  }

  /** A larger amount never converts to fewer paise: both roundings are monotone. */
  lemma PaiseMonotone(x: Number, y: Number)
    requires AtMostAmount(x, y) && ToPaise(x).Ok? && ToPaise(y).Ok?
    ensures ToPaise(x).value <= ToPaise(y).value
  {
    SignedMonotone(x, y);
  }

  /** The family is not empty: a hair under half a paise, in more digits than 28, becomes one. */
  lemma DoubleRoundingHappens()
    ensures var x := Number(false, 49_999_999_999_999_999_999_999_999_996, 31);
            && DoubleRounds(x) && ToPaise(x) == Ok(1)
            && HalfUp(Hundredfold(x), Pow10(x.places)) == 0
  {
    var x := Number(false, 49_999_999_999_999_999_999_999_999_996, 31);
    var n := 4_999_999_999_999_999_999_999_999_999_600;
    Thousandths();
    DigitsPast(n, 30);
    DigitsPast(n, 31);
    assert Excess(x) == 3;
    DivUnique(n, Pow10(31), 0, n);
    DivUnique(n, 1000, 4_999_999_999_999_999_999_999_999_999, 600);
    assert RoundQuotient(n, 1000) == 5_000_000_000_000_000_000_000_000_000;
    HalfUpIsNearest(n, Pow10(31), 0);
    HalfUpIsNearest(RoundInteger(PRECISION, n), Pow10(31), 1);
  }

  lemma Thousandths()
    ensures Pow10(3) == 1000 && Pow10(30) == 1_000_000_000_000_000_000_000_000_000_000 && Pow10(31) == 10 * Pow10(30)
  {
    assert Pow10(10) == 10_000_000_000;
    Pow10Sum(10, 10);
    Pow10Sum(20, 10);
  }

  // ---- Printing and reading back -------------------------------------------------------

  function DigitChar(d: nat): (c: char)
    requires d < 10
    ensures IsDigit(c) && DigitValue(c) == d
  {
    '0' + d as char
  }

  function Dec(n: nat): (s: string)
    ensures s != "" && AllDigits(s)
  {
    if n < 10 then [DigitChar(n)] else Dec(n / 10) + [DigitChar(n % 10)]
  }

  /** An amount in rupees, to the paisa; an explicit plus is optional. */
  function Printed(p: int, plus: bool): string {
    var m: nat := if p < 0 then -p else p;
    (if p < 0 then "-" else if plus then "+" else "")
      + Dec(m / 100) + "." + [DigitChar(m % 100 / 10), DigitChar(m % 10)]
  }

  /** Commas anywhere, spaces around, and a rupee sign in front or not. */
  ghost predicate Renders(s: string, p: int) {
    exists lead, symbol, gap, plus, tail :: Decorates(s, Printed(p, plus), lead, symbol, gap, tail)
  }

  lemma {:induction false} CommasMeaning(s: string, plain: string)
    ensures LeavesOutCommas(s, plain) <==> WithoutCommas(s) == plain
  {
    if s != "" {
      if s[0] == ',' {
        CommasMeaning(s[1..], plain);
      } else if plain != "" {
        CommasMeaning(s[1..], plain[1..]);
        assert plain == [plain[0]] + plain[1..];
      }
    }
  }

  lemma {:induction false} WithoutCommasConcat(a: string, b: string)
    ensures WithoutCommas(a + b) == WithoutCommas(a) + WithoutCommas(b)
  {
    if a == "" {
      assert a + b == b;
    } else {
      assert (a + b)[1..] == a[1..] + b;
      WithoutCommasConcat(a[1..], b);
    }
  }

  lemma CommaDrops(a: string, b: string)
    ensures WithoutCommas(a + "," + b) == WithoutCommas(a + b)
  {
    WithoutCommasConcat(a + ",", b);
    WithoutCommasConcat(a, ",");
    WithoutCommasConcat(a, b);
    var comma := ",";
    assert comma[1..] == "" && WithoutCommas(comma) == "";
  }

  lemma SameWithoutCommas(s: string, t: string)
    requires WithoutCommas(s) == WithoutCommas(t)
    ensures PaiseOf(Text(s)) == PaiseOf(Text(t))
  {
  }

  /** A comma more or less, wherever it stands, does not change the outcome. */
  lemma CommasAreIgnored(a: string, b: string)
    ensures PaiseOf(Text(a + "," + b)) == PaiseOf(Text(a + b))
  {
    CommaDrops(a, b);
    SameWithoutCommas(a + "," + b, a + b);
  }

  lemma {:induction false} StripLeftSpaces(lead: string, body: string)
    requires Spaces(lead) && body != "" && !IsSpace(body[0])
    ensures StripLeft(lead + body) == body
  {
    if lead == "" {
      assert lead + body == body;
    } else {
      assert (lead + body)[1..] == lead[1..] + body;
      StripLeftSpaces(lead[1..], body);
    }
  }

  lemma {:induction false} StripRightSpaces(body: string, tail: string)
    requires Spaces(tail) && body != "" && !IsSpace(body[|body| - 1])
    ensures StripRight(body + tail) == body
  {
    if tail == "" {
      assert body + tail == body;
    } else {
      assert (body + tail)[..|body + tail| - 1] == body + tail[..|tail| - 1];
      StripRightSpaces(body, tail[..|tail| - 1]);
    }
  }

  lemma StripAround(lead: string, body: string, tail: string)
    requires Spaces(lead) && Spaces(tail) && body != "" && Trimmed(body)
    ensures Strip(lead + body + tail) == body
  {
    assert lead + body + tail == lead + (body + tail);
    StripLeftSpaces(lead, body + tail);
    StripRightSpaces(body, tail);
  }

  lemma PrintedEnds(p: int, plus: bool)
    ensures var s := Printed(p, plus);
            s != "" && Trimmed(s) && s[0] != RUPEE
  {
    var m: nat := if p < 0 then -p else p;
    var whole := Dec(m / 100);
    assert IsDigit(whole[0]);
  }

  lemma CleanedDecoration(s: string, body: string, lead: string, symbol: bool, gap: string, tail: string)
    requires Decorates(s, body, lead, symbol, gap, tail)
    requires body != "" && Trimmed(body) && body[0] != RUPEE
    ensures Cleaned(s) == body
  {
    CommasMeaning(s, lead + ((if symbol then [RUPEE] else "") + gap + body) + tail);
    if symbol {
      var whole := [RUPEE] + gap + body;
      assert whole[|whole| - 1] == body[|body| - 1];
      StripAround(lead, whole, tail);
      assert whole[1..] == gap + body;
      StripAround(gap, body, "");
      assert gap + body + "" == gap + body;
    } else {
      assert lead + ("" + gap + body) + tail == (lead + gap) + body + tail;
      StripAround(lead + gap, body, tail);
      StripAround("", body, "");
      assert "" + body + "" == body;
    }
  }

  /** What follows a rupee sign once more has white space around it. */
  lemma AfterSymbol(plain: string, lead: string, inner: string, tail: string) returns (gap: string, tail': string)
    requires plain == lead + inner + tail && inner != "" && inner[0] == RUPEE && Spaces(tail)
    ensures Spaces(gap) && Spaces(tail') && plain == lead + ([RUPEE] + gap + Strip(inner[1..])) + tail'
  {
    var rest;
    gap, rest := StripMeaning(inner[1..]);
    var body := Strip(inner[1..]);
    assert inner == [RUPEE] + gap + body + rest;
    tail' := rest + tail;
    assert plain == lead + ([RUPEE] + gap + body) + (rest + tail);
  }

  lemma DecoratedCleaned(s: string) returns (lead: string, symbol: bool, gap: string, tail: string)
    ensures Decorates(s, Cleaned(s), lead, symbol, gap, tail)
  {
    var plain := WithoutCommas(s);
    lead, tail := StripMeaning(plain);
    var inner := Strip(plain);
    symbol := inner != "" && inner[0] == RUPEE;
    if symbol {
      gap, tail := AfterSymbol(plain, lead, inner, tail);
    } else {
      gap := "";
      StripTrims(inner);
      assert "" + "" + inner == inner;
    }
    CommasMeaning(s, plain);
  }

  lemma DenotesEnds(s: string, x: Number)
    requires Denotes(s, x)
    ensures s != "" && Trimmed(s) && s[0] != RUPEE
  {
    var sign, whole, point, fraction :| DenotesAs(s, x, sign, whole, point, fraction);
    PartsAreDigits(whole, fraction);
    var body := whole + if point then "." + fraction else "";
    assert s == sign + body && body != "";
    assert s[|s| - 1] == body[|body| - 1];
    assert IsDigit(body[|body| - 1]) || body[|body| - 1] == '.';
    assert IsDigit(body[0]) || body[0] == '.';
  }

  lemma MeansMeaning(text: string, x: Number)
    ensures Means(Text(text), x) <==> Denotes(Cleaned(text), x)
  {
    if body, lead, symbol, gap, tail :| Decorates(text, body, lead, symbol, gap, tail) && Denotes(body, x) {
      DenotesEnds(body, x);
      CleanedDecoration(text, body, lead, symbol, gap, tail);
    }
    if Denotes(Cleaned(text), x) {
      var lead, symbol, gap, tail := DecoratedCleaned(text);
    }
  }

  lemma {:induction false} DecValue(n: nat)
    ensures ValueOf(Dec(n)) == n
  {
    if n >= 10 {
      DecValue(n / 10);
      assert Dec(n)[..|Dec(n)| - 1] == Dec(n / 10);
    }
  }

  lemma {:induction false} PointAfterDigits(digits: string, rest: string)
    requires AllDigits(digits) && rest != "" && rest[0] == '.'
    ensures PointAt(digits + rest) == |digits|
  {
    if digits == "" {
      assert digits + rest == rest;
    } else {
      assert (digits + rest)[1..] == digits[1..] + rest;
      PointAfterDigits(digits[1..], rest);
    }
  }

  lemma TwoMoreDigits(s: string, a: char, b: char)
    requires AllDigits(s) && IsDigit(a) && IsDigit(b)
    ensures AllDigits(s + [a, b]) && ValueOf(s + [a, b]) == 100 * ValueOf(s) + 10 * DigitValue(a) + DigitValue(b)
  {
    var t := s + [a];
    assert t[..|t| - 1] == s;
    assert (s + [a, b])[..|s| + 1] == t;
    assert ValueOf(t) == 10 * ValueOf(s) + DigitValue(a);
  }

  lemma PointSplits(whole: string, fraction: string)
    requires AllDigits(whole)
    ensures var s := whole + "." + fraction;
            PointAt(s) == |whole| && s[..|whole|] == whole && s[|whole| + 1..] == fraction
  {
    PointAfterDigits(whole, "." + fraction);
    assert whole + "." + fraction == whole + ("." + fraction);
  }

  lemma UnsignedReads(negative: bool, whole: string, a: char, b: char)
    requires AllDigits(whole) && IsDigit(a) && IsDigit(b)
    ensures Unsigned(negative, whole + "." + [a, b])
         == Some(Number(negative, 100 * ValueOf(whole) + 10 * DigitValue(a) + DigitValue(b), 2))
  {
    PointSplits(whole, [a, b]);
    TwoMoreDigits(whole, a, b);
  }

  lemma LastTwoDigits(m: nat)
    ensures 100 * (m / 100) + 10 * (m % 100 / 10) + m % 10 == m
    ensures m % 100 / 10 < 10
  {
    var q, r := Divided(m, 100);
    var t, o := Divided(r, 10);
    DivUnique(m, 100, q, r);
    DivUnique(r, 10, t, o);
    DivUnique(m, 10, 10 * q + t, o);
  }

  lemma UnsignedPrinted(negative: bool, m: nat)
    ensures Unsigned(negative, Dec(m / 100) + "." + [DigitChar(m % 100 / 10), DigitChar(m % 10)])
         == Some(Number(negative, m, 2))
  {
    var whole, tens, ones := m / 100, m % 100 / 10, m % 10;
    LastTwoDigits(m);
    DecValue(whole);
    UnsignedReads(negative, Dec(whole), DigitChar(tens), DigitChar(ones));
  }

  lemma ParsePrinted(p: int, plus: bool)
    ensures ParseDecimal(Printed(p, plus)) == Some(Number(p < 0, if p < 0 then -p else p, 2))
  {
    var m: nat := if p < 0 then -p else p;
    var body := Dec(m / 100) + "." + [DigitChar(m % 100 / 10), DigitChar(m % 10)];
    UnsignedPrinted(p < 0, m);
    assert IsDigit(body[0]);
    if p < 0 || plus {
      assert Printed(p, plus)[1..] == body;
    } else {
      assert Printed(p, plus) == body;
    }
  }

  lemma WholePaise(m: nat)
    ensures HalfUp(100 * m, 100) == m && 100 * m % 100 == 0
  {
    DivUnique(100 * m, 100, m, 0);
    HalfUpSplit(m, 0, 100);
  }

  lemma HundredthsRaise(x: Number, bound: nat)
    requires x.places == 2 && bound == Pow10(PRECISION)
    ensures ToPaise(x).Raise? <==> x.coefficient >= bound
    ensures ToPaise(x).Raise? ==> ToPaise(x) == Raise(InvalidOperation)
  {
    assert Pow10(2) == 100 by {
      assert Pow10(1) == 10;
    }
    RaisesExactly(x);
  }

  lemma HundredthsRoundOnce(x: Number)
    requires x.places == 2
    ensures !DoubleRounds(x)
  {
    assert Pow10(2) == 100 && Pow10(1) == 10;
    WholePaise(x.coefficient);
  }

  lemma HundredthsConvert(x: Number)
    requires x.places == 2
    ensures ToPaise(x)
         == if x.coefficient < Pow10(PRECISION) then Ok(Signed(x, x.coefficient)) else Raise(InvalidOperation)
  {
    HundredthsRaise(x, Pow10(PRECISION));
    if ToPaise(x).Ok? {
      HundredthsRoundOnce(x);
      NearestExactly(x);
      assert Pow10(2) == 100;
      WholePaise(x.coefficient);
    }
  }

  function Magnitude(p: int): nat { if p < 0 then -p else p }

  lemma ConvertsCleaned(s: string, body: string, x: Number)
    requires Cleaned(s) == body && ParseDecimal(body) == Some(x)
    ensures PaiseOf(Text(s)) == ToPaise(x)
  {
  }

  /**
    * Printing an amount and parsing it, however it is decorated, gives the amount back, for
    * every amount below 10^28 paise and for no other.
    */
  lemma RoundTrip(s: string, p: int)
    requires Renders(s, p)
    ensures PaiseOf(Text(s)) == if Magnitude(p) < Pow10(PRECISION) then Ok(p) else Raise(InvalidOperation)
  {
    var lead, symbol, gap, plus, tail :| Decorates(s, Printed(p, plus), lead, symbol, gap, tail);
    PrintedEnds(p, plus);
    CleanedDecoration(s, Printed(p, plus), lead, symbol, gap, tail);
    ParsePrinted(p, plus);
    ConvertsCleaned(s, Printed(p, plus), Number(p < 0, Magnitude(p), 2));
    HundredthsConvert(Number(p < 0, Magnitude(p), 2));
  }

  // ---- What the parser accepts ---------------------------------------------------------

  lemma {:induction false} NoPoint(digits: string)
    requires AllDigits(digits)
    ensures PointAt(digits) == |digits|
  {
    if digits != "" {
      NoPoint(digits[1..]);
    }
  }

  lemma UnsignedAccepts(negative: bool, whole: string, point: bool, fraction: string)
    requires AllDigits(whole + fraction) && whole + fraction != "" && (!point ==> fraction == "")
    ensures Unsigned(negative, whole + if point then "." + fraction else "")
         == Some(Number(negative, ValueOf(whole + fraction), |fraction|))
  {
    PartsAreDigits(whole, fraction);
    if point {
      PointSplits(whole, fraction);
      assert whole + ("." + fraction) == whole + "." + fraction;
    } else {
      NoPoint(whole);
      assert whole + "" == whole && whole[..|whole|] == whole;
    }
  }

  lemma PartsAreDigits(whole: string, fraction: string)
    requires AllDigits(whole + fraction)
    ensures AllDigits(whole) && AllDigits(fraction)
  {
    assert forall i :: 0 <= i < |whole| ==> whole[i] == (whole + fraction)[i];
    assert forall i :: 0 <= i < |fraction| ==> fraction[i] == (whole + fraction)[|whole| + i];
  }

  lemma UnsignedDenotes(sign: string, s: string, x: Number)
    requires (sign == "" || sign == "+" || sign == "-") && Unsigned(sign == "-", s) == Some(x)
    ensures Denotes(sign + s, x)
  {
    var i := PointAt(s);
    PointJoins(s);
    PartsDenote(sign, s[..i], i < |s|, if i < |s| then s[i + 1..] else "", s, x);
  }

  lemma PartsDenote(sign: string, whole: string, point: bool, fraction: string, s: string, x: Number)
    requires (sign == "" || sign == "+" || sign == "-") && AllDigits(whole + fraction) && whole + fraction != ""
    requires (!point ==> fraction == "") && s == whole + if point then "." + fraction else ""
    requires x == Number(sign == "-", ValueOf(whole + fraction), |fraction|)
    ensures Denotes(sign + s, x)
  {
    assert DenotesAs(sign + s, x, sign, whole, point, fraction);
  }

  lemma PointJoins(s: string)
    ensures var i := PointAt(s);
            s == s[..i] + if i < |s| then "." + s[i + 1..] else ""
  {
    var i := PointAt(s);
    if i < |s| {
      JoinsAt(s, i);
    }
  }

  lemma JoinsAt(s: string, i: nat)
    requires i < |s| && s[i] == '.'
    ensures s == s[..i] + ("." + s[i + 1..])
  {
  }

  lemma ParsedDenotes(s: string, x: Number)
    requires ParseDecimal(s) == Some(x)
    ensures Denotes(s, x)
  {
    if s != "" && (s[0] == '+' || s[0] == '-') {
      assert s == [s[0]] + s[1..];
      UnsignedDenotes([s[0]], s[1..], x);
    } else {
      assert "" + s == s;
      UnsignedDenotes("", s, x);
    }
  }

  lemma BodyStarts(whole: string, point: bool, fraction: string)
    requires AllDigits(whole + fraction) && whole + fraction != "" && (!point ==> fraction == "")
    ensures var body := whole + if point then "." + fraction else "";
            body != "" && (IsDigit(body[0]) || body[0] == '.')
  {
    PartsAreDigits(whole, fraction);
  }

  lemma SignedParse(sign: string, body: string)
    requires sign == "" || sign == "+" || sign == "-"
    requires body != "" && (IsDigit(body[0]) || body[0] == '.')
    ensures ParseDecimal(sign + body) == Unsigned(sign == "-", body)
  {
    if sign == "" {
      assert sign + body == body;
    } else {
      assert (sign + body)[1..] == body;
    }
  }

  lemma DenotedParses(s: string, x: Number, sign: string, whole: string, point: bool, fraction: string)
    requires DenotesAs(s, x, sign, whole, point, fraction)
    ensures ParseDecimal(s) == Some(x)
  {
    BodyStarts(whole, point, fraction);
    SignedParse(sign, whole + if point then "." + fraction else "");
    UnsignedAccepts(sign == "-", whole, point, fraction);
  }

  /** The parser reads exactly the plain decimal notation. */
  lemma ParseMeaning(s: string, x: Number)
    ensures ParseDecimal(s) == Some(x) <==> Denotes(s, x)
  {
    if ParseDecimal(s) == Some(x) {
      ParsedDenotes(s, x);
    }
    if sign, whole, point, fraction :| DenotesAs(s, x, sign, whole, point, fraction) {
      DenotedParses(s, x, sign, whole, point, fraction);
    }
  }

  lemma PaiseMeaning(amount: Amount)
    ensures PaiseOf(amount) == Raise(ParseFailed) <==> !exists x :: Means(amount, x)
    ensures forall x :: Means(amount, x) ==>
              && (PaiseOf(amount) == Raise(InvalidOperation) <==>
                  2 * Hundredfold(x) + Pow10(x.places) >= 2 * (Pow10(PRECISION) * Pow10(x.places)))
              && (PaiseOf(amount).Ok? ==>
                  (PaiseOf(amount).value == Signed(x, HalfUp(Hundredfold(x), Pow10(x.places))) <==> !DoubleRounds(x)))
    ensures forall p :: amount.Text? && Renders(amount.text, p) ==>
              PaiseOf(amount) == if Magnitude(p) < Pow10(PRECISION) then Ok(p) else Raise(InvalidOperation)
  {
    forall x
      ensures Means(amount, x) ==> PaiseOf(amount) == ToPaise(x) && ToPaise(x) != Raise(ParseFailed)
      ensures Means(amount, x) ==>
                && (ToPaise(x) == Raise(InvalidOperation) <==>
                    2 * Hundredfold(x) + Pow10(x.places) >= 2 * (Pow10(PRECISION) * Pow10(x.places)))
                && (ToPaise(x).Ok? ==>
                    (ToPaise(x).value == Signed(x, HalfUp(Hundredfold(x), Pow10(x.places))) <==> !DoubleRounds(x)))
    {
      ConversionMeaning(x);
      if amount.Text? {
        ParseMeaning(Cleaned(amount.text), x);
        MeansMeaning(amount.text, x);
      }
    }
    MeansSomething(amount);
    forall p | amount.Text? && Renders(amount.text, p)
      ensures PaiseOf(amount) == if Magnitude(p) < Pow10(PRECISION) then Ok(p) else Raise(InvalidOperation)
    {
      RoundTrip(amount.text, p);
    }
  }

  lemma ConversionMeaning(x: Number)
    ensures ToPaise(x) != Raise(ParseFailed)
    ensures ToPaise(x) == Raise(InvalidOperation) <==>
            2 * Hundredfold(x) + Pow10(x.places) >= 2 * (Pow10(PRECISION) * Pow10(x.places))
    ensures ToPaise(x).Ok? ==>
              (ToPaise(x).value == Signed(x, HalfUp(Hundredfold(x), Pow10(x.places))) <==> !DoubleRounds(x))
  {
    RaisesExactly(x);
    if ToPaise(x).Ok? {
      NearestExactly(x);
    }
  }

  lemma MeansSomething(amount: Amount)
    ensures PaiseOf(amount) != Raise(ParseFailed) ==> exists x :: Means(amount, x)
  {
    match amount
    case Whole(n) => assert Means(amount, Number(n < 0, if n < 0 then -n else n, 0));
    case Text(text) =>
      var rupees := ParseDecimal(Cleaned(text));
      if rupees.Some? {
        ParseMeaning(Cleaned(text), rupees.value);
        MeansMeaning(text, rupees.value);
      }
    case _ =>
  }
}
