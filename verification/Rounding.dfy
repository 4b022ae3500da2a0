/** Rounding to nearest, as the scorer and the decimal context do it. */
module Rounding {

  /** Nearest integer, ties to the even one. */
  function HalfEven(x: real): int {
    var below := x.Floor;
    var rest := x - below as real;
    if rest < 0.5 || (rest == 0.5 && below % 2 == 0) then below else below + 1
  }

  /** The nearest integer, and of two as near the even one. */
  lemma HalfEvenMeaning(x: real, n: int)
    ensures n == HalfEven(x) <==>
            var off := n as real - x;
            -0.5 < off < 0.5 || (n % 2 == 0 && (off == 0.5 || off == -0.5))
  {
  }

  /** An integer is never more than half a unit past the value it rounds. */
  lemma HalfEvenIsNearest(x: real, n: int)
    ensures n as real <= x ==> n <= HalfEven(x)
    ensures x <= n as real ==> HalfEven(x) <= n
  {
  }

  lemma HalfEvenMonotone(x: real, y: real)
    requires x <= y
    ensures HalfEven(x) <= HalfEven(y)
  {
    if x.Floor < y.Floor {
      assert HalfEven(x) <= x.Floor + 1 <= y.Floor <= HalfEven(y);
    }
  }
}
