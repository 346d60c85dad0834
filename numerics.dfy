/**
 * C#'s integer division and remainder truncate toward zero, and a cast of a
 * floating-point value to an integer drops the fraction toward zero; Dafny's
 * own operators are Euclidean, so these are spelled out here.
 */
module Numerics {

  /** C# `a / b` on integers: the quotient rounded toward zero. */
  function TruncDiv(a: int, b: int): int
    requires b != 0
  {
    if a >= 0 && b > 0 then a / b
    else if a >= 0 then -(a / -b)
    else if b > 0 then -((-a) / b)
    else (-a) / (-b)
  }

  /** C# `a % b` on integers: the remainder takes the sign of a. */
  function TruncMod(a: int, b: int): int
    requires b != 0
  {
    a - TruncDiv(a, b) * b
  }

  /** The two agree with Dafny's operators on non-negative operands and recombine to a. */
  lemma TruncDivModFacts(a: int, b: int)
    requires b != 0
    ensures a == TruncDiv(a, b) * b + TruncMod(a, b)
    ensures a >= 0 && b > 0 ==> TruncDiv(a, b) == a / b && TruncMod(a, b) == a % b
    ensures a >= 0 ==> 0 <= TruncMod(a, b) < (if b > 0 then b else -b)
    ensures a < 0 ==> -(if b > 0 then b else -b) < TruncMod(a, b) <= 0
  {
    if a < 0 && b > 0 {
      assert TruncMod(a, b) == -((-a) % b);
    } else if a < 0 {
      assert TruncMod(a, b) == -((-a) % (-b));
    } else if b < 0 {
      assert TruncMod(a, b) == a % (-b);
    }
  }

  /** `(long)x` for a value in range: the fraction is dropped toward zero. */
  function TruncateToInt(x: real): (n: int)
    ensures x >= 0.0 ==> n as real <= x < n as real + 1.0
    ensures x < 0.0 ==> n as real - 1.0 < x <= n as real
  {
    if x >= 0.0 then x.Floor else -((-x).Floor)
  }

  /** The smaller of two reals (Math.Min). */
  function MinReal(a: real, b: real): real
  {
    if a <= b then a else b
  }

  /** The larger of two reals (Math.Max). */
  function MaxReal(a: real, b: real): real
  {
    if a >= b then a else b
  }
}
