/** JavaScript number operators that differ from Dafny's on negative operands. */
module JsOps {
  /** The remainder of a non-negative integer, by repeated subtraction. */
  function NatRem(a: nat, d: nat): (r: nat)
    requires d > 0
    ensures r < d
    ensures a < d ==> r == a
    ensures a == NatQuot(a, d) * d + r
    decreases a
  {
    if a < d then a else NatRem(a - d, d)
  }

  /** How many times `d` is subtracted before what is left is below `d`. */
  function NatQuot(a: nat, d: nat): nat
    requires d > 0
    decreases a
  {
    if a < d then 0 else 1 + NatQuot(a - d, d)
  }

  /** JavaScript `a % d` on integers: `a` minus `d` times the quotient truncated toward
      zero, so the remainder takes the sign of the dividend (Dafny's `%` is Euclidean and
      never negative). */
  function JsRem(a: int, d: int): (r: int)
    requires d > 0
    ensures -d < r < d
    ensures a >= 0 ==> r >= 0
    ensures a <= 0 ==> r <= 0
    ensures a >= 0 ==> a == NatQuot(a, d) * d + r
    ensures a < 0 ==> a == -(NatQuot(-a, d) * d) + r
  {
    if a >= 0 then NatRem(a, d) else -(NatRem(-a, d) as int)
  }

  /** For non-negative operands the JavaScript remainder repeats with period `d`. */
  lemma JsRemPeriodic(a: int, d: int)
    requires a >= 0 && d > 0
    ensures JsRem(a + d, d) == JsRem(a, d)
  {
    assert NatRem(a + d, d) == NatRem(a, d);
  }
}
