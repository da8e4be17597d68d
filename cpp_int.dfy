/**
  C++ signed 64-bit integer arithmetic as the estimator uses it.

  Dafny's `int` is unbounded and its `/` is Euclidean. The estimator works on
  `int64_t`, whose overflow is undefined behaviour and whose `/` truncates toward
  zero. This module gives the range of `int64_t` (callers require it instead of
  modelling wrap-around) and the truncating division.
 */
module CppInt {

  const Int64Min: int := -0x8000_0000_0000_0000
  const Int64Max: int := 0x7fff_ffff_ffff_ffff

  /** True when `x` is representable as an `int64_t`. */
  predicate IsInt64(x: int) {
    Int64Min <= x <= Int64Max
  }

  /**
    C++ integer division `a / d` for a positive divisor: the quotient is
    rounded toward zero, so the remainder takes the sign of the dividend and
    the quotient is never further from zero than the dividend.
   */
  function TruncDiv(a: int, d: int): (q: int)
    requires d > 0
    ensures a >= 0 ==> 0 <= a - d * q < d
    ensures a < 0 ==> -d < a - d * q <= 0
    ensures a >= 0 ==> 0 <= q <= a
    ensures a < 0 ==> a <= q <= 0
  {
    if a >= 0 then
      EuclideanDivBounds(a, d);
      a / d
    else
      EuclideanDivBounds(-a, d);
      -((-a) / d)
  }

  /** For a non-negative dividend, Euclidean and truncating division agree; this bounds them. */
  lemma EuclideanDivBounds(a: int, d: int)
    requires a >= 0 && d > 0
    ensures 0 <= a - d * (a / d) < d
    ensures 0 <= a / d <= a
  {
    var q, r := a / d, a % d;
    assert a == d * q + r && 0 <= r < d;
    assert q >= 0;
    NonNegativeProduct(q, d - 1);
    assert d * q == q + q * (d - 1);
  }

  lemma NonNegativeProduct(x: int, y: int)
    requires x >= 0 && y >= 0
    ensures x * y >= 0
  {
  }
}
