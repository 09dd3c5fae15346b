/** Floating-point cells as numpy holds them after masking: a number or NaN.
    Values are exact reals; rounding is not modelled (multiplying by 1 is exact anyway). */
module Floats {

  datatype Float = NaN | Num(v: real)

  /** IEEE multiplication restricted to what the masking needs: NaN absorbs. */
  function Mul(a: Float, b: Float): Float
  {
    if a.NaN? || b.NaN? then NaN else Num(a.v * b.v)
  }

  /** numpy's `==` on floats: NaN is equal to nothing, not even NaN. */
  predicate FloatEq(a: Float, b: Float)
  {
    a.Num? && b.Num? && a.v == b.v
  }
}
