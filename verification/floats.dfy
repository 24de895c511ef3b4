/**
 * Double-precision values as the star selector reads them from a source
 * record: a finite number or NaN. Rounding and infinities in stored values
 * are not modelled; the one place where an infinity arises (numpy division
 * by zero in the covariance gate) is handled by StarSelector.ImpliedCovSquared.
 */
module Floats {

  datatype Float = Num(v: real) | NaN

  /** `x < y` under IEEE comparison: false whenever x is NaN. */
  predicate Below(x: Float, y: real) {
    x.Num? && x.v < y
  }

  /** `x > y` under IEEE comparison: false whenever x is NaN. */
  predicate Above(x: Float, y: real) {
    x.Num? && x.v > y
  }

  /** `np.square(x)`. */
  function Square(x: Float): Float {
    if x.NaN? then NaN else Num(x.v * x.v)
  }

  function Plus(x: Float, y: Float): Float {
    if x.NaN? || y.NaN? then NaN else Num(x.v + y.v)
  }

  function Times(x: Float, y: Float): Float {
    if x.NaN? || y.NaN? then NaN else Num(x.v * y.v)
  }

  /** Division by a divisor that is not zero (Python raises on a zero divisor). */
  function Quotient(x: Float, y: Float): Float
    requires y != Num(0.0)
  {
    if x.NaN? || y.NaN? then NaN else Num(x.v / y.v)
  }
}
