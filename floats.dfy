/**
 * A float64 cell of a price column, abstracted to exact reals plus the three
 * special values that numpy arithmetic produces instead of raising: a
 * division by zero gives an infinity (or NaN for 0/0), and a missing value
 * (the start of a rolling window, a shifted series) is NaN.
 * Every comparison with NaN is false, as in IEEE 754.
 */
module Floats {

  datatype Float = Finite(v: real) | PosInf | NegInf | NaN

  /** a <= b on the extended reals; false as soon as either side is NaN. */
  predicate Le(a: Float, b: Float) {
    match (a, b)
    case (NaN, _) => false
    case (_, NaN) => false
    case (NegInf, _) => true
    case (_, PosInf) => true
    case (Finite(x), Finite(y)) => x <= y
    case _ => false
  }

  /** a < b, Python's `<` on floats. */
  predicate Lt(a: Float, b: Float) {
    Le(a, b) && a != b
  }

  /** a > b, Python's `>` on floats. */
  predicate Gt(a: Float, b: Float) {
    Lt(b, a)
  }

  /** a == b, Python's `==` on floats (NaN equals nothing, not even NaN). */
  predicate Eq(a: Float, b: Float) {
    !a.NaN? && a == b
  }

  /** a / b for two finite operands. */
  function Quotient(a: real, b: real): (q: Float)
    ensures b != 0.0 ==> q == Finite(a / b)
    ensures b == 0.0 ==> (q.PosInf? <==> a > 0.0) && (q.NegInf? <==> a < 0.0) && (q.NaN? <==> a == 0.0)
  {
    if b != 0.0 then Finite(a / b)
    else if a > 0.0 then PosInf
    else if a < 0.0 then NegInf
    else NaN
  }

  /** a + b; inf + (-inf) is NaN. */
  function Plus(a: Float, b: Float): Float {
    match (a, b)
    case (NaN, _) => NaN
    case (_, NaN) => NaN
    case (PosInf, NegInf) => NaN
    case (NegInf, PosInf) => NaN
    case (PosInf, _) => PosInf
    case (_, PosInf) => PosInf
    case (NegInf, _) => NegInf
    case (_, NegInf) => NegInf
    case (Finite(x), Finite(y)) => Finite(x + y)
  }

  function Negate(a: Float): Float {
    match a
    case Finite(x) => Finite(-x)
    case PosInf => NegInf
    case NegInf => PosInf
    case NaN => NaN
  }

  /** a - b. */
  function Minus(a: Float, b: Float): Float {
    Plus(a, Negate(b))
  }

  /** abs(a). */
  function Magnitude(a: Float): Float {
    match a
    case Finite(x) => Finite(if x < 0.0 then -x else x)
    case NaN => NaN
    case _ => PosInf
  }

  /** a * k for a finite factor k; inf * 0 is NaN. */
  function Scale(a: Float, k: real): Float {
    match a
    case Finite(x) => Finite(x * k)
    case NaN => NaN
    case PosInf => if k > 0.0 then PosInf else if k < 0.0 then NegInf else NaN
    case NegInf => if k > 0.0 then NegInf else if k < 0.0 then PosInf else NaN
  }

  /** Series.sum() with skipna: NaN entries are skipped, the empty sum is 0. */
  function NanSum(xs: seq<Float>): Float {
    if |xs| == 0 then Finite(0.0)
    else if xs[|xs| - 1].NaN? then NanSum(xs[..|xs| - 1])
    else Plus(NanSum(xs[..|xs| - 1]), xs[|xs| - 1])
  }

}
