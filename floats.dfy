/** Floating-point values as numpy holds them in the fold file: a finite
    value, NaN, or a signed infinity.  Finite arithmetic is exact (no
    rounding, no overflow); the special values follow IEEE 754. */
module Floats {

  datatype Num = Fin(r: real) | NaN | Inf(negative: bool)

  /** The largest finite double, 2^1024 - 2^971, which `np.nan_to_num`
      substitutes for positive infinity. */
  const MaxFloat: real := 179769313486231570814527423731704356798070567525844996598917476803157260780028538760589558632766878171540458953514382464234321326889464182768467546703537516986049910576551282076245490090389328944075868508455133942304583236903222948165808559332123348274797826204144723168738177180919299881250404026184124858368.0

  function Neg(x: Num): Num
  {
    match x
    case Fin(a) => Fin(-a)
    case NaN => NaN
    case Inf(n) => Inf(!n)
  }

  function Add(x: Num, y: Num): Num
  {
    match (x, y)
    case (NaN, _) => NaN
    case (_, NaN) => NaN
    case (Inf(a), Inf(b)) => if a == b then Inf(a) else NaN
    case (Inf(a), Fin(_)) => Inf(a)
    case (Fin(_), Inf(b)) => Inf(b)
    case (Fin(a), Fin(b)) => Fin(a + b)
  }

  function Sub(x: Num, y: Num): Num
  {
    Add(x, Neg(y))
  }

  function Mul(x: Num, y: Num): Num
  {
    match (x, y)
    case (NaN, _) => NaN
    case (_, NaN) => NaN
    case (Inf(a), Inf(b)) => Inf(a != b)
    case (Inf(a), Fin(b)) => if b == 0.0 then NaN else Inf(a != (b < 0.0))
    case (Fin(a), Inf(b)) => if a == 0.0 then NaN else Inf(b != (a < 0.0))
    case (Fin(a), Fin(b)) => Fin(a * b)
  }

  /** `np.cos` / `np.sin` of a stored angle, given the real function:
      NaN and infinities have no cosine. */
  function Apply(f: real -> real, x: Num): Num
  {
    if x.Fin? then Fin(f(x.r)) else NaN
  }

  /** `np.nan_to_num`: NaN becomes 0 and the infinities become the
      extreme finite doubles; finite values pass through. */
  function NanToNum(x: Num): real
  {
    match x
    case Fin(a) => a
    case NaN => 0.0
    case Inf(n) => if n then -MaxFloat else MaxFloat
  }

  lemma NegInvolution(x: Num)
    ensures Neg(Neg(x)) == x
  {
  }

  /** nan_to_num changes nothing finite, and what it returns is a finite
      value that it leaves alone. */
  lemma NanToNumFinite(x: Num)
    ensures x.Fin? ==> NanToNum(x) == x.r
    ensures !x.Fin? ==> NanToNum(x) in {0.0, MaxFloat, -MaxFloat}
    ensures NanToNum(Fin(NanToNum(x))) == NanToNum(x)
  {
  }
}
