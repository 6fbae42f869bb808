/** The few IEEE-754 number operations the scale policy uses, with JavaScript's
    treatment of Infinity and NaN written out. Finite values are exact reals. */
module JsNumber {

  datatype Number = Finite(value: real) | PosInf | NegInf | NaN

  /** `a > b` on JavaScript numbers: false whenever either side is NaN. */
  predicate Greater(a: Number, b: Number)
    ensures Greater(a, b) ==> !a.NaN? && !b.NaN?
    ensures a.Finite? && b.Finite? ==> (Greater(a, b) <==> a.value > b.value)
  {
    match (a, b)
    case (NaN, _) => false
    case (_, NaN) => false
    case (PosInf, PosInf) => false
    case (PosInf, _) => true
    case (NegInf, _) => false
    case (Finite(_), NegInf) => true
    case (Finite(_), PosInf) => false
    case (Finite(x), Finite(y)) => x > y
  }

  /** `Math.max(a, b)`: NaN if either argument is NaN, otherwise the larger. */
  function Max(a: Number, b: Number): (r: Number)
    ensures r.NaN? <==> a.NaN? || b.NaN?
    ensures !r.NaN? ==> (r == a || r == b) && !Greater(a, r) && !Greater(b, r)
  {
    if a.NaN? || b.NaN? then NaN
    else if Greater(b, a) then b
    else a
  }

  /** `Math.min(a, b)`: NaN if either argument is NaN, otherwise the smaller. */
  function Min(a: Number, b: Number): (r: Number)
    ensures r.NaN? <==> a.NaN? || b.NaN?
    ensures !r.NaN? ==> (r == a || r == b) && !Greater(r, a) && !Greater(r, b)
  {
    if a.NaN? || b.NaN? then NaN
    else if Greater(a, b) then b
    else a
  }

  /** `n / d` for a positive finite numerator. A zero divisor is taken to be
      +0, so the quotient is +Infinity; an infinite divisor gives zero. */
  function DivPositive(n: real, d: Number): (r: Number)
    requires n > 0.0
    ensures d.Finite? && d.value != 0.0 ==> r == Finite(n / d.value)
    ensures d == Finite(0.0) ==> r == PosInf
    ensures d.PosInf? || d.NegInf? ==> r == Finite(0.0)
    ensures d.NaN? ==> r.NaN?
  {
    match d
    case Finite(x) => if x == 0.0 then PosInf else Finite(n / x)
    case PosInf => Finite(0.0)
    case NegInf => Finite(0.0)
    case NaN => NaN
  }
}
