/**
 * The little of float semantics that pandas column arithmetic needs here:
 * division never raises, a zero divisor gives a signed infinity or NaN, and
 * every comparison with NaN is false. Finite values are exact reals; binary
 * rounding is not modelled.
 */
module Floats {
  import opened Wrappers

  /** One element of a float column. */
  datatype ExtReal = Finite(r: real) | PosInf | NegInf | NaN

  /** `n / d` on floats: no error on a zero divisor. */
  function Div(n: real, d: real): (q: ExtReal)
    ensures q.Finite? <==> d != 0.0
    ensures q.Finite? ==> q.r * d == n
    ensures q == NaN <==> d == 0.0 && n == 0.0
    ensures q == NegInf <==> d == 0.0 && n < 0.0
  {
    if d != 0.0 then Finite(n / d)
    else if n > 0.0 then PosInf
    else if n < 0.0 then NegInf
    else NaN
  }

  /** `a - b` where either operand may be missing; a missing operand gives a missing result. */
  function Sub(a: Option<real>, b: Option<real>): (r: Option<real>)
    ensures r.Some? <==> a.Some? && b.Some?
    ensures r.Some? ==> r.value + b.value == a.value
  {
    if a.Some? && b.Some? then Some(a.value - b.value) else None
  }

  /** `a / b` where either operand may be missing; a missing operand gives NaN. */
  function DivOpt(a: Option<real>, b: Option<real>): (q: ExtReal)
    ensures a.None? || b.None? ==> q == NaN
  {
    if a.Some? && b.Some? then Div(a.value, b.value) else NaN
  }

  /** The comparison `x <= bound`: false for NaN and +inf, true for -inf. */
  predicate AtMost(x: ExtReal, bound: real)
  {
    match x
    case Finite(v) => v <= bound
    case NegInf => true
    case PosInf => false
    case NaN => false
  }

  /** The comparison `x > bound` on a value that may be missing: a missing value compares false. */
  predicate Exceeds(x: Option<real>, bound: real)
  {
    x.Some? && x.value > bound
  }
}
