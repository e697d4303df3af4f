/**
 * JavaScript number arithmetic, on exact reals. Finite values are rationals
 * (no rounding); the non-finite values keep the IEEE 754 rules the services
 * depend on: `x / 0` is an infinity or NaN, `Math.min()` of nothing is
 * +Infinity, and every comparison with NaN is false. Signed zero is not
 * modelled: every zero behaves as +0.
 */
module JsNumber {

  datatype Num = Finite(v: real) | PosInf | NegInf | NaN

  /** -1, 0 or 1 for a non-NaN value. */
  function Sign(a: Num): int
  {
    match a
    case Finite(v) => if v > 0.0 then 1 else if v < 0.0 then -1 else 0
    case PosInf => 1
    case NegInf => -1
    case NaN => 0
  }

  function Infinity(sign: int): Num
  {
    if sign < 0 then NegInf else PosInf
  }

  function Neg(a: Num): Num
  {
    match a
    case Finite(v) => Finite(-v)
    case PosInf => NegInf
    case NegInf => PosInf
    case NaN => NaN
  }

  function Add(a: Num, b: Num): Num
  {
    if a.NaN? || b.NaN? then NaN
    else if a.Finite? && b.Finite? then Finite(a.v + b.v)
    else if a.Finite? then b
    else if b.Finite? then a
    else if a == b then a
    else NaN
  }

  function Sub(a: Num, b: Num): Num
  {
    Add(a, Neg(b))
  }

  function Mul(a: Num, b: Num): Num
  {
    if a.NaN? || b.NaN? then NaN
    else if a.Finite? && b.Finite? then Finite(a.v * b.v)
    else if Sign(a) == 0 || Sign(b) == 0 then NaN
    else Infinity(Sign(a) * Sign(b))
  }

  function Div(a: Num, b: Num): Num
  {
    if a.NaN? || b.NaN? then NaN
    else if !a.Finite? && !b.Finite? then NaN
    else if !a.Finite? then Infinity(Sign(a) * (if Sign(b) < 0 then -1 else 1))
    else if !b.Finite? then Finite(0.0)
    else if b.v != 0.0 then Finite(a.v / b.v)
    else if a.v == 0.0 then NaN
    else Infinity(Sign(a))
  }

  /** `a > b`; false whenever either side is NaN. */
  predicate Gt(a: Num, b: Num)
  {
    if a.NaN? || b.NaN? then false
    else if a.Finite? && b.Finite? then a.v > b.v
    else if a.PosInf? then !b.PosInf?
    else b.NegInf? && !a.NegInf?
  }

  /** `a < b`; false whenever either side is NaN. */
  predicate Lt(a: Num, b: Num)
  {
    Gt(b, a)
  }

  function OfNat(n: nat): Num
  {
    Finite(n as real)
  }
}
