/** Option, for values that may be absent. */
module Wrappers {
  datatype Option<+T> = None | Some(value: T)
}

/**
 * The JavaScript number values the workout code works with.  A finite
 * number is an exact real: rounding and the sign of zero are not modelled.
 */
module Numbers {

  /** A number-valued property: a finite number, one of the three non-finite
      IEEE-754 values, or `undefined` for a property that was never set. */
  datatype Value = Finite(v: real) | PosInfinity | NegInfinity | NaN | Undefined

  /** `Number.isFinite(x)`: true for finite numbers only.  Unlike the global
      `isFinite` it does not convert its argument, so `undefined` is rejected. */
  predicate IsFinite(x: Value): (b: bool)
    ensures b ==> x != Undefined && x != NaN && ToNumber(x) == x
    ensures b ==> x.Finite? && (IsPositive(x) <==> x.v > 0.0)
  {
    x.Finite?
  }

  /** The comparison `x > 0`; `undefined` converts to NaN and compares false. */
  predicate IsPositive(x: Value): (b: bool)
    ensures b ==> x != NegInfinity && ToNumber(x) == x
    ensures x == Undefined || x == NaN ==> !b
  {
    match x
    case Finite(v) => v > 0.0
    case PosInfinity => true
    case _ => false
  }

  /** The value as an operand of an arithmetic operator: `undefined` becomes NaN. */
  function ToNumber(x: Value): (r: Value)
    ensures r != Undefined
    ensures x != Undefined ==> r == x
  {
    if x == Undefined then NaN else x
  }

  /** The operator `a / b`. */
  function Div(a: Value, b: Value): (r: Value)
    ensures r != Undefined
    ensures a.Finite? && b.Finite? && b.v != 0.0 ==> r == Finite(a.v / b.v)
    ensures r.Finite? <==>
      a.Finite? && ((b.Finite? && b.v != 0.0) || b == PosInfinity || b == NegInfinity)
  {
    match (ToNumber(a), ToNumber(b))
    case (NaN, _) => NaN
    case (_, NaN) => NaN
    case (Finite(x), Finite(y)) =>
      if y != 0.0 then Finite(x / y)
      else if x > 0.0 then PosInfinity
      else if x < 0.0 then NegInfinity
      else NaN
    case (Finite(_), _) => Finite(0.0)
    case (PosInfinity, Finite(y)) => if y >= 0.0 then PosInfinity else NegInfinity
    case (NegInfinity, Finite(y)) => if y >= 0.0 then NegInfinity else PosInfinity
    case (_, _) => NaN
  }

  /** Division by zero never yields a finite number, whatever the dividend. */
  lemma DivByZero(a: Value)
    ensures !Div(a, Finite(0.0)).Finite?
    ensures a.Finite? && a.v > 0.0 ==> Div(a, Finite(0.0)) == PosInfinity
    ensures a.Finite? && a.v == 0.0 ==> Div(a, Finite(0.0)) == NaN
  {
  }
}
