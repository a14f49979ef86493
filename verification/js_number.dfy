/**
 * The few pieces of JavaScript number semantics the component's point-count
 * arithmetic depends on: true division of two non-negative integers, which can
 * produce Infinity or NaN, and `Math.min` against a finite bound.
 */
module JsNumber {

  /** A JavaScript number that is the result of dividing non-negative integers. */
  datatype Num = Finite(value: real) | PosInfinity | NaN

  /** `a / b` in JavaScript for non-negative integers `a` and `b`. */
  function Divide(a: nat, b: nat): (q: Num)
    ensures b > 0 ==> q.Finite? && q.value * (b as real) == a as real && q.value >= 0.0
    ensures b == 0 && a > 0 ==> q == PosInfinity
    ensures b == 0 && a == 0 ==> q == NaN
  {
    if b > 0 then Finite(a as real / b as real)
    else if a > 0 then PosInfinity
    else NaN
  }

  /** `Math.min(bound, x)`: NaN is contagious, Infinity loses to any finite bound. */
  function Min(bound: real, x: Num): (m: Num)
    ensures x == NaN <==> m == NaN
    ensures m.Finite? ==> m.value <= bound
    ensures x.Finite? ==> m.Finite? && (m.value == x.value || m.value == bound)
    ensures x.Finite? ==> m.Finite? && m.value <= x.value
    ensures x == PosInfinity ==> m == Finite(bound)
  {
    match x
    case NaN => NaN
    case PosInfinity => Finite(bound)
    case Finite(v) => Finite(if v < bound then v else bound)
  }

  /** `Math.min(bound, n)` on non-negative integers. */
  function MinNat(bound: nat, n: nat): (m: nat)
    ensures m <= bound && m <= n
    ensures m == bound || m == n
  {
    if n < bound then n else bound
  }
}
