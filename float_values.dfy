/** The `f64` values that arise from dividing two sysfs integers: a finite
    number, positive infinity (a positive amount over zero) or not-a-number
    (zero over zero), with IEEE equality, under which not-a-number equals
    nothing, itself included. Rounding to the nearest `f64` is not
    modelled: finite values are exact reals. */
module FloatValues {
  datatype F64 = Finite(value: real) | Infinity | NotANumber

  /** `a as f64 / b as f64` for non-negative integers. */
  function DivNat(a: nat, b: nat): (q: F64)
    ensures b > 0 ==> q == Finite(a as real / b as real)
    ensures b == 0 ==> q == if a > 0 then Infinity else NotANumber
  {
    if b > 0 then Finite(a as real / b as real) else if a > 0 then Infinity else NotANumber
  }

  /** `==` on `f64`. */
  predicate IeeeEq(x: F64, y: F64) {
    x == y && !x.NotANumber?
  }

  /** `f64::clamp(0.0, 1.0)` on a finite value. */
  function ClampUnit(x: real): (r: real)
    ensures 0.0 <= r <= 1.0
    ensures 0.0 <= x <= 1.0 ==> r == x
  {
    if x < 0.0 then 0.0 else if x > 1.0 then 1.0 else x
  }

  /** `f64::clamp(0.0, 1.0)`: not-a-number stays as it is. */
  function Clamp01(q: F64): (r: F64)
    ensures r.Finite? ==> 0.0 <= r.value <= 1.0
    ensures r.NotANumber? <==> q.NotANumber?
    ensures q.Finite? && 0.0 <= q.value <= 1.0 ==> r == q
  {
    match q
    case Finite(v) => Finite(ClampUnit(v))
    case Infinity => Finite(1.0)
    case NotANumber => NotANumber
  }
}
