/** `Math.min` and `Math.max` on exact reals, and the two-sided clamp used as
    an independent reference definition. */
module RealMath {

  function Min(a: real, b: real): real { if a <= b then a else b }

  function Max(a: real, b: real): real { if a >= b then a else b }

  /** `x` clamped to the closed interval [lo, hi]. */
  function Clamp(x: real, lo: real, hi: real): real
    requires lo <= hi
  {
    if x < lo then lo else if x > hi then hi else x
  }
}
