/** Absolute value, minimum and maximum on the reals, as `Math.abs`, `Math.min` and `Math.max`. */
module RealMath {

  function Abs(x: real): real { if x < 0.0 then -x else x }
  function Min(a: real, b: real): real { if a <= b then a else b }
  function Max(a: real, b: real): real { if a >= b then a else b }
}
