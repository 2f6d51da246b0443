/**
 * Floating-point numbers are modelled as exact reals. The transcendental and
 * rounding operations the programs call (Math.cos, Math.sin, Math.sqrt, Python's
 * round(x, 4), the constant pi) are not computed: they travel as an opaque record
 * of function values, so nothing is proved that depends on what they return.
 */
module Floats {

  datatype Numerics = Numerics(
    pi: real,
    cos: real -> real,
    sin: real -> real,
    sqrt: real -> real,
    round4: real -> real
  )

  function Abs(x: real): real
  {
    if x < 0.0 then -x else x
  }

  function Min(a: real, b: real): real
  {
    if a <= b then a else b
  }

  function Max(a: real, b: real): real
  {
    if a <= b then b else a
  }

  /** A JavaScript number that may be an infinity, as `1 / 0` produces. */
  datatype Extended = Finite(value: real) | PositiveInfinity

  /** JavaScript's `1 / x` (negative zero is not modelled, so `1 / 0` is +Infinity). */
  function Reciprocal(x: real): (r: Extended)
    ensures r.Finite? <==> x != 0.0
    ensures r.Finite? ==> r.value * x == 1.0
  {
    if x == 0.0 then PositiveInfinity else Finite(1.0 / x)
  }
}
