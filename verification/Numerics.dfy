/**
 * Shared numeric vocabulary of the metric.
 *
 * Java computes with IEEE doubles and floats; this model computes with exact
 * reals. The transcendental library calls the Java code makes (FastMath.pow,
 * exp, sqrt, log10, Math.tan, Math.toDegrees, Math.toRadians) are not
 * interpreted: a `MathLib` value carries them as plain functions, and the only
 * fact the proofs assume of them is `Sound`.
 */
module Numerics {

  /** The library functions the metric calls, taken as given. */
  datatype MathLib = MathLib(
    pow: (real, real) -> real,
    exp: real -> real,
    sqrt: real -> real,
    log10: real -> real,
    tan: real -> real,
    toDegrees: real -> real,
    toRadians: real -> real)

  /**
   * Facts of IEEE pow the proofs rely on: a zero base with a positive
   * exponent gives +0, a base of one gives one, and a power of ten is
   * positive.
   */
  ghost predicate Sound(m: MathLib)
  {
    (forall g: real {:trigger m.pow(0.0, g)} :: g > 0.0 ==> m.pow(0.0, g) == 0.0) &&
    (forall g: real {:trigger m.pow(1.0, g)} :: m.pow(1.0, g) == 1.0) &&
    (forall e: real {:trigger m.pow(10.0, e)} :: m.pow(10.0, e) > 0.0)
  }

  function Max(a: real, b: real): (r: real)
    ensures r >= a && r >= b && (r == a || r == b)
  {
    if a >= b then a else b
  }

  function Min(a: real, b: real): (r: real)
    ensures r <= a && r <= b && (r == a || r == b)
  {
    if a <= b then a else b
  }

  function Abs(a: real): (r: real)
    ensures r >= 0.0 && (r == a || r == -a)
  {
    if a < 0.0 then -a else a
  }

  /**
   * Division of two computed reals. Where the divisor is zero Java's double
   * division yields an infinity or NaN, which reals do not have; the model
   * yields 0 there.
   */
  function Quotient(a: real, b: real): (r: real)
    ensures b != 0.0 ==> r * b == a
  {
    if b == 0.0 then 0.0 else a / b
  }

  /** 2^n as a real: the value of a double doubled n times from 1.0. */
  function Pow2(n: nat): (r: real)
    ensures r >= 1.0
  {
    if n == 0 then 1.0 else 2.0 * Pow2(n - 1)
  }
}
