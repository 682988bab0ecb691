/** Scalar helpers the subdivision predicate relies on: absolute value,
    clamping, linear interpolation (glm::mix), powers of two (std::pow(2, n))
    and the constant 2*pi. Doubles are modelled as reals. */
module MathUtility {

  /** 2*pi as math::twoPiD() returns it, written as the shortest decimal
      that reads back as that double (the double itself is 6.28318530717958623...). */
  const TwoPi: real := 6.283185307179586

  function Abs(x: real): (r: real)
    ensures r >= 0.0
    ensures r == x || r == -x
  {
    if x < 0.0 then -x else x
  }

  /** std::max on two doubles. */
  function Max(a: real, b: real): (r: real)
    ensures r >= a && r >= b
    ensures r == a || r == b
  {
    if a < b then b else a
  }

  /** math::clamp: a value below `lo` becomes `lo`, one above `hi` becomes `hi`. */
  function Clamp(v: real, lo: real, hi: real): (r: real)
    ensures lo <= hi ==> lo <= r <= hi
    ensures lo <= v <= hi ==> r == v
    ensures r == v || r == lo || r == hi
  {
    if v < lo then lo else if hi < v then hi else v
  }

  /** Within [lo, hi], the clamped value is the one nearest to `v`. */
  lemma ClampIsNearest(v: real, lo: real, hi: real, y: real)
    requires lo <= y <= hi
    ensures Abs(Clamp(v, lo, hi) - v) <= Abs(y - v)
  {
  }

  /** Clamping twice into the same non-empty interval changes nothing more. */
  lemma ClampIdempotent(v: real, lo: real, hi: real)
    requires lo <= hi
    ensures Clamp(Clamp(v, lo, hi), lo, hi) == Clamp(v, lo, hi)
  {
  }

  /** glm::mix: linear interpolation from `a` (at t = 0) to `b` (at t = 1). */
  function Mix(a: real, b: real, t: real): (r: real)
    ensures t == 0.0 ==> r == a
    ensures t == 1.0 ==> r == b
  {
    a + (b - a) * t
  }

  /** std::pow(2, n) for a non-negative integer exponent; a double holds it
      exactly for n <= 1023 and overflows to infinity beyond, which is not modelled. */
  function Pow2(n: nat): (r: real)
    ensures r >= 1.0
    ensures n > 0 ==> r >= 2.0
  {
    if n == 0 then 1.0 else 2.0 * Pow2(n - 1)
  }
}
