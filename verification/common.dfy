/**
 Numbers, random draws and trigonometry as the tank tutorials use them.

 JavaScript numbers are modelled as exact `real`s (positions, velocities,
 angles) and `int`s (speeds, counters, gun power); `Math.random()` becomes a
 `Fraction` handed in by the caller and `Math.sin` / `Math.cos` become the
 two uninterpreted functions of a `Trig` value.
 */
module Common {

  datatype Option<+T> = None | Some(value: T)

  /** A value `Math.random()` may return: a real in [0, 1). */
  type Fraction = t: real | 0.0 <= t < 1.0

  /** The four `Math.random()` values one component initialiser may consume, in call order. */
  datatype Draws = Draws(d0: Fraction, d1: Fraction, d2: Fraction, d3: Fraction)

  /** `Math.sin` and `Math.cos`, about which nothing is assumed. */
  datatype Trig = Trig(sin: real -> real, cos: real -> real)

  /** `2 * Math.PI`, written out as the exact value of the double the program computes. */
  const TWO_PI: real := 6.28318530717958623199592693708837032318115234375

  /** `lerp(min, max, t)`: the point a fraction `t` of the way from `min` to `max`. */
  function Lerp(min: real, max: real, t: real): (r: real)
    ensures 0.0 <= t < 1.0 && min < max ==> min <= r < max
    ensures t == 0.0 ==> r == min
  {
    var diff := max - min;
    if 0.0 <= t < 1.0 && min < max then
      ScaledBelow(diff, t);
      min + diff * t
    else
      min + diff * t
  }

  /** A positive width scaled by a fraction stays within [0, width). */
  lemma ScaledBelow(diff: real, t: real)
    requires 0.0 < diff && 0.0 <= t < 1.0
    ensures 0.0 <= diff * t < diff
  {
    assert diff * (1.0 - t) > 0.0;
  }

  /**
   `parseInt` applied to a number written without an exponent (0, or
   1e-6 <= |r| < 1e21): its integer part, truncated toward zero.
   */
  function Trunc(r: real): (i: int)
    ensures 0.0 <= r ==> i as real <= r < i as real + 1.0
    ensures r < 0.0 ==> i as real - 1.0 < r <= i as real
  {
    if r >= 0.0 then r.Floor else -((-r).Floor)
  }

  /** `parseInt(lerp(min, max, t))` for integer bounds: a whole number from `min` up to `max - 1`. */
  function TruncLerp(min: int, max: int, t: Fraction): (i: int)
    ensures min < max ==> min <= i <= max
    ensures 0 <= min < max ==> i <= max - 1
    ensures t == 0.0 ==> i == min
  {
    Trunc(Lerp(min as real, max as real, t))
  }
}
