/** The pieces of JavaScript semantics both tracks rely on: optional values
    (`undefined`), a command that ends by throwing a TypeError, and the
    `Math.round`, `Math.trunc` and `Math.min(Math.max(0, v), 1)` arithmetic,
    stated over unbounded reals. */
module Runtime {

  /** A value that may be `undefined` (or NaN, where the model says so). */
  datatype Option<+T> = None | Some(value: T)

  /** How a command ends. Calling a method of a native handle the track no
      longer holds (`this.audio.pause()` after `destroy()`) throws a TypeError;
      the state is then what it was at the throw. */
  datatype Outcome = Returned | TypeError

  /** `x > 0` for a number that may be undefined: undefined compares false. */
  predicate IsPositive(x: Option<real>)
  {
    x.Some? && x.value > 0.0
  }

  /** `Math.round(x)`: the nearest integer, halves rounded up. */
  function Round(x: real): (r: int)
    ensures r as real - 0.5 <= x < r as real + 0.5
  {
    (x + 0.5).Floor
  }

  /** x is a whole number of hundredths. */
  predicate OnHundredths(x: real)
  {
    (x * 100.0).Floor as real == x * 100.0
  }

  /** `Math.round(x * 100) / 100`: x rounded to two decimal places. */
  function Round2(x: real): (r: real)
    ensures r - 0.005 <= x < r + 0.005
    ensures OnHundredths(r)
  {
    Round(x * 100.0) as real / 100.0
  }

  /** `Math.trunc(x)`: x with its fractional part dropped, toward zero. */
  function Trunc(x: real): (r: int)
    ensures x >= 0.0 ==> 0 <= r && r as real <= x < r as real + 1.0
    ensures x < 0.0 ==> r <= 0 && r as real - 1.0 < x <= r as real
  {
    if x >= 0.0 then x.Floor else -((-x).Floor)
  }

  /** `Math.min(Math.max(0, v), 1)`. */
  function Clamp01(v: real): (r: real)
    ensures 0.0 <= r <= 1.0
    ensures 0.0 <= v <= 1.0 ==> r == v
    ensures v < 0.0 ==> r == 0.0
    ensures v > 1.0 ==> r == 1.0
  {
    if v < 0.0 then 0.0 else if v > 1.0 then 1.0 else v
  }

  /** Clamping an already clamped volume changes nothing. */
  lemma Clamp01Idempotent(v: real)
    ensures Clamp01(Clamp01(v)) == Clamp01(v)
  {
  }

  /** Clamping preserves the order of two volumes. */
  lemma Clamp01Monotone(v: real, w: real)
    requires v <= w
    ensures Clamp01(v) <= Clamp01(w)
  {
  }

  /** A value already on the two-decimal grid is left as it is. */
  lemma Round2Idempotent(x: real)
    ensures Round2(Round2(x)) == Round2(x)
  {
    var k := Round(x * 100.0);
    assert Round2(x) * 100.0 == k as real;
    assert Round(k as real) == k;
  }

  /** Rounding to two decimals preserves order. */
  lemma Round2Monotone(x: real, y: real)
    requires x <= y
    ensures Round2(x) <= Round2(y)
  {
    assert x * 100.0 + 0.5 <= y * 100.0 + 0.5;
    assert Round(x * 100.0) <= Round(y * 100.0);
  }

  /** Whole numbers of hundredths, 0 and 1 in particular, round to themselves. */
  lemma Round2OfHundredths(k: int)
    ensures Round2(k as real / 100.0) == k as real / 100.0
  {
    assert (k as real / 100.0) * 100.0 == k as real;
    assert Round(k as real) == k;
  }

  /** A part of a positive whole is a ratio in [0, 1], and 1 only for the
      whole itself. */
  lemma RatioInUnitInterval(part: real, whole: real)
    requires 0.0 <= part <= whole && whole > 0.0
    ensures 0.0 <= part / whole <= 1.0
    ensures part / whole == 1.0 <==> part == whole
  {
    assert (part / whole) * whole == part;
  }

  /** A ratio in [0, 1] stays in [0, 1] after rounding to two decimals. */
  lemma Round2UnitInterval(x: real)
    requires 0.0 <= x <= 1.0
    ensures 0.0 <= Round2(x) <= 1.0
  {
    Round2Monotone(0.0, x);
    Round2Monotone(x, 1.0);
    Round2OfHundredths(0);
    Round2OfHundredths(100);
  }
}
