/** Stick scaling: an affine map from the raw axis range to a signed speed,
    with a deadzone around neutral and optional inversion. Python floats are
    modelled as exact reals. */
module MathHelper {

  const STICK_MIN: real := 0.0
  const STICK_MAX: real := 255.0
  const DEFAULT_DEADZONE: real := 10.0
  const DEFAULT_SCALE_TO: real := 80.0

  function Abs(x: real): real {
    if x < 0.0 then -x else x
  }

  /** Python's int() on a float: truncation toward zero. */
  function Trunc(x: real): (n: int)
    ensures Abs(x - n as real) < 1.0
    ensures 0.0 <= x ==> 0 <= n && n as real <= x
    ensures x <= 0.0 ==> n <= 0 && x <= n as real
  {
    if x >= 0.0 then x.Floor else -((-x).Floor)
  }

  /** Maps `val` linearly from the range `src` onto the range `dst`,
      extrapolating outside it. A degenerate source range would divide by
      zero; every caller passes (0, 255). */
  function Scale(val: real, src: (real, real), dst: (real, real)): (r: real)
    requires src.0 != src.1
    ensures val == src.0 ==> r == dst.0
    ensures val == src.1 ==> r == dst.1
  {
    (val - src.0) / (src.1 - src.0) * (dst.1 - dst.0) + dst.0
  }

  /** The slope of Scale: how much the output moves per unit of input. */
  function Slope(src: (real, real), dst: (real, real)): real
    requires src.0 != src.1
  {
    (dst.1 - dst.0) / (src.1 - src.0)
  }

  /** Maps a raw axis value 0..255 onto -scaleTo..scaleTo; a nonzero
      deadzone forces results strictly inside (-deadzone, deadzone) to 0;
      `invert` negates the result. */
  function ScaleStick(value: real, deadzone: real, scaleTo: real, invert: bool): (r: real)
    ensures r == 0.0 || Abs(r) >= deadzone
  {
    var scaled := Scale(value, (STICK_MIN, STICK_MAX), (-scaleTo, scaleTo));
    var result := if deadzone != 0.0 && scaled < deadzone && scaled > -deadzone then 0.0 else scaled;
    if invert then -result else result
  }

  /** scale_stick with its default arguments (deadzone 10, scale_to 80). */
  function ScaleStickDefault(value: real, invert: bool): real {
    ScaleStick(value, DEFAULT_DEADZONE, DEFAULT_SCALE_TO, invert)
  }

  // ---------------------------------------------------------------------
  // Properties of Scale

  /** Scale is affine: any two outputs differ by the slope times the
      difference of the inputs. */
  lemma ScaleAffine(v: real, w: real, src: (real, real), dst: (real, real))
    requires src.0 != src.1
    ensures Scale(v, src, dst) - Scale(w, src, dst) == (v - w) * Slope(src, dst)
  {
    var d := src.1 - src.0;
    var e := dst.1 - dst.0;
    calc {
      Scale(v, src, dst) - Scale(w, src, dst);
      (v - src.0) / d * e - (w - src.0) / d * e;
      ((v - src.0) / d - (w - src.0) / d) * e;
      { assert (v - src.0) / d - (w - src.0) / d == (v - w) / d; }
      (v - w) / d * e;
      { assert (v - w) / d * e == (v - w) * (e / d); }
      (v - w) * Slope(src, dst);
    }
  }

  /** With an increasing source range and a non-decreasing destination
      range, Scale is monotonic. */
  lemma ScaleMonotonic(v: real, w: real, src: (real, real), dst: (real, real))
    requires src.0 < src.1 && dst.0 <= dst.1
    requires v <= w
    ensures Scale(v, src, dst) <= Scale(w, src, dst)
  {
    ScaleAffine(w, v, src, dst);
    QuotientNonnegative(dst.1 - dst.0, src.1 - src.0);
    ProductNonnegative(w - v, Slope(src, dst));
  }

  lemma QuotientNonnegative(a: real, b: real)
    requires 0.0 <= a && 0.0 < b
    ensures 0.0 <= a / b
  {
  }

  lemma ProductNonnegative(a: real, b: real)
    requires 0.0 <= a && 0.0 <= b
    ensures 0.0 <= a * b
  {
  }

  // ---------------------------------------------------------------------
  // Properties of ScaleStick

  /** A scaled value strictly inside a nonzero deadzone becomes exactly 0. */
  lemma DeadzoneZeroes(value: real, deadzone: real, scaleTo: real, invert: bool)
    requires deadzone != 0.0
    requires -deadzone < Scale(value, (STICK_MIN, STICK_MAX), (-scaleTo, scaleTo)) < deadzone
    ensures ScaleStick(value, deadzone, scaleTo, invert) == 0.0
  {
  }

  /** A scaled value outside the deadzone, or on its edge, is kept (and
      negated when inverting). */
  lemma DeadzoneKeeps(value: real, deadzone: real, scaleTo: real, invert: bool)
    requires var x := Scale(value, (STICK_MIN, STICK_MAX), (-scaleTo, scaleTo));
             x <= -deadzone || x >= deadzone
    ensures var x := Scale(value, (STICK_MIN, STICK_MAX), (-scaleTo, scaleTo));
            ScaleStick(value, deadzone, scaleTo, invert) == if invert then -x else x
  {
  }

  /** A deadzone of 0 skips the zeroing step altogether. */
  lemma NoDeadzone(value: real, scaleTo: real)
    ensures ScaleStick(value, 0.0, scaleTo, false) == Scale(value, (STICK_MIN, STICK_MAX), (-scaleTo, scaleTo))
  {
  }

  /** Inverting negates the result, whatever the other arguments. */
  lemma InvertNegates(value: real, deadzone: real, scaleTo: real)
    ensures ScaleStick(value, deadzone, scaleTo, true) == -ScaleStick(value, deadzone, scaleTo, false)
  {
  }

  /** On the axis' own range the magnitude never exceeds scaleTo. */
  lemma ScaleStickBounded(value: real, deadzone: real, scaleTo: real, invert: bool)
    requires STICK_MIN <= value <= STICK_MAX
    requires 0.0 <= scaleTo
    ensures Abs(ScaleStick(value, deadzone, scaleTo, invert)) <= scaleTo
  {
    var src, dst := (STICK_MIN, STICK_MAX), (-scaleTo, scaleTo);
    ScaleMonotonic(STICK_MIN, value, src, dst);
    ScaleMonotonic(value, STICK_MAX, src, dst);
  }

  // ---------------------------------------------------------------------
  // The expected values of the unit tests of math_helper

  lemma DefaultValues()
    ensures ScaleStickDefault(0.0, false) == -80.0
    ensures ScaleStickDefault(255.0, false) == 80.0
    ensures ScaleStickDefault(128.0, false) == 0.0
    ensures ScaleStickDefault(136.0, false) == 0.0
  {
    assert Scale(128.0, (STICK_MIN, STICK_MAX), (-80.0, 80.0)) == 16.0 / 51.0;
    assert Scale(136.0, (STICK_MIN, STICK_MAX), (-80.0, 80.0)) == 16.0 / 3.0;
  }

  lemma DefaultInvertedValues()
    ensures ScaleStickDefault(0.0, true) == 80.0
    ensures ScaleStickDefault(255.0, true) == -80.0
    ensures ScaleStickDefault(128.0, true) == 0.0
    ensures ScaleStickDefault(136.0, true) == 0.0
  {
    DefaultValues();
  }

  lemma DeadzoneValues()
    ensures Trunc(ScaleStick(0.0, 0.0, DEFAULT_SCALE_TO, false)) == -80
    ensures Trunc(ScaleStick(255.0, 0.0, DEFAULT_SCALE_TO, false)) == 80
    ensures Trunc(ScaleStick(128.0, 0.0, DEFAULT_SCALE_TO, false)) == 0
    ensures Trunc(ScaleStick(136.0, 10.0, DEFAULT_SCALE_TO, false)) == 0
    ensures Trunc(ScaleStick(140.0, 10.0, DEFAULT_SCALE_TO, false)) == 0
    ensures Trunc(ScaleStick(140.0, 5.0, DEFAULT_SCALE_TO, false)) == 7
    ensures Trunc(ScaleStick(150.0, 10.0, DEFAULT_SCALE_TO, false)) == 14
  {
    var src, dst := (STICK_MIN, STICK_MAX), (-80.0, 80.0);
    assert Scale(128.0, src, dst) == 16.0 / 51.0;
    assert Scale(136.0, src, dst) == 16.0 / 3.0;
    assert Scale(140.0, src, dst) == 400.0 / 51.0;
    assert Scale(150.0, src, dst) == 240.0 / 17.0;
  }
}
