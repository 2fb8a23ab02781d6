/**
  The numeric helpers the test programs use to judge generated samples: a
  relative tolerance test and the wrapped difference of two angles.
 */
module MiscTestUtilities {

  /** `M_PI`, written out as the exact value of the double it denotes. */
  const Pi: real := 3.141592653589793115997963468544185161590576171875

  function Abs(x: real): real
  {
    if x < 0.0 then -x else x
  }

  /** `std::signbit` on a real: set exactly for negative values (a real has no negative zero). */
  predicate SignBit(x: real)
  {
    x < 0.0
  }

  /** `inTolerance`: is `value` within the relative band `toleranceRatio` around `desiredValue`? For a non-negative ratio the band is `|value - desiredValue| <= toleranceRatio * |desiredValue|`, whatever the sign of the target. */
  function InTolerance(value: real, desiredValue: real, toleranceRatio: real): (ok: bool)
    ensures toleranceRatio >= 0.0 ==>
      (ok <==> Abs(value - desiredValue) <= toleranceRatio * Abs(desiredValue))
  {
    var t, d := toleranceRatio, desiredValue;
    assert d * (1.0 + t) == d + t * d;
    assert d * (1.0 - t) == d - t * d;
    assert d < 0.0 ==> t * Abs(d) == -(t * d);
    var limitA := desiredValue * (1.0 + toleranceRatio);
    var limitB := desiredValue * (1.0 - toleranceRatio);
    var minValue := if SignBit(desiredValue) then limitA else limitB;
    var maxValue := if SignBit(desiredValue) then limitB else limitA;
    minValue <= value && value <= maxValue
  }

  /** For a non-negative ratio the lower limit never exceeds the upper one, so the target itself is always accepted. */
  lemma InToleranceBand(desiredValue: real, toleranceRatio: real)
    requires toleranceRatio >= 0.0
    ensures desiredValue >= 0.0 ==>
      desiredValue * (1.0 - toleranceRatio) <= desiredValue <= desiredValue * (1.0 + toleranceRatio)
    ensures desiredValue < 0.0 ==>
      desiredValue * (1.0 + toleranceRatio) <= desiredValue <= desiredValue * (1.0 - toleranceRatio)
    ensures InTolerance(desiredValue, desiredValue, toleranceRatio)
  {
    var d, t := desiredValue, toleranceRatio;
    assert d * (1.0 + t) == d + t * d;
    assert d * (1.0 - t) == d - t * d;
    if d >= 0.0 {
      assert t * d >= 0.0;
    } else {
      assert t * d <= 0.0;
    }
  }

  /** Because the band is relative, a zero target admits only zero. */
  lemma InToleranceOfZero(value: real, toleranceRatio: real)
    ensures InTolerance(value, 0.0, toleranceRatio) <==> value == 0.0
  {
  }

  /** With a zero ratio only the target itself is accepted. */
  lemma InToleranceExact(value: real, desiredValue: real)
    ensures InTolerance(value, desiredValue, 0.0) <==> value == desiredValue
  {
  }

  /** A negative ratio inverts the band, so a non-zero target then accepts nothing. */
  lemma NegativeRatioAcceptsNothing(value: real, desiredValue: real, toleranceRatio: real)
    requires toleranceRatio < 0.0 && desiredValue != 0.0
    ensures !InTolerance(value, desiredValue, toleranceRatio)
  {
    var d, t := desiredValue, toleranceRatio;
    assert d * (1.0 + t) == d + t * d;
    assert d * (1.0 - t) == d - t * d;
    if d < 0.0 {
      assert t * d > 0.0;
    } else {
      assert t * d < 0.0;
    }
  }

  /** `deltaAngle`: `angleB - angleA`, brought back by one turn when it leaves `[-pi, pi]`. Angles in `[-pi, pi]`, as `std::arg` returns them, differ by an angle in `[-pi, pi]`. */
  function DeltaAngle(angleA: real, angleB: real): (r: real)
    ensures -Pi <= angleA <= Pi && -Pi <= angleB <= Pi ==> -Pi <= r <= Pi
  {
    var delta := angleB - angleA;
    if delta > Pi then delta - 2.0 * Pi
    else if delta < -Pi then delta + 2.0 * Pi
    else delta
  }

  /** The result differs from the plain difference by a whole number of turns (at most one), and the same angle twice gives 0. */
  lemma DeltaAngleIsWrappedDifference(angleA: real, angleB: real)
    ensures var r := DeltaAngle(angleA, angleB) - (angleB - angleA);
      r == 0.0 || r == -2.0 * Pi || r == 2.0 * Pi
    ensures DeltaAngle(angleA, angleA) == 0.0
    ensures -Pi <= angleB - angleA <= Pi ==> DeltaAngle(angleA, angleB) == angleB - angleA
  {
  }
}
