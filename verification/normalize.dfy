/** Scaling a set of wheel speeds down, all by the same factor, so that the
    fastest wheel runs at an attainable maximum speed. */
module WheelSpeedNormalization {
  import opened MecanumKinematics

  function Abs(x: real): real {
    if x < 0.0 then -x else x
  }

  /** The largest wheel speed in magnitude. */
  function MaxAbs(w: WheelSpeeds): real {
    Max(Max(Abs(w.frontLeft), Abs(w.frontRight)), Max(Abs(w.rearLeft), Abs(w.rearRight)))
  }

  /** A quotient of a non-negative value by a larger one lies in [0, 1). */
  lemma FractionBelowOne(a: real, m: real)
    requires 0.0 <= a < m
    ensures 0.0 <= a / m < 1.0
    ensures Product(m, a / m) == a
  {
  }

  function Max(a: real, b: real): real {
    if a < b then b else a
  }

  /** a : b equals x : y. */
  predicate SameRatio(a: real, b: real, x: real, y: real) {
    a * y == b * x
  }

  /** Any two wheel speeds of r stand in the ratio of the same two wheel
      speeds of w. */
  predicate SameRatios(r: WheelSpeeds, w: WheelSpeeds) {
    && SameRatio(r.frontLeft, r.frontRight, w.frontLeft, w.frontRight)
    && SameRatio(r.frontLeft, r.rearLeft, w.frontLeft, w.rearLeft)
    && SameRatio(r.frontLeft, r.rearRight, w.frontLeft, w.rearRight)
    && SameRatio(r.frontRight, r.rearLeft, w.frontRight, w.rearLeft)
    && SameRatio(r.frontRight, r.rearRight, w.frontRight, w.rearRight)
    && SameRatio(r.rearLeft, r.rearRight, w.rearLeft, w.rearRight)
  }

  predicate SameSign(a: real, x: real) {
    (a > 0.0 <==> x > 0.0) && (a < 0.0 <==> x < 0.0)
  }

  /** Every wheel of r turns in the direction of the same wheel of w. */
  predicate SameSigns(r: WheelSpeeds, w: WheelSpeeds) {
    && SameSign(r.frontLeft, w.frontLeft)
    && SameSign(r.frontRight, w.frontRight)
    && SameSign(r.rearLeft, w.rearLeft)
    && SameSign(r.rearRight, w.rearRight)
  }

  /** No wheel of r turns faster than the same wheel of w. */
  predicate NoFaster(r: WheelSpeeds, w: WheelSpeeds) {
    && Abs(r.frontLeft) <= Abs(w.frontLeft)
    && Abs(r.frontRight) <= Abs(w.frontRight)
    && Abs(r.rearLeft) <= Abs(w.rearLeft)
    && Abs(r.rearRight) <= Abs(w.rearRight)
  }

  /** Scales all four wheel speeds down by the same factor so that the
      largest magnitude becomes the attainable maximum. Only the case in which
      some wheel exceeds the maximum is modelled. */
  function Normalize(w: WheelSpeeds, attainableMaxSpeed: real): (r: WheelSpeeds)
    requires 0.0 <= attainableMaxSpeed < MaxAbs(w)
    ensures SameRatios(r, w)
    ensures MaxAbs(r) == attainableMaxSpeed
    ensures NoFaster(r, w)
    ensures attainableMaxSpeed > 0.0 ==> SameSigns(r, w)
    ensures attainableMaxSpeed == 0.0 ==> r == Stopped
  {
    var f := attainableMaxSpeed / MaxAbs(w);
    FractionBelowOne(attainableMaxSpeed, MaxAbs(w));
    ScaleDown(w, f);
    ScaledToLimit(w, attainableMaxSpeed);
    Scale(w, f)
  }

  /** Scaling by the limit over the largest magnitude brings the largest
      magnitude to the limit. */
  lemma ScaledToLimit(w: WheelSpeeds, limit: real)
    requires 0.0 <= limit < MaxAbs(w)
    ensures MaxAbs(Scale(w, limit / MaxAbs(w))) == limit
  {
    var m := MaxAbs(w);
    FractionBelowOne(limit, m);
    MaxAbsScale(w, limit / m);
  }

  /** Scaling by a factor in [0, 1] keeps the ratios, slows every wheel, keeps
      the directions when the factor is positive and stops every wheel when it
      is zero. */
  lemma ScaleDown(w: WheelSpeeds, f: real)
    requires 0.0 <= f <= 1.0
    ensures SameRatios(Scale(w, f), w)
    ensures NoFaster(Scale(w, f), w)
    ensures f > 0.0 ==> SameSigns(Scale(w, f), w)
    ensures f == 0.0 ==> Scale(w, f) == Stopped
  {
    ScalePreservesRatios(w, f);
    ScaleShrinksMagnitudes(w, f);
    if f > 0.0 {
      ScaleKeepsSigns(w, f);
    }
  }

  lemma ScalePreservesRatios(w: WheelSpeeds, f: real)
    ensures SameRatios(Scale(w, f), w)
  {
    ScaledRatio(w.frontLeft, w.frontRight, f);
    ScaledRatio(w.frontLeft, w.rearLeft, f);
    ScaledRatio(w.frontLeft, w.rearRight, f);
    ScaledRatio(w.frontRight, w.rearLeft, f);
    ScaledRatio(w.frontRight, w.rearRight, f);
    ScaledRatio(w.rearLeft, w.rearRight, f);
  }

  lemma ScaledRatio(x: real, y: real, f: real)
    ensures SameRatio(x * f, y * f, x, y)
  {
    assert (x * f) * y == (y * f) * x;
  }

  lemma AbsScale(x: real, f: real)
    requires f >= 0.0
    ensures Abs(x * f) == Abs(x) * f
  {
    if x < 0.0 {
      assert x * f == -((-x) * f);
    }
  }

  lemma ScaleMonotone(x: real, y: real, f: real)
    requires f >= 0.0 && x <= y
    ensures x * f <= y * f
  {
    assert y * f - x * f == (y - x) * f;
  }

  lemma ScaleStrictlyMonotone(x: real, y: real, f: real)
    requires f > 0.0
    ensures x < y <==> x * f < y * f
  {
    assert y * f - x * f == (y - x) * f;
  }

  /** Scaling by f >= 0 scales the largest magnitude by f. */
  lemma MaxAbsScale(w: WheelSpeeds, f: real)
    requires f >= 0.0
    ensures MaxAbs(Scale(w, f)) == Product(MaxAbs(w), f)
  {
    var r := Scale(w, f);
    AbsScaleProduct(w.frontLeft, f);
    AbsScaleProduct(w.frontRight, f);
    AbsScaleProduct(w.rearLeft, f);
    AbsScaleProduct(w.rearRight, f);
    assert Abs(r.frontLeft) == Product(Abs(w.frontLeft), f);
    assert Abs(r.frontRight) == Product(Abs(w.frontRight), f);
    assert Abs(r.rearLeft) == Product(Abs(w.rearLeft), f);
    assert Abs(r.rearRight) == Product(Abs(w.rearRight), f);
    var front, rear := Max(Abs(w.frontLeft), Abs(w.frontRight)), Max(Abs(w.rearLeft), Abs(w.rearRight));
    MaxScale(Abs(w.frontLeft), Abs(w.frontRight), f);
    MaxScale(Abs(w.rearLeft), Abs(w.rearRight), f);
    MaxScale(front, rear, f);
  }

  lemma AbsScaleProduct(x: real, f: real)
    requires f >= 0.0
    ensures Abs(x * f) == Product(Abs(x), f)
  {
    AbsScale(x, f);
  }

  /** The larger of two values scaled by f >= 0 is the larger value scaled. */
  lemma MaxScale(a: real, b: real, f: real)
    requires f >= 0.0
    ensures Max(Product(a, f), Product(b, f)) == Product(Max(a, b), f)
  {
    if a < b {
      ScaleMonotone(a, b, f);
    } else {
      ScaleMonotone(b, a, f);
    }
  }

  lemma ScaleShrinksMagnitudes(w: WheelSpeeds, f: real)
    requires 0.0 <= f <= 1.0
    ensures NoFaster(Scale(w, f), w)
  {
    ScaleShrinks(w.frontLeft, f);
    ScaleShrinks(w.frontRight, f);
    ScaleShrinks(w.rearLeft, f);
    ScaleShrinks(w.rearRight, f);
  }

  lemma ScaleShrinks(x: real, f: real)
    requires 0.0 <= f <= 1.0
    ensures Abs(x * f) <= Abs(x)
  {
    AbsScale(x, f);
    ScaleMonotone(f, 1.0, Abs(x));
    assert f * Abs(x) == Abs(x) * f;
  }

  lemma ScaleKeepsSigns(w: WheelSpeeds, f: real)
    requires f > 0.0
    ensures SameSigns(Scale(w, f), w)
  {
    ScaleKeepsSign(w.frontLeft, f);
    ScaleKeepsSign(w.frontRight, f);
    ScaleKeepsSign(w.rearLeft, f);
    ScaleKeepsSign(w.rearRight, f);
  }

  lemma ScaleKeepsSign(x: real, f: real)
    requires f > 0.0
    ensures SameSign(x * f, x)
  {
    ScaleStrictlyMonotone(0.0, x, f);
    ScaleStrictlyMonotone(x, 0.0, f);
  }

  /** Normalising the wheel speeds scales the chassis motion they produce by
      the same factor: the robot keeps its direction of travel and turning
      centre and only slows down. */
  lemma {:induction false} NormalizePreservesMotion(k: MecanumDriveKinematics, w: WheelSpeeds, attainableMaxSpeed: real)
    requires NonDegenerate(k)
    requires 0.0 <= attainableMaxSpeed < MaxAbs(w)
    ensures ToChassisSpeeds(k, Normalize(w, attainableMaxSpeed))
         == ScaleChassis(ToChassisSpeeds(k, w), attainableMaxSpeed / MaxAbs(w))
  {
    assert Normalize(w, attainableMaxSpeed) == Scale(w, attainableMaxSpeed / MaxAbs(w));
    ToChassisSpeedsScale(k, w, attainableMaxSpeed / MaxAbs(w));
  }
}
