/** The mecanum drivetrain of the kinematics test suite: four wheels at
    (±12, ±12) around the robot centre. Each lemma states one expected
    outcome, with the tolerance the suite allows where it allows one. */
module MecanumKinematicsExamples {
  import opened MecanumKinematics
  import opened WheelSpeedNormalization
  import opened Wrappers

  const FrontLeftWheel := Translation2d(12.0, 12.0)
  const FrontRightWheel := Translation2d(12.0, -12.0)
  const RearLeftWheel := Translation2d(-12.0, 12.0)
  const RearRightWheel := Translation2d(-12.0, -12.0)

  const TestDrive := MecanumDriveKinematics(FrontLeftWheel, FrontRightWheel, RearLeftWheel, RearRightWheel)

  /** The double closest to pi. */
  const Pi: real := 3.141592653589793

  /** x lies within tolerance of the expected value. */
  predicate Near(expected: real, x: real, tolerance: real) {
    expected - tolerance <= x <= expected + tolerance
  }

  predicate NearChassis(vx: real, vy: real, omega: real, s: ChassisSpeeds, tolerance: real) {
    Near(vx, s.vx, tolerance) && Near(vy, s.vy, tolerance) && Near(omega, s.omega, tolerance)
  }

  predicate NearWheels(fl: real, fr: real, rl: real, rr: real, w: WheelSpeeds, tolerance: real) {
    && Near(fl, w.frontLeft, tolerance) && Near(fr, w.frontRight, tolerance)
    && Near(rl, w.rearLeft, tolerance) && Near(rr, w.rearRight, tolerance)
  }

  /** The moment arms of the test drivetrain about its centre: 24 for every
      wheel, with the sign of its roller direction. */
  predicate SquareLayout(k: MecanumDriveKinematics) {
    RotationColumn(k, Origin) == WheelSpeeds(-24.0, 24.0, -24.0, 24.0)
  }

  lemma TestDriveIsSquareLayout()
    ensures SquareLayout(TestDrive)
  {
  }

  /** The square layout is accepted at construction. */
  lemma SquareLayoutIsNonDegenerate(k: MecanumDriveKinematics)
    requires SquareLayout(k)
    ensures NonDegenerate(k)
  {
    assert Square(0.0) == 0.0;
  }

  lemma TestDriveIsCreated()
    ensures Create(FrontLeftWheel, FrontRightWheel, RearLeftWheel, RearRightWheel) == Success(TestDrive)
  {
    TestDriveIsSquareLayout();
    SquareLayoutIsNonDegenerate(TestDrive);
  }

  /** The forward kinematics of the square layout in closed form: the mean
      wheel speed, the mean strafe combination and the mean rotation
      combination over the moment arm 24. */
  function SquareLayoutForward(w: WheelSpeeds): ChassisSpeeds {
    ChassisSpeeds(
      (w.frontLeft + w.frontRight + w.rearLeft + w.rearRight) / 4.0,
      (-w.frontLeft + w.frontRight + w.rearLeft - w.rearRight) / 4.0,
      (-w.frontLeft + w.frontRight - w.rearLeft + w.rearRight) / 96.0)
  }

  /** The closed form satisfies the normal equations for the rotation column
      (-24, 24, -24, 24). */
  lemma SquareLayoutFit(w: WheelSpeeds)
    ensures IsFit(WheelSpeeds(-24.0, 24.0, -24.0, 24.0), w, SquareLayoutForward(w))
  {
  }

  /** Forward kinematics of the square layout is the closed form. */
  lemma SquareLayoutForwardKinematics(k: MecanumDriveKinematics, w: WheelSpeeds)
    requires SquareLayout(k)
    ensures NonDegenerate(k)
    ensures ToChassisSpeeds(k, w) == SquareLayoutForward(w)
  {
    SquareLayoutIsNonDegenerate(k);
    SquareLayoutFit(w);
    LeastSquaresSolutionUnique(k, w, SquareLayoutForward(w));
  }

  /** The moment arms of the test drivetrain about its front-left wheel. */
  lemma TestDriveColumnAboutFrontLeft()
    ensures RotationColumn(TestDrive, FrontLeftWheel) == WheelSpeeds(0.0, 24.0, -24.0, 48.0)
  {
    assert TestDrive.frontLeft == FrontLeftWheel && TestDrive.frontRight == FrontRightWheel;
    assert TestDrive.rearLeft == RearLeftWheel && TestDrive.rearRight == RearRightWheel;
    assert RotationArm(FrontLeftWheel.Minus(FrontLeftWheel), -1.0) == 0.0;
    assert RotationArm(FrontRightWheel.Minus(FrontLeftWheel), 1.0) == 24.0;
    assert RotationArm(RearLeftWheel.Minus(FrontLeftWheel), 1.0) == -24.0;
    assert RotationArm(RearRightWheel.Minus(FrontLeftWheel), -1.0) == 48.0;
  }

  lemma StraightLineInverseKinematics()
    ensures ToWheelSpeeds(TestDrive, ChassisSpeeds(5.0, 0.0, 0.0), Origin) == WheelSpeeds(5.0, 5.0, 5.0, 5.0)
  {
    TestDriveIsSquareLayout();
  }

  /** Forward kinematics gives exactly (5, 0, 0). */
  lemma StraightLineForwardKinematics(k: MecanumDriveKinematics)
    requires SquareLayout(k)
    ensures NonDegenerate(k)
    ensures ToChassisSpeeds(k, WheelSpeeds(5.0, 5.0, 5.0, 5.0)) == ChassisSpeeds(5.0, 0.0, 0.0)
  {
    SquareLayoutForwardKinematics(k, WheelSpeeds(5.0, 5.0, 5.0, 5.0));
  }

  lemma StrafeInverseKinematics()
    ensures ToWheelSpeeds(TestDrive, ChassisSpeeds(0.0, 4.0, 0.0), Origin) == WheelSpeeds(-4.0, 4.0, 4.0, -4.0)
  {
    TestDriveIsSquareLayout();
  }

  /** Forward kinematics gives exactly (0, 5, 0). */
  lemma StrafeForwardKinematics(k: MecanumDriveKinematics)
    requires SquareLayout(k)
    ensures NonDegenerate(k)
    ensures ToChassisSpeeds(k, WheelSpeeds(-5.0, 5.0, 5.0, -5.0)) == ChassisSpeeds(0.0, 5.0, 0.0)
  {
    SquareLayoutForwardKinematics(k, WheelSpeeds(-5.0, 5.0, 5.0, -5.0));
  }

  /** A full turn per second needs each wheel to cover 48 pi per second. */
  lemma RotationInverseKinematics()
    ensures ToWheelSpeeds(TestDrive, ChassisSpeeds(0.0, 0.0, 2.0 * Pi), Origin)
         == WheelSpeeds(-48.0 * Pi, 48.0 * Pi, -48.0 * Pi, 48.0 * Pi)
    ensures NearWheels(-150.79644737, 150.79644737, -150.79644737, 150.79644737,
                       WheelSpeeds(-48.0 * Pi, 48.0 * Pi, -48.0 * Pi, 48.0 * Pi), 0.1)
  {
    TestDriveIsSquareLayout();
  }

  /** Forward kinematics of the test wheel speeds, exactly. */
  lemma RotationForwardKinematics(k: MecanumDriveKinematics)
    requires SquareLayout(k)
    ensures NonDegenerate(k)
    ensures var s := ToChassisSpeeds(k, WheelSpeeds(-150.79644737, 150.79644737, -150.79644737, 150.79644737));
            s.vx == 0.0 && s.vy == 0.0 && 96.0 * s.omega == 603.18578948
  {
    SquareLayoutForwardKinematics(k, WheelSpeeds(-150.79644737, 150.79644737, -150.79644737, 150.79644737));
  }

  /** Those exact chassis speeds lie within the tolerance 0.1 of the expected
      ones. */
  lemma RotationForwardTolerance(s: ChassisSpeeds)
    requires s.vx == 0.0 && s.vy == 0.0 && 96.0 * s.omega == 603.18578948
    ensures NearChassis(0.0, 0.0, 2.0 * Pi, s, 0.1)
  {
  }

  lemma MixedRotationTranslationInverseKinematics()
    ensures ToWheelSpeeds(TestDrive, ChassisSpeeds(2.0, 3.0, 1.0), Origin) == WheelSpeeds(-25.0, 29.0, -19.0, 23.0)
  {
    TestDriveIsSquareLayout();
  }

  /** Forward kinematics of the test wheel speeds, exactly. */
  lemma MixedRotationTranslationForwardKinematics(k: MecanumDriveKinematics)
    requires SquareLayout(k)
    ensures NonDegenerate(k)
    ensures var s := ToChassisSpeeds(k, WheelSpeeds(-17.677670, 20.506097, -13.435, 16.26));
            s.vx == 1.41335675 && s.vy == 2.12219175 && 96.0 * s.omega == 67.878767
  {
    SquareLayoutForwardKinematics(k, WheelSpeeds(-17.677670, 20.506097, -13.435, 16.26));
  }

  /** Those exact chassis speeds lie within the tolerance 0.1 of the expected
      ones. */
  lemma MixedRotationTranslationForwardTolerance(s: ChassisSpeeds)
    requires s.vx == 1.41335675 && s.vy == 2.12219175 && 96.0 * s.omega == 67.878767
    ensures NearChassis(1.41335, 2.1221, 0.707, s, 0.1)
  {
  }

  /** Rotating about the front-left wheel leaves that wheel still. */
  lemma OffCenterRotationInverseKinematics()
    ensures ToWheelSpeeds(TestDrive, ChassisSpeeds(0.0, 0.0, 1.0), FrontLeftWheel) == WheelSpeeds(0.0, 24.0, -24.0, 48.0)
  {
    TestDriveColumnAboutFrontLeft();
  }

  /** Forward kinematics of the test wheel speeds, exactly. */
  lemma OffCenterRotationForwardKinematics(k: MecanumDriveKinematics)
    requires SquareLayout(k)
    ensures NonDegenerate(k)
    ensures var s := ToChassisSpeeds(k, WheelSpeeds(0.0, 16.971, -16.971, 33.941));
            s.vx == 8.48525 && s.vy == -8.48525 && 96.0 * s.omega == 67.883
  {
    SquareLayoutForwardKinematics(k, WheelSpeeds(0.0, 16.971, -16.971, 33.941));
  }

  /** Those exact chassis speeds lie within the tolerance 0.1 of the expected
      ones. */
  lemma OffCenterRotationForwardTolerance(s: ChassisSpeeds)
    requires s.vx == 8.48525 && s.vy == -8.48525 && 96.0 * s.omega == 67.883
    ensures NearChassis(8.48525, -8.48525, 0.707, s, 0.1)
  {
  }

  lemma OffCenterTranslationRotationInverseKinematics()
    ensures ToWheelSpeeds(TestDrive, ChassisSpeeds(5.0, 2.0, 1.0), FrontLeftWheel) == WheelSpeeds(3.0, 31.0, -17.0, 51.0)
  {
    TestDriveColumnAboutFrontLeft();
  }

  /** Forward kinematics of the test wheel speeds, exactly. */
  lemma OffCenterTranslationRotationForwardKinematics(k: MecanumDriveKinematics)
    requires SquareLayout(k)
    ensures NonDegenerate(k)
    ensures var s := ToChassisSpeeds(k, WheelSpeeds(2.12, 21.92, -12.02, 36.06));
            s.vx == 12.02 && s.vy == -7.07 && 96.0 * s.omega == 67.88
  {
    SquareLayoutForwardKinematics(k, WheelSpeeds(2.12, 21.92, -12.02, 36.06));
  }

  /** Those exact chassis speeds lie within the tolerance 0.1 of the expected
      ones. */
  lemma OffCenterTranslationRotationForwardTolerance(s: ChassisSpeeds)
    requires s.vx == 12.02 && s.vy == -7.07 && 96.0 * s.omega == 67.88
    ensures NearChassis(12.02, -7.07, 0.707, s, 0.1)
  {
  }

  /** Wheel speeds (5, 6, 4, 7) normalised to 5.5 are each scaled by 5.5 / 7. */
  lemma NormalizeExample()
    ensures MaxAbs(WheelSpeeds(5.0, 6.0, 4.0, 7.0)) == 7.0
    ensures Normalize(WheelSpeeds(5.0, 6.0, 4.0, 7.0), 5.5)
         == WheelSpeeds(5.0 * (5.5 / 7.0), 6.0 * (5.5 / 7.0), 4.0 * (5.5 / 7.0), 7.0 * (5.5 / 7.0))
  {
  }
}
