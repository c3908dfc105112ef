/** Mecanum drive kinematics over exact reals: the inverse map from chassis
    speeds to the four wheel speeds (about an arbitrary centre of rotation),
    and the forward map as the least-squares solution of the inverse map.

    The inverse-kinematics matrix has three columns: a forward column and a
    strafe column fixed by the roller geometry, and a rotation column fixed by
    the wheel positions. The algebra of the forward map is developed for an
    arbitrary rotation column a and then applied to a drivetrain. */
module MecanumKinematics {
  import opened Wrappers

  /** A 2-D offset: x forward, y to the left. */
  datatype Translation2d = Translation2d(x: real, y: real) {
    function Minus(other: Translation2d): Translation2d {
      Translation2d(x - other.x, y - other.y)
    }
  }

  const Origin := Translation2d(0.0, 0.0)

  /** Whole-robot velocity: forward, lateral (left positive), angular
      (counter-clockwise positive). */
  datatype ChassisSpeeds = ChassisSpeeds(vx: real, vy: real, omega: real)

  const Stationary := ChassisSpeeds(0.0, 0.0, 0.0)

  /** The four wheel speeds, in front-left, front-right, rear-left, rear-right
      order. The same shape also serves as a vector in wheel space. */
  datatype WheelSpeeds = WheelSpeeds(frontLeft: real, frontRight: real, rearLeft: real, rearRight: real)

  const Stopped := WheelSpeeds(0.0, 0.0, 0.0, 0.0)

  /** A mecanum drivetrain: the four wheel positions relative to the robot
      centre, fixed at construction. */
  datatype MecanumDriveKinematics = MecanumDriveKinematics(
    frontLeft: Translation2d,
    frontRight: Translation2d,
    rearLeft: Translation2d,
    rearRight: Translation2d)

  datatype KinematicsError = DegenerateWheelLayout

  // ---------------------------------------------------------------------
  // Wheel-space vector algebra

  function Dot(a: WheelSpeeds, b: WheelSpeeds): real {
    a.frontLeft * b.frontLeft + a.frontRight * b.frontRight
    + a.rearLeft * b.rearLeft + a.rearRight * b.rearRight
  }

  function Sub(a: WheelSpeeds, b: WheelSpeeds): WheelSpeeds {
    WheelSpeeds(a.frontLeft - b.frontLeft, a.frontRight - b.frontRight,
                a.rearLeft - b.rearLeft, a.rearRight - b.rearRight)
  }

  function Scale(a: WheelSpeeds, f: real): WheelSpeeds {
    WheelSpeeds(a.frontLeft * f, a.frontRight * f, a.rearLeft * f, a.rearRight * f)
  }

  function ScaleChassis(s: ChassisSpeeds, f: real): ChassisSpeeds {
    ChassisSpeeds(s.vx * f, s.vy * f, s.omega * f)
  }

  function SubChassis(s1: ChassisSpeeds, s2: ChassisSpeeds): ChassisSpeeds {
    ChassisSpeeds(s1.vx - s2.vx, s1.vy - s2.vy, s1.omega - s2.omega)
  }

  lemma DotSub(x: WheelSpeeds, a: WheelSpeeds, b: WheelSpeeds)
    ensures Dot(x, Sub(a, b)) == Dot(x, a) - Dot(x, b)
  {
  }

  lemma DotSymmetric(x: WheelSpeeds, y: WheelSpeeds)
    ensures Dot(x, y) == Dot(y, x)
  {
  }

  lemma NoDifferenceMeansEqual(a: WheelSpeeds, b: WheelSpeeds)
    requires Sub(a, b) == Stopped
    ensures a == b
  {
  }

  // ---------------------------------------------------------------------
  // Rigid-body reference

  /** Velocity of the body point at offset r from the centre of rotation. */
  function PointVelocity(s: ChassisSpeeds, r: Translation2d): Translation2d {
    Translation2d(s.vx - s.omega * r.y, s.vy + s.omega * r.x)
  }

  /** Speed a mecanum wheel must turn at for its contact point to move with
      velocity v: the rollers of the front-left and rear-right wheels cancel
      leftward motion (lateral sign -1), those of the front-right and
      rear-left wheels add it (lateral sign +1). */
  function RollerSpeed(v: Translation2d, lateralSign: real): real {
    v.x + lateralSign * v.y
  }

  // ---------------------------------------------------------------------
  // Inverse kinematics

  /** The moment arm of a wheel at offset p from the centre of rotation:
      -(x + y) for the front-left and rear-right wheels, x - y for the
      front-right and rear-left wheels. */
  function RotationArm(p: Translation2d, lateralSign: real): real {
    lateralSign * p.x - p.y
  }

  /** The column of the inverse-kinematics matrix that multiplies omega, for
      wheel offsets measured from centerOfRotation. */
  function RotationColumn(k: MecanumDriveKinematics, centerOfRotation: Translation2d): WheelSpeeds {
    WheelSpeeds(RotationArm(k.frontLeft.Minus(centerOfRotation), -1.0),
                RotationArm(k.frontRight.Minus(centerOfRotation), 1.0),
                RotationArm(k.rearLeft.Minus(centerOfRotation), 1.0),
                RotationArm(k.rearRight.Minus(centerOfRotation), -1.0))
  }

  /** The columns that multiply vx and vy. */
  const ForwardColumn := WheelSpeeds(1.0, 1.0, 1.0, 1.0)
  const StrafeColumn := WheelSpeeds(-1.0, 1.0, 1.0, -1.0)

  /** The inverse-kinematics matrix with rotation column a applied to s:
      row i is [1, lateral sign of wheel i, a_i]. */
  function Mix(a: WheelSpeeds, s: ChassisSpeeds): WheelSpeeds {
    WheelSpeeds(Row(a.frontLeft, -1.0, s), Row(a.frontRight, 1.0, s),
                Row(a.rearLeft, 1.0, s), Row(a.rearRight, -1.0, s))
  }

  /** One row of the inverse-kinematics matrix applied to s. */
  function Row(arm: real, lateralSign: real, s: ChassisSpeeds): real {
    s.vx + lateralSign * s.vy + arm * s.omega
  }

  /** Inverse kinematics: the wheel speeds that realise s when the robot
      rotates about centerOfRotation. */
  function ToWheelSpeeds(k: MecanumDriveKinematics, s: ChassisSpeeds, centerOfRotation: Translation2d): WheelSpeeds {
    Mix(RotationColumn(k, centerOfRotation), s)
  }

  /** Each wheel turns at the roller speed that matches the rigid-body
      velocity of its contact point. */
  lemma ToWheelSpeedsIsRigidMotion(k: MecanumDriveKinematics, s: ChassisSpeeds, centerOfRotation: Translation2d)
    ensures ToWheelSpeeds(k, s, centerOfRotation).frontLeft
         == RollerSpeed(PointVelocity(s, k.frontLeft.Minus(centerOfRotation)), -1.0)
    ensures ToWheelSpeeds(k, s, centerOfRotation).frontRight
         == RollerSpeed(PointVelocity(s, k.frontRight.Minus(centerOfRotation)), 1.0)
    ensures ToWheelSpeeds(k, s, centerOfRotation).rearLeft
         == RollerSpeed(PointVelocity(s, k.rearLeft.Minus(centerOfRotation)), 1.0)
    ensures ToWheelSpeeds(k, s, centerOfRotation).rearRight
         == RollerSpeed(PointVelocity(s, k.rearRight.Minus(centerOfRotation)), -1.0)
  {
    FrontLeftIsRollerSpeed(k, s, centerOfRotation);
    FrontRightIsRollerSpeed(k, s, centerOfRotation);
    RearLeftIsRollerSpeed(k, s, centerOfRotation);
    RearRightIsRollerSpeed(k, s, centerOfRotation);
  }

  lemma FrontLeftIsRollerSpeed(k: MecanumDriveKinematics, s: ChassisSpeeds, c: Translation2d)
    ensures ToWheelSpeeds(k, s, c).frontLeft == RollerSpeed(PointVelocity(s, k.frontLeft.Minus(c)), -1.0)
  {
    RowIsRollerSpeed(s.vx, s.vy, s.omega, k.frontLeft.Minus(c).x, k.frontLeft.Minus(c).y, -1.0);
  }

  lemma FrontRightIsRollerSpeed(k: MecanumDriveKinematics, s: ChassisSpeeds, c: Translation2d)
    ensures ToWheelSpeeds(k, s, c).frontRight == RollerSpeed(PointVelocity(s, k.frontRight.Minus(c)), 1.0)
  {
    RowIsRollerSpeed(s.vx, s.vy, s.omega, k.frontRight.Minus(c).x, k.frontRight.Minus(c).y, 1.0);
  }

  lemma RearLeftIsRollerSpeed(k: MecanumDriveKinematics, s: ChassisSpeeds, c: Translation2d)
    ensures ToWheelSpeeds(k, s, c).rearLeft == RollerSpeed(PointVelocity(s, k.rearLeft.Minus(c)), 1.0)
  {
    RowIsRollerSpeed(s.vx, s.vy, s.omega, k.rearLeft.Minus(c).x, k.rearLeft.Minus(c).y, 1.0);
  }

  lemma RearRightIsRollerSpeed(k: MecanumDriveKinematics, s: ChassisSpeeds, c: Translation2d)
    ensures ToWheelSpeeds(k, s, c).rearRight == RollerSpeed(PointVelocity(s, k.rearRight.Minus(c)), -1.0)
  {
    RowIsRollerSpeed(s.vx, s.vy, s.omega, k.rearRight.Minus(c).x, k.rearRight.Minus(c).y, -1.0);
  }

  /** One row of the inverse-kinematics matrix, for a wheel at offset
      (px, py) with lateral sign sigma, is the roller speed of the rigid-body
      velocity (vx - omega py, vy + omega px) of its contact point. */
  lemma RowIsRollerSpeed(vx: real, vy: real, omega: real, px: real, py: real, sigma: real)
    ensures vx + sigma * vy + (sigma * px - py) * omega == (vx - omega * py) + sigma * (vy + omega * px)
  {
  }

  /** The same motion described about the robot centre: rotating with omega
      about c is rotating with omega about the origin plus the translation
      -omega x c. */
  function AboutOrigin(s: ChassisSpeeds, centerOfRotation: Translation2d): ChassisSpeeds {
    ChassisSpeeds(s.vx + s.omega * centerOfRotation.y, s.vy - s.omega * centerOfRotation.x, s.omega)
  }

  /** Moving the centre of rotation changes only the rotational moment arm:
      the wheel speeds are those of the equivalent motion about the origin. */
  lemma CenterOfRotationShift(k: MecanumDriveKinematics, s: ChassisSpeeds, c: Translation2d)
    ensures ToWheelSpeeds(k, s, c) == ToWheelSpeeds(k, AboutOrigin(s, c), Origin)
  {
    var w := s.omega;
    ArmShift(k.frontLeft, c, -1.0, w);
    ArmShift(k.frontRight, c, 1.0, w);
    ArmShift(k.rearLeft, c, 1.0, w);
    ArmShift(k.rearRight, c, -1.0, w);
  }

  lemma ArmShift(p: Translation2d, c: Translation2d, lateralSign: real, w: real)
    requires lateralSign == 1.0 || lateralSign == -1.0
    ensures RotationArm(p.Minus(c), lateralSign) * w
         == w * c.y - lateralSign * (w * c.x) + RotationArm(p.Minus(Origin), lateralSign) * w
  {
    if lateralSign == 1.0 {
      assert ((p.x - c.x) - (p.y - c.y)) * w == w * c.y - w * c.x + (p.x - p.y) * w;
    } else {
      assert (-1.0 * (p.x - c.x) - (p.y - c.y)) * w == w * c.y + w * c.x + (-1.0 * p.x - p.y) * w;
    }
  }

  /** Without rotation the centre of rotation does not matter. */
  lemma TranslationIgnoresCenter(k: MecanumDriveKinematics, s: ChassisSpeeds, c: Translation2d)
    requires s.omega == 0.0
    ensures ToWheelSpeeds(k, s, c) == ToWheelSpeeds(k, s, Origin)
  {
  }

  /** The inverse map is linear in the chassis speeds. */
  lemma MixLinear(a: WheelSpeeds, s1: ChassisSpeeds, s2: ChassisSpeeds)
    ensures Sub(Mix(a, s1), Mix(a, s2)) == Mix(a, SubChassis(s1, s2))
  {
    RowLinear(a.frontLeft, -1.0, s1, s2);
    RowLinear(a.frontRight, 1.0, s1, s2);
    RowLinear(a.rearLeft, 1.0, s1, s2);
    RowLinear(a.rearRight, -1.0, s1, s2);
  }

  lemma RowLinear(arm: real, lateralSign: real, s1: ChassisSpeeds, s2: ChassisSpeeds)
    ensures Row(arm, lateralSign, s1) - Row(arm, lateralSign, s2) == Row(arm, lateralSign, SubChassis(s1, s2))
  {
    assert arm * (s1.omega - s2.omega) == arm * s1.omega - arm * s2.omega;
    assert lateralSign * (s1.vy - s2.vy) == lateralSign * s1.vy - lateralSign * s2.vy;
  }

  lemma MixScale(a: WheelSpeeds, s: ChassisSpeeds, f: real)
    ensures Mix(a, ScaleChassis(s, f)) == Scale(Mix(a, s), f)
  {
    MixScaleFrontLeft(a, s, f);
    MixScaleFrontRight(a, s, f);
    MixScaleRearLeft(a, s, f);
    MixScaleRearRight(a, s, f);
  }

  lemma MixScaleFrontLeft(a: WheelSpeeds, s: ChassisSpeeds, f: real)
    ensures Mix(a, ScaleChassis(s, f)).frontLeft == Scale(Mix(a, s), f).frontLeft
  {
    RowScale(a.frontLeft, -1.0, s, f);
  }

  lemma MixScaleFrontRight(a: WheelSpeeds, s: ChassisSpeeds, f: real)
    ensures Mix(a, ScaleChassis(s, f)).frontRight == Scale(Mix(a, s), f).frontRight
  {
    RowScale(a.frontRight, 1.0, s, f);
  }

  lemma MixScaleRearLeft(a: WheelSpeeds, s: ChassisSpeeds, f: real)
    ensures Mix(a, ScaleChassis(s, f)).rearLeft == Scale(Mix(a, s), f).rearLeft
  {
    RowScale(a.rearLeft, 1.0, s, f);
  }

  lemma MixScaleRearRight(a: WheelSpeeds, s: ChassisSpeeds, f: real)
    ensures Mix(a, ScaleChassis(s, f)).rearRight == Scale(Mix(a, s), f).rearRight
  {
    RowScale(a.rearRight, -1.0, s, f);
  }

  lemma RowScale(arm: real, lateralSign: real, s: ChassisSpeeds, f: real)
    ensures Row(arm, lateralSign, ScaleChassis(s, f)) == Row(arm, lateralSign, s) * f
  {
    assert arm * (s.omega * f) == (arm * s.omega) * f;
    assert lateralSign * (s.vy * f) == (lateralSign * s.vy) * f;
  }

  /** Dot products with the output of the inverse map expand column by
      column. */
  lemma DotMix(x: WheelSpeeds, a: WheelSpeeds, s: ChassisSpeeds)
    ensures Dot(x, Mix(a, s)) == s.vx * Dot(x, ForwardColumn) + s.vy * Dot(x, StrafeColumn) + s.omega * Dot(x, a)
  {
  }

  // ---------------------------------------------------------------------
  // Forward kinematics

  /** A quarter of the determinant of the Gram matrix M^T M of the
      inverse-kinematics matrix M with rotation column a. M^T M is
      [[4, 0, T], [0, 4, U], [T, U, V]] with T, U, V the dot products of a
      with the forward column, the strafe column and itself, so
      det(M^T M) = 4 (4 V - T^2 - U^2). */
  function GramDeterminant(a: WheelSpeeds): real {
    ReducedDeterminant(Dot(ForwardColumn, a), Dot(StrafeColumn, a), Dot(a, a))
  }

  /** d = 4 v - t^2 - u^2 for the Gram matrix [[4, 0, t], [0, 4, u], [t, u, v]]. */
  function ReducedDeterminant(t: real, u: real, v: real): real {
    4.0 * v - Square(t) - Square(u)
  }

  function LayoutDeterminant(k: MecanumDriveKinematics): real {
    GramDeterminant(RotationColumn(k, Origin))
  }

  /** The wheel layout gives the inverse-kinematics matrix full column rank,
      so its pseudo-inverse exists. */
  predicate NonDegenerate(k: MecanumDriveKinematics) {
    LayoutDeterminant(k) != 0.0
  }

  /** Construction refuses a degenerate wheel layout instead of producing a
      singular pseudo-inverse. */
  function Create(frontLeft: Translation2d, frontRight: Translation2d,
                  rearLeft: Translation2d, rearRight: Translation2d): (r: Result<MecanumDriveKinematics, KinematicsError>)
    ensures r.Success? ==> r.value == MecanumDriveKinematics(frontLeft, frontRight, rearLeft, rearRight)
    ensures r.Success? <==> NonDegenerate(MecanumDriveKinematics(frontLeft, frontRight, rearLeft, rearRight))
  {
    var k := MecanumDriveKinematics(frontLeft, frontRight, rearLeft, rearRight);
    if NonDegenerate(k) then Success(k) else Failure(DegenerateWheelLayout)
  }

  /** The normal equations M^T (w - M s) = 0: the residual of s is orthogonal
      to every column of M, which makes s a least-squares fit of w. */
  predicate IsFit(a: WheelSpeeds, w: WheelSpeeds, s: ChassisSpeeds) {
    OrthogonalToColumns(a, Sub(w, Mix(a, s)))
  }

  predicate OrthogonalToColumns(a: WheelSpeeds, e: WheelSpeeds) {
    && Dot(ForwardColumn, e) == 0.0
    && Dot(StrafeColumn, e) == 0.0
    && Dot(a, e) == 0.0
  }

  predicate IsLeastSquaresSolution(k: MecanumDriveKinematics, w: WheelSpeeds, s: ChassisSpeeds) {
    IsFit(RotationColumn(k, Origin), w, s)
  }

  /** x solves the Gram system [[4, 0, t], [0, 4, u], [t, u, v]] x = (p, q, r). */
  predicate GramEquations(t: real, u: real, v: real, p: real, q: real, r: real, x: ChassisSpeeds) {
    && 4.0 * x.vx + t * x.omega == p
    && 4.0 * x.vy + u * x.omega == q
    && t * x.vx + u * x.vy + v * x.omega == r
  }

  /** Solution of the Gram system by elimination of vx and vy, where
      d = 4 v - t^2 - u^2 is non-zero. */
  function SolveGramSystem(t: real, u: real, v: real, p: real, q: real, r: real): (x: ChassisSpeeds)
    requires ReducedDeterminant(t, u, v) != 0.0
    ensures GramEquations(t, u, v, p, q, r, x)
  {
    var d := ReducedDeterminant(t, u, v);
    var omega := (4.0 * r - t * p - u * q) / d;
    var x := ChassisSpeeds((p - t * omega) / 4.0, (q - u * omega) / 4.0, omega);
    assert d * omega == 4.0 * r - t * p - u * q;
    assert 4.0 * (t * x.vx) == t * p - t * t * omega;
    assert 4.0 * (u * x.vy) == u * q - u * u * omega;
    x
  }

  /** The Gram system has exactly one solution when d = 4 v - t^2 - u^2 is
      non-zero. */
  lemma GramSolutionUnique(t: real, u: real, v: real, p: real, q: real, r: real, x: ChassisSpeeds)
    requires ReducedDeterminant(t, u, v) != 0.0
    ensures GramEquations(t, u, v, p, q, r, x) <==> x == SolveGramSystem(t, u, v, p, q, r)
  {
    if GramEquations(t, u, v, p, q, r, x) {
      GramSystemInjective(t, u, v, p, q, r, x, SolveGramSystem(t, u, v, p, q, r));
    }
  }

  lemma GramSystemInjective(t: real, u: real, v: real, p: real, q: real, r: real, x1: ChassisSpeeds, x2: ChassisSpeeds)
    requires ReducedDeterminant(t, u, v) != 0.0
    requires GramEquations(t, u, v, p, q, r, x1) && GramEquations(t, u, v, p, q, r, x2)
    ensures x1 == x2
  {
    var dx, dy, dz := x1.vx - x2.vx, x1.vy - x2.vy, x1.omega - x2.omega;
    assert 4.0 * dx == -(t * dz);
    assert 4.0 * dy == -(u * dz);
    assert t * dx + u * dy + v * dz == 0.0;
    assert 4.0 * (t * dx) == -(t * t * dz);
    assert 4.0 * (u * dy) == -(u * u * dz);
    assert ReducedDeterminant(t, u, v) * dz == 0.0;
  }

  /** The normal equations of a, written with its Gram entries, make s a fit. */
  lemma FitFromGramEquations(a: WheelSpeeds, w: WheelSpeeds, s: ChassisSpeeds)
    requires GramEquations(Dot(ForwardColumn, a), Dot(StrafeColumn, a), Dot(a, a),
                           Dot(ForwardColumn, w), Dot(StrafeColumn, w), Dot(a, w), s)
    ensures IsFit(a, w, s)
  {
    var m := Mix(a, s);
    DotSub(ForwardColumn, w, m);
    DotSub(StrafeColumn, w, m);
    DotSub(a, w, m);
    DotMix(ForwardColumn, a, s);
    DotMix(StrafeColumn, a, s);
    DotMix(a, a, s);
    DotSymmetric(a, ForwardColumn);
    DotSymmetric(a, StrafeColumn);
  }

  /** A fit satisfies the normal equations written with the Gram entries. */
  lemma GramEquationsFromFit(a: WheelSpeeds, w: WheelSpeeds, s: ChassisSpeeds)
    requires IsFit(a, w, s)
    ensures GramEquations(Dot(ForwardColumn, a), Dot(StrafeColumn, a), Dot(a, a),
                          Dot(ForwardColumn, w), Dot(StrafeColumn, w), Dot(a, w), s)
  {
    var m := Mix(a, s);
    DotSub(ForwardColumn, w, m);
    DotSub(StrafeColumn, w, m);
    DotSub(a, w, m);
    DotMix(ForwardColumn, a, s);
    DotMix(StrafeColumn, a, s);
    DotMix(a, a, s);
    DotSymmetric(a, ForwardColumn);
    DotSymmetric(a, StrafeColumn);
  }

  /** The least-squares fit of w by the matrix with rotation column a. */
  function Fit(a: WheelSpeeds, w: WheelSpeeds): (s: ChassisSpeeds)
    requires GramDeterminant(a) != 0.0
    ensures IsFit(a, w, s)
  {
    var s := SolveGramSystem(Dot(ForwardColumn, a), Dot(StrafeColumn, a), Dot(a, a),
                             Dot(ForwardColumn, w), Dot(StrafeColumn, w), Dot(a, w));
    FitFromGramEquations(a, w, s);
    s
  }

  /** The least-squares fit is unique when the Gram determinant is non-zero. */
  lemma FitUnique(a: WheelSpeeds, w: WheelSpeeds, s1: ChassisSpeeds, s2: ChassisSpeeds)
    requires GramDeterminant(a) != 0.0
    requires IsFit(a, w, s1) && IsFit(a, w, s2)
    ensures s1 == s2
  {
    GramEquationsFromFit(a, w, s1);
    GramEquationsFromFit(a, w, s2);
    GramSystemInjective(Dot(ForwardColumn, a), Dot(StrafeColumn, a), Dot(a, a),
                        Dot(ForwardColumn, w), Dot(StrafeColumn, w), Dot(a, w), s1, s2);
  }

  /** Forward kinematics: the pseudo-inverse of the inverse-kinematics matrix
      about the robot centre applied to the wheel speeds, that is the solution
      of the normal equations M^T M s = M^T w. */
  function ToChassisSpeeds(k: MecanumDriveKinematics, w: WheelSpeeds): (s: ChassisSpeeds)
    requires NonDegenerate(k)
    ensures IsLeastSquaresSolution(k, w, s)
  {
    Fit(RotationColumn(k, Origin), w)
  }

  /** The least-squares solution is unique for a non-degenerate layout, so
      it is the one forward kinematics returns. */
  lemma LeastSquaresSolutionUnique(k: MecanumDriveKinematics, w: WheelSpeeds, s: ChassisSpeeds)
    requires NonDegenerate(k)
    ensures IsLeastSquaresSolution(k, w, s) <==> s == ToChassisSpeeds(k, w)
  {
    if IsLeastSquaresSolution(k, w, s) {
      FitUnique(RotationColumn(k, Origin), w, s, ToChassisSpeeds(k, w));
    }
  }

  /** Chassis speeds that reproduce the wheel speeds exactly leave no residual. */
  lemma ExactIsFit(a: WheelSpeeds, w: WheelSpeeds, s: ChassisSpeeds)
    requires Mix(a, s) == w
    ensures IsFit(a, w, s)
  {
    assert Sub(w, Mix(a, s)) == Stopped;
  }

  /** Wheel speeds that some chassis speeds reproduce exactly are mapped back
      to those chassis speeds. */
  lemma ToChassisSpeedsOfExactWheelSpeeds(k: MecanumDriveKinematics, w: WheelSpeeds, s: ChassisSpeeds)
    requires NonDegenerate(k)
    requires ToWheelSpeeds(k, s, Origin) == w
    ensures ToChassisSpeeds(k, w) == s
  {
    ExactIsFit(RotationColumn(k, Origin), w, s);
    LeastSquaresSolutionUnique(k, w, s);
  }

  /** Forward kinematics undoes inverse kinematics: wheel speeds produced for a
      rotation about any centre give back the same motion described about the
      robot centre. */
  lemma ToChassisSpeedsAfterToWheelSpeeds(k: MecanumDriveKinematics, s: ChassisSpeeds, centerOfRotation: Translation2d)
    requires NonDegenerate(k)
    ensures ToChassisSpeeds(k, ToWheelSpeeds(k, s, centerOfRotation)) == AboutOrigin(s, centerOfRotation)
  {
    CenterOfRotationShift(k, s, centerOfRotation);
    ToChassisSpeedsOfExactWheelSpeeds(k, ToWheelSpeeds(k, s, centerOfRotation), AboutOrigin(s, centerOfRotation));
  }

  /** About the robot centre the chassis speeds are recovered exactly. */
  lemma ToChassisSpeedsAfterToWheelSpeedsAboutCentre(k: MecanumDriveKinematics, s: ChassisSpeeds)
    requires NonDegenerate(k)
    ensures ToChassisSpeeds(k, ToWheelSpeeds(k, s, Origin)) == s
  {
    ToChassisSpeedsOfExactWheelSpeeds(k, ToWheelSpeeds(k, s, Origin), s);
  }

  // ---------------------------------------------------------------------
  // When forward kinematics is exact

  /** A wheel-space vector orthogonal to all three columns of the
      inverse-kinematics matrix whose rotation column is a. */
  function ComplementOf(a: WheelSpeeds): (n: WheelSpeeds)
    ensures Dot(n, ForwardColumn) == 0.0
    ensures Dot(n, StrafeColumn) == 0.0
    ensures Dot(n, a) == 0.0
  {
    WheelSpeeds(a.frontRight - a.rearLeft, a.rearRight - a.frontLeft,
                a.frontLeft - a.rearRight, a.rearLeft - a.frontRight)
  }

  /** Wheel speeds are consistent with some rigid motion exactly when they are
      orthogonal to this vector. For a layout symmetric about both axes it is
      proportional to (1, 1, -1, -1): the front wheels sum to the rear ones. */
  function ConsistencyVector(k: MecanumDriveKinematics): WheelSpeeds {
    ComplementOf(RotationColumn(k, Origin))
  }

  /** A rotation column with equal front-left and rear-right entries and equal
      front-right and rear-left entries has a zero Gram determinant. */
  lemma GramDeterminantWithoutComplement(a: WheelSpeeds)
    requires a.frontLeft == a.rearRight && a.frontRight == a.rearLeft
    ensures GramDeterminant(a) == 0.0
  {
    var a1, a2 := a.frontLeft, a.frontRight;
    assert Dot(ForwardColumn, a) == 2.0 * a1 + 2.0 * a2;
    assert Dot(StrafeColumn, a) == 2.0 * a2 - 2.0 * a1;
    assert Dot(a, a) == 2.0 * a1 * a1 + 2.0 * a2 * a2;
    assert (2.0 * a1 + 2.0 * a2) * (2.0 * a1 + 2.0 * a2) == 4.0 * a1 * a1 + 8.0 * a1 * a2 + 4.0 * a2 * a2;
    assert (2.0 * a2 - 2.0 * a1) * (2.0 * a2 - 2.0 * a1) == 4.0 * a1 * a1 - 8.0 * a1 * a2 + 4.0 * a2 * a2;
  }

  /** A vector orthogonal to the three columns and to their complement is zero,
      provided the complement is not itself zero. */
  lemma ResidualVanishes(a: WheelSpeeds, e: WheelSpeeds)
    requires a.frontLeft != a.rearRight || a.frontRight != a.rearLeft
    requires Dot(ForwardColumn, e) == 0.0
    requires Dot(StrafeColumn, e) == 0.0
    requires Dot(a, e) == 0.0
    requires Dot(ComplementOf(a), e) == 0.0
    ensures e == Stopped
  {
    var p, q := a.frontLeft - a.rearRight, a.frontRight - a.rearLeft;
    assert e.rearRight == -e.frontLeft && e.rearLeft == -e.frontRight;
    assert p * e.frontLeft + q * e.frontRight == 0.0;
    assert q * e.frontLeft - p * e.frontRight == 0.0;
    assert (p * p + q * q) * e.frontLeft == 0.0;
    assert (p * p + q * q) * e.frontRight == 0.0;
    PositiveSumOfTwoSquares(p, q);
  }

  lemma PositiveSumOfTwoSquares(p: real, q: real)
    requires p != 0.0 || q != 0.0
    ensures p * p + q * q > 0.0
  {
    assert p * p + q * q == Square(p) + Square(q);
    SquareSign(p);
    SquareSign(q);
  }

  /** The fit reproduces w exactly if and only if w is orthogonal to the
      complement of the columns. */
  lemma FitExactIffConsistent(a: WheelSpeeds, w: WheelSpeeds, s: ChassisSpeeds)
    requires GramDeterminant(a) != 0.0
    requires IsFit(a, w, s)
    ensures Mix(a, s) == w <==> Dot(ComplementOf(a), w) == 0.0
  {
    var n := ComplementOf(a);
    var m := Mix(a, s);
    DotMix(n, a, s);
    assert Dot(n, m) == 0.0;
    DotSub(n, w, m);
    if Dot(n, w) == 0.0 {
      if a.frontLeft == a.rearRight && a.frontRight == a.rearLeft {
        GramDeterminantWithoutComplement(a);
        assert false;
      }
      ResidualVanishes(a, Sub(w, m));
      NoDifferenceMeansEqual(w, m);
    }
  }

  /** Applying inverse kinematics to the result of forward kinematics gives
      the wheel speeds back exactly when they are consistent with a rigid
      motion; otherwise forward kinematics is only a least-squares fit. */
  lemma ToWheelSpeedsAfterToChassisSpeeds(k: MecanumDriveKinematics, w: WheelSpeeds)
    requires NonDegenerate(k)
    ensures ToWheelSpeeds(k, ToChassisSpeeds(k, w), Origin) == w <==> Dot(ConsistencyVector(k), w) == 0.0
  {
    FitExactIffConsistent(RotationColumn(k, Origin), w, ToChassisSpeeds(k, w));
  }

  // ---------------------------------------------------------------------
  // Least-squares optimality

  /** Sum of squared differences between the wheel speeds s would need and
      the measured wheel speeds w. */
  function SquaredError(k: MecanumDriveKinematics, w: WheelSpeeds, s: ChassisSpeeds): real {
    var e := Sub(ToWheelSpeeds(k, s, Origin), w);
    Dot(e, e)
  }

  lemma DotSelfNonNegative(x: WheelSpeeds)
    ensures Dot(x, x) >= 0.0
  {
    NormAsSquares(x);
    SquareSign(x.frontLeft);
    SquareSign(x.frontRight);
    SquareSign(x.rearLeft);
    SquareSign(x.rearRight);
  }

  lemma DotExpandDifference(d: WheelSpeeds, e: WheelSpeeds)
    ensures Dot(Sub(d, e), Sub(d, e)) == Dot(d, d) - 2.0 * Dot(d, e) + Dot(e, e)
  {
  }

  /** The residual of a fit is orthogonal to every output of the matrix. */
  lemma FitResidualOrthogonal(a: WheelSpeeds, w: WheelSpeeds, s: ChassisSpeeds, d: ChassisSpeeds)
    requires IsFit(a, w, s)
    ensures Dot(Mix(a, d), Sub(w, Mix(a, s))) == 0.0
  {
    var e := Sub(w, Mix(a, s));
    DotMix(e, a, d);
    DotSymmetric(e, ForwardColumn);
    DotSymmetric(e, StrafeColumn);
    DotSymmetric(e, a);
    DotSymmetric(e, Mix(a, d));
  }

  /** No chassis speeds fit w better than a least-squares fit. */
  lemma FitMinimizesError(a: WheelSpeeds, w: WheelSpeeds, s: ChassisSpeeds, c: ChassisSpeeds)
    requires IsFit(a, w, s)
    ensures Dot(Sub(Mix(a, s), w), Sub(Mix(a, s), w)) <= Dot(Sub(Mix(a, c), w), Sub(Mix(a, c), w))
  {
    var e := Sub(w, Mix(a, s));
    var d := Mix(a, SubChassis(c, s));
    MixLinear(a, c, s);
    assert Sub(Mix(a, c), w) == Sub(d, e);
    FitResidualOrthogonal(a, w, s, SubChassis(c, s));
    DotExpandDifference(d, e);
    DotSelfNonNegative(d);
    assert Sub(Mix(a, s), w) == Sub(Stopped, e);
    DotExpandDifference(Stopped, e);
  }

  /** No chassis speeds fit the wheel speeds better than forward kinematics. */
  lemma ToChassisSpeedsMinimizesError(k: MecanumDriveKinematics, w: WheelSpeeds, s: ChassisSpeeds)
    requires NonDegenerate(k)
    ensures SquaredError(k, w, ToChassisSpeeds(k, w)) <= SquaredError(k, w, s)
  {
    FitMinimizesError(RotationColumn(k, Origin), w, ToChassisSpeeds(k, w), s);
  }

  // ---------------------------------------------------------------------
  // Degenerate layouts

  /** Products and squares behind function symbols, so that sign facts about
      them combine linearly. */
  function Product(a: real, b: real): real {
    a * b
  }

  function Square(y: real): real {
    Product(y, y)
  }

  lemma ProductSign(a: real, b: real)
    ensures (a > 0.0 && b > 0.0) || (a < 0.0 && b < 0.0) ==> Product(a, b) > 0.0
  {
  }

  /** A square is never negative, and positive unless its root is zero. */
  lemma SquareSign(y: real)
    ensures Square(y) >= 0.0
    ensures y != 0.0 ==> Square(y) > 0.0
  {
    ProductSign(y, y);
  }

  lemma NormAsSquares(x: WheelSpeeds)
    ensures Dot(x, x) == Square(x.frontLeft) + Square(x.frontRight) + Square(x.rearLeft) + Square(x.rearRight)
  {
  }

  /** A non-zero vector has a positive squared length. */
  lemma PositiveNorm(x: WheelSpeeds)
    requires x != Stopped
    ensures Dot(x, x) > 0.0
  {
    NormAsSquares(x);
    SquareSign(x.frontLeft);
    SquareSign(x.frontRight);
    SquareSign(x.rearLeft);
    SquareSign(x.rearRight);
  }

  /** The chassis speeds whose image is the part of the rotation column
      outside the span of the forward and strafe columns. */
  function KernelCandidate(a: WheelSpeeds): ChassisSpeeds {
    ChassisSpeeds(-Dot(ForwardColumn, a) / 4.0, -Dot(StrafeColumn, a) / 4.0, 1.0)
  }

  /** The Gram determinant is four times the squared length of that part. */
  lemma GramDeterminantIsResidualNorm(a: WheelSpeeds)
    ensures GramDeterminant(a) == 4.0 * Dot(Mix(a, KernelCandidate(a)), Mix(a, KernelCandidate(a)))
  {
    var a1, a2, a3, a4 := a.frontLeft, a.frontRight, a.rearLeft, a.rearRight;
    var t, u := Dot(ForwardColumn, a), Dot(StrafeColumn, a);
    assert t == a1 + a2 + a3 + a4 && u == -a1 + a2 + a3 - a4;
    assert Mix(a, KernelCandidate(a)) == WheelSpeeds(a1 - t / 4.0 + u / 4.0, a2 - t / 4.0 - u / 4.0,
                                                     a3 - t / 4.0 - u / 4.0, a4 - t / 4.0 + u / 4.0);
    QuarterSquaresIdentity(a1, a2, a3, a4);
  }

  lemma QuarterSquaresIdentity(a1: real, a2: real, a3: real, a4: real)
    ensures
      var t, u := a1 + a2 + a3 + a4, -a1 + a2 + a3 - a4;
      var v := a1 * a1 + a2 * a2 + a3 * a3 + a4 * a4;
      var x1, x2, x3, x4 := a1 - t / 4.0 + u / 4.0, a2 - t / 4.0 - u / 4.0,
                            a3 - t / 4.0 - u / 4.0, a4 - t / 4.0 + u / 4.0;
      4.0 * v - t * t - u * u == 4.0 * (x1 * x1 + x2 * x2 + x3 * x3 + x4 * x4)
  {
  }

  /** A degenerate layout lets the robot turn with every wheel stopped. */
  function DegenerateLayoutKernel(k: MecanumDriveKinematics): (s: ChassisSpeeds)
    requires !NonDegenerate(k)
    ensures s.omega == 1.0
    ensures ToWheelSpeeds(k, s, Origin) == Stopped
  {
    var a := RotationColumn(k, Origin);
    GramDeterminantIsResidualNorm(a);
    if Mix(a, KernelCandidate(a)) != Stopped then
      PositiveNorm(Mix(a, KernelCandidate(a)));
      assert false;
      KernelCandidate(a)
    else
      KernelCandidate(a)
  }

  /** A layout is non-degenerate exactly when the inverse map is injective:
      only the stationary robot needs all wheels stopped. */
  lemma NonDegenerateIffInjective(k: MecanumDriveKinematics)
    ensures NonDegenerate(k) <==> forall s :: ToWheelSpeeds(k, s, Origin) == Stopped ==> s == Stationary
  {
    if NonDegenerate(k) {
      forall s | ToWheelSpeeds(k, s, Origin) == Stopped
        ensures s == Stationary
      {
        ToChassisSpeedsOfExactWheelSpeeds(k, Stopped, s);
        ToChassisSpeedsOfExactWheelSpeeds(k, Stopped, Stationary);
      }
    } else {
      var s := DegenerateLayoutKernel(k);
      assert ToWheelSpeeds(k, s, Origin) == Stopped && s != Stationary;
    }
  }

  // ---------------------------------------------------------------------
  // Scaling

  lemma SubScale(a: WheelSpeeds, b: WheelSpeeds, f: real)
    ensures Sub(Scale(a, f), Scale(b, f)) == Scale(Sub(a, b), f)
  {
    assert a.frontLeft * f - b.frontLeft * f == (a.frontLeft - b.frontLeft) * f;
    assert a.frontRight * f - b.frontRight * f == (a.frontRight - b.frontRight) * f;
    assert a.rearLeft * f - b.rearLeft * f == (a.rearLeft - b.rearLeft) * f;
    assert a.rearRight * f - b.rearRight * f == (a.rearRight - b.rearRight) * f;
  }

  lemma DotScale(x: WheelSpeeds, e: WheelSpeeds, f: real)
    ensures Dot(x, Scale(e, f)) == f * Dot(x, e)
  {
  }

  /** Scaling the wheel speeds scales their fit by the same factor. */
  lemma FitScale(a: WheelSpeeds, w: WheelSpeeds, s: ChassisSpeeds, f: real)
    requires IsFit(a, w, s)
    ensures IsFit(a, Scale(w, f), ScaleChassis(s, f))
  {
    ScaledResidual(a, w, s, f);
    OrthogonalScale(a, Sub(w, Mix(a, s)), f);
  }

  lemma OrthogonalScale(a: WheelSpeeds, e: WheelSpeeds, f: real)
    requires OrthogonalToColumns(a, e)
    ensures OrthogonalToColumns(a, Scale(e, f))
  {
    DotScale(ForwardColumn, e, f);
    DotScale(StrafeColumn, e, f);
    DotScale(a, e, f);
  }

  lemma ScaledResidual(a: WheelSpeeds, w: WheelSpeeds, s: ChassisSpeeds, f: real)
    ensures Sub(Scale(w, f), Mix(a, ScaleChassis(s, f))) == Scale(Sub(w, Mix(a, s)), f)
  {
    MixScale(a, s, f);
    SubScale(w, Mix(a, s), f);
  }

  /** Forward kinematics commutes with scaling every wheel speed by the same
      factor. */
  lemma ToChassisSpeedsScale(k: MecanumDriveKinematics, w: WheelSpeeds, f: real)
    requires NonDegenerate(k)
    ensures ToChassisSpeeds(k, Scale(w, f)) == ScaleChassis(ToChassisSpeeds(k, w), f)
  {
    FitScale(RotationColumn(k, Origin), w, ToChassisSpeeds(k, w), f);
    LeastSquaresSolutionUnique(k, Scale(w, f), ScaleChassis(ToChassisSpeeds(k, w), f));
  }
}
