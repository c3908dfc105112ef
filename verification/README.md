# Trajectory flattening, stabilizability and mecanum kinematics in Dafny

This project models two small numeric cores of WPILib's math library and proves properties about them.

1. **WPIMathJNI** is the native side of the Java bindings.
   - `GetElementsFromTrajectory` flattens a trajectory into a flat array of doubles, seven per state. `CreateTrajectoryFromElements` reads the array back.
   - `check_stabilizable` decides whether a state-space pair (A, B) is stabilizable. It skips the eigenvalues of A strictly inside the unit circle and rank-tests `[lambda I - A | B]` for the others. It stops at the first one whose rank is not n.
2. **Mecanum drive kinematics**, as its test suite fixes it.
   - Inverse kinematics (`ToWheelSpeeds`) maps chassis speeds (vx, vy, omega) to four wheel speeds. The rotation can be about any centre.
   - Forward kinematics (`ToChassisSpeeds`) is the least-squares (pseudo-inverse) solution of the inverse map, taken about the robot centre.
   - `Normalize` scales the wheel speeds down to an attainable maximum.

Modules:

- `Wrappers`: the `Result` type.
- `TrajectoryElements`: the codec.
  - `StateElements` gives the seven numbers of one state. `Block(e, k)` is `e[7k .. 7k + 7]`.
  - Round trips are proved in both directions, and so is the field order.
  - Flattening is shown to commute with concatenation.
- `Stabilizability`: the decision loop.
  - The eigenvalues arrive as a sequence of `(re, im)` pairs. The rank decomposition is an oracle `Complex -> nat`.
  - The loop also returns the indices it rank-tested, so the short circuit can be stated.
- `MecanumKinematics`: the kinematics.
  - The inverse map is `Mix(a, s)`. Its matrix has rows `[1, lateral sign, a_i]`, where the rotation column `a` holds the moment arms `sigma x - y` of the wheel offsets from the centre of rotation.
  - Each row is proved to be the roller speed of the wheel's rigid-body contact-point velocity.
  - The forward map is the unique solution of the normal equations `M^T M s = M^T w`, solved in closed form by elimination.
  - The layout must make the Gram determinant non-zero. This is proved equivalent to the inverse map being injective.
- `WheelSpeedNormalization`: `Normalize` and its properties.
- `MecanumKinematicsExamples`: the test suite's drivetrain and each test's expected outcome.

## Model

| member | source | states |
|---|---|---|
| TrajectoryElements.GetElementsFromTrajectory | wpimath/src/main/native/cpp/jni/WPIMathJNI.cpp:47-63 | N states flatten to exactly 7·N numbers, and block k (elements 7k..7k+6) is the seven numbers of state k |
| TrajectoryElements.FlattenedFieldOrder | wpimath/src/main/native/cpp/jni/WPIMathJNI.cpp:52-60 | element 7k+j of the flat array is, for j = 0..6, the time, velocity, acceleration, x, y, heading and curvature of state k |
| TrajectoryElements.StateFromElements | wpimath/src/main/native/cpp/jni/WPIMathJNI.cpp:74-81 | the state rebuilt from seven numbers flattens back to those same seven numbers |
| TrajectoryElements.StateElementsInjective | wpimath/src/main/native/cpp/jni/WPIMathJNI.cpp:53-59 | two states have the same seven numbers if and only if they are equal |
| TrajectoryElements.CreateTrajectoryFromElements | wpimath/src/main/native/cpp/jni/WPIMathJNI.cpp:65-85 | succeeds exactly when the length is a multiple of 7, otherwise reports the length; on success holds length/7 states, state k built from block k |
| TrajectoryElements.UnflattenedFieldOrder | wpimath/src/main/native/cpp/jni/WPIMathJNI.cpp:73-81 | state k is read from elements 7k..7k+6 as time, velocity, acceleration, pose (x, y, heading), curvature |
| TrajectoryElements.BlocksDetermineElements | wpimath/src/main/native/cpp/jni/WPIMathJNI.cpp:73 | stepping through an array of 7·n numbers seven at a time visits every element: equal blocks mean equal arrays |
| TrajectoryElements.CreateAfterGetElements | wpimath/src/main/native/cpp/jni/WPIMathJNI.cpp:47-85 | unflattening a flattened trajectory succeeds and gives the same trajectory |
| TrajectoryElements.GetElementsAfterCreate | wpimath/src/main/native/cpp/jni/WPIMathJNI.cpp:47-85 | flattening an unflattened array of length 7·n gives the same array |
| TrajectoryElements.GetElementsOfConcatenation | wpimath/src/main/native/cpp/jni/WPIMathJNI.cpp:52-60 | the flat form of two state sequences joined is the two flat forms joined |
| Stabilizability.CheckStabilizable | wpimath/src/main/native/cpp/jni/WPIMathJNI.cpp:21-45 | returns true iff every eigenvalue with re²+im² ≥ 1 has full rank n; on false, the last rank test performed failed, every earlier test passed, and the eigenvalues tested are exactly the unskipped ones up to it, in index order |
| Stabilizability.RankTestedIndices | wpimath/src/main/native/cpp/jni/WPIMathJNI.cpp:29-34 | the indices below hi that are tested are exactly those whose eigenvalue is not strictly inside the unit circle |
| Stabilizability.RankTestedIndicesIncrease | wpimath/src/main/native/cpp/jni/WPIMathJNI.cpp:29 | rank tests happen in strictly increasing index order, each eigenvalue at most once |
| Stabilizability.UnitCircleEigenvalueIsTested | wpimath/src/main/native/cpp/jni/WPIMathJNI.cpp:30-33 | an eigenvalue of magnitude exactly 1 is rank-tested: the skip test is strict |
| Stabilizability.StableMatrixIsStabilizable | wpimath/src/main/native/cpp/jni/WPIMathJNI.cpp:29-44 | when every eigenvalue lies strictly inside the unit circle, no rank test is made and the pair is stabilizable |
| Stabilizability.UncontrollableUnstableModeIsNotStabilizable | wpimath/src/main/native/cpp/jni/WPIMathJNI.cpp:36-41 | one eigenvalue on or outside the unit circle with rank below n makes the pair unstabilizable, whatever the other eigenvalues |
| MecanumKinematics.ToWheelSpeedsIsRigidMotion | wpimath/src/test/native/cpp/kinematics/MecanumDriveKinematicsTest.cpp:83-91 | each wheel speed is the roller speed (x ∓ y component) of the rigid-body velocity of that wheel's contact point, for any centre of rotation |
| MecanumKinematics.CenterOfRotationShift | wpimath/src/test/native/cpp/kinematics/MecanumDriveKinematicsTest.cpp:124-133 | rotating about centre c gives the wheel speeds of the same motion described about the robot centre, (vx + ω c.y, vy − ω c.x, ω) |
| MecanumKinematics.TranslationIgnoresCenter | wpimath/src/test/native/cpp/kinematics/MecanumDriveKinematicsTest.cpp:124-133 | without rotation the centre of rotation does not change the wheel speeds |
| MecanumKinematics.MixLinear | wpimath/src/test/native/cpp/kinematics/MecanumDriveKinematicsTest.cpp:83-91 | the inverse map is linear: the difference of two images is the image of the difference |
| MecanumKinematics.Create | wpimath/src/test/native/cpp/kinematics/MecanumDriveKinematicsTest.cpp:14-21 | construction succeeds exactly for a non-degenerate wheel layout and then keeps the four wheel positions |
| MecanumKinematics.NonDegenerateIffInjective | wpimath/src/test/native/cpp/kinematics/MecanumDriveKinematicsTest.cpp:14-21 | a layout is accepted if and only if only the stationary robot needs all four wheels stopped |
| MecanumKinematics.DegenerateLayoutKernel | wpimath/src/test/native/cpp/kinematics/MecanumDriveKinematicsTest.cpp:14-21 | a refused layout admits a turning motion (ω = 1) with every wheel stopped |
| MecanumKinematics.ToChassisSpeeds | wpimath/src/test/native/cpp/kinematics/MecanumDriveKinematicsTest.cpp:34-41 | the result satisfies the normal equations: its wheel-speed residual is orthogonal to all three columns of the inverse-kinematics matrix |
| MecanumKinematics.LeastSquaresSolutionUnique | wpimath/src/test/native/cpp/kinematics/MecanumDriveKinematicsTest.cpp:93-102 | chassis speeds solve the normal equations if and only if they are the forward-kinematics result |
| MecanumKinematics.GramSolutionUnique | wpimath/src/test/native/cpp/kinematics/MecanumDriveKinematicsTest.cpp:34-41 | with a non-zero determinant, the closed-form elimination is the one and only solution of the 3×3 Gram system |
| MecanumKinematics.ToChassisSpeedsMinimizesError | wpimath/src/test/native/cpp/kinematics/MecanumDriveKinematicsTest.cpp:93-102 | no chassis speeds reproduce the wheel speeds with a smaller sum of squared errors than the forward-kinematics result |
| MecanumKinematics.ToChassisSpeedsAfterToWheelSpeedsAboutCentre | wpimath/src/test/native/cpp/kinematics/MecanumDriveKinematicsTest.cpp:62-81 | forward kinematics recovers exactly the chassis speeds that inverse kinematics about the robot centre was given |
| MecanumKinematics.ToChassisSpeedsAfterToWheelSpeeds | wpimath/src/test/native/cpp/kinematics/MecanumDriveKinematicsTest.cpp:104-122 | wheel speeds for a rotation about any centre come back as the same motion described about the robot centre |
| MecanumKinematics.ToChassisSpeedsOfExactWheelSpeeds | wpimath/src/test/native/cpp/kinematics/MecanumDriveKinematicsTest.cpp:53-60 | wheel speeds that some chassis speeds produce exactly are mapped back to those chassis speeds |
| MecanumKinematics.ToWheelSpeedsAfterToChassisSpeeds | wpimath/src/test/native/cpp/kinematics/MecanumDriveKinematicsTest.cpp:93-102 | inverse after forward kinematics returns the wheel speeds if and only if they are orthogonal to the layout's consistency vector, i.e. some rigid motion produces them |
| MecanumKinematics.FitExactIffConsistent | wpimath/src/test/native/cpp/kinematics/MecanumDriveKinematicsTest.cpp:93-102 | for any rotation column with non-zero Gram determinant, a least-squares fit is exact if and only if the wheel speeds are orthogonal to the complement of the columns |
| MecanumKinematics.ComplementOf | wpimath/src/test/native/cpp/kinematics/MecanumDriveKinematicsTest.cpp:93-102 | the complement vector is orthogonal to the forward, strafe and rotation columns |
| MecanumKinematics.ToChassisSpeedsScale | wpimath/src/test/native/cpp/kinematics/MecanumDriveKinematicsTest.cpp:114-122 | scaling every wheel speed by f scales the forward-kinematics result by f |
| WheelSpeedNormalization.Normalize | wpimath/src/test/native/cpp/kinematics/MecanumDriveKinematicsTest.cpp:146-156 | when the fastest wheel exceeds the limit: every pairwise wheel ratio is kept, the largest magnitude becomes exactly the limit, no wheel speeds up, directions are kept for a positive limit and all wheels stop for a zero limit |
| WheelSpeedNormalization.NormalizePreservesMotion | wpimath/src/test/native/cpp/kinematics/MecanumDriveKinematicsTest.cpp:146-156 | the normalised wheel speeds drive the same motion slowed by limit / largest magnitude |
| WheelSpeedNormalization.MaxAbsScale | wpimath/src/test/native/cpp/kinematics/MecanumDriveKinematicsTest.cpp:150-155 | scaling by f ≥ 0 scales the largest wheel magnitude by f |
| MecanumKinematicsExamples.TestDriveIsCreated | wpimath/src/test/native/cpp/kinematics/MecanumDriveKinematicsTest.cpp:14-21 | the (±12, ±12) layout is accepted |
| MecanumKinematicsExamples.SquareLayoutForwardKinematics | wpimath/src/test/native/cpp/kinematics/MecanumDriveKinematicsTest.cpp:34-41 | for the (±12, ±12) layout, forward kinematics is (ΣW/4, (−FL+FR+RL−RR)/4, (−FL+FR−RL+RR)/96) |
| MecanumKinematicsExamples.StraightLineInverseKinematics | wpimath/src/test/native/cpp/kinematics/MecanumDriveKinematicsTest.cpp:24-32 | (5, 0, 0) gives all four wheels 5 |
| MecanumKinematicsExamples.StraightLineForwardKinematics | wpimath/src/test/native/cpp/kinematics/MecanumDriveKinematicsTest.cpp:34-41 | (5, 5, 5, 5) gives exactly (5, 0, 0) |
| MecanumKinematicsExamples.StrafeInverseKinematics | wpimath/src/test/native/cpp/kinematics/MecanumDriveKinematicsTest.cpp:43-51 | (0, 4, 0) gives (−4, 4, 4, −4) |
| MecanumKinematicsExamples.StrafeForwardKinematics | wpimath/src/test/native/cpp/kinematics/MecanumDriveKinematicsTest.cpp:53-60 | (−5, 5, 5, −5) gives exactly (0, 5, 0) |
| MecanumKinematicsExamples.RotationInverseKinematics | wpimath/src/test/native/cpp/kinematics/MecanumDriveKinematicsTest.cpp:62-71 | (0, 0, 2π) gives (−48π, 48π, −48π, 48π), within 0.1 of ±150.79644737 |
| MecanumKinematicsExamples.RotationForwardKinematics | wpimath/src/test/native/cpp/kinematics/MecanumDriveKinematicsTest.cpp:73-81 | the test's wheel speeds give vx = vy = 0 and ω = 603.18578948/96 exactly |
| MecanumKinematicsExamples.RotationForwardTolerance | wpimath/src/test/native/cpp/kinematics/MecanumDriveKinematicsTest.cpp:78-80 | those chassis speeds are within 0.1 of (0, 0, 2π) |
| MecanumKinematicsExamples.MixedRotationTranslationInverseKinematics | wpimath/src/test/native/cpp/kinematics/MecanumDriveKinematicsTest.cpp:83-91 | (2, 3, 1) gives exactly (−25, 29, −19, 23) |
| MecanumKinematicsExamples.MixedRotationTranslationForwardKinematics | wpimath/src/test/native/cpp/kinematics/MecanumDriveKinematicsTest.cpp:93-97 | the test's wheel speeds give exactly (1.41335675, 2.12219175, 67.878767/96) |
| MecanumKinematicsExamples.MixedRotationTranslationForwardTolerance | wpimath/src/test/native/cpp/kinematics/MecanumDriveKinematicsTest.cpp:99-101 | those chassis speeds are within 0.1 of (1.41335, 2.1221, 0.707) |
| MecanumKinematicsExamples.OffCenterRotationInverseKinematics | wpimath/src/test/native/cpp/kinematics/MecanumDriveKinematicsTest.cpp:104-112 | (0, 0, 1) about the front-left wheel gives (0, 24, −24, 48) |
| MecanumKinematicsExamples.OffCenterRotationForwardKinematics | wpimath/src/test/native/cpp/kinematics/MecanumDriveKinematicsTest.cpp:114-117 | the test's wheel speeds give exactly (8.48525, −8.48525, 67.883/96) |
| MecanumKinematicsExamples.OffCenterRotationForwardTolerance | wpimath/src/test/native/cpp/kinematics/MecanumDriveKinematicsTest.cpp:119-121 | those chassis speeds are within 0.1 of (8.48525, −8.48525, 0.707) |
| MecanumKinematicsExamples.OffCenterTranslationRotationInverseKinematics | wpimath/src/test/native/cpp/kinematics/MecanumDriveKinematicsTest.cpp:124-133 | (5, 2, 1) about the front-left wheel gives exactly (3, 31, −17, 51) |
| MecanumKinematicsExamples.OffCenterTranslationRotationForwardKinematics | wpimath/src/test/native/cpp/kinematics/MecanumDriveKinematicsTest.cpp:135-139 | the test's wheel speeds give exactly (12.02, −7.07, 67.88/96) |
| MecanumKinematicsExamples.OffCenterTranslationRotationForwardTolerance | wpimath/src/test/native/cpp/kinematics/MecanumDriveKinematicsTest.cpp:141-143 | those chassis speeds are within 0.1 of (12.02, −7.07, 0.707) |
| MecanumKinematicsExamples.NormalizeExample | wpimath/src/test/native/cpp/kinematics/MecanumDriveKinematicsTest.cpp:146-156 | (5, 6, 4, 7) normalised to 5.5 is each speed times 5.5/7 |

## Left out

- JNI marshalling is not modelled. This covers the array region copies, the exception mapping and the Java entry points. They are language-boundary plumbing.
- The discrete algebraic Riccati solver, the matrix exponential and the matrix power are not modelled. They are foreign floating-point numerics.
- The Eigen eigen-solver and the column-pivoting QR rank are not modelled. They enter `Stabilizability.CheckStabilizable` as inputs: the eigenvalues in solver order and a rank oracle. Whether the oracle's rank is numerically right is outside the model.
- Pathweaver JSON reading and writing and trajectory (de)serialisation are not modelled. They are file I/O through a JSON library.
- Rotation normalisation through cos/sin/atan2 is not modelled. A pose's heading is a plain real, taken as already normalised.
- TrajectoryElements.CreateTrajectoryFromElements: the source only guards the length with a debug-build `assert`; in a release build a length that is not a multiple of 7 would read past the end of the array. The model returns a `Failure` carrying the length instead.
- The mecanum kinematics implementation file is not part of this model. The inverse map is the mixing rule that the exact test vectors pin down: (2, 3, 1) gives (−25, 29, −19, 23), and rotation about the front-left wheel gives (0, 24, −24, 48). The forward map is modelled as the pseudo-inverse of that matrix about the robot centre, the least-squares solution. The forward test vectors are proved consistent with it in `MecanumKinematicsExamples`.
- Floating point is modelled as exact reals. π is the double closest to it, 3.141592653589793.
- The forward tests only bound the error by 0.1. Each forward test is therefore stated twice: once as the exact real result of forward kinematics, and once as a tolerance lemma showing that the exact result lies within 0.1 of the expected values.
- WheelSpeedNormalization.Normalize: only the case where the fastest wheel exceeds the attainable maximum is modelled (the precondition `0 <= attainableMaxSpeed < MaxAbs(w)`). The test exercises only that case, and the implementation of the other case is not part of this model. A negative limit is excluded for the same reason.
- Wheel speeds and chassis speeds carry no units. Metres, metres per second and radians per second are implied.
- The remaining repository files are not modelled. These are the simulator device registry, the dashboard field interface and the PWM motor-controller wrappers, none of which belongs to the two cores above.
