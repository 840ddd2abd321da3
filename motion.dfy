/** The autonomous motion controller: arrival predicates, the error seen from the robot,
    and the mixing of three feedback-loop outputs into wheel-group commands. */
module Motion {
  import opened Geometry
  import opened Actuation

  /** Position tolerance of the arrival predicates, per axis. */
  const PositionTolerance: real := 50.0

  /** Heading tolerance when the heading alone is targeted (moveAngle). */
  const HeadingTolerance: real := 0.5

  /** Heading tolerance when position and heading are targeted together (move(x, y, a)). */
  const PoseHeadingTolerance: real := 2.0

  /** Both axis errors are strictly below the position tolerance. */
  function AtPosition(targetX: real, targetY: real, x: real, y: real): (r: bool)
    ensures r <==> (-50.0 < targetX - x < 50.0 && -50.0 < targetY - y < 50.0)
  {
    Abs(targetX - x) < PositionTolerance && Abs(targetY - y) < PositionTolerance
  }

  /** The heading error is strictly below `tolerance`. */
  function AtHeading(target: real, heading: real, tolerance: real): (r: bool)
    ensures r <==> (-tolerance < target - heading < tolerance)
  {
    Abs(target - heading) < tolerance
  }

  /** An error of exactly the tolerance, of either sign and on either axis, is not arrival. */
  lemma ArrivalBoundary(x: real, y: real, a: real)
    ensures !AtPosition(x + 50.0, y, x, y) && !AtPosition(x - 50.0, y, x, y)
    ensures !AtPosition(x, y + 50.0, x, y) && !AtPosition(x, y - 50.0, x, y)
    ensures AtPosition(x + 49.5, y - 49.5, x, y)
    ensures !AtHeading(a + 0.5, a, HeadingTolerance) && AtHeading(a + 1.5, a, PoseHeadingTolerance)
  {
  }

  /** The joint heading tolerance is the coarser one: arrival at a heading alone implies
      arrival in the joint sense, but not conversely. */
  lemma JointToleranceCoarser(target: real, heading: real)
    ensures AtHeading(target, heading, HeadingTolerance) ==> AtHeading(target, heading, PoseHeadingTolerance)
    ensures AtHeading(1.0, 0.0, PoseHeadingTolerance) && !AtHeading(1.0, 0.0, HeadingTolerance)
  {
  }

  /** angleToTarget: the field bearing from (x, y) to the target, in degrees. */
  function Bearing(targetX: real, targetY: real, x: real, y: real, m: MathLib): (deg: real)
    ensures ToRadians(deg) == m.atan2(targetY - y, targetX - x)
  {
    UnitRoundTrip(m.atan2(targetY - y, targetX - x));
    ToDegrees(m.atan2(targetY - y, targetX - x))
  }

  /** Math.pow(2) is squaring and Math.pow(1/2) the non-negative square root, for the
      arguments `dx`, `dy` at hand. */
  predicate PowSquaresAndRoots(m: MathLib, dx: real, dy: real)
  {
    && m.pow(dx, 2.0) == dx * dx
    && m.pow(dy, 2.0) == dy * dy
    && m.pow(dx * dx + dy * dy, 1.0 / 2.0) >= 0.0
    && m.pow(dx * dx + dy * dy, 1.0 / 2.0) * m.pow(dx * dx + dy * dy, 1.0 / 2.0) == dx * dx + dy * dy
  }

  /** The straight-line distance from (x, y) to the target. */
  function Distance(targetX: real, targetY: real, x: real, y: real, m: MathLib): real
  {
    m.pow(m.pow(targetX - x, 2.0) + m.pow(targetY - y, 2.0), 1.0 / 2.0)
  }

  /** Where pow squares and takes roots, Distance is the Euclidean distance. */
  lemma DistanceIsEuclidean(targetX: real, targetY: real, x: real, y: real, m: MathLib)
    requires PowSquaresAndRoots(m, targetX - x, targetY - y)
    ensures var dist := Distance(targetX, targetY, x, y, m);
      dist >= 0.0 && dist * dist == (targetX - x) * (targetX - x) + (targetY - y) * (targetY - y)
  {
  }

  /** The error vector in the robot's frame: the distance along the direction opposite to
      `referenceAngle` (robot-relative bearing, degrees). The first component feeds the
      x loop, the second the y loop. */
  function ControlError(referenceAngle: real, distance: real, m: MathLib): (e: (real, real))
    // at the target there is no error to correct
    ensures distance == 0.0 ==> e == (0.0, 0.0)
  {
    var t := ToRadians(referenceAngle + 180.0);
    (m.cos(t) * distance, m.sin(t) * distance)
  }

  /** The error vector is the distance resolved along a unit direction: its length is the
      distance. */
  lemma ErrorMagnitude(referenceAngle: real, distance: real, m: MathLib)
    requires PythagoreanAt(m, ToRadians(referenceAngle + 180.0))
    ensures var e := ControlError(referenceAngle, distance, m);
      e.0 * e.0 + e.1 * e.1 == distance * distance
  {
    var t := ToRadians(referenceAngle + 180.0);
    ScaledUnitVector(m.cos(t), m.sin(t), distance);
  }

  /** How each feedback loop answers in the current cycle: its output for a setpoint and a
      measured value. Gains, integral, derivative memory and clock are hidden inside. */
  datatype Loops = Loops(
    angle: (real, real) -> real,
    x: (real, real) -> real,
    y: (real, real) -> real)

  /** The commands built from the three loop outputs: the rotation term goes equally to
      both longitudinal groups, the y term differentially, the x term to the centre. */
  function Mix(anglePower: real, xPower: real, yPower: real): (c: Command)
    ensures c.left - c.right == 2.0 * yPower
    ensures c.left + c.right == 2.0 * anglePower
    ensures c.center == Some(xPower)
  {
    Command(anglePower + yPower, anglePower - yPower, Some(xPower))
  }

  /** The rotation and differential terms carried by a pair of longitudinal commands. */
  function Unmix(c: Command): (terms: (real, real))
  {
    ((c.left + c.right) / 2.0, (c.left - c.right) / 2.0)
  }

  /** Mix loses nothing: the terms can be read back from the commands, and every command
      that sets the centre group is a mix of exactly one triple. */
  lemma MixRoundTrip(anglePower: real, xPower: real, yPower: real, c: Command)
    ensures Unmix(Mix(anglePower, xPower, yPower)) == (anglePower, yPower)
    ensures c.center.Some? ==> Mix(Unmix(c).0, c.center.value, Unmix(c).1) == c
  {
  }

  /** Commands are not clamped: loop outputs within [-1, 1] can mix to a speed of 2. */
  lemma MixNotClamped()
    ensures Mix(1.0, 0.0, 1.0).left == 2.0 && Mix(-1.0, 0.0, 1.0).right == -2.0
  {
  }

  /** One cycle of the controller, from the pose after odometry toward the target pose. */
  function Controller(targetX: real, targetY: real, targetAngle: real, x: real, y: real, heading: real,
                      loops: Loops, m: MathLib): (c: Command)
    // the centre group is always commanded, and the heading loop alone sets the common part
    ensures c.center.Some?
    ensures c.left + c.right == -2.0 * loops.angle(targetAngle, heading)
  {
    var referenceAngle := Bearing(targetX, targetY, x, y, m) - heading;
    var e := ControlError(referenceAngle, Distance(targetX, targetY, x, y, m), m);
    Mix(-loops.angle(targetAngle, heading), loops.x(0.0, e.0), loops.y(0.0, e.1))
  }

  /** The controller's commands are the mix of the three loop outputs: the heading loop is
      asked about (targetAngle, heading) and drives the common part of the longitudinal
      commands; the y loop is asked about setpoint 0 and the second error component and
      drives their difference; the x loop, about 0 and the first component, drives the
      centre group. */
  lemma ControllerMixesLoops(targetX: real, targetY: real, targetAngle: real, x: real, y: real, heading: real,
                             loops: Loops, m: MathLib)
    ensures var e := ControlError(Bearing(targetX, targetY, x, y, m) - heading, Distance(targetX, targetY, x, y, m), m);
            var c := Controller(targetX, targetY, targetAngle, x, y, heading, loops, m);
      && c.left + c.right == -2.0 * loops.angle(targetAngle, heading)
      && c.left - c.right == 2.0 * loops.y(0.0, e.1)
      && c.center == Some(loops.x(0.0, e.0))
  {
  }

  /** Standing on the target position, both position loops are asked about zero error. */
  lemma OnTargetNoPositionError(targetX: real, targetY: real, targetAngle: real, heading: real,
                                loops: Loops, m: MathLib)
    requires m.pow(0.0, 2.0) == 0.0 && m.pow(0.0, 1.0 / 2.0) == 0.0
    ensures Controller(targetX, targetY, targetAngle, targetX, targetY, heading, loops, m)
            == Mix(-loops.angle(targetAngle, heading), loops.x(0.0, 0.0), loops.y(0.0, 0.0))
  {
    assert Distance(targetX, targetY, targetX, targetY, m) == 0.0;
  }

  /** Target (500, 0, 0) from pose (0, 0, 0): bearing 0, reference angle 0, error
      (500 cos 180, 500 sin 180) = (-500, 0). */
  lemma StraightAheadScenario(loops: Loops, m: MathLib)
    requires m.atan2(0.0, 500.0) == 0.0
    requires m.pow(500.0, 2.0) == 250000.0 && m.pow(0.0, 2.0) == 0.0
    requires m.pow(250000.0, 1.0 / 2.0) == 500.0
    requires m.cos(PI) == -1.0 && m.sin(PI) == 0.0
    ensures Bearing(500.0, 0.0, 0.0, 0.0, m) == 0.0
    ensures ControlError(Bearing(500.0, 0.0, 0.0, 0.0, m) - 0.0, Distance(500.0, 0.0, 0.0, 0.0, m), m)
            == (-500.0, 0.0)
    ensures Controller(500.0, 0.0, 0.0, 0.0, 0.0, 0.0, loops, m)
            == Mix(-loops.angle(0.0, 0.0), loops.x(0.0, -500.0), loops.y(0.0, 0.0))
  {
    UnitRoundTrip(0.0);
  }
}
