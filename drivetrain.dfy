/** The drivetrain facade: goal setters with arrival predicates, the absolute position fix,
    the autonomous per-cycle update (heading unwrap, odometry, controller) and the teleop
    update. The state is a class whose fields the operations update in place; DriveState is
    its value, and Update / Fix say what one call does to that value. */
module Drivetrain {
  import opened Geometry
  import opened Actuation
  import opened Heading
  import opened Odometry
  import opened Motion
  import opened Teleop

  /** The hardware readings of one autonomous cycle: the IMU's yaw (degrees, in the
      sensor's range) and the positions of the left, right and centre wheel groups. */
  datatype Readings = Readings(imuAngle: real, leftPos: real, rightPos: real, centerPos: real)

  /** Every field of the drivetrain that its operations read or write. */
  datatype DriveState = DriveState(
    xPosition: real, yPosition: real, angle: real,
    targetX: real, targetY: real, targetAngle: real,
    imuAngleAcum: real, lastIMUAngle: real,
    lastEncoderX: real, lastEncoderY: real,
    needManualOdometry: bool, init: bool,
    netPowerLeft: real, netPowerRight: real, netPowerCenter: real)

  /** The field initialisers: everything zero, odometry armed, IMU set-up pending. */
  const Initial: DriveState :=
    DriveState(0.0, 0.0, 0.0, 0.0, 0.0, 0.0, 0.0, 0.0, 0.0, 0.0, true, true, 0.0, 0.0, 0.0)

  /** setPosition: the pose and the heading accumulator take the given values and the next
      odometry integration is suppressed. */
  function Fix(s: DriveState, x: real, y: real, a: real): DriveState
  {
    s.(xPosition := x, yPosition := y, angle := a, imuAngleAcum := a, needManualOdometry := false)
  }

  /** The first part of autonomousUpdate: the IMU set-up is marked done and the heading
      accumulator takes this cycle's increment. */
  function UnwrapStage(s: DriveState, r: Readings): DriveState
  {
    s.(init := false,
       imuAngleAcum := s.imuAngleAcum + Increment(r.imuAngle, s.lastIMUAngle),
       lastIMUAngle := r.imuAngle)
  }

  /** The odometry part: only when armed, the heading is taken from the accumulator and
      the position integrated from the encoder change since the snapshot. */
  function OdometryStage(s: DriveState, r: Readings, m: MathLib): DriveState
  {
    if s.needManualOdometry then
      var p := Integrate(s.xPosition, s.yPosition, s.imuAngleAcum, s.lastEncoderX, s.lastEncoderY,
                         r.centerPos, r.leftPos, r.rightPos, m);
      s.(angle := s.imuAngleAcum, xPosition := p.0, yPosition := p.1)
    else s
  }

  /** The controller part: the three accumulated commands. */
  function ControlStage(s: DriveState, loops: Loops, m: MathLib): DriveState
  {
    var c := Controller(s.targetX, s.targetY, s.targetAngle, s.xPosition, s.yPosition, s.angle, loops, m);
    s.(netPowerLeft := c.left, netPowerRight := c.right, netPowerCenter := c.center.value)
  }

  /** The controller part, written out as the three loop outputs and their sums. */
  lemma ControlStageMixes(s: DriveState, loops: Loops, m: MathLib)
    ensures var e := ControlError(Bearing(s.targetX, s.targetY, s.xPosition, s.yPosition, m) - s.angle,
                                  Distance(s.targetX, s.targetY, s.xPosition, s.yPosition, m), m);
            var a := -loops.angle(s.targetAngle, s.angle);
            var x := loops.x(0.0, e.0);
            var y := loops.y(0.0, e.1);
      ControlStage(s, loops, m) == s.(netPowerLeft := a + y, netPowerRight := a - y, netPowerCenter := x)
  {
    ControllerMixesLoops(s.targetX, s.targetY, s.targetAngle, s.xPosition, s.yPosition, s.angle, loops, m);
  }

  /** The last part: odometry re-armed and the encoder snapshot refreshed. */
  function RefreshStage(s: DriveState, r: Readings): DriveState
  {
    s.(needManualOdometry := true,
       lastEncoderY := ForwardTicks(r.leftPos, r.rightPos),
       lastEncoderX := r.centerPos)
  }

  /** One autonomousUpdate. */
  function Update(s: DriveState, r: Readings, m: MathLib, loops: Loops): DriveState
  {
    RefreshStage(ControlStage(OdometryStage(UnwrapStage(s, r), r, m), loops, m), r)
  }

  /** setPosition changes the pose, the accumulator and the flag, and nothing else. */
  lemma FixChangesOnlyPose(s: DriveState, x: real, y: real, a: real)
    ensures var t := Fix(s, x, y, a);
      && (t.xPosition, t.yPosition, t.angle, t.imuAngleAcum) == (x, y, a, a)
      && !t.needManualOdometry
      && (t.targetX, t.targetY, t.targetAngle) == (s.targetX, s.targetY, s.targetAngle)
      && (t.lastIMUAngle, t.lastEncoderX, t.lastEncoderY) == (s.lastIMUAngle, s.lastEncoderX, s.lastEncoderY)
      && (t.init, t.netPowerLeft, t.netPowerRight, t.netPowerCenter)
         == (s.init, s.netPowerLeft, s.netPowerRight, s.netPowerCenter)
  {
  }

  /** Whatever the flag on entry, an update re-arms odometry, marks the IMU set up, records
      this cycle's readings as the new baseline, and leaves the targets alone. */
  lemma UpdateRefreshesSnapshot(s: DriveState, r: Readings, m: MathLib, loops: Loops)
    ensures var t := Update(s, r, m, loops);
      && t.needManualOdometry && !t.init
      && t.lastIMUAngle == r.imuAngle
      && t.lastEncoderX == r.centerPos
      && t.lastEncoderY == (r.leftPos - r.rightPos) / 2.0
      && t.imuAngleAcum == s.imuAngleAcum + Increment(r.imuAngle, s.lastIMUAngle)
      && (t.targetX, t.targetY, t.targetAngle) == (s.targetX, s.targetY, s.targetAngle)
  {
  }

  /** A suppressed update keeps the pose; an armed one takes the heading from the
      accumulator and moves the position by the encoder change since the snapshot. */
  lemma UpdateOdometry(s: DriveState, r: Readings, m: MathLib, loops: Loops)
    ensures var t := Update(s, r, m, loops);
      && (!s.needManualOdometry ==> (t.xPosition, t.yPosition, t.angle) == (s.xPosition, s.yPosition, s.angle))
      && (s.needManualOdometry ==>
            && t.angle == t.imuAngleAcum
            && (t.xPosition, t.yPosition)
               == Integrate(s.xPosition, s.yPosition, t.angle, s.lastEncoderX, s.lastEncoderY,
                            r.centerPos, r.leftPos, r.rightPos, m))
  {
  }

  /** The commands of an update are the controller's, driven from the pose after odometry
      toward the unchanged target; in particular left - right is twice the y loop's output
      and left + right twice the negated heading loop's output. */
  lemma UpdateCommands(s: DriveState, r: Readings, m: MathLib, loops: Loops)
    ensures var t := Update(s, r, m, loops);
      && Command(t.netPowerLeft, t.netPowerRight, Some(t.netPowerCenter))
         == Controller(s.targetX, s.targetY, s.targetAngle, t.xPosition, t.yPosition, t.angle, loops, m)
      && t.netPowerLeft + t.netPowerRight == -2.0 * loops.angle(s.targetAngle, t.angle)
  {
  }

  /** After setPosition, exactly one update is suppressed: it keeps the fixed pose whatever
      the encoders did, and the next one integrates from the readings of the suppressed
      cycle, not from the snapshot taken before the fix. */
  lemma FixLastsOneCycle(s: DriveState, x: real, y: real, a: real,
                         r1: Readings, r2: Readings, m: MathLib, l1: Loops, l2: Loops)
    ensures var t1 := Update(Fix(s, x, y, a), r1, m, l1);
            var t2 := Update(t1, r2, m, l2);
      && (t1.xPosition, t1.yPosition, t1.angle) == (x, y, a)
      && t1.imuAngleAcum == a + Increment(r1.imuAngle, s.lastIMUAngle)
      && t2.angle == t2.imuAngleAcum == t1.imuAngleAcum + Increment(r2.imuAngle, r1.imuAngle)
      && (t2.xPosition, t2.yPosition)
         == Integrate(x, y, t2.angle, r1.centerPos, ForwardTicks(r1.leftPos, r1.rightPos),
                      r2.centerPos, r2.leftPos, r2.rightPos, m)
      && (r2.centerPos == r1.centerPos && ForwardTicks(r2.leftPos, r2.rightPos) == ForwardTicks(r1.leftPos, r1.rightPos)
          ==> (t2.xPosition, t2.yPosition) == (x, y))
  {
  }

  /** One autonomous cycle's inputs. */
  datatype Cycle = Cycle(readings: Readings, loops: Loops)

  /** The state after running the given cycles in order. */
  function Run(s: DriveState, cycles: seq<Cycle>, m: MathLib): DriveState
    decreases |cycles|
  {
    if cycles == [] then s
    else Run(Update(s, cycles[0].readings, m, cycles[0].loops), cycles[1..], m)
  }

  /** The IMU readings of a run, in order. */
  function ImuReadings(cycles: seq<Cycle>): (ws: seq<real>)
    ensures |ws| == |cycles|
    ensures forall i :: 0 <= i < |cycles| ==> ws[i] == cycles[i].readings.imuAngle
  {
    if cycles == [] then [] else [cycles[0].readings.imuAngle] + ImuReadings(cycles[1..])
  }

  /** Over a run, the targets stay put; after at least one cycle odometry is armed and the
      IMU set up; after an armed cycle the pose heading is the accumulated heading. */
  lemma {:induction false} RunKeepsTracking(s: DriveState, cycles: seq<Cycle>, m: MathLib)
    ensures var t := Run(s, cycles, m);
      && (t.targetX, t.targetY, t.targetAngle) == (s.targetX, s.targetY, s.targetAngle)
      && (|cycles| >= 1 ==> t.needManualOdometry && !t.init)
      && ((|cycles| >= 2 || (|cycles| == 1 && s.needManualOdometry)) ==> t.angle == t.imuAngleAcum)
    decreases |cycles|
  {
    if cycles != [] {
      RunKeepsTracking(Update(s, cycles[0].readings, m, cycles[0].loops), cycles[1..], m);
    }
  }

  /** Over a run, the accumulator follows the unwrap rule reading by reading, whatever the
      flag does. */
  lemma {:induction false} RunAccumulates(s: DriveState, cycles: seq<Cycle>, m: MathLib)
    ensures Run(s, cycles, m).imuAngleAcum == Accumulate(s.imuAngleAcum, s.lastIMUAngle, ImuReadings(cycles))
    decreases |cycles|
  {
    if cycles != [] {
      var r := cycles[0].readings;
      var t := Update(s, r, m, cycles[0].loops);
      UpdateRefreshesSnapshot(s, r, m, cycles[0].loops);
      var ws := ImuReadings(cycles);
      assert ws[0] == r.imuAngle && ws[1..] == ImuReadings(cycles[1..]);
      RunAccumulates(t, cycles[1..], m);
      assert Accumulate(s.imuAngleAcum, s.lastIMUAngle, ws)
             == Accumulate(t.imuAngleAcum, t.lastIMUAngle, ws[1..]);
    }
  }

  /** If the IMU readings of a run (after the last reading before it) track a true heading
      that turns by under 60 degrees per cycle, then after an armed cycle the drivetrain's
      heading has moved by exactly the true rotation, over any number of full turns. */
  lemma HeadingFollowsRotation(s: DriveState, cycles: seq<Cycle>, m: MathLib, hs: seq<real>, ks: seq<int>)
    requires SlowlyTracked(hs, [s.lastIMUAngle] + ImuReadings(cycles), ks)
    requires |cycles| >= 2 || (|cycles| == 1 && s.needManualOdometry)
    ensures Run(s, cycles, m).angle == s.imuAngleAcum + (hs[|hs| - 1] - hs[0])
  {
    var ws := [s.lastIMUAngle] + ImuReadings(cycles);
    assert ws[1..] == ImuReadings(cycles);
    AccumulateTracks(s.imuAngleAcum, hs, ws, ks);
    RunAccumulates(s, cycles, m);
    RunKeepsTracking(s, cycles, m);
  }

  class Drivetrain {
    const control: ControlType
    var xPosition: real
    var yPosition: real
    var targetX: real
    var targetY: real
    var angle: real
    var targetAngle: real
    var needManualOdometry: bool
    var init: bool
    var lastEncoderX: real
    var lastEncoderY: real
    var netPowerLeft: real
    var netPowerRight: real
    var netPowerCenter: real
    var imuAngleAcum: real
    var lastIMUAngle: real

    /** The value of the drivetrain's fields. */
    function State(): DriveState
      reads this
    {
      DriveState(xPosition, yPosition, angle, targetX, targetY, targetAngle,
                 imuAngleAcum, lastIMUAngle, lastEncoderX, lastEncoderY,
                 needManualOdometry, init, netPowerLeft, netPowerRight, netPowerCenter)
    }

    constructor (ct: ControlType)
      ensures control == ct && State() == Initial
    {
      control := ct;
      xPosition, yPosition, targetX, targetY, angle, targetAngle := 0.0, 0.0, 0.0, 0.0, 0.0, 0.0;
      needManualOdometry, init := true, true;
      lastEncoderX, lastEncoderY := 0.0, 0.0;
      netPowerLeft, netPowerRight, netPowerCenter := 0.0, 0.0, 0.0;
      imuAngleAcum, lastIMUAngle := 0.0, 0.0;
    }

    /** move(x, y): sets the position target and reports whether it is reached. */
    method Move(x: real, y: real) returns (arrived: bool)
      modifies this
      ensures State() == old(State()).(targetX := x, targetY := y)
      ensures arrived == AtPosition(x, y, xPosition, yPosition)
    {
      targetX := x;
      targetY := y;
      arrived := AtPosition(targetX, targetY, xPosition, yPosition);
    }

    /** moveAngle(a): sets the heading target; arrival within 0.5 degrees. */
    method MoveAngle(a: real) returns (arrived: bool)
      modifies this
      ensures State() == old(State()).(targetAngle := a)
      ensures arrived == AtHeading(a, angle, HeadingTolerance)
    {
      targetAngle := a;
      arrived := AtHeading(targetAngle, angle, HeadingTolerance);
    }

    /** move(x, y, a): sets the whole target pose; arrival is the position test and the
        heading within 2 degrees. */
    method MoveToPose(x: real, y: real, a: real) returns (arrived: bool)
      modifies this
      ensures State() == old(State()).(targetX := x, targetY := y, targetAngle := a)
      ensures arrived == (AtPosition(x, y, xPosition, yPosition) && AtHeading(a, angle, PoseHeadingTolerance))
    {
      targetX := x;
      targetY := y;
      targetAngle := a;
      arrived := AtPosition(targetX, targetY, xPosition, yPosition)
                 && AtHeading(targetAngle, angle, PoseHeadingTolerance);
    }

    /** setPosition(x, y, a): the absolute position fix. */
    method SetPosition(x: real, y: real, a: real)
      modifies this
      ensures State() == Fix(old(State()), x, y, a)
    {
      xPosition := x;
      yPosition := y;
      angle := a;
      imuAngleAcum := a;
      needManualOdometry := false;
    }

    /** autonomousUpdate: one control cycle, returning the speeds dispatched to the groups. */
    method AutonomousUpdate(r: Readings, m: MathLib, loops: Loops) returns (cmd: Command)
      modifies this
      ensures State() == Update(old(State()), r, m, loops)
      ensures cmd == Command(netPowerLeft, netPowerRight, Some(netPowerCenter))
    {
      UnwrapHeading(r);
      IntegrateOdometry(r, m);
      RunControllers(loops, m);
      RefreshSnapshot(r);
      cmd := Command(netPowerLeft, netPowerRight, Some(netPowerCenter));
    }

    /** The IMU set-up guard and the rollover check. */
    method UnwrapHeading(r: Readings)
      modifies this
      ensures State() == UnwrapStage(old(State()), r)
    {
      if init {
        init := false;
      }
      var currentIMUAngle := r.imuAngle;
      if currentIMUAngle - lastIMUAngle > 300.0 {
        imuAngleAcum := imuAngleAcum + (currentIMUAngle - lastIMUAngle) - 360.0;
      } else if currentIMUAngle - lastIMUAngle < -300.0 {
        imuAngleAcum := imuAngleAcum + (currentIMUAngle - lastIMUAngle) + 360.0;
      } else {
        imuAngleAcum := imuAngleAcum + (currentIMUAngle - lastIMUAngle);
      }
      lastIMUAngle := r.imuAngle;
    }

    /** The flag-guarded odometry integration. */
    method IntegrateOdometry(r: Readings, m: MathLib)
      modifies this
      ensures State() == OdometryStage(old(State()), r, m)
    {
      if needManualOdometry {
        angle := imuAngleAcum;
        var deltaX := LateralTravel(r.centerPos - lastEncoderX);
        var deltaY := ForwardTravel(ForwardTicks(r.leftPos, r.rightPos) - lastEncoderY);
        var d := FieldDisplacement(deltaX, deltaY, angle, m);
        xPosition := xPosition + d.0;
        yPosition := yPosition + d.1;
      }
    }

    /** The three feedback loops and the accumulation of their outputs into the commands. */
    method RunControllers(loops: Loops, m: MathLib)
      modifies this
      ensures State() == ControlStage(old(State()), loops, m)
    {
      ControlStageMixes(State(), loops, m);
      // the three accumulators start from zero every cycle
      var left, right, center := 0.0, 0.0, 0.0;
      var referenceAngle := Bearing(targetX, targetY, xPosition, yPosition, m) - angle;
      var distance := Distance(targetX, targetY, xPosition, yPosition, m);
      var delta := ControlError(referenceAngle, distance, m);

      var anglePower := -loops.angle(targetAngle, angle);
      left := left + anglePower;
      right := right + anglePower;

      var xPower := loops.x(0.0, delta.0);
      var yPower := loops.y(0.0, delta.1);
      left := left + yPower;
      right := right - yPower;
      center := center + xPower;
      netPowerLeft, netPowerRight, netPowerCenter := left, right, center;
    }

    /** Odometry re-armed and the encoder snapshot refreshed, whatever the flag was. */
    method RefreshSnapshot(r: Readings)
      modifies this
      ensures State() == RefreshStage(old(State()), r)
    {
      needManualOdometry := true;
      lastEncoderY := ForwardTicks(r.leftPos, r.rightPos);
      lastEncoderX := r.centerPos;
    }

    /** driverUpdate: the speeds commanded from the gamepad, if there is one. */
    method DriverUpdate(gamepad: Option<Gamepad>, m: MathLib) returns (cmd: Option<Command>)
      ensures gamepad.None? ==> cmd.None?
      ensures gamepad.Some? && control == Tank
              ==> cmd == Some(Command(gamepad.value.leftStickY, gamepad.value.rightStickY, None))
      ensures gamepad.Some? && control == Arcade ==> cmd == Some(ArcadeCommand(gamepad.value, m))
    {
      cmd := None;
      if gamepad.Some? {
        var g := gamepad.value;
        match control {
          case Tank =>
            cmd := Some(Command(g.leftStickY, g.rightStickY, None));
          case Arcade =>
            var leftPower := g.leftStickY - g.rightStickX;
            var rightPower := -g.leftStickY - g.rightStickX;
            leftPower := -leftPower;
            rightPower := -rightPower;
            var strafePower := g.leftStickX;
            if Abs(strafePower) < 0.5 {
              strafePower := strafePower / 5.0;
            } else if strafePower >= 0.0 {
              strafePower := m.pow(10.0, strafePower - 1.10914) + 1.0 - m.pow(10.0, -0.10914);
            } else {
              strafePower := -(m.pow(10.0, (-strafePower) - 1.10914) + 1.0 - m.pow(10.0, -0.10914));
            }
            cmd := Some(Command(leftPower, rightPower, Some(strafePower)));
        }
      }
    }

    /** zeroMovement: every group is told to stop. */
    method ZeroMovement() returns (cmd: Command)
      ensures cmd.left == 0.0 && cmd.right == 0.0 && cmd.center == Some(0.0)
    {
      cmd := Stop;
    }
  }
}
