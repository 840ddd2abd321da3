# Drivetrain motion core

This project models the motion core of a three-wheel robot drivetrain: the `Drivetrain` class of the team's robot code. Each module below covers one part of that class:

- **Heading** (`heading.dfy`) keeps a rollover-safe heading. The IMU's yaw is wrapped into one turn. A reading in the model (`Readings.imuAngle`) may be any real, and `AutonomousUpdate` accepts any value. Only the tracking theorems (`IsReading` and the lemmas built on it) assume readings in [-180, 180]. The conversion at line 128 belongs to the IMU's SDK, which is not part of this model, so the theorems take the closed window and do not rely on which end the sensor excludes. A raw change of more than 300 degrees in magnitude is read as the sensor wrapping, and a whole turn is taken off it before it is added to the accumulator.
- **Odometry** (`odometry.dfy`) integrates position from dead-wheel encoders:
  - The centre wheel gives lateral travel.
  - Half the difference of the left and right groups gives forward travel. Those groups face opposite ways, and the forward pair has an extra 26:20 gear.
  - The robot-frame displacement is taken into the field frame with the formula the code uses.
- **Motion** (`motion.dfy`) holds the arrival predicates and the autonomous controller:
  - Position arrival uses a strict 50-unit tolerance per axis.
  - Heading arrival uses 0.5 degrees when `moveAngle` is called and 2 degrees when `move(x, y, a)` is called.
  - The controller computes the bearing, the distance and the robot-frame error, runs three feedback loops, and mixes their outputs into unclamped wheel-group commands.
- **Teleop** (`teleop.dfy`) maps the sticks to commands. TANK mode passes them through. ARCADE mode uses a sign-inverted mix and a piecewise strafe-shaping curve.
- **Drivetrain** (`drivetrain.dfy`) is the facade. `class Drivetrain` has every field of the source class that the modelled operations read or write, and its methods update them in place. `State()` gives the value of those fields as a `DriveState`. The pure functions `Fix` (`setPosition`) and `Update` (one `autonomousUpdate`) say what a call does to that value. `Update` is composed of four stages, in the order the code runs them:
  1. heading unwrap;
  2. odometry, guarded by the flag;
  3. the controller;
  4. re-arming the flag and refreshing the encoder snapshot.

  `Run` applies `Update` over a sequence of cycles. The lemmas about `Update` and `Run` state what the class guarantees over time:
  - a position fix suppresses exactly one odometry step;
  - the encoder snapshot is refreshed in every cycle;
  - the heading accumulator follows the true rotation across any number of full turns.

Hardware and foreign code become inputs:
- IMU yaw and group positions are a `Readings` value per cycle.
- Stick values are an `Option<Gamepad>`. `None` is a null gamepad.
- The host's `sin`, `cos`, `atan2` and `pow` are the fields of a `MathLib` value. They are left uninterpreted. A lemma that needs one of their identities takes it as a hypothesis.
- Each PID controller is a per-cycle function from (setpoint, measured value) to output. This is the `Loops` value. It shows which loop gets which setpoint and measurement, while the loop's gains, integral, derivative memory and clock stay hidden.
- Commands sent to the wheel groups are returned as a `Command`. Its `center` is `None` when the call does not command the centre group.

Two facts about the code that a reader may not expect. The model follows the code in both:
- The strafe curve at lines 223-229 jumps at 0.5. Just inside the knee the value is 0.1. At 0.5 the curve gives 10^(0.5-1.10914) + 1 - 10^(-0.10914), about 0.47. This jump is not proved, because `pow` is uninterpreted.
- Lines 145-146 use `+` in both rows, so the odometry step is not a rotation. `DiagonalUnseen` shows the effect: at a heading where cos = sin, a diagonal robot-frame displacement registers no motion at all.

## Model

| member | source | states |
|---|---|---|
| `Motion.AtPosition` | TeamCode/src/main/java/org/firstinspires/ftc/teamcode/Robot/Drivetrain.java:89 | true iff both axis errors lie strictly between -50 and 50 |
| `Motion.AtHeading` | TeamCode/src/main/java/org/firstinspires/ftc/teamcode/Robot/Drivetrain.java:94 | true iff the heading error lies strictly between -tolerance and tolerance |
| `Motion.ArrivalBoundary` | TeamCode/src/main/java/org/firstinspires/ftc/teamcode/Robot/Drivetrain.java:86-102 | an error of exactly 50 on either axis, positive or negative, is not arrival; an error of exactly 0.5 degrees is not heading arrival |
| `Motion.JointToleranceCoarser` | TeamCode/src/main/java/org/firstinspires/ftc/teamcode/Robot/Drivetrain.java:92-102 | arrival within 0.5 degrees implies arrival within 2 degrees, and not conversely |
| `Drivetrain.Drivetrain.Move` | TeamCode/src/main/java/org/firstinspires/ftc/teamcode/Robot/Drivetrain.java:86-90 | only targetX and targetY change, to x and y; the result is the position arrival test against the unchanged pose |
| `Drivetrain.Drivetrain.MoveAngle` | TeamCode/src/main/java/org/firstinspires/ftc/teamcode/Robot/Drivetrain.java:92-95 | only targetAngle changes; the result is heading arrival within 0.5 degrees |
| `Drivetrain.Drivetrain.MoveToPose` | TeamCode/src/main/java/org/firstinspires/ftc/teamcode/Robot/Drivetrain.java:97-102 | all three targets change and nothing else; the result is position arrival and heading arrival within 2 degrees, so it implies the result of `Move` |
| `Drivetrain.Drivetrain.SetPosition` | TeamCode/src/main/java/org/firstinspires/ftc/teamcode/Robot/Drivetrain.java:104-110 | the new state is `Fix` of the old one |
| `Drivetrain.Fix` | TeamCode/src/main/java/org/firstinspires/ftc/teamcode/Robot/Drivetrain.java:104-110 | the value of `setPosition`; `FixChangesOnlyPose` states which fields it changes and which it keeps |
| `Drivetrain.FixChangesOnlyPose` | TeamCode/src/main/java/org/firstinspires/ftc/teamcode/Robot/Drivetrain.java:104-110 | a fix sets the pose and the accumulator to the given values and clears the flag; the targets, last IMU angle, encoder snapshot, init flag and commands are untouched |
| `Heading.Increment` | TeamCode/src/main/java/org/firstinspires/ftc/teamcode/Robot/Drivetrain.java:129-135 | the increment differs from the raw change by -360, 0 or +360; a raw change within plus or minus 300 is kept as it is; a raw change of less than a full turn gives an increment of at most 300 in magnitude |
| `Heading.SeamCrossings` | TeamCode/src/main/java/org/firstinspires/ftc/teamcode/Robot/Drivetrain.java:129-135 | going from 170 to -170 adds +20; going from -170 to 170 adds -20 |
| `Heading.RecoversTrueRotation` | TeamCode/src/main/java/org/firstinspires/ftc/teamcode/Robot/Drivetrain.java:129-135 | when two readings in [-180, 180] come from true headings less than 60 degrees apart, the increment is exactly the true rotation |
| `Heading.FastTurnMisread` | TeamCode/src/main/java/org/firstinspires/ftc/teamcode/Robot/Drivetrain.java:129-135 | the 60-degree bound is tight: a true turn of exactly +60 from 150 reads as -150, a raw change of -300, and is added as -300 rather than +60; a +70 turn from 170 is added as -290 |
| `Heading.Accumulate` | TeamCode/src/main/java/org/firstinspires/ftc/teamcode/Robot/Drivetrain.java:129-137 | the accumulator after a sequence of readings: `Increment` applied reading by reading; `AccumulateTracks` and `RunAccumulates` characterise it |
| `Heading.AccumulateTracks` | TeamCode/src/main/java/org/firstinspires/ftc/teamcode/Robot/Drivetrain.java:129-137 | over any run of slowly turning readings, the accumulator moves by exactly the true change of heading, across any number of full turns |
| `Odometry.ForwardTicks` | TeamCode/src/main/java/org/firstinspires/ftc/teamcode/Robot/Drivetrain.java:142 | straight driving with the opposed groups counts its full travel; turning in place counts none |
| `Odometry.LateralTravel` | TeamCode/src/main/java/org/firstinspires/ftc/teamcode/Robot/Drivetrain.java:141 | centre-wheel ticks to distance: 28·40 ticks per revolution of a wheel of radius 45; `TravelScale` characterises it |
| `Odometry.ForwardTravel` | TeamCode/src/main/java/org/firstinspires/ftc/teamcode/Robot/Drivetrain.java:142 | forward ticks to distance, with the extra 26/20 gear; `TravelScale` characterises it |
| `Odometry.TravelScale` | TeamCode/src/main/java/org/firstinspires/ftc/teamcode/Robot/Drivetrain.java:141-142 | one revolution of either tracking wheel is one circumference (2π·45); travel over consecutive snapshots adds up |
| `Odometry.FieldDisplacement` | TeamCode/src/main/java/org/firstinspires/ftc/teamcode/Robot/Drivetrain.java:145-146 | no travel gives no motion; where cos is 1 and sin is 0, the robot frame is the field frame |
| `Odometry.Integrate` | TeamCode/src/main/java/org/firstinspires/ftc/teamcode/Robot/Drivetrain.java:141-146 | encoders that have not moved since the snapshot leave the position unchanged |
| `Odometry.DiagonalUnseen` | TeamCode/src/main/java/org/firstinspires/ftc/teamcode/Robot/Drivetrain.java:145-146 | the code's matrix is not a rotation: where cos = sin, a displacement (d, -d) of any size gives no field motion |
| `Motion.Bearing` | TeamCode/src/main/java/org/firstinspires/ftc/teamcode/Robot/Drivetrain.java:242-248 | the bearing in degrees, converted back to radians, is atan2 of the target offset |
| `Motion.Distance` | TeamCode/src/main/java/org/firstinspires/ftc/teamcode/Robot/Drivetrain.java:153 | pow(pow(dx, 2) + pow(dy, 2), 1/2) with the host's pow; `DistanceIsEuclidean` shows it is the Euclidean distance wherever pow squares and takes roots |
| `Motion.DistanceIsEuclidean` | TeamCode/src/main/java/org/firstinspires/ftc/teamcode/Robot/Drivetrain.java:153 | where pow squares and takes non-negative roots, the distance is non-negative and its square is dx² + dy² |
| `Motion.ControlError` | TeamCode/src/main/java/org/firstinspires/ftc/teamcode/Robot/Drivetrain.java:155-156 | at zero distance both error components are zero |
| `Motion.ErrorMagnitude` | TeamCode/src/main/java/org/firstinspires/ftc/teamcode/Robot/Drivetrain.java:155-156 | where sin² + cos² = 1 at the reference angle + 180, the error vector's length is the distance |
| `Motion.Mix` | TeamCode/src/main/java/org/firstinspires/ftc/teamcode/Robot/Drivetrain.java:149-174 | left - right = 2·yPower, left + right = 2·(rotation term), and the centre command is xPower |
| `Motion.MixRoundTrip` | TeamCode/src/main/java/org/firstinspires/ftc/teamcode/Robot/Drivetrain.java:162-174 | `Unmix` recovers the rotation and y terms from the commands, and every command to all three groups is the mix of the terms it carries |
| `Motion.MixNotClamped` | TeamCode/src/main/java/org/firstinspires/ftc/teamcode/Robot/Drivetrain.java:185-205 | commands are dispatched without clamping: loop outputs of magnitude 1 give speeds of 2 and -2 |
| `Motion.Controller` | TeamCode/src/main/java/org/firstinspires/ftc/teamcode/Robot/Drivetrain.java:149-174 | the centre group is always commanded, and left + right is twice the negated heading loop output; `ControllerMixesLoops` states its whole command |
| `Motion.ControllerMixesLoops` | TeamCode/src/main/java/org/firstinspires/ftc/teamcode/Robot/Drivetrain.java:152-174 | the heading loop is asked about (targetAngle, heading) and gives the negated common term; the y and x loops are asked about setpoint 0 and the error components, and give the difference term and the centre command; the three together determine the whole command |
| `Motion.OnTargetNoPositionError` | TeamCode/src/main/java/org/firstinspires/ftc/teamcode/Robot/Drivetrain.java:152-174 | standing on the target position, both position loops are asked about a zero error |
| `Motion.StraightAheadScenario` | TeamCode/src/main/java/org/firstinspires/ftc/teamcode/Robot/Drivetrain.java:152-171 | target (500, 0, 0) from pose (0, 0, 0): the bearing is 0, the error is (-500, 0), and the commands follow from the loops' answers to (0, 0), (0, -500) and (0, 0) |
| `Drivetrain.Drivetrain.AutonomousUpdate` | TeamCode/src/main/java/org/firstinspires/ftc/teamcode/Robot/Drivetrain.java:113-206 | the new state is `Update` of the old one, and the dispatched speeds are the three accumulated commands |
| `Drivetrain.Drivetrain.UnwrapHeading` | TeamCode/src/main/java/org/firstinspires/ftc/teamcode/Robot/Drivetrain.java:114-137 | the init flag is cleared, the accumulator gains `Increment` of the reading, and the reading is recorded |
| `Drivetrain.Drivetrain.IntegrateOdometry` | TeamCode/src/main/java/org/firstinspires/ftc/teamcode/Robot/Drivetrain.java:139-147 | the pose changes only when the flag is set; then the heading is taken from the accumulator and the position moves by `Integrate` |
| `Drivetrain.Drivetrain.RunControllers` | TeamCode/src/main/java/org/firstinspires/ftc/teamcode/Robot/Drivetrain.java:149-174 | the three commands become the controller's mix, from the pose after odometry |
| `Drivetrain.ControlStageMixes` | TeamCode/src/main/java/org/firstinspires/ftc/teamcode/Robot/Drivetrain.java:149-174 | the controller stage sets left = rotation + y, right = rotation - y and centre = x, from the three loop outputs |
| `Drivetrain.Drivetrain.RefreshSnapshot` | TeamCode/src/main/java/org/firstinspires/ftc/teamcode/Robot/Drivetrain.java:181-183 | the flag is set, and the snapshot becomes the centre position and half the left-minus-right difference |
| `Drivetrain.UnwrapStage` | TeamCode/src/main/java/org/firstinspires/ftc/teamcode/Robot/Drivetrain.java:114-137 | the unwrap part of one update; `UpdateRefreshesSnapshot` states its effect on init, the accumulator and the last reading |
| `Drivetrain.OdometryStage` | TeamCode/src/main/java/org/firstinspires/ftc/teamcode/Robot/Drivetrain.java:139-147 | the odometry part, guarded by the flag; `UpdateOdometry` states its effect |
| `Drivetrain.ControlStage` | TeamCode/src/main/java/org/firstinspires/ftc/teamcode/Robot/Drivetrain.java:149-174 | the controller part; `ControlStageMixes` states its three commands |
| `Drivetrain.RefreshStage` | TeamCode/src/main/java/org/firstinspires/ftc/teamcode/Robot/Drivetrain.java:181-183 | re-arming and the snapshot; `UpdateRefreshesSnapshot` states its effect |
| `Drivetrain.Update` | TeamCode/src/main/java/org/firstinspires/ftc/teamcode/Robot/Drivetrain.java:113-206 | one `autonomousUpdate`, the four stages in order; `UpdateRefreshesSnapshot`, `UpdateOdometry`, `UpdateCommands` and `FixLastsOneCycle` state its effect |
| `Drivetrain.UpdateRefreshesSnapshot` | TeamCode/src/main/java/org/firstinspires/ftc/teamcode/Robot/Drivetrain.java:126-183 | after every update, whatever the flag was on entry: the flag is true, init is false, lastIMUAngle is the reading, lastEncoderX is the centre position, lastEncoderY is (left - right) / 2, and the targets are unchanged |
| `Drivetrain.UpdateOdometry` | TeamCode/src/main/java/org/firstinspires/ftc/teamcode/Robot/Drivetrain.java:139-147 | a suppressed update keeps x, y and the angle; an armed one sets the angle to the new accumulator and moves the position by the encoder change since the snapshot |
| `Drivetrain.UpdateCommands` | TeamCode/src/main/java/org/firstinspires/ftc/teamcode/Robot/Drivetrain.java:149-174 | the update's commands are the controller's, driven from the pose after odometry toward the unchanged target; left + right is twice the negated heading loop output |
| `Drivetrain.FixLastsOneCycle` | TeamCode/src/main/java/org/firstinspires/ftc/teamcode/Robot/Drivetrain.java:104-183 | after a fix, the next update keeps the fixed pose whatever the encoders did; the one after that integrates from the suppressed cycle's readings, so unmoved encoders leave the fixed position |
| `Drivetrain.Run` | TeamCode/src/main/java/org/firstinspires/ftc/teamcode/Robot/Drivetrain.java:113-206 | `autonomousUpdate` applied once per cycle, in order; `RunKeepsTracking`, `RunAccumulates` and `HeadingFollowsRotation` state what holds over a run |
| `Drivetrain.RunKeepsTracking` | TeamCode/src/main/java/org/firstinspires/ftc/teamcode/Robot/Drivetrain.java:137-183 | over any run the targets stay put; after one cycle the flag is set and init is cleared; after an armed cycle the pose heading equals the accumulator |
| `Drivetrain.RunAccumulates` | TeamCode/src/main/java/org/firstinspires/ftc/teamcode/Robot/Drivetrain.java:126-137 | over any run, the accumulator is the unwrap rule applied to the IMU readings in order, whatever the flag does |
| `Drivetrain.HeadingFollowsRotation` | TeamCode/src/main/java/org/firstinspires/ftc/teamcode/Robot/Drivetrain.java:126-140 | if the readings track a true heading that turns less than 60 degrees per cycle, then after an armed cycle the drivetrain's heading has moved by exactly the true rotation |
| `Drivetrain.ImuReadings` | TeamCode/src/main/java/org/firstinspires/ftc/teamcode/Robot/Drivetrain.java:126-128 | the IMU readings of a run, one per cycle, in order |
| `Drivetrain.Drivetrain.DriverUpdate` | TeamCode/src/main/java/org/firstinspires/ftc/teamcode/Robot/Drivetrain.java:209-236 | with no gamepad, no command is sent; TANK sends the two stick y values to left and right and leaves centre alone; ARCADE sends `ArcadeCommand` |
| `Teleop.ArcadeCommand` | TeamCode/src/main/java/org/firstinspires/ftc/teamcode/Robot/Drivetrain.java:217-232 | left + right = 2·(right stick x), so it turns in place; right - left = 2·(left stick y), so it drives; centre is the shaped left stick x |
| `Teleop.Curve` | TeamCode/src/main/java/org/firstinspires/ftc/teamcode/Robot/Drivetrain.java:226-228 | the exponential branch of the strafe curve; it is exactly 1 at full deflection, whatever pow computes |
| `Teleop.StrafeShape` | TeamCode/src/main/java/org/firstinspires/ftc/teamcode/Robot/Drivetrain.java:222-229 | the strafe response; `StrafeIsOdd`, `StrafeEnds` and `StrafeMonotoneBeyondKnee` characterise it |
| `Teleop.StrafeIsOdd` | TeamCode/src/main/java/org/firstinspires/ftc/teamcode/Robot/Drivetrain.java:222-229 | shape(-s) = -shape(s) for every s |
| `Teleop.StrafeEnds` | TeamCode/src/main/java/org/firstinspires/ftc/teamcode/Robot/Drivetrain.java:222-229 | for \|s\| < 0.5 the result is s/5, so under 0.1 in magnitude; full deflection gives exactly 1 and -1, whatever pow computes |
| `Teleop.StrafeMonotoneBeyondKnee` | TeamCode/src/main/java/org/firstinspires/ftc/teamcode/Robot/Drivetrain.java:225-229 | where pow(10, ·) is increasing, the response grows with deflection from 0.5 upward |
| `Drivetrain.Drivetrain.ZeroMovement` | TeamCode/src/main/java/org/firstinspires/ftc/teamcode/Robot/Drivetrain.java:250-254 | all three groups are commanded speed 0 |
| `Drivetrain.Drivetrain.constructor` | TeamCode/src/main/java/org/firstinspires/ftc/teamcode/Robot/Drivetrain.java:25-59 | the control type is the given one, and the state is `Initial`, the field initialisers of lines 25-41: every number starts at zero, odometry is armed, and the IMU set-up is pending |

## Left out

- IMU set-up (lines 114-124): the hardware parameters and `imu.initialize` are not modelled. Only the `init` flag is, going from true to false on the first update.
- Telemetry `addData` calls: on a telemetry object they only display values. The two-argument constructor (lines 61-71) never sets `telemetry`, which stays null (line 39). Its failure is described in the next line.
- Drivetrain.Drivetrain.AutonomousUpdate: the model assumes the three-argument constructor (lines 48-59) and an earlier `setIMU` (lines 261-262), and under those assumptions it always completes. Without them the code throws a NullPointerException part-way through the cycle, and the model does not capture this:
  - Null `imu`, while `init` is still true: the throw is at line 122, before `init = false` at line 123. No modelled field has changed yet. `init` stays true, so every cycle throws there until `setIMU` is called.
  - Null `telemetry`, flag set: the throw is at line 143. By then `init` is false, and `IMUAngleAcum`, `lastIMUAngle` and `angle` have been updated. The position, the commands and the snapshot are not. The flag stays set, so every later cycle fails the same way.
  - Null `telemetry`, flag clear (after `setPosition`): the throw is at line 246, through `angleToTarget` at line 152. By then `init` is false, `IMUAngleAcum` and `lastIMUAngle` have been updated, and lines 149-151 have zeroed `netPowerLeft/Right/Center`. The flag is never re-armed, so every later cycle fails the same way.
  - In every case the snapshot is not refreshed and no command is sent.
- `PID` internals: gains, integral, derivative and clock. Each loop is a per-cycle function of (setpoint, measured value). The PID class is not part of this model.
- `HardwareController`, `RobotPart`, `BNO055IMU` and `Gamepad` are not part of this model. Their readings are parameters and their commands are results. The code calls `getPos()` twice in a cycle, at lines 141-142 and 182-183. The model assumes both calls return the same value.
- Floating-point rounding: doubles are reals. `Math.PI` is the real 3.141592653589793. `sin`, `cos`, `atan2` and `pow` are uninterpreted.
- The constructors' PID gain constants and `Gamepad` argument, the `setLeftGroup`/`setRightGroup`/`setSlideGroup` wiring, the empty `odometryUpdate`, and the unused `spinInit` and `clock` fields. None of them affects the modelled state. The `Telemetry` argument and `setIMU` matter only through the null case covered above.
- The pseudo-normalisation at lines 185-201 is commented out in the code, so the model does not clamp.
- Deciding whether `driverUpdate` or `autonomousUpdate` runs is the host scheduler's job and is not modelled.
- Drivetrain.Drivetrain.RunControllers: it builds the three accumulators in local variables and stores them in `netPowerLeft/Right/Center` once. The code updates those fields with `+=`/`-=` in place. The values are the same, because no other code runs in between.
- Drivetrain.Drivetrain.AutonomousUpdate: its four stages are separate methods (`UnwrapHeading`, `IntegrateOdometry`, `RunControllers`, `RefreshSnapshot`), called in the code's order. The code writes them inline.
