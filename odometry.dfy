/** Dead-wheel odometry: encoder ticks to travelled distance, and the robot-frame
    displacement taken into the field frame. */
module Odometry {
  import opened Geometry

  /** Ticks per revolution of the encoder shaft: 28 counts times a 40:1 gearbox. */
  const TicksPerRevolution: real := 28.0 * 40.0

  /** Extra gearing between the forward wheel pair and its encoders. */
  const ForwardGearRatio: real := 26.0 / 20.0

  /** Radius of the tracking wheels, in the unit of the field coordinates. */
  const WheelRadius: real := 45.0

  /** Distance rolled by the centre (lateral) wheel for a change of `ticks`. */
  function LateralTravel(ticks: real): real
  {
    ticks / TicksPerRevolution * (2.0 * PI * WheelRadius)
  }

  /** Distance rolled by the forward wheel pair for a change of `ticks`. */
  function ForwardTravel(ticks: real): real
  {
    ticks / (TicksPerRevolution * ForwardGearRatio) * (2.0 * PI * WheelRadius)
  }

  /** One revolution of either tracking wheel is one circumference; travel over two
      consecutive snapshots adds up to the travel between the first and the last. */
  lemma TravelScale(a: real, b: real, c: real)
    ensures LateralTravel(TicksPerRevolution) == 2.0 * PI * WheelRadius
    ensures ForwardTravel(TicksPerRevolution * ForwardGearRatio) == 2.0 * PI * WheelRadius
    ensures LateralTravel(b - a) + LateralTravel(c - b) == LateralTravel(c - a)
    ensures ForwardTravel(b - a) + ForwardTravel(c - b) == ForwardTravel(c - a)
  {
  }

  /** The forward encoder value: half the difference of the left and right groups,
      which face opposite ways. */
  function ForwardTicks(left: real, right: real): (t: real)
    // driving straight turns the opposed wheels in opposite senses: the full travel counts
    ensures left == -right ==> t == left
    // turning in place turns both the same way: it does not count as forward travel
    ensures left == right ==> t == 0.0
  {
    (left - right) / 2.0
  }

  /** The field-frame change of position for a robot-frame displacement of `lateral`
      (centre wheel) and `forward` (wheel pair) at heading `headingDeg`, as the source
      writes it: x gains lateral*cos + forward*sin and y gains lateral*sin + forward*cos. */
  function FieldDisplacement(lateral: real, forward: real, headingDeg: real, m: MathLib): (d: (real, real))
    // no travel, no motion
    ensures lateral == 0.0 && forward == 0.0 ==> d == (0.0, 0.0)
    // at a heading whose cosine is 1 and sine 0 the robot frame is the field frame
    ensures (m.cos(ToRadians(headingDeg)) == 1.0 && m.sin(ToRadians(headingDeg)) == 0.0)
            ==> d == (lateral, forward)
  {
    var c := m.cos(ToRadians(headingDeg));
    var s := m.sin(ToRadians(headingDeg));
    (lateral * c + forward * s, lateral * s + forward * c)
  }

  /** The position after one integration step from (x, y): encoder values against the
      snapshot of the previous cycle. */
  function Integrate(x: real, y: real, headingDeg: real, lastEncoderX: real, lastEncoderY: real,
                     center: real, left: real, right: real, m: MathLib): (p: (real, real))
    // encoders that have not moved since the snapshot leave the position where it is
    ensures center == lastEncoderX && ForwardTicks(left, right) == lastEncoderY ==> p == (x, y)
  {
    var d := FieldDisplacement(LateralTravel(center - lastEncoderX),
                               ForwardTravel(ForwardTicks(left, right) - lastEncoderY), headingDeg, m);
    (x + d.0, y + d.1)
  }

  /** The matrix of FieldDisplacement is not a rotation: at a heading where cos and sin
      agree (45 or 225 degrees), a diagonal robot-frame displacement of any size registers
      no motion at all. */
  lemma DiagonalUnseen(m: MathLib, headingDeg: real, len: real)
    requires m.cos(ToRadians(headingDeg)) == m.sin(ToRadians(headingDeg))
    ensures FieldDisplacement(len, -len, headingDeg, m) == (0.0, 0.0)
  {
    var c := m.cos(ToRadians(headingDeg));
    var s := m.sin(ToRadians(headingDeg));
    var d := FieldDisplacement(len, -len, headingDeg, m);
    assert d.0 == len * c + (-len) * s && d.1 == len * s + (-len) * c;
    assert s == c;
  }
}
