/** The teleop mixer: stick values to wheel-group commands under the control scheme
    chosen at construction. */
module Teleop {
  import opened Geometry
  import opened Actuation

  datatype ControlType = Tank | Arcade

  /** The stick axes read from the gamepad in one call (floats, exact as reals). */
  datatype Gamepad = Gamepad(leftStickX: real, leftStickY: real, rightStickX: real, rightStickY: real)

  /** Below this deflection the strafe axis is attenuated linearly. */
  const StrafeKnee: real := 0.5

  /** Horizontal shift of the exponential part of the strafe curve. */
  const CurveShift: real := 1.10914

  /** The exponential branch of the strafe curve, for a deflection v >= 0.5. */
  function Curve(v: real, m: MathLib): (r: real)
    // the two constants cancel at full deflection, whatever the host's pow computes
    ensures v == 1.0 ==> r == 1.0
  {
    m.pow(10.0, v - CurveShift) + 1.0 - m.pow(10.0, -0.10914)
  }

  /** The strafe response: a fifth of the input inside the knee, the curve outside it,
      mirrored for negative input. */
  function StrafeShape(s: real, m: MathLib): real
  {
    if Abs(s) < StrafeKnee then s / 5.0
    else if s >= 0.0 then Curve(s, m)
    else -Curve(-s, m)
  }

  /** The curve is odd: pushing the stick the other way strafes the other way equally. */
  lemma StrafeIsOdd(s: real, m: MathLib)
    ensures StrafeShape(-s, m) == -StrafeShape(s, m)
  {
  }

  /** Inside the knee the response is a fifth of the input, so under 0.1 in magnitude;
      full deflection gives full speed whatever the host's pow computes, because the
      curve's two constants cancel at 1. */
  lemma StrafeEnds(s: real, m: MathLib)
    ensures -0.5 < s < 0.5 ==> StrafeShape(s, m) == s / 5.0 && -0.1 < StrafeShape(s, m) < 0.1
    ensures StrafeShape(1.0, m) == 1.0 && StrafeShape(-1.0, m) == -1.0
  {
    assert 1.0 - CurveShift == -0.10914;
  }

  /** Where pow(10, .) increases, the response grows with the deflection past the knee. */
  lemma StrafeMonotoneBeyondKnee(s: real, t: real, m: MathLib)
    requires forall a, b :: a < b ==> m.pow(10.0, a) < m.pow(10.0, b)
    requires StrafeKnee <= s < t
    ensures StrafeShape(s, m) < StrafeShape(t, m)
  {
    assert s - CurveShift < t - CurveShift;
  }

  /** The arcade mix: the right stick's x turns in place (equal commands), the left stick's
      y drives (opposite commands), the left stick's x strafes through the shaping curve. */
  function ArcadeCommand(g: Gamepad, m: MathLib): (c: Command)
    ensures c.left + c.right == 2.0 * g.rightStickX
    ensures c.right - c.left == 2.0 * g.leftStickY
    ensures c.center == Some(StrafeShape(g.leftStickX, m))
  {
    Command(g.rightStickX - g.leftStickY, g.leftStickY + g.rightStickX, Some(StrafeShape(g.leftStickX, m)))
  }
}
