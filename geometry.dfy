/** Angle units and the host math library, as the drivetrain uses them.
    Doubles are modelled as reals; rounding is not modelled. */
module Geometry {

  /** Java's Math.PI. */
  const PI: real := 3.141592653589793

  /** Math.abs on doubles. */
  function Abs(x: real): (r: real)
    ensures r >= 0.0
    ensures r == x || r == -x
  {
    if x < 0.0 then -x else x
  }

  /** Math.toRadians. */
  function ToRadians(deg: real): real
  {
    deg * PI / 180.0
  }

  /** Math.toDegrees. */
  function ToDegrees(rad: real): real
  {
    rad * 180.0 / PI
  }

  /** The two unit conversions undo each other, and a half turn is PI radians. */
  lemma UnitRoundTrip(x: real)
    ensures ToRadians(ToDegrees(x)) == x
    ensures ToDegrees(ToRadians(x)) == x
    ensures ToRadians(180.0) == PI
  {
  }

  /** The transcendental functions of the host's Math class. Their values are not
      modelled: a lemma that needs an identity of them takes it as a hypothesis. */
  datatype MathLib = MathLib(
    sin: real -> real,
    cos: real -> real,
    atan2: (real, real) -> real,
    pow: (real, real) -> real)

  /** sin^2 + cos^2 = 1 at angle `t` (radians). */
  predicate PythagoreanAt(m: MathLib, t: real)
  {
    m.sin(t) * m.sin(t) + m.cos(t) * m.cos(t) == 1.0
  }

  /** Scaling a unit vector (c, s) by d gives a vector of length |d|. */
  lemma ScaledUnitVector(c: real, s: real, d: real)
    ensures c * c + s * s == 1.0 ==> (c * d) * (c * d) + (s * d) * (s * d) == d * d
  {
    calc {
      (c * d) * (c * d) + (s * d) * (s * d);
      (c * c + s * s) * (d * d);
    }
  }
}
