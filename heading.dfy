/** The heading rollover accumulator: the IMU reports yaw wrapped into one turn,
    and the drivetrain keeps an unwrapped heading by adding per-cycle increments. */
module Heading {

  /** A raw change larger than this (in magnitude) is read as the sensor wrapping. */
  const RolloverThreshold: real := 300.0

  const FullTurn: real := 360.0

  /** The increment added to the accumulator when the reading goes from `last` to `current`. */
  function Increment(current: real, last: real): (inc: real)
    // the correction is a whole turn or nothing: inc is congruent to the raw change mod 360
    ensures inc == current - last || inc == current - last - 360.0 || inc == current - last + 360.0
    // a change within the threshold is taken as it is
    ensures -300.0 <= current - last <= 300.0 ==> inc == current - last
    // a raw change of less than a full turn yields an increment of at most 300 degrees
    ensures -360.0 < current - last < 360.0 ==> -300.0 <= inc <= 300.0
  {
    var d := current - last;
    if d > RolloverThreshold then d - FullTurn
    else if d < -RolloverThreshold then d + FullTurn
    else d
  }

  /** Crossing the +-180 seam in either direction registers a small rotation. */
  lemma SeamCrossings()
    ensures Increment(-170.0, 170.0) == 20.0
    ensures Increment(170.0, -170.0) == -20.0
  {
  }

  /** `w` is what the sensor reports for true heading `h`: h brought into [-180, 180]
      by `turns` whole turns. */
  predicate IsReading(w: real, h: real, turns: int)
  {
    -180.0 <= w <= 180.0 && w == h + 360.0 * turns as real
  }

  /** If the robot turns by less than 60 degrees between two readings, the increment is
      exactly the true rotation, whichever way the readings wrapped. */
  lemma RecoversTrueRotation(last: real, current: real, hLast: real, hCurrent: real, kLast: int, kCurrent: int)
    requires IsReading(last, hLast, kLast) && IsReading(current, hCurrent, kCurrent)
    requires -60.0 < hCurrent - hLast < 60.0
    ensures Increment(current, last) == hCurrent - hLast
  {
    var j := kCurrent - kLast;
    assert current - last == (hCurrent - hLast) + 360.0 * j as real;
    assert -420.0 < 360.0 * j as real < 420.0;
    assert -1 <= j <= 1;
  }

  /** The bound of 60 degrees is tight. A true turn of exactly +60 degrees from 150 reads
      as -150: the raw change of -300 is not below -300, so it is taken as it is, not as
      the +60 it was. A +70 degree turn from 170 likewise reads as a change of -290. */
  lemma FastTurnMisread()
    ensures IsReading(150.0, 150.0, 0) && IsReading(-150.0, 210.0, -1)
    ensures Increment(-150.0, 150.0) == -300.0 && Increment(-150.0, 150.0) != 210.0 - 150.0
    ensures IsReading(170.0, 170.0, 0) && IsReading(-120.0, 240.0, -1)
    ensures Increment(-120.0, 170.0) == -290.0
  {
  }

  /** The accumulator after feeding `readings` one per cycle, starting from accumulator
      `acc` and previous reading `last`. */
  function Accumulate(acc: real, last: real, readings: seq<real>): real
    decreases |readings|
  {
    if readings == [] then acc
    else Accumulate(acc + Increment(readings[0], last), readings[0], readings[1..])
  }

  /** `ws` are sensor readings of the true headings `hs`, and no step turns by 60 degrees
      or more. */
  predicate SlowlyTracked(hs: seq<real>, ws: seq<real>, ks: seq<int>)
  {
    && |hs| == |ws| == |ks|
    && (forall i :: 0 <= i < |ws| ==> IsReading(ws[i], hs[i], ks[i]))
    && (forall i :: 0 < i < |hs| ==> -60.0 < hs[i] - hs[i - 1] < 60.0)
  }

  /** Over any number of cycles and full rotations, the accumulator moves by exactly the
      true change of heading: it is not limited to the sensor's range. */
  lemma {:induction false} AccumulateTracks(acc: real, hs: seq<real>, ws: seq<real>, ks: seq<int>)
    requires |ws| >= 1 && SlowlyTracked(hs, ws, ks)
    ensures Accumulate(acc, ws[0], ws[1..]) == acc + (hs[|hs| - 1] - hs[0])
    decreases |ws|
  {
    if |ws| > 1 {
      RecoversTrueRotation(ws[0], ws[1], hs[0], hs[1], ks[0], ks[1]);
      assert ws[1..][1..] == ws[2..];
      assert SlowlyTracked(hs[1..], ws[1..], ks[1..]) by {
        forall i | 0 < i < |hs| - 1
          ensures -60.0 < hs[1..][i] - hs[1..][i - 1] < 60.0
        {
          assert hs[1..][i] == hs[i + 1] && hs[1..][i - 1] == hs[i];
        }
      }
      AccumulateTracks(acc + Increment(ws[1], ws[0]), hs[1..], ws[1..], ks[1..]);
    }
  }
}
