/**
 * The robot's open-loop kinematic model: a distance becomes a drive duration at a
 * measured forward speed of 12.33 cm/s, and an angle becomes a turn duration from
 * the calibration "1500 ms turns the robot 115 degrees".
 *
 * The source computes in doubles and truncates with a `(long)` cast. The distance
 * time is modelled exactly over the integers as `distance * 100000 / 1233`
 * (12.33 cm/s = 1233/100 cm/s); for every distance in range the exact quotient is at
 * least 1/1233 away from an integer, far more than the error of the double division,
 * so both truncate to the same value.
 */
module Kinematics {
  import opened JavaInt

  const MinDistance: int := 15
  const MaxDistance: int := 85
  /** The error value of `TimeForDistance`. */
  const NoTime: int := -1
  /** Forward speed 12.33 cm/s, as the fraction SpeedNumerator / SpeedDenominator. */
  const SpeedNumerator: int := 1233
  const SpeedDenominator: int := 100
  /** A turn of `TurnCalibrationMs` milliseconds rotates the robot `TurnCalibrationDegrees`. */
  const TurnCalibrationMs: real := 1500.0
  const TurnCalibrationDegrees: real := 115.0

  predicate InRange(distance: int) {
    MinDistance <= distance <= MaxDistance
  }

  /**
   * `calculateTimeForDistance`: milliseconds to drive `distance` cm, or -1 when the
   * distance is outside [15, 85] (or the duration would not be positive).
   */
  function TimeForDistance(distance: int): (ms: int)
    ensures ms == NoTime <==> !InRange(distance)
    ensures ms != NoTime ==> ms > 0
    ensures ms != NoTime ==>
      ms * SpeedNumerator <= distance * SpeedDenominator * 1000 < (ms + 1) * SpeedNumerator
  {
    if distance < MinDistance || distance > MaxDistance then NoTime
    else
      var movementTime := distance * SpeedDenominator * 1000 / SpeedNumerator;
      if movementTime <= 0 then NoTime else movementTime
  }

  /** Longer in-range distances never take less time; every duration lies in [1216, 6893]. */
  lemma TimeForDistanceMonotone(d1: int, d2: int)
    requires InRange(d1) && InRange(d2) && d1 <= d2
    ensures 1216 <= TimeForDistance(d1) <= TimeForDistance(d2) <= 6893
  {
    var t1, t2 := TimeForDistance(d1), TimeForDistance(d2);
    assert t1 * 1233 <= d1 * 100000 <= d2 * 100000 < (t2 + 1) * 1233;
    assert 15 * 100000 < (t1 + 1) * 1233;
    assert t2 * 1233 <= 85 * 100000;
  }

  /**
   * `calculateTurnTime`: milliseconds to turn by `angle` degrees, `(long)(angle / 115 * 1500)`.
   * The source accepts a speed percentage and never uses it.
   */
  function TurnTime(angle: real, speedPercentage: real): (ms: int)
    ensures 0.0 <= angle <= 1000.0 ==>
      ms as real <= angle * TurnCalibrationMs / TurnCalibrationDegrees < ms as real + 1.0
  {
    LongCast(angle / TurnCalibrationDegrees * TurnCalibrationMs)
  }

  /** The speed argument has no effect on the turn time. */
  lemma TurnTimeIgnoresSpeed(angle: real, s1: real, s2: real)
    ensures TurnTime(angle, s1) == TurnTime(angle, s2)
  {
  }

  /** The turn times of the three regular polygons' exterior angles. */
  lemma RegularTurnTimes()
    ensures TurnTime(90.0, 58.0) == 1173
    ensures TurnTime(72.0, 58.0) == 939
    ensures TurnTime(60.0, 58.0) == 782
  {
    assert 90.0 / 115.0 * 1500.0 == 27000.0 / 23.0;
    assert 72.0 / 115.0 * 1500.0 == 21600.0 / 23.0;
    assert 60.0 / 115.0 * 1500.0 == 18000.0 / 23.0;
  }
}
