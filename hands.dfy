/** The per-frame hand classifier (`HandStats` constructor): derived openness,
    bounds, mouse-use and pointing features of one tracked hand. Trigonometry is
    outside the model: each finger's planar angle difference to the middle finger
    is an input. */
module Hands {
  import opened Actions

  datatype Pointing = Left | Center | Right

  /** One hand as the tracking device reports it (lengths in millimetres, angles in
      radians, `timeVisible` in the device's time unit). `fingerAngles[i]` is
      `atan2` of the middle finger's direction minus `atan2` of finger i's. */
  datatype RawHand = RawHand(
    id: int,
    isLeft: bool,
    palmX: real, palmY: real, palmZ: real,
    yaw: real, roll: real,
    pinchDistance: real, pinchStrength: real, grabStrength: real,
    timeVisible: real,
    fingerAngles: seq<real>)

  /** One tracking frame: its timestamp in microseconds and the hands in it. */
  datatype Frame = Frame(timestamp: int, hands: seq<RawHand>)

  /** The mouse-use thresholds, which differ between the two applications. */
  datatype MouseThresholds = MouseThresholds(minPinchDist: real, maxPinchStrength: real, maxGrabStrength: real)

  /** LeapMedia: pinch distance 35, pinch strength 0.5, grab strength 0. */
  const MEDIA_MOUSE := MouseThresholds(35.0, 0.5, 0.0)
  /** LeapMagic: pinch distance 45, pinch strength 0, grab strength 0. */
  const MAGIC_MOUSE := MouseThresholds(45.0, 0.0, 0.0)

  const OPEN_ANGLE_SUM: real := 2.0
  const BOUNDS: real := 100.0
  const LEFT_YAW: real := 0.5
  const RIGHT_YAW: real := -0.4

  /** A classified hand. */
  datatype HandStats = HandStats(
    id: int,
    isLeft: bool,
    palmX: real, palmY: real, palmZ: real,
    yaw: real, roll: real,
    timeVisible: real,
    angleSum: real,
    isOpen: bool,
    isInBounds: bool,
    isUsingMouse: bool,
    pointing: Pointing)

  /** Pointing direction from yaw; the thresholds are deliberately asymmetric. */
  function PointingOf(yaw: real): (p: Pointing)
    ensures p == Left <==> yaw >= LEFT_YAW
    ensures p == Right <==> yaw <= RIGHT_YAW
    ensures p == Center <==> RIGHT_YAW < yaw < LEFT_YAW
  {
    if yaw >= LEFT_YAW then Left
    else if yaw <= RIGHT_YAW then Right
    else Center
  }

  /** The palm is inside the 200 x 200 square around the device, in x and z. */
  function InBounds(x: real, z: real): (b: bool)
    ensures b <==> -BOUNDS <= x <= BOUNDS && -BOUNDS <= z <= BOUNDS
  {
    Abs(x) <= BOUNDS && Abs(z) <= BOUNDS
  }

  /** The hand is probably on a mouse or keyboard. */
  function UsingMouse(raw: RawHand, th: MouseThresholds): bool
  {
    raw.pinchDistance <= th.minPinchDist
    || raw.pinchStrength > th.maxPinchStrength
    || raw.grabStrength > th.maxGrabStrength
  }

  /** Contribution of finger i to the openness sum: the middle finger (index 2) is
      skipped, a right hand adds the fingers before it and subtracts those after
      it, a left hand does the opposite. */
  function AngleTerm(i: nat, angle: real, isLeft: bool): real
  {
    if i == 2 then 0.0
    else if (i < 2) != isLeft then angle
    else -angle
  }

  /** The openness sum over all fingers, finger by finger. */
  function SignedAngleSum(angles: seq<real>, isLeft: bool): real
  {
    if angles == [] then 0.0
    else SignedAngleSum(angles[..|angles| - 1], isLeft) + AngleTerm(|angles| - 1, angles[|angles| - 1], isLeft)
  }

  /** Plain sum, the independent reference for `SignedAngleSum`. */
  function Sum(s: seq<real>): real
  {
    if s == [] then 0.0 else Sum(s[..|s| - 1]) + s[|s| - 1]
  }

  /** The classifier as a function of the raw hand. */
  function HandStatsOf(raw: RawHand, th: MouseThresholds): (h: HandStats)
    ensures h.id == raw.id && h.isLeft == raw.isLeft && h.yaw == raw.yaw && h.roll == raw.roll
    ensures h.palmX == raw.palmX && h.palmY == raw.palmY && h.palmZ == raw.palmZ
    ensures h.timeVisible == raw.timeVisible
    ensures h.angleSum == SignedAngleSum(raw.fingerAngles, raw.isLeft)
    ensures h.isOpen <==> h.angleSum >= OPEN_ANGLE_SUM
    ensures h.isInBounds <==> -BOUNDS <= raw.palmX <= BOUNDS && -BOUNDS <= raw.palmZ <= BOUNDS
    ensures h.isUsingMouse <==> UsingMouse(raw, th)
    ensures h.pointing == PointingOf(raw.yaw)
  {
    var sum := SignedAngleSum(raw.fingerAngles, raw.isLeft);
    HandStats(raw.id, raw.isLeft, raw.palmX, raw.palmY, raw.palmZ, raw.yaw, raw.roll, raw.timeVisible,
              sum, sum >= OPEN_ANGLE_SUM, InBounds(raw.palmX, raw.palmZ), UsingMouse(raw, th),
              PointingOf(raw.yaw))
  }

  /** The accumulating loop of the `HandStats` constructor. */
  method ComputeAngleSum(angles: seq<real>, isLeft: bool) returns (angleSum: real)
    ensures angleSum == SignedAngleSum(angles, isLeft)
  {
    angleSum := 0.0;
    for i := 0 to |angles|
      invariant angleSum == SignedAngleSum(angles[..i], isLeft)
    {
      assert angles[..i + 1][..i] == angles[..i];
      if i == 2 {
        continue;
      }
      var angle := angles[i];
      if isLeft {
        if i < 2 {
          angleSum := angleSum - angle;
        } else {
          angleSum := angleSum + angle;
        }
      } else {
        if i < 2 {
          angleSum := angleSum + angle;
        } else {
          angleSum := angleSum - angle;
        }
      }
    }
    assert angles[..|angles|] == angles;
  }

  /** The `HandStats` constructor: runs the loop, then the threshold tests. */
  method NewHandStats(raw: RawHand, th: MouseThresholds) returns (h: HandStats)
    ensures h == HandStatsOf(raw, th)
  {
    var angleSum := ComputeAngleSum(raw.fingerAngles, raw.isLeft);
    var pointing: Pointing;
    if raw.yaw >= LEFT_YAW {
      pointing := Left;
    } else if raw.yaw <= RIGHT_YAW {
      pointing := Right;
    } else {
      pointing := Center;
    }
    h := HandStats(raw.id, raw.isLeft, raw.palmX, raw.palmY, raw.palmZ, raw.yaw, raw.roll, raw.timeVisible,
                   angleSum, angleSum >= OPEN_ANGLE_SUM, Abs(raw.palmX) <= BOUNDS && Abs(raw.palmZ) <= BOUNDS,
                   UsingMouse(raw, th), pointing);
  }

  /** For the same finger angles a left hand's sum is the right hand's negated. */
  lemma {:induction false} LeftHandNegatesAngleSum(angles: seq<real>)
    ensures SignedAngleSum(angles, true) == -SignedAngleSum(angles, false)
  {
    if angles != [] {
      LeftHandNegatesAngleSum(angles[..|angles| - 1]);
    }
  }

  /** A right hand's sum adds the thumb and index angles and subtracts those of the
      ring and little fingers (every finger after the middle one). */
  lemma {:induction false} RightHandAngleSumSplit(angles: seq<real>)
    requires |angles| >= 3
    ensures SignedAngleSum(angles, false) == angles[0] + angles[1] - Sum(angles[3..])
  {
    var n := |angles|;
    if n == 3 {
      assert angles[..1][..0] == [];
      assert SignedAngleSum(angles[..1], false) == angles[0];
      assert angles[..2][..1] == angles[..1];
      assert SignedAngleSum(angles[..2], false) == angles[0] + angles[1];
      assert angles[..3][..2] == angles[..2] && angles[..3] == angles;
      assert angles[3..] == [];
    } else {
      RightHandAngleSumSplit(angles[..n - 1]);
      assert angles[..n - 1][..2] == angles[..2];
      assert angles[..n - 1][3..] == angles[3..n - 1];
      assert angles[3..][..|angles[3..]| - 1] == angles[3..n - 1];
    }
  }

  /** LeapMagic's mouse test is more sensitive than LeapMedia's: every hand that
      LeapMedia takes to be on a mouse, LeapMagic does too. */
  lemma MagicMouseTestIsMoreSensitive(raw: RawHand)
    ensures UsingMouse(raw, MEDIA_MOUSE) ==> UsingMouse(raw, MAGIC_MOUSE)
  {
  }
}
