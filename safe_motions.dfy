/** Safety limits of the robot's head and antennas: inclusive range
    validation, clamping, and the minimum-duration rule
    (src/common/reachy/safe_motions.py, class SafeMotionController). */
module SafeMotions {
  import opened Util

  /** An inclusive interval `(lo, hi)` as the source's limit tuples. */
  datatype Range = Range(lo: real, hi: real)
  {
    predicate Contains(x: real) { lo <= x <= hi }
    predicate WellFormed() { lo <= hi }
  }

  datatype HeadLimits = HeadLimits(roll: Range, pitch: Range, yaw: Range)
  {
    predicate WellFormed() { roll.WellFormed() && pitch.WellFormed() && yaw.WellFormed() }
  }

  /** The state a SafeMotionController keeps after construction. */
  datatype Controller = Controller(head: HeadLimits, antenna: Range, maxVelocity: real)

  const DefaultHeadLimits: HeadLimits :=
    HeadLimits(Range(-0.3, 0.3), Range(-0.5, 0.5), Range(-0.8, 0.8))
  const DefaultAntennaLimits: Range := Range(-3.14, 3.14)
  const DefaultMaxVelocity: real := 1.0

  /** numpy's `np.pi` (the double nearest to pi); degrees and radians are
      converted with it. */
  const Pi: real := 3.141592653589793

  function DegToRad(x: real): real { x * Pi / 180.0 }
  function RadToDeg(x: real): real { x * 180.0 / Pi }

  lemma DegRadRoundTrip(x: real)
    ensures DegToRad(RadToDeg(x)) == x
  {
  }

  /** `__init__`: a missing (or empty, hence falsy) limit argument selects
      the default; the velocity is stored as given. */
  function NewController(headLimits: Option<HeadLimits>, antennaLimits: Option<Range>,
                         maxVelocity: real): (c: Controller)
    ensures c.head == (if headLimits.Some? then headLimits.value else DefaultHeadLimits)
    ensures c.antenna == (if antennaLimits.Some? then antennaLimits.value else DefaultAntennaLimits)
    ensures c.maxVelocity == maxVelocity
  {
    Controller(
      match headLimits case Some(h) => h case None => DefaultHeadLimits,
      match antennaLimits case Some(a) => a case None => DefaultAntennaLimits,
      maxVelocity)
  }

  /** The controller `SafeMotionController()` builds with no arguments. */
  function DefaultController(): (c: Controller)
    ensures c.head.roll == Range(-0.3, 0.3) && c.head.pitch == Range(-0.5, 0.5)
    ensures c.head.yaw == Range(-0.8, 0.8) && c.antenna == Range(-3.14, 3.14)
    ensures c.maxVelocity == 1.0 && c.maxVelocity > 0.0
  {
    NewController(None, None, DefaultMaxVelocity)
  }

  datatype Axis = Roll | Pitch | Yaw
  {
    function Rank(): nat { match this case Roll => 0 case Pitch => 1 case Yaw => 2 }
  }

  datatype Side = Left | Right

  /** One entry of a violations list; the source formats it as a message
      naming the axis (or antenna), the offending value in radians and the
      limits. */
  datatype Violation =
    | HeadViolation(axis: Axis, radians: real, limits: Range)
    | AntennaViolation(side: Side, radians: real, limits: Range)

  function AxisLimits(h: HeadLimits, a: Axis): Range
  {
    match a case Roll => h.roll case Pitch => h.pitch case Yaw => h.yaw
  }

  function ToRadians(x: real, degrees: bool): real
  {
    if degrees then DegToRad(x) else x
  }

  /** The violation list for one axis: empty when the angle is within its
      inclusive bounds. */
  function CheckAxis(h: HeadLimits, a: Axis, rad: real): seq<Violation>
  {
    if AxisLimits(h, a).Contains(rad) then [] else [HeadViolation(a, rad, AxisLimits(h, a))]
  }

  function AngleOf(a: Axis, roll: real, pitch: real, yaw: real): real
  {
    match a case Roll => roll case Pitch => pitch case Yaw => yaw
  }

  /** `validate_head_angles`: one violation per axis outside its limits, in
      roll, pitch, yaw order; valid iff there is none. */
  function ValidateHeadAngles(c: Controller, roll: real, pitch: real, yaw: real, degrees: bool)
    : (r: (bool, seq<Violation>))
    ensures r.0 <==> |r.1| == 0
    ensures forall i, j :: 0 <= i < j < |r.1| ==>
      r.1[i].HeadViolation? && r.1[j].HeadViolation? && r.1[i].axis.Rank() < r.1[j].axis.Rank()
    ensures forall i :: 0 <= i < |r.1| ==>
      && r.1[i].HeadViolation?
      && r.1[i].radians == ToRadians(AngleOf(r.1[i].axis, roll, pitch, yaw), degrees)
      && !AxisLimits(c.head, r.1[i].axis).Contains(r.1[i].radians)
  {
    var rr := ToRadians(roll, degrees);
    var pr := ToRadians(pitch, degrees);
    var yr := ToRadians(yaw, degrees);
    var v := CheckAxis(c.head, Roll, rr) + CheckAxis(c.head, Pitch, pr) + CheckAxis(c.head, Yaw, yr);
    (|v| == 0, v)
  }

  /** An axis is reported iff its angle, in radians, is outside its limits. */
  lemma ValidateHeadFlagsExactly(c: Controller, roll: real, pitch: real, yaw: real, degrees: bool, a: Axis)
    ensures var v := ValidateHeadAngles(c, roll, pitch, yaw, degrees).1;
      (exists i :: 0 <= i < |v| && v[i].HeadViolation? && v[i].axis == a)
      <==> !AxisLimits(c.head, a).Contains(ToRadians(AngleOf(a, roll, pitch, yaw), degrees))
  {
    var v := ValidateHeadAngles(c, roll, pitch, yaw, degrees).1;
    var ra := CheckAxis(c.head, Roll, ToRadians(roll, degrees));
    var pa := CheckAxis(c.head, Pitch, ToRadians(pitch, degrees));
    var ya := CheckAxis(c.head, Yaw, ToRadians(yaw, degrees));
    assert v == ra + pa + ya;
    if !AxisLimits(c.head, a).Contains(ToRadians(AngleOf(a, roll, pitch, yaw), degrees)) {
      match a
      case Roll => assert v[0].axis == Roll;
      case Pitch => assert v[|ra|].axis == Pitch;
      case Yaw => assert v[|ra| + |pa|].axis == Yaw;
    }
  }

  function CheckAntenna(lim: Range, s: Side, x: real): seq<Violation>
  {
    if lim.Contains(x) then [] else [AntennaViolation(s, x, lim)]
  }

  /** `validate_antenna_positions`: flags exactly the antennas outside the
      antenna limits, left before right. */
  function ValidateAntennaPositions(c: Controller, left: real, right: real)
    : (r: (bool, seq<Violation>))
    ensures r.0 <==> |r.1| == 0
    ensures AntennaViolation(Left, left, c.antenna) in r.1 <==> !c.antenna.Contains(left)
    ensures AntennaViolation(Right, right, c.antenna) in r.1 <==> !c.antenna.Contains(right)
    ensures |r.1| == (if c.antenna.Contains(left) then 0 else 1) + (if c.antenna.Contains(right) then 0 else 1)
    ensures |r.1| == 2 ==> r.1[0].side == Left && r.1[1].side == Right
  {
    var v := CheckAntenna(c.antenna, Left, left) + CheckAntenna(c.antenna, Right, right);
    (|v| == 0, v)
  }

  /** `clamp_head_angles`: each angle is clipped to its limits in radians and
      returned in the units it came in. */
  function ClampHeadAngles(c: Controller, roll: real, pitch: real, yaw: real, degrees: bool)
    : (r: (real, real, real))
  {
    var rr := Clip(ToRadians(roll, degrees), c.head.roll.lo, c.head.roll.hi);
    var pr := Clip(ToRadians(pitch, degrees), c.head.pitch.lo, c.head.pitch.hi);
    var yr := Clip(ToRadians(yaw, degrees), c.head.yaw.lo, c.head.yaw.hi);
    if degrees then (RadToDeg(rr), RadToDeg(pr), RadToDeg(yr)) else (rr, pr, yr)
  }

  /** The clamped angles, read in radians, lie within the limits; an axis
      already within its limits keeps its value. */
  lemma ClampHeadWithinLimits(c: Controller, roll: real, pitch: real, yaw: real, degrees: bool)
    requires c.head.WellFormed()
    ensures var r := ClampHeadAngles(c, roll, pitch, yaw, degrees);
      c.head.roll.Contains(ToRadians(r.0, degrees)) &&
      c.head.pitch.Contains(ToRadians(r.1, degrees)) &&
      c.head.yaw.Contains(ToRadians(r.2, degrees))
    ensures var r := ClampHeadAngles(c, roll, pitch, yaw, degrees);
      (c.head.roll.Contains(ToRadians(roll, degrees)) ==> r.0 == roll) &&
      (c.head.pitch.Contains(ToRadians(pitch, degrees)) ==> r.1 == pitch) &&
      (c.head.yaw.Contains(ToRadians(yaw, degrees)) ==> r.2 == yaw)
  {
    if degrees {
      DegRadRoundTrip(Clip(DegToRad(roll), c.head.roll.lo, c.head.roll.hi));
      DegRadRoundTrip(Clip(DegToRad(pitch), c.head.pitch.lo, c.head.pitch.hi));
      DegRadRoundTrip(Clip(DegToRad(yaw), c.head.yaw.lo, c.head.yaw.hi));
    }
  }

  /** Validating a clamped triple, in the same units, always succeeds. */
  lemma ClampThenValidate(c: Controller, roll: real, pitch: real, yaw: real, degrees: bool)
    requires c.head.WellFormed()
    ensures var r := ClampHeadAngles(c, roll, pitch, yaw, degrees);
      ValidateHeadAngles(c, r.0, r.1, r.2, degrees).0
  {
    ClampHeadWithinLimits(c, roll, pitch, yaw, degrees);
  }

  /** `clamp_antenna_positions`: each antenna clipped independently. */
  function ClampAntennaPositions(c: Controller, left: real, right: real): (r: (real, real))
    requires c.antenna.WellFormed()
    ensures c.antenna.Contains(r.0) && c.antenna.Contains(r.1)
    ensures c.antenna.Contains(left) ==> r.0 == left
    ensures c.antenna.Contains(right) ==> r.1 == right
    ensures left < c.antenna.lo ==> r.0 == c.antenna.lo
    ensures left > c.antenna.hi ==> r.0 == c.antenna.hi
    ensures right < c.antenna.lo ==> r.1 == c.antenna.lo
    ensures right > c.antenna.hi ==> r.1 == c.antenna.hi
  {
    (Clip(left, c.antenna.lo, c.antenna.hi), Clip(right, c.antenna.lo, c.antenna.hi))
  }

  /** `calculate_safe_duration`: the larger of distance / max velocity and
      the minimum duration; a zero max velocity raises ZeroDivisionError. */
  function CalculateSafeDuration(c: Controller, angularDistance: real, minDuration: real): (r: Result<real>)
    ensures r.Err? <==> c.maxVelocity == 0.0
    ensures r.Ok? ==> r.value >= minDuration && r.value >= angularDistance / c.maxVelocity
    ensures r.Ok? ==> r.value == minDuration || r.value == angularDistance / c.maxVelocity
  {
    if c.maxVelocity == 0.0 then Err("float division by zero")
    else Ok(Max(angularDistance / c.maxVelocity, minDuration))
  }

  /** The default controller accepts the neutral pose and rejects a pitch of
      5 rad, reporting exactly the pitch. */
  lemma DefaultValidationExamples()
    ensures ValidateHeadAngles(DefaultController(), 0.0, 0.0, 0.0, false) == (true, [])
    ensures ValidateHeadAngles(DefaultController(), 0.0, 5.0, 0.0, false)
         == (false, [HeadViolation(Pitch, 5.0, Range(-0.5, 0.5))])
    ensures ValidateAntennaPositions(DefaultController(), 0.0, 0.0) == (true, [])
    ensures CalculateSafeDuration(DefaultController(), Pi / 2.0, 0.5) == Ok(Pi / 2.0)
    ensures CalculateSafeDuration(NewController(None, None, 0.0), 1.0, 0.5).Err?
  {
    var c := DefaultController();
    assert CheckAxis(c.head, Roll, 0.0) == [] && CheckAxis(c.head, Yaw, 0.0) == [];
    assert CheckAxis(c.head, Pitch, 5.0) == [HeadViolation(Pitch, 5.0, Range(-0.5, 0.5))];
    assert [] + [HeadViolation(Pitch, 5.0, Range(-0.5, 0.5))] + [] == [HeadViolation(Pitch, 5.0, Range(-0.5, 0.5))];
  }
}
