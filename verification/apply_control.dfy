/** The legacy `applyControl` system over the normalised `Movement` record:
    turn rate within `[-1, 1]`, speed within `[0, 1]`, and the trim angle
    moved at a fixed pi/4 per second. Its turn convention is the mirror
    image of the drivers': turning left raises the turn rate. */
module ApplyControl {
  import opened Numeric
  import opened Ramps
  import opened Components
  import DriverControl

  /** Turning left raises the turn rate, turning right lowers it. */
  function TurnDir(c: BoatControlState): (d: Dir)
    ensures c.turningLeft <==> d == Raise
    ensures !c.turningLeft && c.turningRight <==> d == Lower
  {
    Priority(c.turningLeft, c.turningRight, Raise)
  }

  /** Trimming left lowers the trim angle, trimming right raises it. */
  function TrimDir(c: BoatControlState): (d: Dir)
    ensures c.trimmingLeft <==> d == Lower
    ensures !c.trimmingLeft && c.trimmingRight <==> d == Raise
  {
    Priority(c.trimmingLeft, c.trimmingRight, Lower)
  }

  /** The fixed trim step: pi/4 per second. */
  function TrimStep(): (s: real)
    ensures s > 0.0
  {
    PI * 0.25 * STEP_SIZE
  }

  /** The direction part: the new turn rate. */
  function Turn(c: BoatControlState, m: Movement): (t: real)
    ensures c.turningLeft ==> t <= 1.0
    ensures c.turningLeft && m.turnRateDelta >= 0.0 && m.turnRate <= 1.0 ==> t >= m.turnRate
    ensures !c.turningLeft && c.turningRight ==> t >= -1.0
    ensures !c.turningLeft && c.turningRight && m.turnRateDelta >= 0.0 && m.turnRate >= -1.0 ==> t <= m.turnRate
    ensures !c.turningLeft && !c.turningRight && m.turnRateDelta >= 0.0
            ==> Abs(t) <= Abs(m.turnRate) && (m.turnRate >= 0.0 ==> t >= 0.0) && (m.turnRate <= 0.0 ==> t <= 0.0)
  {
    TurnStep(m.turnRate, m.turnRateDelta * STEP_SIZE, 1.0, TurnDir(c))
  }

  /** The movement part: the new speed. */
  function Speed(c: BoatControlState, m: Movement): (v: real)
    ensures c.accelerating ==> v <= 1.0
    ensures !c.accelerating && c.decelerating ==> v >= 0.0
    ensures !c.accelerating && !c.decelerating ==> v == m.speed
  {
    Nudge(m.speed, m.acceleration * STEP_SIZE, 0.0, 1.0, DriverControl.ForwardDir(c))
  }

  /** The trim part: the new trim angle. */
  function Trim(c: BoatControlState, m: Movement): (a: real)
    ensures c.trimmingLeft ==> a >= -m.maxTrimAngle
    ensures c.trimmingLeft && m.trimAngle - TrimStep() >= -m.maxTrimAngle ==> a == m.trimAngle - TrimStep()
    ensures !c.trimmingLeft && c.trimmingRight ==> a <= m.maxTrimAngle
    ensures !c.trimmingLeft && c.trimmingRight && m.trimAngle + TrimStep() <= m.maxTrimAngle
            ==> a == m.trimAngle + TrimStep()
    ensures !c.trimmingLeft && !c.trimmingRight ==> a == m.trimAngle
  {
    Nudge(m.trimAngle, TrimStep(), -m.maxTrimAngle, m.maxTrimAngle, TrimDir(c))
  }

  /** One movement record's tick: only the turn rate, speed and trim angle
      are written. */
  function Step(c: BoatControlState, m: Movement): (r: Movement)
    ensures r == m.(turnRate := r.turnRate, speed := r.speed, trimAngle := r.trimAngle)
    ensures r.turnRate == Turn(c, m) && r.speed == Speed(c, m) && r.trimAngle == Trim(c, m)
  {
    m.(turnRate := Turn(c, m), speed := Speed(c, m), trimAngle := Trim(c, m))
  }

  /** The ranges the system keeps: turn rate in `[-1, 1]`, speed in
      `[0, 1]`, trim within `[-maxTrimAngle, maxTrimAngle]`. */
  predicate InRange(m: Movement) {
    && -1.0 <= m.turnRate <= 1.0
    && 0.0 <= m.speed <= 1.0
    && -m.maxTrimAngle <= m.trimAngle <= m.maxTrimAngle
  }

  /** With non-negative rates, every tick keeps a record in range. */
  lemma StepKeepsRange(c: BoatControlState, m: Movement)
    requires m.turnRateDelta >= 0.0 && m.acceleration >= 0.0
    requires InRange(m)
    ensures InRange(Step(c, m))
  {
    TurnStepStaysInRange(m.turnRate, m.turnRateDelta * STEP_SIZE, 1.0, TurnDir(c));
    NudgeStaysInRange(m.speed, m.acceleration * STEP_SIZE, 0.0, 1.0, DriverControl.ForwardDir(c));
    NudgeStaysInRange(m.trimAngle, TrimStep(), -m.maxTrimAngle, m.maxTrimAngle, TrimDir(c));
  }

  /** Relaxing is symmetric about zero. */
  lemma RelaxIsOdd(value: real, step: real, limit: real)
    requires limit >= 0.0
    ensures Relax(-value, step, limit) == -Relax(value, step, limit)
  {
  }

  /** The mirror image of the drivers' heading ramp: the legacy turn rate
      is the drivers' heading rule applied to the negated turn rate, with
      limit 1, and negated back. */
  lemma TurnIsMirroredHeading(c: BoatControlState, m: Movement)
    ensures Turn(c, m)
            == -TurnStep(-m.turnRate, m.turnRateDelta * STEP_SIZE, 1.0, DriverControl.HeadingDir(c))
  {
    RelaxIsOdd(m.turnRate, m.turnRateDelta * STEP_SIZE, 1.0);
  }

  /** `parse`: the i-th control state drives the i-th movement record, for
      every index of the control-state array; the rest are untouched. */
  method Parse(controlState: seq<BoatControlState>, movement: seq<Movement>) returns (r: seq<Movement>)
    requires |controlState| <= |movement|
    ensures |r| == |movement|
    ensures forall i :: 0 <= i < |controlState| ==> r[i] == Step(controlState[i], movement[i])
    ensures forall i :: |controlState| <= i < |movement| ==> r[i] == movement[i]
  {
    r := movement;
    var i := 0;
    while i < |controlState|
      invariant 0 <= i <= |controlState|
      invariant |r| == |movement|
      invariant forall k :: 0 <= k < i ==> r[k] == Step(controlState[k], movement[k])
      invariant forall k :: i <= k < |movement| ==> r[k] == movement[k]
    {
      r := r[i := Step(controlState[i], r[i])];
      i := i + 1;
    }
  }
}
