/** `BoatDriver`: each tick, the held control flags ramp a sailing boat's
    heading force, forward force and sail trim. */
module BoatDriver {
  import opened Numeric
  import opened Collections
  import opened Ramps
  import opened Components
  import opened DriverControl

  /** Boats are entities holding both a control state and a sailing driver. */
  const MASK: ComponentMask :=
    [("boats", [("control", ComponentDefinition("BoatControlState", true)),
                ("driver", ComponentDefinition("BoatLocomotion", true))])]

  /** The driver's configuration is sane: non-negative rates and limits. */
  predicate Sane(d: BoatLocomotion) {
    && d.rates.heading >= 0.0 && d.rates.forward >= 0.0 && d.trimRate >= 0.0
    && d.limits.heading >= 0.0 && d.limits.forward >= 0.0 && d.maxTrimAngle >= 0.0
  }

  /** The ranges the driver keeps its values in: heading within
      `[-limit, limit]`, forward within `[0, limit]`, trim within
      `[-maxTrimAngle, maxTrimAngle]`. */
  predicate InEnvelope(d: BoatLocomotion) {
    && -d.limits.heading <= d.forces.heading <= d.limits.heading
    && 0.0 <= d.forces.forward <= d.limits.forward
    && -d.maxTrimAngle <= d.trimAngle <= d.maxTrimAngle
  }

  /** `applyControl`: one tick of the three ramps ("Direction", "Movement"
      and "Trim" below); nothing but the heading and forward forces and the
      trim angle is written. */
  function ApplyControl(c: BoatControlState, d: BoatLocomotion): (r: BoatLocomotion)
    ensures r == d.(forces := r.forces, trimAngle := r.trimAngle)
    ensures r.forces == d.forces.(forward := r.forces.forward, heading := r.forces.heading)
    ensures c == IDLE && d.forces.heading == 0.0 ==> r == d
  {
    d.(forces := d.forces.(heading := TurnStep(d.forces.heading, d.rates.heading * STEP_SIZE, d.limits.heading, HeadingDir(c)),
                           forward := Nudge(d.forces.forward, d.rates.forward * STEP_SIZE, 0.0, d.limits.forward, ForwardDir(c))),
       trimAngle := Nudge(d.trimAngle, d.trimRate * STEP_SIZE, -d.maxTrimAngle, d.maxTrimAngle, TrimDir(c)))
  }

  /** The "Direction" part of `applyControl`: the heading force after the
      tick, ramped while a turn flag is held (left first) and relaxed toward
      zero otherwise. */
  function Direction(c: BoatControlState, d: BoatLocomotion): (h: real)
    ensures c.turningLeft ==> h >= -d.limits.heading
    ensures c.turningLeft && d.forces.heading - d.rates.heading * STEP_SIZE >= -d.limits.heading
            ==> h == d.forces.heading - d.rates.heading * STEP_SIZE
    ensures !c.turningLeft && c.turningRight ==> h <= d.limits.heading
    ensures !c.turningLeft && c.turningRight && d.forces.heading + d.rates.heading * STEP_SIZE <= d.limits.heading
            ==> h == d.forces.heading + d.rates.heading * STEP_SIZE
    ensures !c.turningLeft && !c.turningRight && Sane(d)
            ==> Abs(h) <= Abs(d.forces.heading) && (d.forces.heading >= 0.0 ==> h >= 0.0) && (d.forces.heading <= 0.0 ==> h <= 0.0)
    ensures !c.turningLeft && !c.turningRight && d.forces.heading == 0.0 ==> h == 0.0
  {
    ApplyControl(c, d).forces.heading
  }

  /** The "Movement" part: the forward force after the tick, ramped up or
      down (accelerate first) within `[0, limit]`. */
  function Movement(c: BoatControlState, d: BoatLocomotion): (f: real)
    ensures c.accelerating ==> f <= d.limits.forward
    ensures c.accelerating && d.forces.forward + d.rates.forward * STEP_SIZE <= d.limits.forward
            ==> f == d.forces.forward + d.rates.forward * STEP_SIZE
    ensures c.accelerating && Sane(d) && d.forces.forward >= d.limits.forward ==> f == d.limits.forward
    ensures !c.accelerating && c.decelerating ==> f >= 0.0
    ensures !c.accelerating && c.decelerating && d.forces.forward - d.rates.forward * STEP_SIZE >= 0.0
            ==> f == d.forces.forward - d.rates.forward * STEP_SIZE
    ensures !c.accelerating && !c.decelerating ==> f == d.forces.forward
  {
    ApplyControl(c, d).forces.forward
  }

  /** The "Trim" part: the trim angle after the tick, ramped (left first)
      within `[-maxTrimAngle, maxTrimAngle]`. */
  function Trim(c: BoatControlState, d: BoatLocomotion): (t: real)
    ensures c.trimmingLeft ==> t <= d.maxTrimAngle
    ensures c.trimmingLeft && d.trimAngle + d.trimRate * STEP_SIZE <= d.maxTrimAngle
            ==> t == d.trimAngle + d.trimRate * STEP_SIZE
    ensures !c.trimmingLeft && c.trimmingRight ==> t >= -d.maxTrimAngle
    ensures !c.trimmingLeft && c.trimmingRight && d.trimAngle - d.trimRate * STEP_SIZE >= -d.maxTrimAngle
            ==> t == d.trimAngle - d.trimRate * STEP_SIZE
    ensures !c.trimmingLeft && !c.trimmingRight ==> t == d.trimAngle
  {
    ApplyControl(c, d).trimAngle
  }

  /** Whatever the flags, a sane driver inside its envelope stays inside it. */
  lemma ApplyControlKeepsEnvelope(c: BoatControlState, d: BoatLocomotion)
    requires Sane(d) && InEnvelope(d)
    ensures Sane(ApplyControl(c, d)) && InEnvelope(ApplyControl(c, d))
  {
    TurnStepStaysInRange(d.forces.heading, d.rates.heading * STEP_SIZE, d.limits.heading, HeadingDir(c));
    NudgeStaysInRange(d.forces.forward, d.rates.forward * STEP_SIZE, 0.0, d.limits.forward, ForwardDir(c));
    NudgeStaysInRange(d.trimAngle, d.trimRate * STEP_SIZE, -d.maxTrimAngle, d.maxTrimAngle, TrimDir(c));
  }

  /** `parse`: every boat is driven by its own control state. */
  function Parse(boats: seq<(BoatControlState, BoatLocomotion)>): (r: seq<BoatLocomotion>)
    ensures |r| == |boats|
    ensures forall i :: 0 <= i < |boats| ==> r[i] == ApplyControl(boats[i].0, boats[i].1)
    decreases |boats|
  {
    if |boats| == 0 then []
    else [ApplyControl(boats[0].0, boats[0].1)] + Parse(boats[1..])
  }

  /** `n` ticks with the same control state held. */
  function Ticks(c: BoatControlState, d: BoatLocomotion, n: nat): BoatLocomotion
    decreases n
  {
    if n == 0 then d else ApplyControl(c, Ticks(c, d, n - 1))
  }

  /** Rates and limits never change, however long the flags are held. */
  lemma {:induction false} TicksKeepConfig(c: BoatControlState, d: BoatLocomotion, n: nat)
    ensures Ticks(c, d, n).rates == d.rates && Ticks(c, d, n).limits == d.limits
    ensures Ticks(c, d, n).trimRate == d.trimRate && Ticks(c, d, n).maxTrimAngle == d.maxTrimAngle
    decreases n
  {
    if n > 0 {
      TicksKeepConfig(c, d, n - 1);
    }
  }

  /** One tick of each ramp, as the ramp shapes state it. */
  lemma HeadingStep(c: BoatControlState, d: BoatLocomotion)
    ensures ApplyControl(c, d).forces.heading
            == TurnStep(d.forces.heading, d.rates.heading * STEP_SIZE, d.limits.heading, HeadingDir(c))
  {
  }

  lemma ForwardStep(c: BoatControlState, d: BoatLocomotion)
    ensures ApplyControl(c, d).forces.forward
            == Nudge(d.forces.forward, d.rates.forward * STEP_SIZE, 0.0, d.limits.forward, ForwardDir(c))
  {
  }

  lemma TrimStep(c: BoatControlState, d: BoatLocomotion)
    ensures ApplyControl(c, d).trimAngle
            == Nudge(d.trimAngle, d.trimRate * STEP_SIZE, -d.maxTrimAngle, d.maxTrimAngle, TrimDir(c))
  {
  }

  /** Tick `n` moves each ramped value by one step of the driver's own
      (unchanging) rates and limits. */
  lemma HeadingTick(c: BoatControlState, d: BoatLocomotion, n: nat)
    requires n > 0 && HeadingDir(c) != Keep
    ensures Ticks(c, d, n).forces.heading
            == Nudge(Ticks(c, d, n - 1).forces.heading, d.rates.heading * STEP_SIZE, -d.limits.heading, d.limits.heading, HeadingDir(c))
  {
    var prev := Ticks(c, d, n - 1);
    TicksKeepConfig(c, d, n - 1);
    assert prev.rates.heading == d.rates.heading && prev.limits.heading == d.limits.heading;
    HeadingStep(c, prev);
  }

  lemma ForwardTick(c: BoatControlState, d: BoatLocomotion, n: nat)
    requires n > 0
    ensures Ticks(c, d, n).forces.forward
            == Nudge(Ticks(c, d, n - 1).forces.forward, d.rates.forward * STEP_SIZE, 0.0, d.limits.forward, ForwardDir(c))
  {
    TicksKeepConfig(c, d, n - 1);
    ForwardStep(c, Ticks(c, d, n - 1));
  }

  lemma TrimTick(c: BoatControlState, d: BoatLocomotion, n: nat)
    requires n > 0
    ensures Ticks(c, d, n).trimAngle
            == Nudge(Ticks(c, d, n - 1).trimAngle, d.trimRate * STEP_SIZE, -d.maxTrimAngle, d.maxTrimAngle, TrimDir(c))
  {
    TicksKeepConfig(c, d, n - 1);
    TrimStep(c, Ticks(c, d, n - 1));
  }

  /** While a turn flag is held, the heading is nudged every tick. */
  lemma {:induction false} TicksHeading(c: BoatControlState, d: BoatLocomotion, n: nat)
    requires HeadingDir(c) != Keep
    ensures Ticks(c, d, n).forces.heading
            == NudgeTicks(d.forces.heading, d.rates.heading * STEP_SIZE, -d.limits.heading, d.limits.heading, HeadingDir(c), n)
    decreases n
  {
    if n > 0 {
      TicksHeading(c, d, n - 1);
      HeadingTick(c, d, n);
    }
  }

  /** The forward force follows its ramp (standing still with neither flag). */
  lemma {:induction false} TicksForward(c: BoatControlState, d: BoatLocomotion, n: nat)
    ensures Ticks(c, d, n).forces.forward
            == NudgeTicks(d.forces.forward, d.rates.forward * STEP_SIZE, 0.0, d.limits.forward, ForwardDir(c), n)
    decreases n
  {
    if n > 0 {
      TicksForward(c, d, n - 1);
      ForwardTick(c, d, n);
    }
  }

  /** The trim angle follows its ramp (standing still with neither flag). */
  lemma {:induction false} TicksTrim(c: BoatControlState, d: BoatLocomotion, n: nat)
    ensures Ticks(c, d, n).trimAngle
            == NudgeTicks(d.trimAngle, d.trimRate * STEP_SIZE, -d.maxTrimAngle, d.maxTrimAngle, TrimDir(c), n)
    decreases n
  {
    if n > 0 {
      TicksTrim(c, d, n - 1);
      TrimTick(c, d, n);
    }
  }

  /** From rest, `n >= 1` accelerating ticks give `min(n * step, limit)`
      (`Stride(n, step)` is `n * step`, by `StrideIsProduct`):
      the forward force grows by one step per tick, then holds the limit. */
  lemma AccelerateFromRest(c: BoatControlState, d: BoatLocomotion, n: nat)
    requires c.accelerating && d.forces.forward == 0.0 && d.rates.forward >= 0.0 && 1 <= n
    ensures Ticks(c, d, n).forces.forward == Min(Stride(n, d.rates.forward * STEP_SIZE), d.limits.forward)
  {
    var step := d.rates.forward * STEP_SIZE;
    TicksForward(c, d, n);
    RaiseTicksClosedForm(0.0, step, 0.0, d.limits.forward, n);
  }

  /** From straight ahead, `n >= 1` left-turning ticks give
      `max(-n * step, -limit)`, and right-turning ones `min(n * step, limit)`. */
  lemma TurnFromRest(c: BoatControlState, d: BoatLocomotion, n: nat)
    requires d.forces.heading == 0.0 && d.rates.heading >= 0.0 && 1 <= n
    ensures c.turningLeft
            ==> Ticks(c, d, n).forces.heading == Max(-(Stride(n, d.rates.heading * STEP_SIZE)), -d.limits.heading)
    ensures !c.turningLeft && c.turningRight
            ==> Ticks(c, d, n).forces.heading == Min(Stride(n, d.rates.heading * STEP_SIZE), d.limits.heading)
  {
    var step := d.rates.heading * STEP_SIZE;
    if c.turningLeft {
      TicksHeading(c, d, n);
      LowerTicksClosedForm(0.0, step, -d.limits.heading, d.limits.heading, n);
    } else if c.turningRight {
      TicksHeading(c, d, n);
      RaiseTicksClosedForm(0.0, step, -d.limits.heading, d.limits.heading, n);
    }
  }

  /** From a centred sail, `n >= 1` ticks trimming left give
      `min(n * step, maxTrimAngle)`, and trimming right
      `max(-n * step, -maxTrimAngle)`. */
  lemma TrimFromCentre(c: BoatControlState, d: BoatLocomotion, n: nat)
    requires d.trimAngle == 0.0 && d.trimRate >= 0.0 && 1 <= n
    ensures c.trimmingLeft
            ==> Ticks(c, d, n).trimAngle == Min(Stride(n, d.trimRate * STEP_SIZE), d.maxTrimAngle)
    ensures !c.trimmingLeft && c.trimmingRight
            ==> Ticks(c, d, n).trimAngle == Max(-(Stride(n, d.trimRate * STEP_SIZE)), -d.maxTrimAngle)
  {
    TicksTrim(c, d, n);
    RateStepNonNegative(d.trimRate);
    if c.trimmingLeft {
      RaiseTicksClosedForm(0.0, d.trimRate * STEP_SIZE, -d.maxTrimAngle, d.maxTrimAngle, n);
    } else if c.trimmingRight {
      TrimRightFromCentre(d, n);
    }
  }

  /** Trimming right from the centre, as a closed form of the ticks. */
  lemma TrimRightFromCentre(d: BoatLocomotion, n: nat)
    requires d.trimRate >= 0.0 && 1 <= n
    ensures NudgeTicks(0.0, d.trimRate * STEP_SIZE, -d.maxTrimAngle, d.maxTrimAngle, Lower, n)
            == Max(-(Stride(n, d.trimRate * STEP_SIZE)), -d.maxTrimAngle)
  {
    RateStepNonNegative(d.trimRate);
    LowerTicksClosedForm(0.0, d.trimRate * STEP_SIZE, -d.maxTrimAngle, d.maxTrimAngle, n);
  }

  /** The factory's driver (forward rate 4, limit 10) accelerating from
      rest: 10 ticks give 0.8, `ceil(10 / 4 * 50) = 125` ticks reach the
      limit exactly, and one tick more stays there. */
  lemma FactoryAccelerationScenario(c: BoatControlState, d: BoatLocomotion)
    requires c.accelerating && d.forces.forward == 0.0
    requires d.rates.forward == 4.0 && d.limits.forward == 10.0
    ensures Ticks(c, d, 10).forces.forward == 0.8
    ensures Ticks(c, d, 125).forces.forward == 10.0
    ensures Ticks(c, d, 126).forces.forward == 10.0
  {
    AccelerateFromRest(c, d, 10);
    StrideIsProduct(10, 0.08);
    AccelerateFromRest(c, d, 125);
    StrideIsProduct(125, 0.08);
    AccelerateFromRest(c, d, 126);
    StrideIsProduct(126, 0.08);
  }
}
