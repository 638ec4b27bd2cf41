/** `MotorDriver`: the motor boat's driver ramps only the heading and
    forward forces, exactly as the sailing driver does; it has no sail. */
module MotorDriver {
  import opened Numeric
  import opened Collections
  import opened Ramps
  import opened Components
  import opened DriverControl
  import BoatDriver

  /** Boats are entities holding both a control state and a motor driver. */
  const MASK: ComponentMask :=
    [("boats", [("control", ComponentDefinition("BoatControlState", true)),
                ("driver", ComponentDefinition("MotorLocomotion", true))])]

  /** `applyControl`: one tick of the heading and forward ramps. */
  function ApplyControl(c: BoatControlState, d: MotorLocomotion): (r: MotorLocomotion)
    // rates and limits are never written; of the forces only heading and forward
    ensures r.rates == d.rates && r.limits == d.limits
    ensures r.forces == d.forces.(forward := r.forces.forward, heading := r.forces.heading)
    // direction
    ensures c.turningLeft ==> r.forces.heading >= -d.limits.heading
    ensures c.turningLeft && d.forces.heading - d.rates.heading * STEP_SIZE >= -d.limits.heading
            ==> r.forces.heading == d.forces.heading - d.rates.heading * STEP_SIZE
    ensures !c.turningLeft && c.turningRight ==> r.forces.heading <= d.limits.heading
    ensures !c.turningLeft && c.turningRight && d.forces.heading + d.rates.heading * STEP_SIZE <= d.limits.heading
            ==> r.forces.heading == d.forces.heading + d.rates.heading * STEP_SIZE
    ensures !c.turningLeft && !c.turningRight && d.rates.heading >= 0.0 && d.limits.heading >= 0.0
            ==> Abs(r.forces.heading) <= Abs(d.forces.heading) && (d.forces.heading >= 0.0 ==> r.forces.heading >= 0.0) && (d.forces.heading <= 0.0 ==> r.forces.heading <= 0.0)
    // movement
    ensures c.accelerating ==> r.forces.forward <= d.limits.forward
    ensures !c.accelerating && c.decelerating ==> r.forces.forward >= 0.0
    ensures !c.accelerating && !c.decelerating ==> r.forces.forward == d.forces.forward
  {
    d.(forces := d.forces.(
         heading := TurnStep(d.forces.heading, d.rates.heading * STEP_SIZE, d.limits.heading, HeadingDir(c)),
         forward := Nudge(d.forces.forward, d.rates.forward * STEP_SIZE, 0.0, d.limits.forward, ForwardDir(c))))
  }

  /** The motor driver is the sailing driver without its sail: on the same
      forces, rates and limits both compute the same new forces, and the
      sailing driver's trim is the only extra thing it writes. */
  lemma AgreesWithBoatDriver(c: BoatControlState, m: MotorLocomotion, b: BoatLocomotion)
    requires b.rates == m.rates && b.forces == m.forces && b.limits == m.limits
    ensures ApplyControl(c, m).forces == BoatDriver.ApplyControl(c, b).forces
  {
  }

  /** `parse`: every boat is driven by its own control state. */
  function Parse(boats: seq<(BoatControlState, MotorLocomotion)>): (r: seq<MotorLocomotion>)
    ensures |r| == |boats|
    ensures forall i :: 0 <= i < |boats| ==> r[i] == ApplyControl(boats[i].0, boats[i].1)
    decreases |boats|
  {
    if |boats| == 0 then []
    else [ApplyControl(boats[0].0, boats[0].1)] + Parse(boats[1..])
  }
}
