/** How the drivers read a control state: which way each held flag pushes
    the heading, forward and trim values. In every pair the first flag wins
    when both are held. */
module DriverControl {
  import opened Ramps
  import opened Components

  /** Turning left lowers the heading force, turning right raises it. */
  function HeadingDir(c: BoatControlState): (d: Dir)
    ensures c.turningLeft <==> d == Lower
    ensures !c.turningLeft && c.turningRight <==> d == Raise
  {
    Priority(c.turningLeft, c.turningRight, Lower)
  }

  /** Accelerating raises the forward force, decelerating lowers it. */
  function ForwardDir(c: BoatControlState): (d: Dir)
    ensures c.accelerating <==> d == Raise
    ensures !c.accelerating && c.decelerating <==> d == Lower
  {
    Priority(c.accelerating, c.decelerating, Raise)
  }

  /** Trimming left raises the trim angle, trimming right lowers it. */
  function TrimDir(c: BoatControlState): (d: Dir)
    ensures c.trimmingLeft <==> d == Raise
    ensures !c.trimmingLeft && c.trimmingRight <==> d == Lower
  {
    Priority(c.trimmingLeft, c.trimmingRight, Raise)
  }

  /** With every flag off, nothing is pushed. */
  lemma IdleKeepsEverything()
    ensures HeadingDir(IDLE) == Keep && ForwardDir(IDLE) == Keep && TrimDir(IDLE) == Keep
  {
  }
}
