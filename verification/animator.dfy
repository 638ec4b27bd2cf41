/** The `Animator` system: every clip of every actor's rigging eases its
    state toward its target with a bang-bang rate control (accelerate
    toward the target, brake when the stopping distance covers what is
    left), never overshooting the target, and handles the end of the
    animation by the clip's kind. */
module Animator {
  import opened Numeric
  import opened Helpers
  import opened Wrappers
  import opened Collections
  import opened Ramps

  /** The clip subclasses, told apart by `instanceof`, with the fields the
      system reads from each. */
  datatype ClipKind =
    | Plain
    | Looping(lowerState: real, upperState: real, drectionForward: bool)
    | Bouncing(lowerState: real, upperState: real, currentDirectionForward: bool)
    | Wrapping(lowerState: real, upperState: real)

  /** An animation clip; an `acceleration` of `None` is JavaScript `null`. */
  datatype Clip = Clip(
    state: real,
    targetState: real,
    changeRate: real,
    maxRate: real,
    acceleration: Option<real>,
    ended: bool,
    kind: ClipKind)

  const MASK: ComponentMask :=
    [("actors", [("rigging", ComponentDefinition("AnimationRigging", true))])]

  // ------------------------------------------------------ shortest distance

  /** `getShortestDistance`: of the direct delta to the target and the two
      deltas that go once around the ring `[min, max)`, the one of least
      magnitude (the direct one on a tie with it, the forward one on a tie
      between the two others). */
  function ShortestDistance(current: real, target: real, min: real, max: real): (r: real)
    ensures r == target - current || r == target - current + (max - min) || r == target - current - (max - min)
    ensures Abs(r) <= Abs(target - current)
    ensures Abs(r) <= Abs(target - current + (max - min))
    ensures Abs(r) <= Abs(target - current - (max - min))
  {
    var required := target - current;
    var forward := target - (current - (max - min));
    var reverse := target - (current + (max - min));
    var adjusted := if Abs(forward) <= Abs(reverse) then forward else reverse;
    if Abs(adjusted) < Abs(required) then adjusted else required
  }

  /** Between two points of the ring, the shortest distance is at most half
      the ring. */
  lemma ShortestDistanceAtMostHalf(current: real, target: real, min: real, max: real)
    requires min <= current < max && min <= target < max
    ensures Abs(ShortestDistance(current, target, min, max)) <= (max - min) / 2.0
  {
  }

  // ------------------------------------------------------------ adjustRate

  /** The delta the rate control steers by: the shortest distance around
      the ring for a wrapping clip, the direct delta otherwise. */
  function RequiredDelta(c: Clip): (r: real)
    ensures !c.kind.Wrapping? ==> r == c.targetState - c.state
    ensures c.kind.Wrapping? ==> r == ShortestDistance(c.state, c.targetState, c.kind.lowerState, c.kind.upperState)
    ensures c.kind.Wrapping? ==>
              var direct, width := c.targetState - c.state, c.kind.upperState - c.kind.lowerState;
              && (r == direct || r == direct + width || r == direct - width)
              && Abs(r) <= Abs(direct + width) && Abs(r) <= Abs(direct - width)
    ensures Abs(r) <= Abs(c.targetState - c.state)
  {
    match c.kind
    case Wrapping(lo, hi) => ShortestDistance(c.state, c.targetState, lo, hi)
    case _ => c.targetState - c.state
  }

  /** Whether the clip brakes: the signed stopping distance
      `rate^2 / (2 acc) * sign(rate)` has the sign of the delta and covers
      it. With `acc == 0` the stopping distance is an infinity of the
      rate's sign for a moving clip (which covers any delta) and NaN for a
      resting one (which equals nothing). With a positive acceleration: a
      moving clip brakes exactly when it moves toward the target and its
      stopping distance `rate^2 / (2 acc)` reaches it; a resting one only
      when there is nothing left to cover. */
  function Brakes(rate: real, acc: real, delta: real): (b: bool)
    ensures acc > 0.0 && rate == 0.0 ==> (b <==> delta == 0.0)
    ensures acc > 0.0 && rate != 0.0 ==>
              (b <==> Sign(rate) == Sign(delta) && rate * rate / (2.0 * acc) >= Abs(delta))
  {
    BrakesByStoppingDistance(rate, acc);
    if acc == 0.0 then rate != 0.0 && Sign(rate) == Sign(delta)
    else
      var toStop := rate * rate / (2.0 * acc) * Sign(rate);
      Sign(toStop) == Sign(delta) && Abs(toStop) >= Abs(delta)
  }

  /** The signed stopping distance of a moving clip has the rate's sign and
      the magnitude `rate^2 / (2 acc)`. */
  lemma BrakesByStoppingDistance(rate: real, acc: real)
    ensures acc > 0.0 && rate != 0.0 ==>
              var q := rate * rate / (2.0 * acc);
              q > 0.0 && Sign(q * Sign(rate)) == Sign(rate) && Abs(q * Sign(rate)) == q
  {
    if acc > 0.0 && rate != 0.0 {
      SquareOverPositive(rate, 2.0 * acc);
    }
  }

  /** With a positive acceleration, braking happens only when moving toward
      the target. */
  lemma BrakingMovesTowardTarget(rate: real, acc: real, delta: real)
    requires acc >= 0.0 && Brakes(rate, acc, delta)
    ensures delta > 0.0 ==> rate > 0.0
    ensures delta < 0.0 ==> rate < 0.0
  {
    if acc > 0.0 && rate != 0.0 {
      SquareOverPositive(rate, 2.0 * acc);
    }
  }

  /** The accelerate branch: push the rate toward the delta, then cap its
      magnitude at `maxRate` unless that is 0. Under a positive cap the
      rate rises when this tick's move falls short of the delta and falls
      when it would pass it, as far as the cap lets it: strictly, from
      below the cap, when the acceleration is positive. */
  function Accelerate(rate: real, acc: real, maxRate: real, delta: real): (r: real)
    ensures maxRate > 0.0 ==> Abs(r) <= maxRate
    ensures acc >= 0.0 && maxRate > 0.0 && rate * STEP_SIZE <= delta ==> r >= Min(rate, maxRate)
    ensures acc >= 0.0 && maxRate > 0.0 && rate * STEP_SIZE > delta ==> r <= Max(rate, -maxRate)
    ensures acc > 0.0 && maxRate > 0.0 && rate < maxRate && rate * STEP_SIZE <= delta ==> r > rate
    ensures acc > 0.0 && maxRate > 0.0 && rate > -maxRate && rate * STEP_SIZE > delta ==> r < rate
    ensures maxRate == 0.0 && rate * STEP_SIZE > delta ==> r == rate - acc * STEP_SIZE
    ensures maxRate == 0.0 && rate * STEP_SIZE <= delta ==> r == rate + acc * STEP_SIZE
  {
    var pushed := if rate * STEP_SIZE > delta then rate - acc * STEP_SIZE else rate + acc * STEP_SIZE;
    if maxRate != 0.0 && Abs(pushed) > maxRate then Sign(pushed) * maxRate else pushed
  }

  /** The braking branch: slow toward 0 without crossing it; a rate moving
      toward the target strictly slows under a positive acceleration. */
  function Brake(rate: real, acc: real, delta: real): (r: real)
    ensures delta > 0.0 ==> r >= 0.0
    ensures delta <= 0.0 ==> r <= 0.0
    ensures acc >= 0.0 && rate >= 0.0 && delta > 0.0 ==> r <= rate
    ensures acc >= 0.0 && rate <= 0.0 && delta <= 0.0 ==> r >= rate
    ensures acc > 0.0 && rate > 0.0 && delta > 0.0 ==> r < rate
    ensures acc > 0.0 && rate < 0.0 && delta <= 0.0 ==> r > rate
  {
    if delta > 0.0 then Max(rate - acc * STEP_SIZE, 0.0)
    else Min(rate + acc * STEP_SIZE, 0.0)
  }

  /** `adjustRate`. */
  function AdjustRate(c: Clip): (r: Clip)
    ensures r == c.(changeRate := r.changeRate)
    ensures c.acceleration.None? ==> r == c
    ensures c.acceleration.Some? && Brakes(c.changeRate, c.acceleration.value, RequiredDelta(c))
            ==> r.changeRate == Brake(c.changeRate, c.acceleration.value, RequiredDelta(c))
    ensures c.acceleration.Some? && !Brakes(c.changeRate, c.acceleration.value, RequiredDelta(c))
            ==> r.changeRate == Accelerate(c.changeRate, c.acceleration.value, c.maxRate, RequiredDelta(c))
  {
    match c.acceleration
    case None => c
    case Some(acc) =>
      var delta := RequiredDelta(c);
      if Brakes(c.changeRate, acc, delta) then c.(changeRate := Brake(c.changeRate, acc, delta))
      else c.(changeRate := Accelerate(c.changeRate, acc, c.maxRate, delta))
  }

  /** Braking never changes the rate's sign and never grows it: for a
      target ahead the rate stays in `[0, rate]`, for one behind in
      `[rate, 0]`; under a positive acceleration it strictly shrinks. */
  lemma BrakingKeepsSignAndShrinks(c: Clip)
    requires c.acceleration.Some? && c.acceleration.value >= 0.0
    requires Brakes(c.changeRate, c.acceleration.value, RequiredDelta(c))
    ensures RequiredDelta(c) > 0.0 ==> 0.0 <= AdjustRate(c).changeRate <= c.changeRate
    ensures RequiredDelta(c) < 0.0 ==> c.changeRate <= AdjustRate(c).changeRate <= 0.0
    ensures c.acceleration.value > 0.0 && RequiredDelta(c) > 0.0 ==> AdjustRate(c).changeRate < c.changeRate
    ensures c.acceleration.value > 0.0 && RequiredDelta(c) < 0.0 ==> c.changeRate < AdjustRate(c).changeRate
  {
    BrakingMovesTowardTarget(c.changeRate, c.acceleration.value, RequiredDelta(c));
  }

  /** From rest, with a positive acceleration and a non-negative rate cap,
      the rate starts toward the target. */
  lemma StartsTowardTarget(c: Clip)
    requires c.changeRate == 0.0 && c.acceleration.Some? && c.acceleration.value > 0.0 && c.maxRate >= 0.0
    ensures RequiredDelta(c) > 0.0 ==> AdjustRate(c).changeRate > 0.0
    ensures RequiredDelta(c) < 0.0 ==> AdjustRate(c).changeRate < 0.0
  {
  }

  /** The test suite's rate cases, with acceleration 0.1 and cap 0.5: for
      a target above, a rate of 0.1 or -1 rises; for a target below, a rate
      of -0.1 or 1 falls. */
  lemma AdjustRateSuiteCases(c: Clip)
    requires c.kind.Plain? && c.acceleration == Some(0.1) && c.maxRate == 0.5 && c.state == 0.0
    ensures c.targetState == 1.0 && c.changeRate == 0.1 ==> AdjustRate(c).changeRate > 0.1
    ensures c.targetState == 1.0 && c.changeRate == -1.0 ==> AdjustRate(c).changeRate > -1.0
    ensures c.targetState == -1.0 && c.changeRate == -0.1 ==> AdjustRate(c).changeRate < -0.1
    ensures c.targetState == -1.0 && c.changeRate == 1.0 ==> AdjustRate(c).changeRate < 1.0
  {
  }

  /** The test suite's approach cases: 0.05 short of the target at full
      rate 1 (from either side), the clip brakes, by one acceleration step. */
  lemma DeceleratesNearTargetCases(c: Clip)
    requires c.kind.Plain? && c.acceleration == Some(0.1) && c.maxRate == 0.5
    ensures c.state == 0.95 && c.targetState == 1.0 && c.changeRate == 1.0
            ==> AdjustRate(c).changeRate == 1.0 - 0.1 * STEP_SIZE
    ensures c.state == -0.95 && c.targetState == -1.0 && c.changeRate == -1.0
            ==> AdjustRate(c).changeRate == -1.0 + 0.1 * STEP_SIZE
  {
  }

  // ------------------------------------------------------------- applyRate

  /** `applyRate`: a wrapping clip moves around its ring and snaps to the
      target when the shortest distance changes sign (it has passed it); any
      other clip moves toward the target without passing it, and one whose
      rate points away from the target lands on it at once. */
  function ApplyRate(c: Clip): (r: Clip)
    ensures r == c.(state := r.state)
    ensures !c.kind.Wrapping? && c.changeRate > 0.0 ==> r.state <= c.targetState
    ensures !c.kind.Wrapping? && c.changeRate > 0.0 && c.state <= c.targetState ==> c.state <= r.state
    ensures !c.kind.Wrapping? && c.changeRate < 0.0 ==> r.state >= c.targetState
    ensures !c.kind.Wrapping? && c.changeRate < 0.0 && c.state >= c.targetState ==> c.state >= r.state
    ensures !c.kind.Wrapping? && c.changeRate == 0.0 ==> r.state == c.state
    // a rate pointing away from the target snaps the clip onto it
    ensures !c.kind.Wrapping? && c.changeRate < 0.0 && c.state <= c.targetState ==> r.state == c.targetState
    ensures !c.kind.Wrapping? && c.changeRate > 0.0 && c.state >= c.targetState ==> r.state == c.targetState
    ensures c.kind.Wrapping? ==>
              var lo, hi := c.kind.lowerState, c.kind.upperState;
              var moved := Wrap(c.state + c.changeRate * STEP_SIZE, lo, hi);
              Sign(ShortestDistance(c.state, c.targetState, lo, hi)) != Sign(ShortestDistance(moved, c.targetState, lo, hi))
              ==> r.state == c.targetState
    ensures c.kind.Wrapping? ==>
              var lo, hi := c.kind.lowerState, c.kind.upperState;
              var moved := Wrap(c.state + c.changeRate * STEP_SIZE, lo, hi);
              Sign(ShortestDistance(c.state, c.targetState, lo, hi)) == Sign(ShortestDistance(moved, c.targetState, lo, hi))
              ==> r.state == moved
    ensures c.kind.Wrapping? && c.kind.lowerState <= c.state < c.kind.upperState
            && c.kind.lowerState <= c.targetState < c.kind.upperState
            && Abs(c.changeRate * STEP_SIZE) < c.kind.upperState - c.kind.lowerState
            ==> c.kind.lowerState <= r.state < c.kind.upperState
  {
    match c.kind
    case Wrapping(lo, hi) =>
      var before := ShortestDistance(c.state, c.targetState, lo, hi);
      var moved := Wrap(c.state + c.changeRate * STEP_SIZE, lo, hi);
      var after := ShortestDistance(moved, c.targetState, lo, hi);
      c.(state := if Sign(before) != Sign(after) then c.targetState else moved)
    case _ =>
      if c.changeRate > 0.0 then c.(state := Min(c.state + c.changeRate * STEP_SIZE, c.targetState))
      else if c.changeRate < 0.0 then c.(state := Max(c.state + c.changeRate * STEP_SIZE, c.targetState))
      else c
  }

  function ApplyRateTicks(c: Clip, n: nat): Clip
    decreases n
  {
    if n == 0 then c else ApplyRate(ApplyRateTicks(c, n - 1))
  }

  /** One tick at a positive rate of a clip that is not wrapping is a
      raising nudge capped at the target. */
  lemma ApplyRateRaises(c: Clip, lo: real)
    requires !c.kind.Wrapping? && c.changeRate > 0.0
    ensures ApplyRate(c).state == Nudge(c.state, c.changeRate * STEP_SIZE, lo, c.targetState, Raise)
  {
  }

  /** Ticks of `applyRate` change nothing but the state. */
  lemma {:induction false} ApplyRateTicksKeepClip(c: Clip, n: nat)
    ensures ApplyRateTicks(c, n) == c.(state := ApplyRateTicks(c, n).state)
    decreases n
  {
    if n > 0 {
      ApplyRateTicksKeepClip(c, n - 1);
    }
  }

  /** For a clip that is not wrapping, ticks at a fixed positive rate move
      the state by one step each but stop exactly at the target. */
  lemma {:induction false} ApplyRateTicksStopAtTarget(c: Clip, n: nat)
    requires !c.kind.Wrapping? && c.changeRate > 0.0
    ensures ApplyRateTicks(c, n).state == NudgeTicks(c.state, c.changeRate * STEP_SIZE, c.state, c.targetState, Raise, n)
    decreases n
  {
    if n > 0 {
      ApplyRateTicksStopAtTarget(c, n - 1);
      ApplyRateTick(c, n);
    }
  }

  /** The last of `n` ticks at a positive rate is a raising nudge of the
      state the first `n - 1` reached. */
  lemma ApplyRateTick(c: Clip, n: nat)
    requires !c.kind.Wrapping? && c.changeRate > 0.0 && n > 0
    ensures ApplyRateTicks(c, n).state
            == Nudge(ApplyRateTicks(c, n - 1).state, c.changeRate * STEP_SIZE, c.state, c.targetState, Raise)
  {
    ApplyRateTicksKeepClip(c, n - 1);
    ApplyRateRaises(ApplyRateTicks(c, n - 1), c.state);
  }

  /** One tick at a negative rate of a clip that is not wrapping is a
      lowering nudge floored at the target. */
  lemma ApplyRateLowers(c: Clip, hi: real)
    requires !c.kind.Wrapping? && c.changeRate < 0.0
    ensures ApplyRate(c).state == Nudge(c.state, -(c.changeRate * STEP_SIZE), c.targetState, hi, Lower)
  {
  }

  /** For a clip that is not wrapping, ticks at a fixed negative rate move
      the state down by one step each but stop exactly at the target. */
  lemma {:induction false} ApplyRateTicksStopAtTargetFromAbove(c: Clip, n: nat)
    requires !c.kind.Wrapping? && c.changeRate < 0.0
    ensures ApplyRateTicks(c, n).state
            == NudgeTicks(c.state, -(c.changeRate * STEP_SIZE), c.targetState, c.state, Lower, n)
    decreases n
  {
    if n > 0 {
      ApplyRateTicksStopAtTargetFromAbove(c, n - 1);
      ApplyRateLowerTick(c, n);
    }
  }

  /** The last of `n` ticks at a negative rate is a lowering nudge of the
      state the first `n - 1` reached. */
  lemma ApplyRateLowerTick(c: Clip, n: nat)
    requires !c.kind.Wrapping? && c.changeRate < 0.0 && n > 0
    ensures ApplyRateTicks(c, n).state
            == Nudge(ApplyRateTicks(c, n - 1).state, -(c.changeRate * STEP_SIZE), c.targetState, c.state, Lower)
  {
    ApplyRateTicksKeepClip(c, n - 1);
    ApplyRateLowers(ApplyRateTicks(c, n - 1), c.state);
  }

  /** `changeRate` is per second: 50 ticks (one second) at a fixed positive
      rate cover exactly the rate while the target is not reached. The test
      suite's easing case (rate 0.1 from 0 toward 1, state 0.1 after one
      second) is an instance. */
  lemma OneSecondAtRateScenario(c: Clip)
    requires !c.kind.Wrapping? && c.changeRate > 0.0
    requires c.state + c.changeRate <= c.targetState
    ensures ApplyRateTicks(c, 50).state == c.state + c.changeRate
  {
    OneSecondOfTicks(c.changeRate);
    OneSecondOfRaising(c.state, c.changeRate * STEP_SIZE, c.targetState, c.changeRate);
    ApplyRateTicksStopAtTarget(c, 50);
  }

  /** One second at a rate that would carry the state past the target stops
      exactly on it, without oscillating. The test suite's case (rate 0.2
      from 0.9 toward 1, state exactly 1) is an instance. */
  lemma NoOvershootScenario(c: Clip)
    requires !c.kind.Wrapping? && c.changeRate > 0.0
    requires c.state + c.changeRate >= c.targetState
    ensures ApplyRateTicks(c, 50).state == c.targetState
  {
    OneSecondOfTicks(c.changeRate);
    OneSecondOfRaising(c.state, c.changeRate * STEP_SIZE, c.targetState, c.changeRate);
    ApplyRateTicksStopAtTarget(c, 50);
  }

  /** The falling twin of the easing cases: one second at a negative rate
      that would carry the state below the target stops exactly on it. The
      test suite's case (rate -0.2 from 0.1 toward 0, state exactly 0) is
      an instance. */
  lemma NoOvershootFromAboveScenario(c: Clip)
    requires !c.kind.Wrapping? && c.changeRate < 0.0
    requires c.state + c.changeRate <= c.targetState
    ensures ApplyRateTicks(c, 50).state == c.targetState
  {
    OneSecondOfTicks(c.changeRate);
    LoweringReachesTarget(c, 50, 50.0);
  }

  /** `n` ticks at a negative rate that cover at least the distance down to
      the target leave the clip exactly on it. */
  lemma LoweringReachesTarget(c: Clip, n: nat, ticks: real)
    requires !c.kind.Wrapping? && c.changeRate < 0.0 && n >= 1 && ticks == n as real
    requires c.state + ticks * (c.changeRate * STEP_SIZE) <= c.targetState
    ensures ApplyRateTicks(c, n).state == c.targetState
  {
    var step := -(c.changeRate * STEP_SIZE);
    assert NudgeTicks(c.state, step, c.targetState, c.state, Lower, n) == c.targetState by {
      NegativeRateStep(c.changeRate);
      ScaledNegation(ticks, c.changeRate * STEP_SIZE);
      LowerTicksProduct(c.state, step, c.targetState, n);
    }
    ApplyRateTicksStopAtTargetFromAbove(c, n);
  }

  /** Fifty ticks of raising by a step cover fifty steps, capped at `hi`. */
  lemma OneSecondOfRaising(v: real, step: real, hi: real, covered: real)
    requires step >= 0.0 && 50.0 * step == covered
    ensures NudgeTicks(v, step, v, hi, Raise, 50) == Min(v + covered, hi)
  {
    RaiseTicksProduct(v, step, hi, 50);
  }

  // -------------------------------------------------------- onAnimationEnd

  /** `onAnimationEnd`: clears `ended`; a looping clip jumps back to the
      bound it starts from and skips this tick; a bouncing clip turns around
      and targets the other bound; any other clip stops. The boolean is
      whether to skip the rest of this tick. */
  function OnAnimationEnd(c: Clip): (r: (Clip, bool))
    ensures !r.0.ended
    ensures r.1 <==> c.kind.Looping?
    ensures c.kind.Looping? ==>
              r.0 == c.(ended := false, state := if c.kind.drectionForward then c.kind.lowerState else c.kind.upperState)
    ensures c.kind.Bouncing? ==>
              && r.0.kind.Bouncing?
              && r.0.kind.currentDirectionForward == !c.kind.currentDirectionForward
              && r.0.targetState == (if c.kind.currentDirectionForward then c.kind.lowerState else c.kind.upperState)
              && r.0 == c.(ended := false, targetState := r.0.targetState, kind := r.0.kind)
    ensures c.kind.Plain? || c.kind.Wrapping? ==> r.0 == c.(ended := false, changeRate := 0.0)
  {
    match c.kind
    case Looping(lo, hi, forward) =>
      (c.(state := if forward then lo else hi, ended := false), true)
    case Bouncing(lo, hi, forward) =>
      (c.(kind := Bouncing(lo, hi, !forward), targetState := if forward then lo else hi, ended := false), false)
    case _ =>
      (c.(changeRate := 0.0, ended := false), false)
  }

  /** Two ends in a row bring a bouncing clip back to its direction and
      target. */
  lemma BouncingTwiceRestoresDirection(c: Clip)
    requires c.kind.Bouncing? && c.targetState == (if c.kind.currentDirectionForward then c.kind.upperState else c.kind.lowerState)
    ensures OnAnimationEnd(OnAnimationEnd(c).0).0 == c.(ended := false)
  {
  }

  // ------------------------------------------------------------------ tick

  /** One clip's tick in `parse`: end handling first (a looping clip stops
      there), then, unless already at the target, adjust and apply the
      rate, and mark the clip ended when it has reached the target. Only
      the end handling moves the target or changes the kind, and a clip
      that is not wrapping never passes its target. */
  function Tick(c: Clip): (r: Clip)
    ensures r.ended ==> r.state == r.targetState
    ensures r.acceleration == c.acceleration && r.maxRate == c.maxRate
    ensures r.targetState == (if c.ended then OnAnimationEnd(c).0.targetState else c.targetState)
    ensures r.kind == (if c.ended then OnAnimationEnd(c).0.kind else c.kind)
    ensures c.ended && c.kind.Looping? ==> r == OnAnimationEnd(c).0
    ensures var e := if c.ended then OnAnimationEnd(c).0 else c;
            !(c.ended && c.kind.Looping?) && e.state == e.targetState ==> r == e
    ensures var e := if c.ended then OnAnimationEnd(c).0 else c;
            !(c.ended && c.kind.Looping?) && e.state != e.targetState ==>
              && r.changeRate == AdjustRate(e).changeRate
              && r.state == ApplyRate(AdjustRate(e)).state
              && (r.ended <==> r.state == r.targetState)
    ensures !c.ended && !c.kind.Wrapping? && c.state <= c.targetState ==> c.state <= r.state <= c.targetState
    ensures !c.ended && !c.kind.Wrapping? && c.state >= c.targetState ==> c.targetState <= r.state <= c.state
  {
    var (started, skip) := if c.ended then OnAnimationEnd(c) else (c, false);
    if skip then started
    else if started.state != started.targetState then
      var moved := ApplyRate(AdjustRate(started));
      moved.(ended := moved.state == moved.targetState)
    else started
  }

  /** `n` ticks of one clip. */
  function Ticks(c: Clip, n: nat): Clip
    decreases n
  {
    if n == 0 then c else Tick(Ticks(c, n - 1))
  }

  /** A plain clip without acceleration coasting at a positive rate: every
      tick raises the state by one step, capped at the target, and once on
      the target the clip stays there (it is marked ended, then stopped).
      So ticking follows the same closed form as applying the rate. */
  lemma {:induction false} CoastingTicks(c: Clip, n: nat)
    requires c.kind.Plain? && c.acceleration.None? && !c.ended && c.changeRate > 0.0
    ensures var s := Ticks(c, n);
            && s.kind.Plain? && s.acceleration.None? && s.targetState == c.targetState
            && (s.ended ==> s.state == c.targetState)
            && (s.state != c.targetState ==> !s.ended && s.changeRate == c.changeRate)
            && s.state == NudgeTicks(c.state, c.changeRate * STEP_SIZE, c.state, c.targetState, Raise, n)
    decreases n
  {
    if n > 0 {
      CoastingTicks(c, n - 1);
    }
  }

  /** Ticks of coasting that cover the distance to the target end on it. */
  lemma CoastingReachesTarget(c: Clip, n: nat, ticks: real)
    requires c.kind.Plain? && c.acceleration.None? && !c.ended && c.changeRate > 0.0
    requires n >= 1 && ticks == n as real
    requires c.state + ticks * (c.changeRate * STEP_SIZE) >= c.targetState
    ensures Ticks(c, n).state == c.targetState
  {
    var step := c.changeRate * STEP_SIZE;
    assert NudgeTicks(c.state, step, c.state, c.targetState, Raise, n) == c.targetState by {
      RateStepNonNegative(c.changeRate);
      RaiseTicksProduct(c.state, step, c.targetState, n);
    }
    CoastingTicks(c, n);
  }

  /** After one second or more of coasting at a rate that covers the
      distance to the target, the clip is on the target: it arrives within
      the second and stays there. */
  lemma CoastingClipSettles(c: Clip, n: nat)
    requires c.kind.Plain? && c.acceleration.None? && !c.ended && c.changeRate > 0.0
    requires c.state + c.changeRate >= c.targetState
    requires n >= 50
    ensures Ticks(c, n).state == c.targetState
  {
    var step := c.changeRate * STEP_SIZE;
    var ticks := n as real;
    assert c.state + ticks * step >= c.targetState by {
      OneSecondOfTicks(c.changeRate);
      RateStepNonNegative(c.changeRate);
      ProductSign(ticks - 50.0, step);
      assert ticks * step == 50.0 * step + (ticks - 50.0) * step;
    }
    CoastingReachesTarget(c, n, ticks);
  }

  /** A rigging's clips, in own-property order. */
  type Rigging = Entries<Clip>

  /** Every clip of a rigging ticks on its own; names and order are kept. */
  function TickRigging(clips: Rigging): (r: Rigging)
    ensures |r| == |clips|
    ensures forall i :: 0 <= i < |clips| ==> r[i] == (clips[i].0, Tick(clips[i].1))
    decreases |clips|
  {
    if |clips| == 0 then []
    else [(clips[0].0, Tick(clips[0].1))] + TickRigging(clips[1..])
  }

  /** `parse`: every actor's rigging ticks. */
  function Parse(actors: seq<Rigging>): (r: seq<Rigging>)
    ensures |r| == |actors|
    ensures forall i :: 0 <= i < |actors| ==> r[i] == TickRigging(actors[i])
    decreases |actors|
  {
    if |actors| == 0 then []
    else [TickRigging(actors[0])] + Parse(actors[1..])
  }
}
