/** The ramp shapes the control systems share: a value nudged by a fixed
    step per tick toward one end of a range while an input is held, and a
    turn value that relaxes back toward zero, without crossing it, once the
    input is released. `step` is always the rate times the timestep,
    computed by the caller. */
module Ramps {
  import opened Numeric
  import opened Helpers

  /** Which way a held input pushes a ramped value this tick. */
  datatype Dir = Lower | Raise | Keep

  function Opposite(d: Dir): Dir {
    match d
    case Lower => Raise
    case Raise => Lower
    case Keep => Keep
  }

  /** Two inputs for the same value, the first of which wins when both are
      held: `first` pushes `firstDir`, `second` the other way. */
  function Priority(first: bool, second: bool, firstDir: Dir): (d: Dir)
    requires firstDir != Keep
    ensures first ==> d == firstDir
    ensures !first && second ==> d == Opposite(firstDir)
    ensures d == Keep <==> !first && !second
  {
    if first then firstDir
    else if second then Opposite(firstDir)
    else Keep
  }

  /** `Math.min(v + step, hi)` when raising, `Math.max(v - step, lo)` when
      lowering, `v` otherwise. */
  function Nudge(v: real, step: real, lo: real, hi: real, d: Dir): (r: real)
    ensures d == Raise ==> r <= hi
    ensures d == Raise && v + step <= hi ==> r == v + step
    ensures d == Raise && v + step >= hi ==> r == hi
    ensures d == Lower ==> r >= lo
    ensures d == Lower && v - step >= lo ==> r == v - step
    ensures d == Lower && v - step <= lo ==> r == lo
    ensures d == Keep ==> r == v
  {
    match d
    case Raise => Min(v + step, hi)
    case Lower => Max(v - step, lo)
    case Keep => v
  }

  /** A nudge with a non-negative step never moves the value against its
      direction while the value is inside the range, and keeps it inside. */
  lemma NudgeStaysInRange(v: real, step: real, lo: real, hi: real, d: Dir)
    requires step >= 0.0 && lo <= v <= hi
    ensures lo <= Nudge(v, step, lo, hi, d) <= hi
    ensures d == Raise ==> v <= Nudge(v, step, lo, hi, d)
    ensures d == Lower ==> Nudge(v, step, lo, hi, d) <= v
  {
  }

  /** Relax a turn value toward 0 by `step` (`clamp` into `[-limit, 0]` or
      `[0, limit]`): for a non-negative step and limit it never crosses 0
      and never leaves `[-limit, limit]`. */
  function Relax(value: real, step: real, limit: real): (r: real)
    ensures value == 0.0 ==> r == 0.0
    ensures value < 0.0 && step >= 0.0 && limit >= 0.0 ==> Max(value, -limit) <= r <= 0.0
    ensures value > 0.0 && step >= 0.0 && limit >= 0.0 ==> 0.0 <= r <= Min(value, limit)
    ensures value < 0.0 && limit >= 0.0 && value + step >= 0.0 ==> r == 0.0
    ensures value > 0.0 && limit >= 0.0 && value - step <= 0.0 ==> r == 0.0
    ensures value < 0.0 && -limit <= value + step < 0.0 ==> r == value + step
    ensures value > 0.0 && 0.0 < value - step <= limit ==> r == value - step
  {
    if value != 0.0 then
      if value < 0.0 then Clamp(value + step, -limit, 0.0)
      else Clamp(value - step, 0.0, limit)
    else value
  }

  /** A turn value: nudged within `[-limit, limit]` while an input is held,
      relaxed toward 0 otherwise. */
  function TurnStep(value: real, step: real, limit: real, d: Dir): (r: real)
    ensures d == Lower ==> r >= -limit
    ensures d == Lower && value - step >= -limit ==> r == value - step
    ensures d == Raise ==> r <= limit
    ensures d == Raise && value + step <= limit ==> r == value + step
    ensures d == Keep && step >= 0.0 && limit >= 0.0 ==> Abs(r) <= Abs(value)
    ensures d == Keep && step >= 0.0 && limit >= 0.0 && value >= 0.0 ==> r >= 0.0
    ensures d == Keep && step >= 0.0 && limit >= 0.0 && value <= 0.0 ==> r <= 0.0
    ensures d == Keep && limit >= 0.0 && step >= Abs(value) ==> r == 0.0
  {
    if d == Keep then Relax(value, step, limit)
    else Nudge(value, step, -limit, limit, d)
  }

  /** `[-limit, limit]` is invariant under every turn step. */
  lemma TurnStepStaysInRange(value: real, step: real, limit: real, d: Dir)
    requires step >= 0.0 && -limit <= value <= limit
    ensures -limit <= TurnStep(value, step, limit, d) <= limit
  {
    if d != Keep {
      NudgeStaysInRange(value, step, -limit, limit, d);
    }
  }

  /** `n` ticks of a held input. */
  function NudgeTicks(v: real, step: real, lo: real, hi: real, d: Dir, n: nat): real
    decreases n
  {
    if n == 0 then v
    else Nudge(NudgeTicks(v, step, lo, hi, d, n - 1), step, lo, hi, d)
  }

  /** The distance `n` steps cover, `n * step`, accumulated tick by tick. */
  function Stride(n: nat, step: real): real
    decreases n
  {
    if n == 0 then 0.0 else Stride(n - 1, step) + step
  }

  lemma {:induction false} StrideIsProduct(n: nat, step: real)
    ensures Stride(n, step) == n as real * step
    decreases n
  {
    if n > 0 {
      StrideIsProduct(n - 1, step);
      assert (n - 1) as real * step + step == ((n - 1) as real + 1.0) * step;
    }
  }

  /** Held raising for `n >= 1` ticks, the value grows by exactly one step
      per tick until it meets `hi`, and then stays exactly there. */
  lemma {:induction false} RaiseTicksClosedForm(v: real, step: real, lo: real, hi: real, n: nat)
    requires step >= 0.0 && n >= 1
    ensures NudgeTicks(v, step, lo, hi, Raise, n) == Min(v + Stride(n, step), hi)
    decreases n
  {
    if n > 1 {
      RaiseTicksClosedForm(v, step, lo, hi, n - 1);
      SaturatingAddAbsorbs(v + Stride(n - 1, step), step, lo, hi);
    }
  }

  /** The closed form with the stride multiplied out, starting from the
      lower bound. */
  lemma RaiseTicksProduct(v: real, step: real, hi: real, n: nat)
    requires step >= 0.0 && n >= 1
    ensures NudgeTicks(v, step, v, hi, Raise, n) == Min(v + n as real * step, hi)
  {
    RaiseTicksClosedForm(v, step, v, hi, n);
    StrideIsProduct(n, step);
  }

  /** Held lowering for `n >= 1` ticks, the value shrinks by exactly one step
      per tick until it meets `lo`, and then stays exactly there. */
  lemma {:induction false} LowerTicksClosedForm(v: real, step: real, lo: real, hi: real, n: nat)
    requires step >= 0.0 && n >= 1
    ensures NudgeTicks(v, step, lo, hi, Lower, n) == Max(v - Stride(n, step), lo)
    decreases n
  {
    if n > 1 {
      LowerTicksClosedForm(v, step, lo, hi, n - 1);
      SaturatingSubAbsorbs(v - Stride(n - 1, step), step, lo, hi);
    }
  }

  /** The lowering closed form with the stride multiplied out, starting
      from the upper bound. */
  lemma LowerTicksProduct(v: real, step: real, lo: real, n: nat)
    requires step >= 0.0 && n >= 1
    ensures NudgeTicks(v, step, lo, v, Lower, n) == Max(v - n as real * step, lo)
  {
    LowerTicksClosedForm(v, step, lo, v, n);
    StrideIsProduct(n, step);
  }

  /** Raising once more after saturating is saturating the sum. */
  lemma SaturatingAddAbsorbs(reached: real, step: real, lo: real, hi: real)
    requires step >= 0.0
    ensures Nudge(Min(reached, hi), step, lo, hi, Raise) == Min(reached + step, hi)
  {
  }

  /** Lowering once more after saturating is saturating the difference. */
  lemma SaturatingSubAbsorbs(reached: real, step: real, lo: real, hi: real)
    requires step >= 0.0
    ensures Nudge(Max(reached, lo), step, lo, hi, Lower) == Max(reached - step, lo)
  {
  }
}
