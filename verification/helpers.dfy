/** The two range helpers of the simulation: `Clamp` saturates a value to a
    closed interval and `Wrap` folds it back into a half-open ring by adding
    or subtracting the ring's width once. */
module Helpers {

  /** Saturate `value` to `[min, max]`; `min` is tested first, so when
      `min > max` a value below `min` still yields `min`. */
  function Clamp(value: real, min: real, max: real): (r: real)
    ensures min <= max ==> min <= r <= max
    ensures min <= value <= max ==> r == value
    ensures value < min ==> r == min
    ensures min <= value && value > max ==> r == max
  {
    if value < min then min
    else if value > max then max
    else value
  }

  /** Fold `value` into the ring `[min, max)` by at most one turn. */
  function Wrap(value: real, min: real, max: real): (r: real)
    ensures min <= value < max ==> r == value
    ensures r == value || r == value + (max - min) || r == value - (max - min)
    ensures min < max && min - (max - min) <= value < max + (max - min) ==> min <= r < max
  {
    if value < min then value + (max - min)
    else if value >= max then value - (max - min)
    else value
  }

  /** A value already on the ring, moved by less than one turn in either
      direction, lands back on the ring. */
  lemma WrapStepStaysInRing(value: real, step: real, min: real, max: real)
    requires min <= value < max
    requires -(max - min) <= step < max - min
    ensures min <= Wrap(value + step, min, max) < max
  {
  }
}
