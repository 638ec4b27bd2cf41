/** `playerControl`: the i-th input state's sail, turn and trim keys become
    the i-th control state's flags. */
module PlayerControl {
  import opened Components

  /** The flags one input state sets: sails to accelerate and decelerate,
      turn keys to turn, trim keys to trim. */
  function ControlFrom(input: InputState): (c: BoatControlState)
    ensures c.accelerating == input.moreSails && c.decelerating == input.lessSails
    ensures c.turningLeft == input.turnLeft && c.turningRight == input.turnRight
    ensures c.trimmingLeft == input.trimLeft && c.trimmingRight == input.trimRight
  {
    BoatControlState(
      turningLeft := input.turnLeft, turningRight := input.turnRight,
      accelerating := input.moreSails, decelerating := input.lessSails,
      trimmingLeft := input.trimLeft, trimmingRight := input.trimRight)
  }

  /** The arrow keys (`up`, `down`, `left`, `right`) drive no flag. */
  lemma ArrowKeysAreIgnored(input: InputState, up: bool, down: bool, left: bool, right: bool)
    ensures ControlFrom(input.(up := up, down := down, left := left, right := right)) == ControlFrom(input)
  {
  }

  /** `parse`: every control state is overwritten from the input state at
      the same index; the input states are only read. */
  method Parse(controlState: seq<BoatControlState>, inputState: seq<InputState>) returns (r: seq<BoatControlState>)
    requires |controlState| <= |inputState|
    ensures |r| == |controlState|
    ensures forall i :: 0 <= i < |r| ==> r[i] == ControlFrom(inputState[i])
  {
    r := controlState;
    var i := 0;
    while i < |controlState|
      invariant 0 <= i <= |controlState|
      invariant |r| == |controlState|
      invariant forall k :: 0 <= k < i ==> r[k] == ControlFrom(inputState[k])
    {
      r := r[i := ControlFrom(inputState[i])];
      i := i + 1;
    }
  }

  /** A second `parse` with the same inputs changes nothing. */
  method ParseIsIdempotent(controlState: seq<BoatControlState>, inputState: seq<InputState>)
    returns (once: seq<BoatControlState>, twice: seq<BoatControlState>)
    requires |controlState| <= |inputState|
    ensures once == twice
    ensures |once| == |controlState|
  {
    once := Parse(controlState, inputState);
    twice := Parse(once, inputState);
  }
}
