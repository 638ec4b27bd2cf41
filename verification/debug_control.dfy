/** The `DebugControl` system: the up/down keys change the wind's speed by a
    fixed amount per tick and the left/right keys turn the wind's heading
    by a hundredth of a half turn, kept on the compass `[0, 2 pi)`. */
module DebugControl {
  import opened Numeric
  import opened Helpers
  import opened Collections
  import opened Components
  import opened Ramps

  const MASK: ComponentMask :=
    [("env", [("input", ComponentDefinition("InputState", true)),
              ("wind", ComponentDefinition("Wind", true))])]

  const WIND_SPEED_STEP: real := 0.1

  /** One tick of turning the wind: `0.01 pi`. */
  function HeadingStep(): (r: real)
    ensures 0.0 < r < 2.0 * PI
  {
    PI * 0.01
  }

  /** Up raises the speed; down lowers it only while up is not held. */
  function SpeedDir(i: InputState): (d: Dir)
    ensures d == Raise <==> i.up
    ensures d == Lower <==> !i.up && i.down
  {
    Priority(i.up, i.down, Raise)
  }

  /** Left turns the heading down; right turns it up only while left is not held. */
  function HeadingDir(i: InputState): (d: Dir)
    ensures d == Lower <==> i.left
    ensures d == Raise <==> !i.left && i.right
  {
    Priority(i.left, i.right, Lower)
  }

  /** One `env` entry of `parse`: only the wind changes. The speed moves by
      exactly one step with no bound on either side; the heading moves by
      one turning step and, when that leaves the compass, by one full turn
      back. */
  function Step(i: InputState, w: Wind): (r: Wind)
    ensures SpeedDir(i) == Raise ==> r.windSpeed == w.windSpeed + WIND_SPEED_STEP
    ensures SpeedDir(i) == Lower ==> r.windSpeed == w.windSpeed - WIND_SPEED_STEP
    ensures SpeedDir(i) == Keep ==> r.windSpeed == w.windSpeed
    ensures HeadingDir(i) == Keep ==> r.windHeading == w.windHeading
    ensures HeadingDir(i) == Lower ==>
              var turned := w.windHeading - HeadingStep();
              r.windHeading in {turned, turned + 2.0 * PI, turned - 2.0 * PI}
    ensures HeadingDir(i) == Raise ==>
              var turned := w.windHeading + HeadingStep();
              r.windHeading in {turned, turned + 2.0 * PI, turned - 2.0 * PI}
    ensures HeadingDir(i) != Keep && 0.0 <= w.windHeading < 2.0 * PI ==> 0.0 <= r.windHeading < 2.0 * PI
  {
    var speed := match SpeedDir(i)
      case Raise => w.windSpeed + WIND_SPEED_STEP
      case Lower => w.windSpeed - WIND_SPEED_STEP
      case Keep => w.windSpeed;
    var heading := match HeadingDir(i)
      case Lower => Wrap(w.windHeading - HeadingStep(), 0.0, PI * 2.0)
      case Raise => Wrap(w.windHeading + HeadingStep(), 0.0, PI * 2.0)
      case Keep => w.windHeading;
    Wind(heading, speed)
  }

  /** A wind heading on the compass stays on the compass, whatever is held. */
  lemma HeadingStaysOnCompass(i: InputState, w: Wind)
    requires 0.0 <= w.windHeading < 2.0 * PI
    ensures 0.0 <= Step(i, w).windHeading < 2.0 * PI
  {
  }

  /** A tick of left followed by a tick of right brings a heading on the
      compass back exactly, across the north wrap too. */
  lemma LeftThenRightRestores(w: Wind)
    requires 0.0 <= w.windHeading < 2.0 * PI
    ensures var left := InputState(false, false, true, false, false, false, false, false, false, false);
            var right := InputState(false, false, false, true, false, false, false, false, false, false);
            Step(right, Step(left, w)).windHeading == w.windHeading
  {
    var s := HeadingStep();
    var turned := Wrap(w.windHeading - s, 0.0, PI * 2.0);
    if w.windHeading - s < 0.0 {
      assert turned == w.windHeading - s + 2.0 * PI;
      assert Wrap(turned + s, 0.0, PI * 2.0) == w.windHeading;
    } else {
      assert turned == w.windHeading - s;
    }
  }

  /** Up then down restores the speed exactly. */
  lemma UpThenDownRestores(w: Wind)
    ensures var up := InputState(true, false, false, false, false, false, false, false, false, false);
            var down := InputState(false, true, false, false, false, false, false, false, false, false);
            Step(down, Step(up, w)).windSpeed == w.windSpeed
  {
  }

  /** The speed has no lower bound: holding down on a calm wind reverses it. */
  lemma CalmWindReverses(w: Wind)
    requires w.windSpeed == 0.0
    ensures var down := InputState(false, true, false, false, false, false, false, false, false, false);
            Step(down, w).windSpeed < 0.0
  {
  }

  /** `parse`: every environment entity's wind is stepped from its own
      input; the inputs are only read. */
  function Parse(envs: seq<(InputState, Wind)>): (r: seq<Wind>)
    ensures |r| == |envs|
    ensures forall i :: 0 <= i < |envs| ==> r[i] == Step(envs[i].0, envs[i].1)
    decreases |envs|
  {
    if |envs| == 0 then []
    else [Step(envs[0].0, envs[0].1)] + Parse(envs[1..])
  }
}
