# Sail simulator core in Dafny

A Dafny model of the deterministic core of a browser sailing simulator built
on an entity-component-system design. Entities hold components keyed by
component type name. Systems declare a mask of roles and fields. The entity
manager hands every system the component groups its mask selects, once per
fixed timestep of 1/50 s.

The model covers:

- **Query layer.** `applyMask` reshapes one entity's components into per-role
  groups. `checkMask` keeps an entity when every top-level mask key reads a
  component of it; its three identical copies are modelled once. The entity manager filters entities, builds groups and
  dispatches systems.
- **Id counters.** `Identity` and `IdGenerator`.
- **Range helpers.** `clamp` and `wrap`.
- **Control systems.** `playerControl`, `BoatDriver`, `MotorDriver`, the
  legacy `applyControl`, `DebugControl` and `applyTransform`. The ramp shapes
  they share (nudge toward a bound, relax toward zero) are defined once in
  `Ramps`, together with closed forms for a flag held over many ticks.
- **Physics.** The non-trigonometric parts of the `Physics` system: the
  wind-in-sail gate, the lift cut-off, the forward-force cap, heading update,
  per-axis terrain gating and water drag.
- **Animation.** The `Animator` easing state machine (bang-bang rate control,
  no-overshoot stepping, the shortest distance around a ring, end-of-animation
  handling per clip kind), the `SailAnimator` targets, and the `TestSystem`
  increment.

JavaScript numbers are unbounded `real`s. Pi is an abstract positive constant.
`Math.sin`, `Math.cos` and `Math.sqrt` are uninterpreted fields of a `Trig`
record. JavaScript objects with string keys are lists of distinct-key pairs in
own-property order (integer-like keys first, ascending, then the others in
insertion order); no property stated here depends on that order beyond
following it. `null`/`undefined` and a thrown `TypeError` are `None` of an
`Option`. A loop that throws on its first bad element is the all-or-nothing
`Wrappers.MapAll`.

## Model

| member | source | states |
|---|---|---|
| Wrappers.MapAll | src/systems/SailAnimator.ts:24-28 | A loop over items that throws on a bad item succeeds exactly when every item succeeds, and then yields each item's result at its own index |
| Collections.CheckMask | src/utilities/ComponentCollections.ts:28-35 | An entity passes exactly when every top-level key of the mask names a component it holds; an empty mask passes every entity |
| Collections.CheckMaskOnlyKeysMatter | src/utilities/Collections.ts:22-29 | The mask's values (the `required` flags) and key order are irrelevant: masks with the same key set accept the same entities |
| Collections.CheckMaskMonotone | src/utilities/ComponentMask.ts:13-20 | Giving an entity more components never turns a match into a non-match |
| ComponentMask.ApplyGroup | src/utilities/ComponentMask.ts:33-47 | A role is rejected exactly when one of its required types is absent; otherwise its group has exactly the role's field names, each holding the component found under the field's type name, or null for an absent optional type |
| ComponentMask.ApplyMask | src/utilities/ComponentMask.ts:27-50 | The result has exactly the mask's role names as keys, and each role's entry depends on that role's own definition only |
| ComponentMask.ApplyMaskRoleShape | src/utilities/ComponentMask.ts:29-47 | Per role of the full result: null iff a required type is missing; otherwise exactly the field names, each mapped to the component looked up by type name or to null |
| ComponentMask.ApplyGroupOnlyNamedTypes | src/utilities/ComponentMask.ts:34-38 | A group depends only on the components whose types the role names |
| ComponentMask.ApplyMaskIgnoresUnlisted | src/utilities/ComponentMask.ts:34-38 | Dropping every component whose type no field names leaves the whole result unchanged |
| ComponentMask.ApplyMaskRoleWise | src/utilities/ComponentMask.ts:29-47 | Roles are independent (`break` leaves only the current role): two component maps that give every role the same group give the same result |
| ComponentMask.SingleRole | src/utilities/ComponentMask.ts:29-31 | A one-role mask yields a one-entry result holding that role's group |
| ComponentMask.ComplexMatchGroup | test/utilities/ComponentMask.spec.ts:102-155 | With both required types present and the optional one absent, the group holds the two components and null for the optional field |
| ComponentMask.ComplexMatchExample | test/utilities/ComponentMask.spec.ts:102-155 | The suite's complex match: one role, three fields, the unlisted types ignored, the optional one null |
| ComponentMask.SingleMismatchExample | test/utilities/ComponentMask.spec.ts:40-64 | A missing required type makes the role's entry null while the role key stays present |
| EntityManager.New | src/utilities/EntityManager.ts:13-17 | A new manager has no entities, components or systems, and its component index is undefined |
| EntityManager.MatchingIndices | src/utilities/EntityManager.ts:31-37 | Reference filter: at most one index per entity, each in range and of an entity passing `checkMask` |
| EntityManager.MatchingIndicesSpec | src/utilities/EntityManager.ts:31-37 | The selected entities are exactly those passing `checkMask`, in strictly increasing list order, all in range |
| EntityManager.GetGroupFromEntity | src/utilities/EntityManager.ts:40-46 | A group has one pair per mask key in key order; each pair holds the index entry for the key (undefined if absent) and the entity's own component for it |
| EntityManager.GetComponentGroups | src/utilities/EntityManager.ts:29-38 | One group per matching entity, in entity order; entities failing the mask contribute nothing |
| EntityManager.Update | src/utilities/EntityManager.ts:19-27 | Every registered system is dispatched exactly once, in registration order, with the shared component block and the groups its own mask selects |
| EntityManager.RoleKeysAreComparedWithTypeNames | src/utilities/EntityManager.ts:33 | As written, the filter compares role names with type names, so the test system's mask selects no test entity |
| Ids.Counter.Next | src/utilities/Identity.ts:10-12 | Each call returns one more than the current value and leaves the counter at the returned id |
| Ids.New | src/utilities/IdGenerator.ts:4-8 | The counter starts at the given value, 1000 by default |
| Ids.Draw | src/utilities/IdGenerator.ts:10-12 | `n` calls hand out `n` ids and advance the counter by `n` |
| Ids.DrawKth | src/utilities/Identity.ts:4-12 | With start `s`, the k-th call returns `s + k` |
| Ids.DrawStrictlyIncreasing | src/utilities/Identity.ts:10-12 | Ids strictly increase in call order and so never repeat |
| Ids.FirstIdIs1001 | src/utilities/Identity.ts:4-5 | A default counter's first id is 1001 |
| Ids.NextIds | src/utilities/IdGenerator.ts:10-12 | A caller's loop of `n` calls gets exactly the ids `s + 1 .. s + n` |
| Helpers.Clamp | src/utilities/helpers.ts:1-5 | The result lies in `[min, max]` when that range is non-empty; values in range are kept; values below go to `min`, above to `max` |
| Helpers.Wrap | src/utilities/helpers.ts:7-11 | The identity on `[min, max)`; the value moves by 0 or by one ring width either way; a value within one width of the ring lands on it |
| Helpers.WrapStepStaysInRing | src/utilities/helpers.ts:7-11 | A point on the ring moved by less than one width lands back on the ring |
| Numeric.Sign | src/systems/Animator.ts:67 | `Math.sign`: -1, 0 or 1, zero exactly for 0 and positive exactly for positive input |
| Numeric.Round | src/systems/Physics.ts:129-130 | `Math.round`: the integer nearest the input, halves rounded up |
| Ramps.Priority | src/systems/BoatDriver.ts:37-40 | Of two opposing flags the first wins; the second pushes the other way only alone; nothing moves exactly when neither is held |
| Ramps.Nudge | src/systems/BoatDriver.ts:50-53 | A raise never exceeds its bound and moves by exactly one step when room remains, otherwise lands on the bound; lowering mirrors it |
| Ramps.NudgeStaysInRange | src/systems/BoatDriver.ts:49-61 | A non-negative step keeps an in-range value in range and never moves it against its direction |
| Ramps.Relax | src/systems/BoatDriver.ts:41-47 | Relaxing moves toward zero by the step, never crosses zero, never grows and stays within the limit |
| Ramps.TurnStep | src/systems/BoatDriver.ts:36-47 | A held turn moves within `[-limit, limit]` by one step when room remains; with no turn the value shrinks toward 0 without changing sign, reaching 0 once the step covers it |
| Ramps.TurnStepStaysInRange | src/systems/BoatDriver.ts:36-47 | `[-limit, limit]` is invariant under every turn step |
| Ramps.StrideIsProduct | src/systems/BoatDriver.ts:51 | `n` accumulated steps cover exactly `n * step` |
| Ramps.RaiseTicksClosedForm | src/systems/BoatDriver.ts:51 | Raising held for `n >= 1` ticks gives `min(v + n steps, hi)`: one step per tick, then exactly at the bound |
| Ramps.RaiseTicksProduct | src/systems/Animator.ts:96-97 | The same closed form with `n * step` written out |
| Ramps.LowerTicksClosedForm | src/systems/BoatDriver.ts:53 | Lowering held for `n >= 1` ticks gives `max(v - n steps, lo)` |
| Ramps.LowerTicksProduct | src/systems/Animator.ts:98-99 | The same closed form with `n * step` written out |
| Ramps.SaturatingAddAbsorbs | src/systems/BoatDriver.ts:51 | Once saturated, a further raise equals saturating the sum: the bound holds exactly |
| Ramps.SaturatingSubAbsorbs | src/systems/BoatDriver.ts:53 | Once floored, a further lowering equals flooring the difference |
| DriverControl.HeadingDir | src/systems/BoatDriver.ts:37-41 | Left lowers the heading force, right raises it only while left is not held |
| DriverControl.ForwardDir | src/systems/BoatDriver.ts:50-53 | Accelerating raises the forward force, decelerating lowers it only while not accelerating |
| DriverControl.TrimDir | src/systems/BoatDriver.ts:57-60 | Trimming left raises the trim angle, trimming right lowers it only while not trimming left |
| DriverControl.IdleKeepsEverything | test/systems/BoatDriver.spec.ts:74-82 | With every flag off nothing is pushed |
| PlayerControl.ControlFrom | src/systems/playerControl.ts:9-14 | Sails keys drive accelerate/decelerate, turn keys drive turning, trim keys drive trimming |
| PlayerControl.ArrowKeysAreIgnored | src/systems/playerControl.ts:9-14 | The arrow keys influence no control flag |
| PlayerControl.Parse | src/systems/playerControl.ts:7-16 | Every control state is overwritten from the input state at its own index; nothing else is written |
| PlayerControl.ParseIsIdempotent | src/systems/playerControl.ts:9-14 | A second run with the same inputs changes nothing |
| BoatDriver.ApplyControl | src/systems/BoatDriver.ts:35-61 | Only the heading and forward forces and the trim angle are written; with no flag and a zero heading the driver is unchanged |
| BoatDriver.Direction | src/systems/BoatDriver.ts:36-47 | Turning left keeps the heading at or above `-limit`, moving by one step when room remains; right mirrors it with left taking priority; with no turn a sane driver's heading shrinks toward 0 without crossing it |
| BoatDriver.Movement | src/systems/BoatDriver.ts:49-54 | Accelerating keeps forward at or below its limit and holds it exactly there once reached; decelerating keeps it at or above 0; with neither it is unchanged |
| BoatDriver.Trim | src/systems/BoatDriver.ts:56-61 | Trimming left raises the angle up to `maxTrimAngle`, right lowers it down to `-maxTrimAngle`, one step at a time |
| BoatDriver.ApplyControlKeepsEnvelope | src/systems/BoatDriver.ts:35-61 | A sane driver inside its envelope (heading, forward and trim within their bounds) stays inside it whatever is held |
| BoatDriver.Parse | src/systems/BoatDriver.ts:23-32 | Every boat is driven by its own control state |
| BoatDriver.TicksKeepConfig | src/systems/BoatDriver.ts:35-61 | Rates and limits never change however long the flags are held |
| BoatDriver.HeadingTick | src/systems/BoatDriver.ts:37-40 | Each tick of a held turn nudges the heading by the driver's unchanging rate within its unchanging limit |
| BoatDriver.ForwardTick | src/systems/BoatDriver.ts:50-53 | Each tick nudges forward by the driver's unchanging rate within `[0, limit]` |
| BoatDriver.TrimTick | src/systems/BoatDriver.ts:57-60 | Each tick nudges the trim by the unchanging trim rate within `[-max, max]` |
| BoatDriver.TicksHeading | src/systems/BoatDriver.ts:37-40 | A held turn flag makes the heading follow the held-ramp sequence |
| BoatDriver.TicksForward | src/systems/BoatDriver.ts:50-53 | However many ticks a control state is held, the forward force is that many nudges of the ramp it selects |
| BoatDriver.TicksTrim | src/systems/BoatDriver.ts:57-60 | However many ticks a control state is held, the trim angle is that many nudges of the ramp it selects |
| BoatDriver.AccelerateFromRest | test/systems/BoatDriver.spec.ts:90-98 | From rest, `n >= 1` accelerating ticks give `min(n * rate * dt, limit)` |
| BoatDriver.TurnFromRest | test/systems/BoatDriver.spec.ts:113-132 | From straight ahead, `n` left ticks give `max(-n * rate * dt, -limit)` and right ticks `min(n * rate * dt, limit)` |
| BoatDriver.TrimFromCentre | test/systems/BoatDriver.spec.ts:134-152 | From a centred sail, `n` left-trim ticks give `min(n * trimRate * dt, max)` and right-trim ticks `max(-n * trimRate * dt, -max)` |
| BoatDriver.TrimRightFromCentre | src/systems/BoatDriver.ts:59-60 | Trimming right from the centre for `n` ticks gives `max(-n * trimRate * dt, -max)` |
| BoatDriver.FactoryAccelerationScenario | test/systems/BoatDriver.spec.ts:90-111 | With rate 4 and limit 10: 0.8 after 10 ticks, exactly the limit after `ceil(10 / 4 * 50) = 125` ticks, and still the limit one tick later |
| MotorDriver.ApplyControl | src/systems/MotorDriver.ts:35-55 | Only the heading and forward forces are written; left keeps the heading at or above `-limit` and takes priority; right keeps it at or below `limit`; with no turn it shrinks toward 0 without crossing; accelerating keeps forward at or below its limit, decelerating at or above 0 |
| MotorDriver.AgreesWithBoatDriver | src/systems/MotorDriver.ts:35-55 | On the same forces, rates and limits the motor driver computes the same forces as the sailing driver |
| MotorDriver.Parse | src/systems/MotorDriver.ts:23-32 | Every boat is driven by its own control state |
| ApplyControl.TurnDir | src/systems/applyControl.ts:13-16 | Legacy convention: turning left raises the turn rate, right lowers it |
| ApplyControl.TrimDir | src/systems/applyControl.ts:33-36 | Trimming left lowers the trim angle, right raises it |
| ApplyControl.TrimStep | src/systems/applyControl.ts:34-36 | The trim moves by a fixed positive step, pi/4 per second |
| ApplyControl.Turn | src/systems/applyControl.ts:13-23 | Left keeps the turn rate at or below 1 without lowering it, right at or above -1 without raising it; with no turn it shrinks toward 0 without crossing |
| ApplyControl.Speed | src/systems/applyControl.ts:26-30 | Accelerating keeps speed at or below 1, decelerating at or above 0; otherwise unchanged |
| ApplyControl.Trim | src/systems/applyControl.ts:33-37 | Trimming left lowers the angle by the fixed step down to `-maxTrimAngle`, right raises it up to `maxTrimAngle`; otherwise unchanged |
| ApplyControl.Step | src/systems/applyControl.ts:12-37 | Only the turn rate, speed and trim angle of a movement record are written |
| ApplyControl.StepKeepsRange | src/systems/applyControl.ts:12-37 | With non-negative rates, turn rate in `[-1, 1]`, speed in `[0, 1]` and trim within its bound are kept |
| ApplyControl.RelaxIsOdd | src/systems/applyControl.ts:17-23 | Relaxing toward zero is symmetric about zero |
| ApplyControl.TurnIsMirroredHeading | src/systems/applyControl.ts:13-23 | The legacy turn rate is the drivers' heading rule applied to the mirrored value with limit 1 |
| ApplyControl.Parse | src/systems/applyControl.ts:7-39 | The i-th control state drives only the i-th movement record; records past the control states are untouched |
| ApplyTransform.Apply | src/systems/applyTransform.ts:10-15 | Translations add; each rotation is the sum rolled onto `[0, 2 pi)` |
| ApplyTransform.ApplyKeepsRing | src/systems/applyTransform.ts:13-15 | Rotations on the ring stay on it under turns of less than a full circle |
| ApplyTransform.ZeroTransformIsIdentity | src/systems/applyTransform.ts:17-22 | A consumed (zero) transform moves nothing |
| ApplyTransform.Parse | src/systems/applyTransform.ts:6-24 | Position i takes transform i, which is then zeroed; nothing past the position array is touched |
| ApplyTransform.ParseTwiceMovesOnce | src/systems/applyTransform.ts:10-22 | A second run leaves x, y and z unchanged, and ring rotations too, because the transforms were consumed |
| DebugControl.HeadingStep | src/systems/DebugControl.ts:38-40 | One tick of turning is positive and less than a full turn |
| DebugControl.SpeedDir | src/systems/DebugControl.ts:32-36 | Up raises the wind speed; down lowers it only while up is not held |
| DebugControl.HeadingDir | src/systems/DebugControl.ts:37-41 | Left turns the wind down; right turns it up only while left is not held |
| DebugControl.Step | src/systems/DebugControl.ts:31-42 | Speed moves by exactly 0.1 each way with no bound; heading moves by 0.01 pi, corrected by at most one full turn, and stays on the compass |
| DebugControl.HeadingStaysOnCompass | src/systems/DebugControl.ts:37-41 | A heading on `[0, 2 pi)` stays there whatever is held |
| DebugControl.LeftThenRightRestores | src/systems/DebugControl.ts:37-41 | A left tick then a right tick restore the heading exactly, across north too |
| DebugControl.UpThenDownRestores | src/systems/DebugControl.ts:32-36 | Up then down restores the speed exactly |
| DebugControl.CalmWindReverses | src/systems/DebugControl.ts:34-35 | The speed has no lower bound: down on a calm wind makes it negative |
| DebugControl.Parse | src/systems/DebugControl.ts:23-43 | Each environment's wind is stepped from its own input; inputs are only read |
| Physics.WindInSail | src/systems/Physics.ts:92-94 | The sail draws unless the angle of attack and the trim have the same strict sign |
| Physics.CentredSailIsInWind | src/systems/Physics.ts:92-94 | A centred sail always counts as in the wind |
| Physics.ApparentWind | src/systems/Physics.ts:55-56 | In calm air the apparent wind is the boat's own motion as a head wind |
| Physics.SpeedIsHeadWind | src/systems/Physics.ts:56 | The boat's speed lowers the apparent wind's fore-aft part by exactly the forward force and leaves the sideways part alone |
| Physics.SailVectorPointsAft | src/systems/Physics.ts:57 | Where sine and cosine change sign over half a circle, the sail vector is the trim direction reversed: straight aft, `(0, -1)`, for a centred sail, and of unit length where `sin^2 + cos^2 = 1` |
| Physics.DragCoef | src/systems/Physics.ts:71-73 | The drag coefficient is non-negative and zero at zero angle of attack |
| Physics.LiftCoef | src/systems/Physics.ts:74 | No lift past a right angle of attack |
| Physics.ApplyWind | src/systems/Physics.ts:53-95 | Only the sail outputs and the forward force are written; out of the wind there is no lift, drag or sail force and forward is kept; in the wind drag and lift are their coefficients times sail area and wind speed, and forward grows by the sail force's forward part up to its limit; a centred sail gives no sail force |
| Physics.Collides | src/systems/Physics.ts:128-136 | A point collides exactly when its cell is on the map and at least 76 high |
| Physics.CellIndex | src/systems/Physics.ts:129-131 | Every point of the world square `[-1000, 1000) x (-1000, 1000]` has a cell index on the 512 x 512 map |
| Physics.WorldSquareIsOnTheMap | src/systems/Physics.ts:128-131 | Every point of the 2000 x 2000 world square has a cell on a full 512 x 512 map |
| Physics.OriginCell | src/systems/Physics.ts:129-130 | The origin lies in row 256, column 256 |
| Physics.DeltaFromAngle | src/utilities/helpers.ts:13-17 | A zero distance moves nothing |
| Physics.DeltaScalesWithDistance | src/utilities/helpers.ts:13-17 | The displacement is proportional to the distance |
| Physics.HeadingIncrement | src/systems/Physics.ts:98-103 | The heading turns the way the heading force points, by at least a tenth of its full-speed turn even when stopped |
| Physics.HeadingScalesWithSpeed | src/systems/Physics.ts:98-103 | Above the 0.1 floor the turn is proportional to the speed fraction `forward / limit`; at or below it the turn does not depend on speed |
| Physics.StoppedTurnIsATenth | src/systems/Physics.ts:98-103 | At full speed the turn is the heading force times `STEP_SIZE`; stopped, it is exactly a tenth of that |
| Physics.NewHeading | src/systems/Physics.ts:101-104 | A zero heading force keeps the heading; otherwise the increment is added and rolled by at most one turn, staying on the compass |
| Physics.Drag | src/systems/Physics.ts:123-124 | Drag never makes forward negative; under a positive limit a moving boat strictly slows and a stopped one stays at 0 |
| Physics.ApplyDriver | src/systems/Physics.ts:97-126 | Only forward and the position's x, y and heading change; a stopped boat does not move; x moves unless the new x with the old y is land, y unless the old x with the new y is land, and forward decays by drag |
| Physics.AxesAreIndependent | src/systems/Physics.ts:114-121 | Whether x moves depends only on the sine of the heading and whether y moves only on the cosine |
| Physics.DragDecays | test/systems/Physics.spec.ts:127-138 | A moving boat under a positive limit strictly slows down and never goes negative |
| Physics.FullTurnWrapsToNorth | test/systems/Physics.spec.ts:211-223 | At full speed, a clockwise turn from one increment short of a full circle lands exactly on north |
| Physics.StepBody | src/systems/Physics.ts:46-49 | A body's tick never changes its rates or limits |
| Physics.Parse | src/systems/Physics.ts:39-50 | The first terrain's height map and the first environment's wind apply to every body |
| Animator.ShortestDistance | src/systems/Animator.ts:104-114 | The result is the direct delta or one ring width off it, and no longer than any of the three |
| Animator.ShortestDistanceAtMostHalf | src/systems/Animator.ts:104-114 | Between two ring points the shortest distance is at most half the ring |
| Animator.RequiredDelta | src/systems/Animator.ts:56-65 | The direct delta for non-wrapping clips; for wrapping ones the shortest distance around the ring: the direct delta or one ring width off it either way, and no longer than any of the three |
| Animator.Brakes | src/systems/Animator.ts:67-69 | With a positive acceleration a moving clip brakes exactly when it moves toward the target and its stopping distance `rate^2 / (2 acc)` reaches the remaining distance; a resting clip brakes only with nothing left to cover |
| Animator.BrakingMovesTowardTarget | src/systems/Animator.ts:67-69 | With non-negative acceleration, braking happens only while moving toward the target |
| Animator.Accelerate | src/systems/Animator.ts:76-83 | With a positive cap the new rate's magnitude never exceeds it, and the rate rises when this tick's move falls short of the remaining distance and falls when it would pass it (strictly, from inside the cap, under a positive acceleration); with no cap (0) it moves by exactly one acceleration step that way |
| Animator.Brake | src/systems/Animator.ts:70-74 | Braking slows toward zero without crossing it, strictly under a positive acceleration when the rate moves toward the target |
| Animator.AdjustRate | src/systems/Animator.ts:51-85 | Only the rate changes; a null acceleration changes nothing; otherwise the brake or accelerate branch by the stopping-distance test |
| Animator.BrakingKeepsSignAndShrinks | test/systems/Animator.spec.ts:68-81 | Braking never flips the rate's sign nor grows it, and strictly shrinks it under a positive acceleration |
| Animator.DeceleratesNearTargetCases | test/systems/Animator.spec.ts:47-53 | The suite's approach at rate 1, 0.05 short of target 1, brakes to `1 - 0.1 dt`, and its mirror at test/systems/Animator.spec.ts:108-114 to `-1 + 0.1 dt` |
| Animator.StartsTowardTarget | test/systems/Animator.spec.ts:30-33 | From rest the rate starts toward the target, positive for a target above and negative below |
| Animator.AdjustRateSuiteCases | test/systems/Animator.spec.ts:35-45 | The suite's rate cases (acceleration 0.1, cap 0.5): toward a target above, rates 0.1 and -1 rise; toward one below, rates -0.1 and 1 fall, as test/systems/Animator.spec.ts:96-106 also expects |
| Animator.ApplyRate | src/systems/Animator.ts:87-102 | Only the state changes; a non-wrapping clip approaches its target without passing it, lands on it at once when its rate points away from it, or stands still at rate 0; a wrapping clip moves to its wrapped new state, or snaps to the target when the shortest distance changes sign, and stays on its ring |
| Animator.ApplyRateRaises | src/systems/Animator.ts:96-97 | A positive rate moves one step up, capped at the target |
| Animator.ApplyRateTicksKeepClip | src/systems/Animator.ts:87-102 | Repeated stepping changes nothing but the state |
| Animator.ApplyRateTicksStopAtTarget | src/systems/Animator.ts:96-97 | At a fixed positive rate the state rises one step per tick and then stays exactly on the target |
| Animator.ApplyRateTick | src/systems/Animator.ts:96-97 | The last of `n` ticks at a positive rate raises the state the first `n - 1` reached |
| Animator.ApplyRateLowers | src/systems/Animator.ts:98-99 | A negative rate moves one step down, floored at the target |
| Animator.ApplyRateTicksStopAtTargetFromAbove | src/systems/Animator.ts:98-99 | At a fixed negative rate the state falls one step per tick and then stays exactly on the target |
| Animator.ApplyRateLowerTick | src/systems/Animator.ts:98-99 | The last of `n` ticks at a negative rate lowers the state the first `n - 1` reached |
| Animator.OneSecondAtRateScenario | test/systems/Animator.spec.ts:152-162 | The rate is per second: 50 ticks short of the target cover exactly the rate |
| Animator.NoOvershootScenario | test/systems/Animator.spec.ts:164-175 | One second at a rate that would pass the target from below ends exactly on it |
| Animator.NoOvershootFromAboveScenario | test/systems/Animator.spec.ts:177-189 | One second at a rate that would pass the target from above ends exactly on it |
| Animator.LoweringReachesTarget | src/systems/Animator.ts:98-99 | Ticks at a negative rate that cover the distance down to the target end exactly on it |
| Animator.OneSecondOfRaising | src/constants.ts:5-6 | Fifty ticks of raising cover fifty steps, capped at the bound |
| Animator.OnAnimationEnd | src/systems/Animator.ts:116-137 | `ended` is always cleared; a looping clip snaps to its starting bound and skips the tick; a bouncing clip reverses and targets the opposite bound; others stop |
| Animator.BouncingTwiceRestoresDirection | src/systems/Animator.ts:121-128 | Two ends in a row restore a bouncing clip's direction and target |
| Animator.Tick | src/systems/Animator.ts:31-46 | An ended clip first handles its end, and a looping one stops there; a clip then off its target gets the adjusted rate and the applied state and is marked ended exactly when it lands on the target; one on its target is untouched; only end handling moves the target; a clip that is not wrapping never passes its target |
| Animator.CoastingTicks | src/systems/Animator.ts:31-46 | Ticking a plain clip without acceleration at a positive rate raises it one step per tick, capped at the target, where it then stays: the clip is marked ended there and then stopped |
| Animator.CoastingReachesTarget | src/systems/Animator.ts:38-44 | Ticks of coasting that cover the distance to the target end exactly on it |
| Animator.CoastingClipSettles | src/systems/Animator.ts:31-46 | Fifty ticks or more at a rate that covers the distance in one second leave the clip on its target |
| Animator.TickRigging | src/systems/Animator.ts:31-46 | Every clip ticks on its own; names and order are kept |
| Animator.Parse | src/systems/Animator.ts:25-48 | Every actor's rigging ticks |
| SailAnimator.HeelSign | src/systems/SailAnimator.ts:32-36 | The heel has the sign of the sideways sail force times that of `pi/3 - abs(trim)`: zero without sideways force, with the force below 60 degrees of trim |
| SailAnimator.CalcHeel | src/systems/SailAnimator.ts:32-36 | The boat stands upright with no sideways sail force, or with the sail trimmed exactly 60 degrees out |
| SailAnimator.HeelMirrorsSideForce | src/systems/SailAnimator.ts:32-36 | A sideways force the other way leans the boat the other way, as far |
| SailAnimator.CalcBoom | src/systems/SailAnimator.ts:38-40 | The boom follows the trim; the headsail is 1.3 times the boom angle on its side, and backed against it past 80% of the maximum trim |
| SailAnimator.CalcHeadsail | src/systems/SailAnimator.ts:42-48 | The headsail swings 1.3 times the trim, on the trim's side up to 80% of the maximum and backed beyond |
| SailAnimator.HeadsailMirrorsTrim | src/systems/SailAnimator.ts:42-48 | Trimming to the other side mirrors the headsail |
| SailAnimator.Retarget | src/systems/SailAnimator.ts:25-27 | A missing clip is a TypeError; otherwise only that clip's target is written |
| SailAnimator.SetTargets | src/systems/SailAnimator.ts:25-27 | Every clip of the name gets the new target and the rest are kept |
| SailAnimator.RetargetActor | src/systems/SailAnimator.ts:24-28 | Retargeting succeeds exactly when the rigging has heel, boom and headsail clips |
| SailAnimator.RetargetActorWritesTargets | src/systems/SailAnimator.ts:24-28 | Only the three targets are written, from `calcHeel`, `calcBoom` and `calcHeadsail`; states, rates and other clips are kept |
| SailAnimator.Parse | src/systems/SailAnimator.ts:21-29 | All actors succeed exactly when every rigging has the three clips, each retargeted from its own driver |
| TestSystem.Get | src/systems/TestSystem.ts:26 | A property read is undefined exactly when the key is absent, otherwise one of the object's own entries |
| TestSystem.TestRefs | src/systems/TestSystem.ts:25-27 | Reading `testComponent` fails exactly when some test entity lacks it; otherwise one reference per entity in key order |
| TestSystem.Bump | src/systems/TestSystem.ts:27 | Incrementing never changes the number of components |
| TestSystem.BumpCounts | src/systems/TestSystem.ts:25-28 | Each component gains exactly the number of references to it |
| TestSystem.Parse | src/systems/TestSystem.ts:16-29 | Fails exactly when the role or a `testComponent` is missing; otherwise every component gains one per test entity referring to it and nothing else changes |
| TestSystem.UnreferencedIsUntouched | test/TestSystem.spec.ts:42-91 | A component no test entity refers to as `testComponent` is unchanged |
| TestSystem.DecoyComponentExample | test/TestSystem.spec.ts:42-62 | The suite's decoy-component case: 6 becomes 7, the decoy stays 9 |
| TestSystem.DecoyEntityExample | test/TestSystem.spec.ts:64-91 | The suite's decoy-entity case: only the test entity's component is incremented |

## Left out

- Rendering, audio, DOM input, the minimap, the camera, the entity factory (its terrain comes from a noise generator) and the host loop's fixed-timestep accumulator: they are I/O or not part of this model.
- Trigonometry and square roots: `Math.sin`, `Math.cos` and `Math.sqrt` are uninterpreted inputs. The angle of attack (an `acos` of the sail and apparent-wind vectors) is an input per body. `deltaFromAngle` appears only inside Physics, over the uninterpreted functions.
- Floating point: numbers are exact reals, with no rounding, NaN, infinities or signed zero. The tests compare with a tolerance where the model proves equality.
- `Math.sign` of NaN or -0, and division by zero: `Physics` requires a non-zero forward limit, because `speedFraction` would otherwise be NaN or infinite. `Animator`'s stopping distance for a zero acceleration is handled without dividing, as the infinity or NaN it yields.
- `roll`, which `Physics.ts` and `applyTransform.ts` import but the helpers module does not export, is modelled as `wrap`. As written, the call would throw a `TypeError`.
- `STEP_RATE`, which `applyControl.ts` imports but `src/constants.ts` does not export, is modelled as `STEP_SIZE`. As written it is `undefined`, so every product with it is NaN and the legacy system writes NaN into the turn rate, speed and trim angle it moves.
- Collections.CheckMask: tests that each mask key is an own key of the entity's component map. The source's `components[key] === undefined` also accepts a key inherited from `Object.prototype` (such as `constructor`) and rejects an own key holding `undefined`. Here component maps hold no `undefined` and mask keys are role names, so neither case is modelled. `applyMask` tests own keys (`hasOwnProperty`), as the model does.
- The `Force` and `Position` component classes are not part of this model. The `forward` and `heading` slots are taken to alias `y` and `rotZ`, as the entity factory fills them. The terrain field, spelled `heighMap` in the source, is `heightMap` here.
- Component ids (`id`, `entityId`) are never read by the systems and are left out of the records.
- Exceptions part-way through a loop: a `TypeError` is modelled as the whole call failing (`None`). Writes made to earlier items before the throw are not modelled.
- Physics.Parse: requires a terrain and an environment entity (the source reads the first of each and throws without them) and one angle of attack per body.
- PlayerControl.Parse, ApplyControl.Parse, ApplyTransform.Parse: require the second array to be at least as long as the first, where the source would throw on a missing element.
- EntityManager.GetComponentGroups: requires the component index to be defined whenever some entity matches a non-empty mask. The index is never assigned, so reading it throws; that error path is a precondition rather than a result.
- The manager hands systems an array of `[index, component]` pairs, while the systems read role-keyed objects. Its `checkMask` also compares role names with type names (see `RoleKeysAreComparedWithTypeNames`). The manager-to-system path is therefore modelled on each side separately, not end to end; the tests that increment test components through `update` cannot be reproduced as written.
- Aliasing between components of different entities is modelled only in `TestSystem`, where a store of shared components is indexed by reference. Other systems treat each entity's components as its own.
- Physics.DragCoef: states non-negativity and zero at zero angle of attack, not the value `a^2` for other angles.
- Physics.LiftCoef: states only the cut-off; below it the value depends on the uninterpreted square root.
- Physics.ApplyWind: the sail force's components are stated only where they are zero; elsewhere they depend on the uninterpreted sine and cosine. The sail vector's direction and length are stated only under the trigonometric identities that `SailVectorPointsAft` requires.
- SailAnimator.HeelSign: states the sign of the heel, not its magnitude.
- The duplicate lower-case `physics.ts`, whose `parse` is empty, and the empty `ComponentRepository` and `ComponentBlock` stubs have no behaviour to model.
- `EntityManager.getIndexes`, an `EntityFactory` class, `EntityIndexById` and a `PlayerControl` class are used by tests but absent from the source, so they are not modelled.
