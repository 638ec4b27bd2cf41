/** The `Physics` system: the sail's wind force on the forward force, then
    the driver's forces on the body's position, gated by the terrain's
    height map. The trigonometric functions and the square root are the
    fields of a `Trig` record the caller provides; the sail's angle of
    attack, an arc-cosine of the sail and apparent-wind vectors, is an
    input of each body. */
module Physics {
  import opened Numeric
  import opened Helpers
  import opened Collections
  import opened Components

  /** `Math.sin`, `Math.cos` and `Math.sqrt`, left uninterpreted. */
  datatype Trig = Trig(sin: real -> real, cos: real -> real, sqrt: real -> real)

  /** The water-drag coefficient. */
  const DRAG: real := 0.5
  /** A height-map sample at or above this is land. */
  const LAND_HEIGHT: int := 76

  const MASK: ComponentMask :=
    [("bodies", [("driver", ComponentDefinition("BoatLocomotion", true)),
                 ("position", ComponentDefinition("Position", true))]),
     ("terrain", [("collider", ComponentDefinition("TerrainCollider", true))]),
     ("environment", [("wind", ComponentDefinition("Wind", true))])]

  /** A body as `parse` sees it: its driver and its position. */
  datatype Body = Body(driver: BoatLocomotion, position: Position)

  // ---------------------------------------------------------------- wind

  /** `windInSail`: the sail draws unless the angle of attack and the trim
      angle have the same strict sign. */
  function WindInSail(aoa: real, trimAngle: real): (r: bool)
    ensures r <==> !((aoa > 0.0 && trimAngle > 0.0) || (aoa < 0.0 && trimAngle < 0.0))
  {
    ProductSign(aoa, trimAngle);
    Sign(aoa * trimAngle) <= 0.0
  }

  /** A centred sail always counts as in the wind. */
  lemma CentredSailIsInWind(aoa: real)
    ensures WindInSail(aoa, 0.0)
  {
  }

  /** The drag coefficient `a^2`, where `a` is the angle of attack folded
      onto `[0, pi/2]` and scaled to `[0, 1]`. */
  function DragCoef(aoa: real): (r: real)
    ensures r >= 0.0
    ensures aoa == 0.0 ==> r == 0.0
  {
    var a := 2.0 * (PI * 0.5 - Abs(PI * 0.5 - Abs(aoa))) / PI;
    a * a
  }

  /** The lift coefficient: zero past a right angle of attack, otherwise
      `b(b - 1)(b^2 - 1) * 4.8` with `b = sqrt(2|aoa| / pi)`. */
  function LiftCoef(trig: Trig, aoa: real): (r: real)
    ensures Abs(aoa) * 2.0 > PI ==> r == 0.0
  {
    if Abs(aoa) * 2.0 > PI then 0.0
    else
      var b := trig.sqrt(2.0 * Abs(aoa) / PI);
      b * (b - 1.0) * (b * b - 1.0) * 4.8
  }

  /** The wind in the boat's frame, less the boat's own forward motion. */
  function ApparentWind(trig: Trig, d: BoatLocomotion, p: Position, w: Wind): (r: Vec2)
    ensures w.windSpeed == 0.0 ==> r == Vec2(0.0, -d.forces.forward)
  {
    Vec2(trig.sin(w.windHeading - p.heading) * w.windSpeed,
         trig.cos(w.windHeading - p.heading) * w.windSpeed - d.forces.forward)
  }

  /** The boat's own speed is a head wind: it lowers the apparent wind's
      fore-aft component by exactly the forward force and leaves the
      sideways one alone. */
  lemma SpeedIsHeadWind(trig: Trig, d: BoatLocomotion, p: Position, w: Wind)
    ensures var still := ApparentWind(trig, d.(forces := d.forces.(forward := 0.0)), p, w);
            && ApparentWind(trig, d, p, w).x == still.x
            && ApparentWind(trig, d, p, w).y == still.y - d.forces.forward
  {
  }

  /** The sail's direction: the heading of the trim angle turned by half a
      circle. */
  function SailVector(trig: Trig, d: BoatLocomotion): Vec2
  {
    Vec2(trig.sin(d.trimAngle + PI), trig.cos(d.trimAngle + PI))
  }

  /** Sine and cosine change sign over half a circle. */
  ghost predicate HalfTurnIdentities(trig: Trig)
  {
    forall a :: trig.sin(a + PI) == -trig.sin(a) && trig.cos(a + PI) == -trig.cos(a)
  }

  /** `sin^2 + cos^2 == 1`. */
  ghost predicate Pythagorean(trig: Trig)
  {
    forall a :: trig.sin(a) * trig.sin(a) + trig.cos(a) * trig.cos(a) == 1.0
  }

  /** Under the half-turn identities the sail vector points against the trim
      direction: straight aft for a centred sail, and of unit length when
      sine and cosine are on the unit circle. */
  lemma SailVectorPointsAft(trig: Trig, d: BoatLocomotion)
    requires HalfTurnIdentities(trig)
    ensures SailVector(trig, d) == Vec2(-trig.sin(d.trimAngle), -trig.cos(d.trimAngle))
    ensures d.trimAngle == 0.0 && trig.sin(0.0) == 0.0 && trig.cos(0.0) == 1.0
            ==> SailVector(trig, d) == Vec2(0.0, -1.0)
    ensures Pythagorean(trig)
            ==> var v := SailVector(trig, d); v.x * v.x + v.y * v.y == 1.0
  {
    var t := d.trimAngle;
    assert trig.sin(t + PI) == -trig.sin(t) && trig.cos(t + PI) == -trig.cos(t);
    if Pythagorean(trig) {
      assert trig.sin(t) * trig.sin(t) + trig.cos(t) * trig.cos(t) == 1.0;
    }
  }

  /** `applyWind`: records the angle of attack and the apparent wind; a sail
      out of the wind produces nothing, a sail in the wind produces lift and
      drag, decomposed along the sail into the sail force, whose forward
      part is added to the forward force up to its limit. */
  function ApplyWind(trig: Trig, d: BoatLocomotion, p: Position, w: Wind, aoa: real): (r: BoatLocomotion)
    // only the sail's outputs and the forward force are written
    ensures r == d.(AoA := aoa, localWind := r.localWind, lift := r.lift, drag := r.drag,
                    sailForce := r.sailForce, forces := r.forces)
    ensures r.forces == d.forces.(forward := r.forces.forward)
    ensures r.localWind == ApparentWind(trig, d, p, w)
    ensures !WindInSail(aoa, d.trimAngle)
            ==> r.lift == 0.0 && r.drag == 0.0 && r.sailForce == Vec2(0.0, 0.0) && r.forces == d.forces
    ensures WindInSail(aoa, d.trimAngle)
            ==> && r.drag == DragCoef(aoa) * d.effSailArea * w.windSpeed
                && r.lift == LiftCoef(trig, aoa) * d.effSailArea * w.windSpeed
                && r.forces.forward <= d.limits.forward
    ensures WindInSail(aoa, d.trimAngle) && d.forces.forward + r.sailForce.y * STEP_SIZE <= d.limits.forward
            ==> r.forces.forward == d.forces.forward + r.sailForce.y * STEP_SIZE
    ensures d.trimAngle == 0.0 ==> r.sailForce == Vec2(0.0, 0.0) && r.forces.forward == Min(d.forces.forward, d.limits.forward)
  {
    var apparent := ApparentWind(trig, d, p, w);
    var withAoA := d.(AoA := aoa, localWind := apparent);
    if !WindInSail(aoa, d.trimAngle) then
      withAoA.(lift := 0.0, drag := 0.0, sailForce := Vec2(0.0, 0.0))
    else
      var sail := SailVector(trig, d);
      var drag := DragCoef(aoa) * d.effSailArea * w.windSpeed;
      var lift := LiftCoef(trig, aoa) * d.effSailArea * w.windSpeed;
      var force := drag + lift;
      var sailForce := Vec2(force * sail.y * Sign(d.trimAngle), -(force * sail.x * Sign(d.trimAngle)));
      withAoA.(lift := lift, drag := drag, sailForce := sailForce,
               forces := d.forces.(forward := Min(d.forces.forward + sailForce.y * STEP_SIZE, d.limits.forward)))
  }

  // ------------------------------------------------------------- terrain

  /** The height-map cell under a world point: the world square is centred
      on the origin, x grows east along a row and y grows north against the
      rows, each rounded to the nearest of 512 segments. */
  function CellIndex(x: real, y: real): (r: int)
    ensures -1000.0 <= x < 1000.0 && -1000.0 < y <= 1000.0 ==> 0 <= r < WORLD_HSEGMENTS * WORLD_VSEGMENTS
  {
    var mapX := Round(WORLD_HSEGMENTS as real * 0.5 - 0.5 + x / WORLD_WIDTH * WORLD_HSEGMENTS as real);
    var mapY := Round(WORLD_VSEGMENTS as real * 0.5 - 0.5 - y / WORLD_HEIGHT * WORLD_VSEGMENTS as real);
    assert -1000.0 <= x < 1000.0 && -1000.0 < y <= 1000.0 ==> 0 <= mapX < 512 && 0 <= mapY < 512;
    mapX + mapY * WORLD_HSEGMENTS
  }

  /** `checkCollision`: the point is over land. An index outside the map
      reads `undefined`, which is not land. */
  function Collides(x: real, y: real, heightMap: seq<int16>): (r: bool)
    ensures r ==> 0 <= CellIndex(x, y) < |heightMap|
    ensures 0 <= CellIndex(x, y) < |heightMap| ==> (r <==> heightMap[CellIndex(x, y)] as int >= LAND_HEIGHT)
  {
    var i := CellIndex(x, y);
    0 <= i < |heightMap| && heightMap[i] as int >= LAND_HEIGHT
  }

  /** Every point of the world square `[-1000, 1000) x (-1000, 1000]` has
      its own cell of a full 512 x 512 height map, so on such a map the
      point collides exactly when its cell is land. */
  lemma WorldSquareIsOnTheMap(x: real, y: real, heightMap: seq<int16>)
    requires -1000.0 <= x < 1000.0 && -1000.0 < y <= 1000.0
    requires |heightMap| == WORLD_HSEGMENTS * WORLD_VSEGMENTS
    ensures 0 <= CellIndex(x, y) < |heightMap|
    ensures Collides(x, y, heightMap) <==> heightMap[CellIndex(x, y)] as int >= LAND_HEIGHT
  {
    var mapX := Round(255.5 + x / 2000.0 * 512.0);
    var mapY := Round(255.5 - y / 2000.0 * 512.0);
    assert 0 <= mapX < 512;
    assert 0 <= mapY < 512;
    assert CellIndex(x, y) == mapX + mapY * 512;
  }

  /** The world origin lies in row 256, column 256. */
  lemma OriginCell()
    ensures CellIndex(0.0, 0.0) == 256 + 256 * 512
  {
  }

  // -------------------------------------------------------------- driver

  /** `deltaFromAngle`: a displacement of `distance` toward `angle`, with
      angle 0 pointing north (+y) and pi/2 east (+x). */
  function DeltaFromAngle(trig: Trig, distance: real, angle: real): (r: Vec2)
    ensures distance == 0.0 ==> r == Vec2(0.0, 0.0)
  {
    Vec2(distance * trig.sin(angle), distance * trig.cos(angle))
  }

  /** The displacement is proportional to the distance. */
  lemma DeltaScalesWithDistance(trig: Trig, k: real, distance: real, angle: real)
    ensures DeltaFromAngle(trig, k * distance, angle)
            == Vec2(k * DeltaFromAngle(trig, distance, angle).x, k * DeltaFromAngle(trig, distance, angle).y)
  {
    assert k * distance * trig.sin(angle) == k * (distance * trig.sin(angle));
    assert k * distance * trig.cos(angle) == k * (distance * trig.cos(angle));
  }

  /** The turn applied to the heading in one tick: the heading force,
      scaled by the speed fraction but never by less than 0.1. */
  function HeadingIncrement(d: BoatLocomotion): (r: real)
    requires d.limits.forward != 0.0
    ensures Sign(r) == Sign(d.forces.heading)
    ensures Abs(r) >= Abs(d.forces.heading) * STEP_SIZE * 0.1
  {
    var scale := Max(d.forces.forward / d.limits.forward, 0.1);
    assert Sign(d.forces.heading * STEP_SIZE * scale) == Sign(d.forces.heading) by {
      ProductSign(d.forces.heading, STEP_SIZE);
      ProductSign(d.forces.heading * STEP_SIZE, scale);
    }
    assert Abs(d.forces.heading * STEP_SIZE * scale) >= Abs(d.forces.heading) * STEP_SIZE * 0.1 by {
      ScaledMagnitude(d.forces.heading * STEP_SIZE, scale, 0.1);
    }
    d.forces.heading * STEP_SIZE * scale
  }

  /** The turn grows with the speed fraction `forward / limit`: above the
      0.1 floor two speeds give turns in the ratio of their fractions, and
      at or below it they give the same turn. */
  lemma HeadingScalesWithSpeed(d: BoatLocomotion, forward: real)
    requires d.limits.forward != 0.0
    ensures var e := d.(forces := d.forces.(forward := forward));
            var f, g := d.forces.forward / d.limits.forward, forward / d.limits.forward;
            && (f >= 0.1 && g >= 0.1 ==> HeadingIncrement(d) * g == HeadingIncrement(e) * f)
            && (f <= 0.1 && g <= 0.1 ==> HeadingIncrement(d) == HeadingIncrement(e))
  {
    var e := d.(forces := d.forces.(forward := forward));
    var f, g := d.forces.forward / d.limits.forward, forward / d.limits.forward;
    var h := d.forces.heading * STEP_SIZE;
    if f >= 0.1 && g >= 0.1 {
      assert HeadingIncrement(d) == h * f && HeadingIncrement(e) == h * g;
      assert h * f * g == h * g * f;
    }
  }

  /** A stopped boat turns by exactly a tenth of what it turns at full
      speed, where the speed fraction is 1. */
  lemma StoppedTurnIsATenth(d: BoatLocomotion)
    requires d.limits.forward != 0.0
    ensures var stopped := d.(forces := d.forces.(forward := 0.0));
            var full := d.(forces := d.forces.(forward := d.limits.forward));
            && HeadingIncrement(full) == d.forces.heading * STEP_SIZE
            && HeadingIncrement(stopped) == d.forces.heading * STEP_SIZE * 0.1
            && HeadingIncrement(full) == 10.0 * HeadingIncrement(stopped)
  {
    assert d.limits.forward / d.limits.forward == 1.0;
    assert 0.0 / d.limits.forward == 0.0;
  }

  /** Scaling by at least `lo >= 0` scales the magnitude by at least `lo`. */
  lemma ScaledMagnitude(x: real, k: real, lo: real)
    requires 0.0 <= lo <= k
    ensures Abs(x * k) >= Abs(x) * lo
  {
    if x >= 0.0 {
      assert x * k >= x * lo;
    } else {
      assert x * k <= x * lo;
    }
  }

  /** The heading after the "Direction" step: turned by the increment and
      rolled back onto `[0, 2 pi)`. */
  function NewHeading(d: BoatLocomotion, p: Position): (h: real)
    requires d.limits.forward != 0.0
    ensures d.forces.heading == 0.0 ==> h == p.heading
    ensures d.forces.heading != 0.0 ==>
              || h == p.heading + HeadingIncrement(d)
              || h == p.heading + HeadingIncrement(d) - 2.0 * PI
              || h == p.heading + HeadingIncrement(d) + 2.0 * PI
    ensures 0.0 <= p.heading < 2.0 * PI && Abs(HeadingIncrement(d)) < 2.0 * PI ==> 0.0 <= h < 2.0 * PI
  {
    if d.forces.heading != 0.0 then Wrap(p.heading + HeadingIncrement(d), 0.0, 2.0 * PI)
    else p.heading
  }

  /** The forward force after one tick of water drag. */
  function Drag(d: BoatLocomotion): (f: real)
    requires d.limits.forward != 0.0
    ensures f >= 0.0
    ensures d.limits.forward > 0.0 && d.forces.forward > 0.0 ==> f < d.forces.forward
    ensures d.limits.forward > 0.0 && d.forces.forward <= 0.0 ==> f == 0.0
  {
    var speedFraction := d.forces.forward / d.limits.forward;
    Max(d.forces.forward - (d.limits.forward * 0.05 + speedFraction * speedFraction) * DRAG * STEP_SIZE, 0.0)
  }

  /** `applyDriver`: turn, then, if the boat moves, step along the new
      heading one axis at a time, each axis only if the point it would
      reach (with the other axis unchanged) is not land, and apply drag. */
  function ApplyDriver(trig: Trig, d: BoatLocomotion, p: Position, heightMap: seq<int16>): (r: Body)
    requires d.limits.forward != 0.0
    // only the forward force and the position's x, y and heading are written
    ensures r.driver == d.(forces := d.forces.(forward := r.driver.forces.forward))
    ensures r.position == p.(x := r.position.x, y := r.position.y, heading := r.position.heading)
    ensures r.position.heading == NewHeading(d, p)
    ensures d.forces.forward == 0.0 ==> r.driver == d && r.position.x == p.x && r.position.y == p.y
    ensures d.forces.forward != 0.0 ==>
              var delta := DeltaFromAngle(trig, d.forces.forward * STEP_SIZE, NewHeading(d, p));
              && r.position.x == (if Collides(p.x + delta.x, p.y, heightMap) then p.x else p.x + delta.x)
              && r.position.y == (if Collides(p.x, p.y + delta.y, heightMap) then p.y else p.y + delta.y)
              && r.driver.forces.forward == Drag(d)
  {
    var heading := NewHeading(d, p);
    if d.forces.forward != 0.0 then
      var delta := DeltaFromAngle(trig, d.forces.forward * STEP_SIZE, heading);
      var validX := !Collides(p.x + delta.x, p.y, heightMap);
      var validY := !Collides(p.x, p.y + delta.y, heightMap);
      Body(d.(forces := d.forces.(forward := Drag(d))),
           p.(heading := heading,
              x := if validX then p.x + delta.x else p.x,
              y := if validY then p.y + delta.y else p.y))
    else
      Body(d, p.(heading := heading))
  }

  /** The two axes are gated independently: whether x moves depends only on
      the sine of the heading and the old y, whether y moves only on the
      cosine and the old x. */
  lemma AxesAreIndependent(t1: Trig, t2: Trig, d: BoatLocomotion, p: Position, heightMap: seq<int16>)
    requires d.limits.forward != 0.0
    ensures t1.sin == t2.sin ==> ApplyDriver(t1, d, p, heightMap).position.x == ApplyDriver(t2, d, p, heightMap).position.x
    ensures t1.cos == t2.cos ==> ApplyDriver(t1, d, p, heightMap).position.y == ApplyDriver(t2, d, p, heightMap).position.y
  {
    var distance := d.forces.forward * STEP_SIZE;
    var heading := NewHeading(d, p);
    if t1.sin == t2.sin {
      assert DeltaFromAngle(t1, distance, heading).x == DeltaFromAngle(t2, distance, heading).x;
    }
    if t1.cos == t2.cos {
      assert DeltaFromAngle(t1, distance, heading).y == DeltaFromAngle(t2, distance, heading).y;
    }
  }

  /** A moving boat never gets faster from drag and never goes negative; a
      boat moving forward under a positive limit strictly slows down. */
  lemma DragDecays(trig: Trig, d: BoatLocomotion, p: Position, heightMap: seq<int16>)
    requires d.limits.forward > 0.0 && d.forces.forward > 0.0
    ensures 0.0 <= ApplyDriver(trig, d, p, heightMap).driver.forces.forward < d.forces.forward
  {
  }

  /** At full speed, a clockwise turn from one increment short of a full
      circle lands exactly on north. */
  lemma FullTurnWrapsToNorth(d: BoatLocomotion, p: Position)
    requires d.limits.forward != 0.0 && d.forces.forward == d.limits.forward
    requires d.forces.heading != 0.0
    requires p.heading == 2.0 * PI - d.forces.heading * STEP_SIZE
    ensures NewHeading(d, p) == 0.0
  {
    SelfQuotient(d.forces.forward);
    assert HeadingIncrement(d) == d.forces.heading * STEP_SIZE;
  }

  // --------------------------------------------------------------- parse

  /** One body's tick: the wind, then the driver. */
  function StepBody(trig: Trig, b: Body, w: Wind, heightMap: seq<int16>, aoa: real): (r: Body)
    requires b.driver.limits.forward != 0.0
    ensures r.driver.limits == b.driver.limits && r.driver.rates == b.driver.rates
  {
    ApplyDriver(trig, ApplyWind(trig, b.driver, b.position, w, aoa), b.position, heightMap)
  }

  /** `parse`: the first terrain's height map and the first environment's
      wind apply to every body, each body with its own angle of attack. */
  function Parse(trig: Trig, bodies: seq<Body>, terrain: seq<TerrainCollider>, environment: seq<Wind>, aoa: seq<real>)
    : (r: seq<Body>)
    requires |terrain| > 0 && |environment| > 0
    requires |aoa| == |bodies|
    requires forall i :: 0 <= i < |bodies| ==> bodies[i].driver.limits.forward != 0.0
    ensures |r| == |bodies|
    ensures forall i :: 0 <= i < |bodies| ==>
              r[i] == StepBody(trig, bodies[i], environment[0], terrain[0].heightMap, aoa[i])
    decreases |bodies|
  {
    if |bodies| == 0 then []
    else [StepBody(trig, bodies[0], environment[0], terrain[0].heightMap, aoa[0])]
         + Parse(trig, bodies[1..], terrain, environment, aoa[1..])
  }
}
