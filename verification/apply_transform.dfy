/** `applyTransform`: each pending transform is added to the position at
    the same index (the rotations rolled onto `[0, 2 pi)`) and then
    consumed, i.e. zeroed. */
module ApplyTransform {
  import opened Numeric
  import opened Helpers
  import opened Components

  const ZERO: Transform := Transform(0.0, 0.0, 0.0, 0.0, 0.0, 0.0)

  /** One full turn, the width of the rotation ring. */
  function Turn(): real {
    2.0 * PI
  }

  /** Add a transform to a position: translations add, rotations add and
      roll onto the ring. */
  function Apply(p: Position, t: Transform): (r: Position)
    ensures r.x == p.x + t.x && r.y == p.y + t.y && r.z == p.z + t.z
    ensures r.rotX == Wrap(p.rotX + t.rotX, 0.0, Turn())
    ensures r.rotY == Wrap(p.rotY + t.rotY, 0.0, Turn())
    ensures r.heading == Wrap(p.heading + t.rotZ, 0.0, Turn())
  {
    Position(p.x + t.x, p.y + t.y, p.z + t.z,
             Wrap(p.rotX + t.rotX, 0.0, Turn()),
             Wrap(p.rotY + t.rotY, 0.0, Turn()),
             Wrap(p.heading + t.rotZ, 0.0, Turn()))
  }

  /** Rotations on the ring stay on the ring under any turn of less than a
      full circle either way. */
  predicate OnRing(p: Position) {
    && 0.0 <= p.rotX < Turn() && 0.0 <= p.rotY < Turn() && 0.0 <= p.heading < Turn()
  }

  predicate SmallTurns(t: Transform) {
    && -Turn() <= t.rotX < Turn() && -Turn() <= t.rotY < Turn() && -Turn() <= t.rotZ < Turn()
  }

  lemma ApplyKeepsRing(p: Position, t: Transform)
    requires OnRing(p) && SmallTurns(t)
    ensures OnRing(Apply(p, t))
  {
    WrapStepStaysInRing(p.rotX, t.rotX, 0.0, Turn());
    WrapStepStaysInRing(p.rotY, t.rotY, 0.0, Turn());
    WrapStepStaysInRing(p.heading, t.rotZ, 0.0, Turn());
  }

  /** A zero transform moves nothing, and leaves ring rotations as they are. */
  lemma ZeroTransformIsIdentity(p: Position)
    ensures Apply(p, ZERO).x == p.x && Apply(p, ZERO).y == p.y && Apply(p, ZERO).z == p.z
    ensures OnRing(p) ==> Apply(p, ZERO) == p
  {
  }

  /** `parse`: position i takes transform i, which is then zeroed, for
      every index of the position array; positions past it, and transforms
      past it, are untouched. */
  method Parse(positions: seq<Position>, transforms: seq<Transform>)
    returns (ps: seq<Position>, ts: seq<Transform>)
    requires |positions| <= |transforms|
    ensures |ps| == |positions| && |ts| == |transforms|
    ensures forall i :: 0 <= i < |positions| ==> ps[i] == Apply(positions[i], transforms[i]) && ts[i] == ZERO
    ensures forall i :: |positions| <= i < |transforms| ==> ts[i] == transforms[i]
  {
    ps := positions;
    ts := transforms;
    var i := 0;
    while i < |positions|
      invariant 0 <= i <= |positions|
      invariant |ps| == |positions| && |ts| == |transforms|
      invariant forall k :: 0 <= k < i ==> ps[k] == Apply(positions[k], transforms[k]) && ts[k] == ZERO
      invariant forall k :: i <= k < |positions| ==> ps[k] == positions[k]
      invariant forall k :: i <= k < |transforms| ==> ts[k] == transforms[k]
    {
      ps := ps[i := Apply(ps[i], ts[i])];
      ts := ts[i := ZERO];
      i := i + 1;
    }
  }

  /** Running `parse` twice: the second run finds every used transform
      zeroed, so it moves no position. */
  method ParseTwiceMovesOnce(positions: seq<Position>, transforms: seq<Transform>)
    returns (once: seq<Position>, twice: seq<Position>)
    requires |positions| <= |transforms|
    ensures |once| == |twice| == |positions|
    ensures forall i :: 0 <= i < |positions| ==>
              twice[i].x == once[i].x && twice[i].y == once[i].y && twice[i].z == once[i].z
    ensures forall i :: 0 <= i < |positions| && OnRing(once[i]) ==> twice[i] == once[i]
  {
    var ts;
    once, ts := Parse(positions, transforms);
    var ts2;
    twice, ts2 := Parse(once, ts);
    forall i | 0 <= i < |positions|
      ensures twice[i].x == once[i].x && twice[i].y == once[i].y && twice[i].z == once[i].z
      ensures OnRing(once[i]) ==> twice[i] == once[i]
    {
      ZeroTransformIsIdentity(once[i]);
    }
  }
}
