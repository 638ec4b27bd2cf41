/** The `SailAnimator` system: from the sailing driver's trim and sail force
    it sets the targets of the rigging's `heel`, `boom` and `headsail`
    clips, leaving the easing toward them to the `Animator`. */
module SailAnimator {
  import opened Numeric
  import opened Wrappers
  import opened Collections
  import opened Components
  import opened Animator

  const MASK: ComponentMask :=
    [("actors", [("driver", ComponentDefinition("BoatLocomotion", true)),
                 ("rigging", ComponentDefinition("AnimationRigging", true))])]

  /** `calcHeel`: the lean, `(pi/3 - |trim|) * 0.4 * sailForce.x / 5`. */
  function CalcHeel(d: BoatLocomotion): (r: real)
    ensures d.sailForce.x == 0.0 ==> r == 0.0
    ensures Abs(d.trimAngle) == PI / 3.0 ==> r == 0.0
  {
    (PI / 3.0 - Abs(d.trimAngle)) * 0.4 * (d.sailForce.x / 5.0)
  }

  /** The boat leans with the sideways sail force while the sail is trimmed
      less than 60 degrees out, against it beyond, and stands upright with
      no sideways force or at exactly 60 degrees. */
  lemma HeelSign(d: BoatLocomotion)
    ensures Sign(CalcHeel(d)) == Sign(PI / 3.0 - Abs(d.trimAngle)) * Sign(d.sailForce.x)
    ensures d.sailForce.x == 0.0 ==> CalcHeel(d) == 0.0
    ensures Abs(d.trimAngle) < PI / 3.0 ==> Sign(CalcHeel(d)) == Sign(d.sailForce.x)
  {
    var lean := PI / 3.0 - Abs(d.trimAngle);
    ProductSign(lean, 0.4);
    QuotientSign(d.sailForce.x, 5.0);
    ProductSign(lean * 0.4, d.sailForce.x / 5.0);
  }

  /** A sideways force the other way leans the boat the other way, as far. */
  lemma HeelMirrorsSideForce(d: BoatLocomotion)
    ensures CalcHeel(d.(sailForce := d.sailForce.(x := -d.sailForce.x))) == -CalcHeel(d)
  {
    var lean := (PI / 3.0 - Abs(d.trimAngle)) * 0.4;
    assert -d.sailForce.x / 5.0 == -(d.sailForce.x / 5.0);
    assert lean * -(d.sailForce.x / 5.0) == -(lean * (d.sailForce.x / 5.0));
  }

  /** `calcBoom`: the boom follows the trim. */
  function CalcBoom(d: BoatLocomotion): (r: real)
    ensures Abs(d.trimAngle) <= d.maxTrimAngle * 0.8 ==> CalcHeadsail(d) == 1.3 * r
    ensures Abs(d.trimAngle) > d.maxTrimAngle * 0.8 ==> CalcHeadsail(d) == -1.3 * r
  {
    d.trimAngle
  }

  /** `calcHeadsail`: the headsail swings 1.3 times as far as the trim, on
      the trim's side while the trim is within 80% of its maximum and on
      the opposite side (backed) beyond that. */
  function CalcHeadsail(d: BoatLocomotion): (r: real)
    ensures Abs(r) == 1.3 * Abs(d.trimAngle)
    ensures Abs(d.trimAngle) <= d.maxTrimAngle * 0.8 ==> Sign(r) == Sign(d.trimAngle)
    ensures Abs(d.trimAngle) > d.maxTrimAngle * 0.8 ==> Sign(r) == -Sign(d.trimAngle)
  {
    if Abs(d.trimAngle) > d.maxTrimAngle * 0.8 then -d.trimAngle * 1.3
    else d.trimAngle * 1.3
  }

  /** Trimming to the other side mirrors the headsail. */
  lemma HeadsailMirrorsTrim(d: BoatLocomotion)
    ensures CalcHeadsail(d.(trimAngle := -d.trimAngle)) == -CalcHeadsail(d)
  {
  }

  /** `clips[name].targetState = target`: `None` (a TypeError) when the
      rigging has no clip of that name. */
  function Retarget(clips: Rigging, name: string, target: real): (r: Option<Rigging>)
    ensures r.None? <==> name !in KeySet(clips)
    ensures r.Some? ==> |r.value| == |clips|
    ensures r.Some? ==> forall i :: 0 <= i < |clips| ==>
              && r.value[i].0 == clips[i].0
              && r.value[i].1 == clips[i].1.(targetState := r.value[i].1.targetState)
              && r.value[i].1.targetState == (if clips[i].0 == name then target else clips[i].1.targetState)
  {
    if name in KeySet(clips) then Some(SetTargets(clips, name, target)) else None
  }

  /** Every clip of the name gets the new target; the rest are kept. */
  function SetTargets(clips: Rigging, name: string, target: real): (r: Rigging)
    ensures |r| == |clips|
    ensures forall i :: 0 <= i < |clips| ==>
              r[i] == (if clips[i].0 == name then (name, clips[i].1.(targetState := target)) else clips[i])
    decreases |clips|
  {
    if |clips| == 0 then []
    else
      [if clips[0].0 == name then (name, clips[0].1.(targetState := target)) else clips[0]]
      + SetTargets(clips[1..], name, target)
  }

  /** Whether one actor's rigging has all three clips the system sets. */
  predicate Rigged(clips: Rigging) {
    "heel" in KeySet(clips) && "boom" in KeySet(clips) && "headsail" in KeySet(clips)
  }

  /** One actor of `parse`: the heel, boom and headsail targets, in that
      order; `None` (a TypeError) when one of the three clips is missing. */
  function RetargetActor(d: BoatLocomotion, clips: Rigging): (r: Option<Rigging>)
    ensures r.Some? <==> Rigged(clips)
  {
    match Retarget(clips, "heel", CalcHeel(d))
    case None => None
    case Some(c1) =>
      assert KeySet(c1) == KeySet(clips) by { SameNamesSameKeys(clips, c1); }
      match Retarget(c1, "boom", CalcBoom(d))
      case None => None
      case Some(c2) =>
        assert KeySet(c2) == KeySet(clips) by { SameNamesSameKeys(c1, c2); }
        Retarget(c2, "headsail", CalcHeadsail(d))
  }

  /** Retargeting a fully rigged actor writes only the three clips'
      `targetState`s (their state, rate and the other clips are kept): the
      heel target from `calcHeel`, the boom's from `calcBoom` and the
      headsail's from `calcHeadsail`. */
  lemma RetargetActorWritesTargets(d: BoatLocomotion, clips: Rigging)
    requires Rigged(clips)
    ensures var r := RetargetActor(d, clips).value;
            && |r| == |clips|
            && forall i :: 0 <= i < |clips| ==>
                 && r[i].0 == clips[i].0
                 && r[i].1 == clips[i].1.(targetState := r[i].1.targetState)
                 && (clips[i].0 == "heel" ==> r[i].1.targetState == CalcHeel(d))
                 && (clips[i].0 == "boom" ==> r[i].1.targetState == CalcBoom(d))
                 && (clips[i].0 == "headsail" ==> r[i].1.targetState == CalcHeadsail(d))
                 && (clips[i].0 !in {"heel", "boom", "headsail"} ==> r[i] == clips[i])
  {
    var c1 := Retarget(clips, "heel", CalcHeel(d)).value;
    SameNamesSameKeys(clips, c1);
    var c2 := Retarget(c1, "boom", CalcBoom(d)).value;
    SameNamesSameKeys(c1, c2);
    var c3 := Retarget(c2, "headsail", CalcHeadsail(d)).value;
    assert RetargetActor(d, clips).value == c3;
  }

  /** Lists with the same names position by position have the same key set. */
  lemma SameNamesSameKeys(a: Rigging, b: Rigging)
    requires |a| == |b|
    requires forall i :: 0 <= i < |a| ==> a[i].0 == b[i].0
    ensures KeySet(a) == KeySet(b)
  {
    forall k | k in KeySet(a) ensures k in KeySet(b) {
      var i :| 0 <= i < |a| && a[i].0 == k;
      assert b[i].0 == k;
    }
    forall k | k in KeySet(b) ensures k in KeySet(a) {
      var i :| 0 <= i < |b| && b[i].0 == k;
      assert a[i].0 == k;
    }
  }

  /** `parse`: every actor's rigging is retargeted from its own driver; a
      rigging that lacks one of the three clips makes the whole call fail. */
  function Parse(actors: seq<(BoatLocomotion, Rigging)>): (r: Option<seq<Rigging>>)
    ensures r.Some? <==> forall i :: 0 <= i < |actors| ==> Rigged(actors[i].1)
    ensures r.Some? ==> |r.value| == |actors|
    ensures r.Some? ==> forall i :: 0 <= i < |actors| ==>
              RetargetActor(actors[i].0, actors[i].1) == Some(r.value[i])
  {
    MapAll((a: (BoatLocomotion, Rigging)) => RetargetActor(a.0, a.1), actors)
  }
}
