/** `applyMask`: reshape one entity's type-name -> component map into one
    group per role of a mask, or `None` (JavaScript `null`) for a role whose
    required component is missing. */
module ComponentMask {
  import opened Wrappers
  import opened Collections

  /** field name -> component, `None` for an absent optional component. */
  type ComponentGroup<C> = map<string, Option<C>>

  /** role name -> group, `None` for a rejected role. */
  type MaskedGroups<C> = map<string, Option<ComponentGroup<C>>>

  /** The component a definition refers to, looked up by its type name. */
  function Lookup<C>(components: map<string, C>, def: ComponentDefinition): Option<C> {
    if def.typeName in components then Some(components[def.typeName]) else None
  }

  /** A field that is required (`required !== false`) but absent. */
  predicate MissingRequired<C>(components: map<string, C>, def: ComponentDefinition) {
    def.required && def.typeName !in components
  }

  /** The component type names a group definition mentions. */
  function TypeNames(fields: GroupDefinition): set<string> {
    set i | 0 <= i < |fields| :: fields[i].1.typeName
  }

  /** One role: fields are visited in order and the first missing required
      one stops the role (`break`) with `None`. */
  function ApplyGroup<C>(components: map<string, C>, fields: GroupDefinition): (r: Option<ComponentGroup<C>>)
    requires DistinctKeys(fields)
    ensures r.None? <==> exists i :: 0 <= i < |fields| && MissingRequired(components, fields[i].1)
    ensures r.Some? ==> r.value.Keys == KeySet(fields)
    ensures r.Some? ==> forall i :: 0 <= i < |fields| ==> r.value[fields[i].0] == Lookup(components, fields[i].1)
    decreases |fields|
  {
    if |fields| == 0 then Some(map[])
    else if MissingRequired(components, fields[0].1) then None
    else
      match ApplyGroup(components, fields[1..])
      case None => None
      case Some(g) => Some(g[fields[0].0 := Lookup(components, fields[0].1)])
  }

  /** Every role of the mask gets an entry, computed from its own group
      definition alone. */
  function ApplyMask<C>(components: map<string, C>, mask: ComponentMask): (r: MaskedGroups<C>)
    requires WellFormedMask(mask)
    ensures r.Keys == KeySet(mask)
    ensures forall i :: 0 <= i < |mask| ==> r[mask[i].0] == ApplyGroup(components, mask[i].1)
    decreases |mask|
  {
    if |mask| == 0 then map[]
    else ApplyMask(components, mask[1..])[mask[0].0 := ApplyGroup(components, mask[0].1)]
  }

  /** A role is `null` exactly when one of its required types is absent; a
      non-null role has exactly the role's field names, each holding the
      component of the field's type, or `None` when that optional type is
      absent. */
  lemma ApplyMaskRoleShape<C>(components: map<string, C>, mask: ComponentMask, i: nat)
    requires WellFormedMask(mask)
    requires i < |mask|
    ensures mask[i].0 in ApplyMask(components, mask)
    ensures ApplyMask(components, mask)[mask[i].0].None?
            <==> exists j :: 0 <= j < |mask[i].1| && MissingRequired(components, mask[i].1[j].1)
    ensures ApplyMask(components, mask)[mask[i].0].Some? ==>
              && ApplyMask(components, mask)[mask[i].0].value.Keys == KeySet(mask[i].1)
              && forall j :: 0 <= j < |mask[i].1| ==>
                   ApplyMask(components, mask)[mask[i].0].value[mask[i].1[j].0]
                   == (if mask[i].1[j].1.typeName in components
                       then Some(components[mask[i].1[j].1.typeName]) else None)
  {
    var g := ApplyGroup(components, mask[i].1);
    assert ApplyMask(components, mask)[mask[i].0] == g;
    if g.Some? {
      forall j | 0 <= j < |mask[i].1|
        ensures g.value[mask[i].1[j].0] == Lookup(components, mask[i].1[j].1)
      {
      }
    }
  }

  /** Two component maps that agree on the named types give the same group. */
  lemma {:induction false} ApplyGroupOnlyNamedTypes<C>(c1: map<string, C>, c2: map<string, C>, fields: GroupDefinition)
    requires DistinctKeys(fields)
    requires forall t :: t in TypeNames(fields) ==> (t in c1 <==> t in c2)
    requires forall t :: t in TypeNames(fields) && t in c1 ==> c1[t] == c2[t]
    ensures ApplyGroup(c1, fields) == ApplyGroup(c2, fields)
    decreases |fields|
  {
    if |fields| > 0 {
      assert fields[0].1.typeName in TypeNames(fields);
      assert TypeNames(fields[1..]) <= TypeNames(fields) by {
        forall t | t in TypeNames(fields[1..]) ensures t in TypeNames(fields) {
          var k :| 0 <= k < |fields[1..]| && fields[1..][k].1.typeName == t;
          assert fields[k + 1].1.typeName == t;
        }
      }
      ApplyGroupOnlyNamedTypes(c1, c2, fields[1..]);
    }
  }

  /** Components whose type no field of the mask names never influence, and
      so never appear in, the result: dropping them changes nothing. */
  lemma ApplyMaskIgnoresUnlisted<C>(components: map<string, C>, mask: ComponentMask, named: set<string>)
    requires WellFormedMask(mask)
    requires forall i :: 0 <= i < |mask| ==> TypeNames(mask[i].1) <= named
    ensures ApplyMask(components, mask) == ApplyMask(map t | t in components && t in named :: components[t], mask)
  {
    var restricted := map t | t in components && t in named :: components[t];
    forall i | 0 <= i < |mask|
      ensures ApplyGroup(components, mask[i].1) == ApplyGroup(restricted, mask[i].1)
    {
      ApplyGroupOnlyNamedTypes(components, restricted, mask[i].1);
    }
    ApplyMaskRoleWise(components, restricted, mask);
  }

  /** Two component maps that give every role the same group give the same
      result. */
  lemma ApplyMaskRoleWise<C>(c1: map<string, C>, c2: map<string, C>, mask: ComponentMask)
    requires WellFormedMask(mask)
    requires forall i :: 0 <= i < |mask| ==> ApplyGroup(c1, mask[i].1) == ApplyGroup(c2, mask[i].1)
    ensures ApplyMask(c1, mask) == ApplyMask(c2, mask)
  {
    var r1 := ApplyMask(c1, mask);
    var r2 := ApplyMask(c2, mask);
    forall role | role in r1.Keys ensures r1[role] == r2[role] {
      var i :| 0 <= i < |mask| && mask[i].0 == role;
    }
  }

  /** A mask of a single role. */
  lemma SingleRole<C>(components: map<string, C>, role: string, fields: GroupDefinition)
    requires DistinctKeys(fields)
    ensures WellFormedMask([(role, fields)])
    ensures ApplyMask(components, [(role, fields)]) == map[role := ApplyGroup(components, fields)]
  {
    var mask := [(role, fields)];
    assert KeySet(mask) == {role} by { assert mask[0].0 == role; }
  }

  /** The group of the test suite's complex-match case, for any component map
      that holds both required types and not the optional one. */
  lemma ComplexMatchGroup<C>(components: map<string, C>)
    requires "Type2" in components && "Type4" in components && "Type5" !in components
    ensures var fields := [("Type2", ComponentDefinition("Type2", true)),
                           ("Type4", ComponentDefinition("Type4", true)),
                           ("Type5", ComponentDefinition("Type5", false))];
            DistinctKeys(fields)
            && ApplyGroup(components, fields)
               == Some(map["Type5" := None, "Type4" := Some(components["Type4"]), "Type2" := Some(components["Type2"])])
  {
    var fields: GroupDefinition := [("Type2", ComponentDefinition("Type2", true)),
                   ("Type4", ComponentDefinition("Type4", true)),
                   ("Type5", ComponentDefinition("Type5", false))];
    var g2 := GroupStep(components, fields[2..], map[]);
    assert fields[1..][1..] == fields[2..];
    var g1 := GroupStep(components, fields[1..], g2);
    var g0 := GroupStep(components, fields, g1);
  }

  /** One field more: the group of the rest with this field's lookup added. */
  lemma GroupStep<C>(components: map<string, C>, fields: GroupDefinition, rest: ComponentGroup<C>) returns (g: ComponentGroup<C>)
    requires DistinctKeys(fields) && |fields| > 0
    requires !MissingRequired(components, fields[0].1)
    requires |fields| == 1 ==> rest == map[]
    requires |fields| > 1 ==> ApplyGroup(components, fields[1..]) == Some(rest)
    ensures g == rest[fields[0].0 := Lookup(components, fields[0].1)]
    ensures ApplyGroup(components, fields) == Some(g)
  {
    g := rest[fields[0].0 := Lookup(components, fields[0].1)];
  }

  /** The test suite's complex-match case: two required types present, one
      optional type absent, one unlisted type ignored. */
  lemma ComplexMatchExample(c1: int, c2: int, c3: int, c4: int)
    ensures var components := map["Type1" := c1, "Type2" := c2, "Type3" := c3, "Type4" := c4];
            var mask := [("testEntitites", [("Type2", ComponentDefinition("Type2", true)),
                                            ("Type4", ComponentDefinition("Type4", true)),
                                            ("Type5", ComponentDefinition("Type5", false))])];
            ApplyMask(components, mask) ==
              map["testEntitites" := Some(map["Type2" := Some(c2), "Type4" := Some(c4), "Type5" := None])]
  {
    var components := map["Type1" := c1, "Type2" := c2, "Type3" := c3, "Type4" := c4];
    var fields: GroupDefinition := [("Type2", ComponentDefinition("Type2", true)),
                   ("Type4", ComponentDefinition("Type4", true)),
                   ("Type5", ComponentDefinition("Type5", false))];
    ComplexMatchGroup(components);
    assert map["Type5" := None, "Type4" := Some(c4), "Type2" := Some(c2)]
           == map["Type2" := Some(c2), "Type4" := Some(c4), "Type5" := None];
    SingleRole(components, "testEntitites", fields);
  }

  /** A required type that is missing rejects the role: the test suite's
      single-mismatch case. */
  lemma SingleMismatchExample(c: int)
    ensures ApplyMask(map["MismatchingType" := c],
                      [("testEntitites", [("testComponent", ComponentDefinition("TestComponent", true))])])
            == map["testEntitites" := None]
  {
    var fields: GroupDefinition := [("testComponent", ComponentDefinition("TestComponent", true))];
    assert MissingRequired(map["MismatchingType" := c], fields[0].1);
    SingleRole(map["MismatchingType" := c], "testEntitites", fields);
  }
}
