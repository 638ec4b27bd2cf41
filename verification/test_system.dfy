/** The `TestSystem`: every entity under the `testEntities` role has the
    `testValue` of its `testComponent` incremented. Components are shared
    objects that the entity groups refer to, so they are modelled as a store
    and the groups hold indices into it: a component referenced by several
    test entities is incremented once per reference, and a component no
    test entity references as `testComponent` is untouched. The
    `components` and `componentsById` arguments are never read and are not
    parameters of the model. */
module TestSystem {
  import opened Wrappers
  import opened Collections
  import opened Components

  const MASK: ComponentMask :=
    [("testEntities", [("testComponent", ComponentDefinition("TestComponent", true))])]

  /** Which component of the store a field refers to. */
  type Ref = nat

  /** The component objects, by reference. */
  type Store = seq<TestComponent>

  /** field name -> component reference, for one entity of a role. */
  type Group = Entries<Ref>

  /** role name -> entity id -> group. */
  type EntityGroups = Entries<Entries<Group>>

  /** Every reference the groups hold points into the store. */
  predicate RefsInStore(entities: EntityGroups, store: Store) {
    forall r, e, f :: 0 <= r < |entities| && 0 <= e < |entities[r].1| && 0 <= f < |entities[r].1[e].1| ==>
      entities[r].1[e].1[f].1 < |store|
  }

  /** `object[key]`: `None` (undefined) when the object has no such key. */
  function Get<V>(e: Entries<V>, key: string): (r: Option<V>)
    ensures r.None? <==> key !in KeySet(e)
    ensures r.Some? ==> exists i :: 0 <= i < |e| && e[i] == (key, r.value)
    decreases |e|
  {
    if |e| == 0 then None
    else if e[0].0 == key then Some(e[0].1)
    else
      var rest := Get(e[1..], key);
      assert KeySet(e) == {e[0].0} + KeySet(e[1..]) by {
        forall k | k in KeySet(e) ensures k in {e[0].0} + KeySet(e[1..]) {
          var i :| 0 <= i < |e| && e[i].0 == k;
          if i > 0 { assert e[1..][i - 1].0 == k; }
        }
        forall k | k in KeySet(e[1..]) ensures k in KeySet(e) {
          var i :| 0 <= i < |e[1..]| && e[1..][i].0 == k;
          assert e[i + 1].0 == k;
        }
      }
      if rest.Some? then
        assert exists i :: 0 <= i < |e| && e[i] == (key, rest.value) by {
          var j :| 0 <= j < |e[1..]| && e[1..][j] == (key, rest.value);
          assert e[j + 1] == (key, rest.value);
        }
        rest
      else rest
  }

  /** `entity.testComponent` for every entity of the role, in key order;
      `None` (a TypeError) when one of them has no such field. */
  function TestRefs(groups: Entries<Group>): (r: Option<seq<Ref>>)
    ensures r.None? <==> exists i :: 0 <= i < |groups| && "testComponent" !in KeySet(groups[i].1)
    ensures r.Some? ==> |r.value| == |groups|
    ensures r.Some? ==> forall i :: 0 <= i < |groups| ==> Get(groups[i].1, "testComponent") == Some(r.value[i])
    decreases |groups|
  {
    if |groups| == 0 then Some([])
    else
      var rest := TestRefs(groups[1..]);
      assert forall i :: 1 <= i < |groups| ==> groups[i] == groups[1..][i - 1];
      match Get(groups[0].1, "testComponent")
      case None => None
      case Some(ref) => if rest.None? then None else Some([ref] + rest.value)
  }

  /** `testValue++` once per reference, in order. */
  function Bump(store: Store, refs: seq<Ref>): (r: Store)
    requires forall i :: 0 <= i < |refs| ==> refs[i] < |store|
    ensures |r| == |store|
    decreases |refs|
  {
    if |refs| == 0 then store
    else
      var c := store[refs[0]];
      Bump(store[refs[0] := TestComponent(c.testValue + 1.0)], refs[1..])
  }

  /** Each component gains exactly the number of references to it. */
  lemma {:induction false} BumpCounts(store: Store, refs: seq<Ref>)
    requires forall i :: 0 <= i < |refs| ==> refs[i] < |store|
    ensures forall k :: 0 <= k < |store| ==>
              Bump(store, refs)[k].testValue == store[k].testValue + multiset(refs)[k] as real
    decreases |refs|
  {
    if |refs| > 0 {
      var c := store[refs[0]];
      var next := store[refs[0] := TestComponent(c.testValue + 1.0)];
      BumpCounts(next, refs[1..]);
      assert refs == [refs[0]] + refs[1..];
      assert multiset(refs) == multiset{refs[0]} + multiset(refs[1..]);
    }
  }

  /** `parse`: `None` (a TypeError) when there is no `testEntities` role or
      one of its entities has no `testComponent`. Otherwise every component
      gains one for each test entity that refers to it as `testComponent`
      and nothing else changes. */
  function Parse(entities: EntityGroups, store: Store): (r: Option<Store>)
    requires RefsInStore(entities, store)
    ensures r.None? <==> Get(entities, "testEntities").None? || TestRefs(Get(entities, "testEntities").value).None?
    ensures r.Some? ==> |r.value| == |store|
    ensures r.Some? ==>
              var refs := TestRefs(Get(entities, "testEntities").value).value;
              forall k :: 0 <= k < |store| ==> r.value[k].testValue == store[k].testValue + multiset(refs)[k] as real
  {
    match Get(entities, "testEntities")
    case None => None
    case Some(groups) =>
      match TestRefs(groups)
      case None => None
      case Some(refs) =>
        assert forall i :: 0 <= i < |refs| ==> refs[i] < |store| by {
          forall i | 0 <= i < |refs| ensures refs[i] < |store| {
            var ri :| 0 <= ri < |entities| && entities[ri] == ("testEntities", groups);
            var fi :| 0 <= fi < |groups[i].1| && groups[i].1[fi] == ("testComponent", refs[i]);
            assert entities[ri].1[i].1[fi].1 == refs[i];
          }
        }
        BumpCounts(store, refs);
        Some(Bump(store, refs))
  }

  /** A component that no test entity refers to as `testComponent` (a decoy
      on a test entity, or one held only under another role) is unchanged. */
  lemma UnreferencedIsUntouched(entities: EntityGroups, store: Store, k: nat)
    requires RefsInStore(entities, store)
    requires k < |store|
    requires Parse(entities, store).Some?
    requires forall g :: g in Get(entities, "testEntities").value ==> Get(g.1, "testComponent") != Some(k)
    ensures Parse(entities, store).value[k] == store[k]
  {
    var groups := Get(entities, "testEntities").value;
    var refs := TestRefs(groups).value;
    assert k !in multiset(refs) by {
      forall i | 0 <= i < |refs| ensures refs[i] != k {
        assert groups[i] in groups;
      }
    }
  }

  /** The test suite's decoy case: a test entity holding its test component
      (value 6) and a decoy (value 9) under another field. */
  lemma DecoyComponentExample()
    ensures Parse([("testEntities", [("1", [("testComponent", 0), ("decoyComponent", 1)])])],
                  [TestComponent(6.0), TestComponent(9.0)])
            == Some([TestComponent(7.0), TestComponent(9.0)])
  {
    var entities: EntityGroups := [("testEntities", [("1", [("testComponent", 0), ("decoyComponent", 1)])])];
    var store := [TestComponent(6.0), TestComponent(9.0)];
    var groups := entities[0].1;
    assert Get(groups[0].1, "testComponent") == Some(0);
    assert groups[1..] == [];
    assert TestRefs(groups[1..]) == Some([]);
    assert [0] + [] == [0];
    assert TestRefs(groups) == Some([0]);
    assert [0][1..] == [];
    assert Parse(entities, store).value == Bump(store, [0]) == [TestComponent(7.0), TestComponent(9.0)];
  }

  /** The test suite's decoy-entity case: a decoy held under another role. */
  lemma DecoyEntityExample()
    ensures Parse([("testEntities", [("1", [("testComponent", 0)])]),
                   ("decoyEntities", [("4", [("decoyComponent", 1)])])],
                  [TestComponent(6.0), TestComponent(9.0)])
            == Some([TestComponent(7.0), TestComponent(9.0)])
  {
    var entities: EntityGroups := [("testEntities", [("1", [("testComponent", 0)])]),
                                   ("decoyEntities", [("4", [("decoyComponent", 1)])])];
    var store := [TestComponent(6.0), TestComponent(9.0)];
    var groups := entities[0].1;
    assert Get(entities, "testEntities") == Some(groups);
    assert Get(groups[0].1, "testComponent") == Some(0);
    assert groups[1..] == [];
    assert TestRefs(groups[1..]) == Some([]);
    assert [0] + [] == [0];
    assert TestRefs(groups) == Some([0]);
    assert [0][1..] == [];
    assert Parse(entities, store).value == Bump(store, [0]) == [TestComponent(7.0), TestComponent(9.0)];
  }
}
