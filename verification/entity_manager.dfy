/** The entity manager: an order-preserving filter of the entity list by a
    mask, the per-entity group of `[componentIndex[key], component]` pairs,
    and the per-tick dispatch of every registered system in order.

    Systems mutate components that the groups reference; the references in
    an entity's component map never change during a tick, so the groups
    handed to each system can be computed from the manager alone and
    `Update` is modelled as the list of `parse` calls it makes. */
module EntityManager {
  import opened Wrappers
  import opened Collections

  /** A system as the manager sees it; what `parse` does is the system's own affair. */
  datatype GameSystem = GameSystem(name: string, mask: ComponentMask)

  /** `[componentIndex[key], entity.components[key]]`; the first element is
      `None` (undefined) when the index lacks the key. */
  type Group<C> = seq<(Option<int>, C)>

  /** `componentIndex` is declared but never assigned: `None` is undefined. */
  datatype Manager<C, B> = Manager(
    entities: seq<GameEntity<C>>,
    components: seq<B>,
    componentIndex: Option<map<string, int>>,
    systems: seq<GameSystem>)

  /** One `system.parse(components, groups)` call. */
  datatype Dispatch<C, B> = Dispatch(system: GameSystem, block: seq<B>, groups: seq<Group<C>>)

  /** The constructor: empty entity, component and system lists. */
  function New<C, B>(): (m: Manager<C, B>)
    ensures |m.entities| == 0 && |m.components| == 0 && |m.systems| == 0
    ensures m.componentIndex.None?
  {
    Manager([], [], None, [])
  }

  /** Reference definition: the indices of the entities that pass
      `checkMask`, in list order. */
  function MatchingIndices<C, V>(entities: seq<GameEntity<C>>, mask: Entries<V>): (r: seq<nat>)
    ensures |r| <= |entities|
    ensures forall k :: 0 <= k < |r| ==> r[k] < |entities| && CheckMask(entities[r[k]], mask)
    decreases |entities|
  {
    if |entities| == 0 then []
    else
      var last := |entities| - 1;
      MatchingIndices(entities[..last], mask) + (if CheckMask(entities[last], mask) then [last] else [])
  }

  /** The matching indices are strictly increasing, in range, and contain
      exactly the entities that pass `checkMask`. */
  lemma {:induction false} MatchingIndicesSpec<C, V>(entities: seq<GameEntity<C>>, mask: Entries<V>)
    ensures forall k :: 0 <= k < |MatchingIndices(entities, mask)| ==> MatchingIndices(entities, mask)[k] < |entities|
    ensures forall k, l :: 0 <= k < l < |MatchingIndices(entities, mask)| ==>
              MatchingIndices(entities, mask)[k] < MatchingIndices(entities, mask)[l]
    ensures forall j :: 0 <= j < |entities| ==> (j in MatchingIndices(entities, mask) <==> CheckMask(entities[j], mask))
    decreases |entities|
  {
    if |entities| > 0 {
      var last := |entities| - 1;
      MatchingIndicesSpec(entities[..last], mask);
      assert forall j :: 0 <= j < last ==> entities[..last][j] == entities[j];
    }
  }

  /** Whether building the groups for `mask` can read the index without a
      TypeError: only an undefined index read for a non-empty mask fails. */
  predicate IndexReadable<C, B>(m: Manager<C, B>, mask: ComponentMask) {
    m.componentIndex.Some? || |mask| == 0
  }

  /** What `getComponentGroups` returns: one group per matching entity, in
      entity order. */
  ghost predicate IsComponentGroups<C, B>(m: Manager<C, B>, mask: ComponentMask, groups: seq<Group<C>>) {
    var idx := MatchingIndices(m.entities, mask);
    && |groups| == |idx|
    && forall k :: 0 <= k < |idx| ==> idx[k] < |m.entities| && IsGroup(m, m.entities[idx[k]], mask, groups[k])
  }

  /** What `getGroupFromEntity` returns: one pair per mask key, in key
      order, the second element being the entity's own component for that
      key. */
  ghost predicate IsGroup<C, B>(m: Manager<C, B>, entity: GameEntity<C>, mask: ComponentMask, group: Group<C>) {
    && |group| == |mask|
    && forall i :: 0 <= i < |mask| ==>
         && mask[i].0 in entity.components
         && group[i] == (IndexEntry(m, mask[i].0), entity.components[mask[i].0])
  }

  /** `this.componentIndex[key]`. */
  function IndexEntry<C, B>(m: Manager<C, B>, key: string): Option<int> {
    match m.componentIndex
    case None => None
    case Some(index) => if key in index then Some(index[key]) else None
  }

  /** `getGroupFromEntity`: one pair per mask key, in key order; the second
      element is the entity's own component for that key. */
  method GetGroupFromEntity<C, B>(m: Manager<C, B>, entity: GameEntity<C>, mask: ComponentMask) returns (group: Group<C>)
    requires IndexReadable(m, mask)
    requires CheckMask(entity, mask)
    ensures IsGroup(m, entity, mask, group)
  {
    group := [];
    var i := 0;
    while i < |mask|
      invariant 0 <= i <= |mask|
      invariant |group| == i
      invariant forall k :: 0 <= k < i ==>
                  mask[k].0 in entity.components && group[k] == (IndexEntry(m, mask[k].0), entity.components[mask[k].0])
    {
      var key := mask[i].0;
      group := group + [(IndexEntry(m, key), entity.components[key])];
      i := i + 1;
    }
  }

  /** `getComponentGroups`: the entity list filtered by `checkMask`, in
      order, each survivor turned into its group. */
  method GetComponentGroups<C, B>(m: Manager<C, B>, mask: ComponentMask) returns (groups: seq<Group<C>>)
    requires |MatchingIndices(m.entities, mask)| == 0 || IndexReadable(m, mask)
    ensures IsComponentGroups(m, mask, groups)
  {
    groups := [];
    ghost var idx: seq<nat> := [];
    var entityId := 0;
    while entityId < |m.entities|
      invariant 0 <= entityId <= |m.entities|
      invariant idx == MatchingIndices(m.entities[..entityId], mask)
      invariant |groups| == |idx|
      invariant forall k :: 0 <= k < |idx| ==> idx[k] < entityId && IsGroup(m, m.entities[idx[k]], mask, groups[k])
    {
      MatchingIndicesStep(m.entities, mask, entityId);
      var entity := m.entities[entityId];
      if CheckMask(entity, mask) {
        PrefixMatchesBoundWhole(m.entities, mask, entityId + 1);
        var group := GetGroupFromEntity(m, entity, mask);
        groups := groups + [group];
        idx := idx + [entityId];
      }
      entityId := entityId + 1;
    }
    assert m.entities[..entityId] == m.entities;
  }

  /** Extending the prefix by one entity appends its index when it matches. */
  lemma MatchingIndicesStep<C, V>(entities: seq<GameEntity<C>>, mask: Entries<V>, n: nat)
    requires n < |entities|
    ensures MatchingIndices(entities[..n + 1], mask)
            == MatchingIndices(entities[..n], mask) + (if CheckMask(entities[n], mask) then [n] else [])
  {
    assert entities[..n + 1][..n] == entities[..n];
  }

  /** A match in a prefix is a match in the whole list. */
  lemma {:induction false} PrefixMatchesBoundWhole<C, V>(entities: seq<GameEntity<C>>, mask: Entries<V>, n: nat)
    requires n <= |entities|
    ensures |MatchingIndices(entities[..n], mask)| <= |MatchingIndices(entities, mask)|
    decreases |entities| - n
  {
    if n < |entities| {
      PrefixMatchesBoundWhole(entities, mask, n + 1);
      assert entities[..n + 1][..n] == entities[..n];
    } else {
      assert entities[..n] == entities;
    }
  }

  /** `update`: every registered system is dispatched exactly once, in
      registration order, with the shared component block and the groups
      its own mask selects. */
  method Update<C, B>(m: Manager<C, B>) returns (calls: seq<Dispatch<C, B>>)
    requires forall s :: s in m.systems ==> |MatchingIndices(m.entities, s.mask)| == 0 || IndexReadable(m, s.mask)
    ensures |calls| == |m.systems|
    ensures forall i :: 0 <= i < |calls| ==> calls[i].system == m.systems[i] && calls[i].block == m.components
    ensures forall i :: 0 <= i < |calls| ==> IsComponentGroups(m, m.systems[i].mask, calls[i].groups)
  {
    calls := [];
    var i := 0;
    while i < |m.systems|
      invariant 0 <= i <= |m.systems|
      invariant |calls| == i
      invariant forall k :: 0 <= k < i ==> calls[k].system == m.systems[k] && calls[k].block == m.components
      invariant forall k :: 0 <= k < i ==> IsComponentGroups(m, m.systems[k].mask, calls[k].groups)
    {
      var system := m.systems[i];
      assert system in m.systems;
      var groups := GetComponentGroups(m, system.mask);
      calls := calls + [Dispatch(system, m.components, groups)];
      i := i + 1;
    }
  }

  /** As written, `checkMask` tests the mask's top-level keys, which are role
      names, against the entity's component type names. The test system's
      mask (role `testEntities`) therefore selects no test entity, whose
      only key is `TestComponent`. */
  lemma {:induction false} RoleKeysAreComparedWithTypeNames<C>(entities: seq<GameEntity<C>>, mask: ComponentMask)
    requires mask == [("testEntities", [("testComponent", ComponentDefinition("TestComponent", true))])]
    requires forall j :: 0 <= j < |entities| ==> entities[j].components.Keys == {"TestComponent"}
    ensures MatchingIndices(entities, mask) == []
    decreases |entities|
  {
    if |entities| > 0 {
      var last := |entities| - 1;
      assert mask[0].0 !in entities[last].components;
      RoleKeysAreComparedWithTypeNames(entities[..last], mask);
    }
  }
}
