/** The shapes the query layer moves around. A JavaScript object with string
    keys is modelled as its list of own properties in own-property order,
    integer-like keys first in ascending order and the others in insertion
    order (`Entries`); its keys are distinct, as an object's are. */
module Collections {

  type Entries<V> = seq<(string, V)>

  /** The keys of an object are distinct. */
  predicate DistinctKeys<V>(e: Entries<V>) {
    forall i, j :: 0 <= i < j < |e| ==> e[i].0 != e[j].0
  }

  function KeySet<V>(e: Entries<V>): set<string> {
    set i | 0 <= i < |e| :: e[i].0
  }

  /** `{ type, required }`: the component class is known by its `name`. */
  datatype ComponentDefinition = ComponentDefinition(typeName: string, required: bool)

  /** field name -> definition, for one role. */
  type GroupDefinition = Entries<ComponentDefinition>

  /** role name -> group definition. */
  type ComponentMask = Entries<GroupDefinition>

  /** A mask is an object of objects: distinct roles, distinct fields per role. */
  predicate WellFormedMask(mask: ComponentMask) {
    && DistinctKeys(mask)
    && forall i :: 0 <= i < |mask| ==> DistinctKeys(mask[i].1)
  }

  /** An entity: an id and its component map, keyed by component type name. */
  datatype GameEntity<C> = GameEntity(id: int, components: map<string, C>)

  /** `checkMask`: every top-level key of the mask names a component the
      entity holds. The mask's values are never looked at, which the type
      parameter `V` makes explicit. */
  function CheckMask<C, V>(entity: GameEntity<C>, mask: Entries<V>): (r: bool)
    ensures r <==> forall i :: 0 <= i < |mask| ==> mask[i].0 in entity.components
    ensures |mask| == 0 ==> r
    decreases |mask|
  {
    if |mask| == 0 then true
    else mask[0].0 in entity.components && CheckMask(entity, mask[1..])
  }

  /** Only the mask's key set matters: masks with the same keys, whatever
      their values and order, accept the same entities. */
  lemma CheckMaskOnlyKeysMatter<C, V, W>(entity: GameEntity<C>, m1: Entries<V>, m2: Entries<W>)
    requires KeySet(m1) == KeySet(m2)
    ensures CheckMask(entity, m1) == CheckMask(entity, m2)
  {
    if CheckMask(entity, m1) {
      forall j | 0 <= j < |m2| ensures m2[j].0 in entity.components {
        assert m2[j].0 in KeySet(m2);
        var i :| 0 <= i < |m1| && m1[i].0 == m2[j].0;
      }
    } else {
      var i :| 0 <= i < |m1| && m1[i].0 !in entity.components;
      assert m1[i].0 in KeySet(m1);
      var j :| 0 <= j < |m2| && m2[j].0 == m1[i].0;
    }
  }

  /** Giving an entity more components never turns a match into a non-match. */
  lemma CheckMaskMonotone<C, V>(e1: GameEntity<C>, e2: GameEntity<C>, mask: Entries<V>)
    requires e1.components.Keys <= e2.components.Keys
    requires CheckMask(e1, mask)
    ensures CheckMask(e2, mask)
  {
  }
}
