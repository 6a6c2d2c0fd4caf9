/**
 * `MessageTypes`: the registry of message types, mapping each to the view
 * type id it was given. Ids come from a counter that only grows, so a
 * type registered again gets a new id and its old id is never reused.
 */
module Registry {
  import opened Wrappers
  import opened MessageModel

  class MessageTypes {
    var nextViewType: int
    var types: map<Kind, int>
    /** How many registrations replaced an existing entry. */
    ghost var reassigned: nat

    /** The registry keeps the built-ins and gives distinct ids below the counter. */
    ghost predicate Valid()
      reads this
    {
      && TextKind in types && ImageKind in types && PreviewKind in types
      && (forall k :: k in types ==> 0 <= types[k] < nextViewType)
      && (forall k1, k2 :: k1 in types && k2 in types && k1 != k2 ==> types[k1] != types[k2])
      && |types| + reassigned == nextViewType
    }

    /** The static initialiser: text, image and preview get ids 0, 1 and 2. */
    constructor ()
      ensures Valid()
      ensures types == map[TextKind := 0, ImageKind := 1, PreviewKind := 2] && nextViewType == 3
      ensures reassigned == 0
    {
      nextViewType := 0;
      types := map[];
      reassigned := 0;
      new;
      var id := GetNextViewType();
      types := types[TextKind := id];
      id := GetNextViewType();
      types := types[ImageKind := id];
      id := GetNextViewType();
      types := types[PreviewKind := id];
    }

    /** `getNextViewType`: hands out the counter and advances it. */
    method GetNextViewType() returns (id: int)
      modifies this
      ensures id == old(nextViewType) && nextViewType == old(nextViewType) + 1
      ensures types == old(types) && reassigned == old(reassigned)
    {
      id := nextViewType;
      nextViewType := nextViewType + 1;
    }

    /** `register`: the type gets a fresh id, replacing the one it had if it was registered before. */
    method Register(kind: Kind)
      requires Valid()
      modifies this
      ensures Valid()
      ensures types == old(types)[kind := old(nextViewType)] && nextViewType == old(nextViewType) + 1
      ensures GetViewType(kind) == Some(old(nextViewType))
      ensures GetTypeCount() == old(GetTypeCount()) + (if kind in old(types) then 0 else 1)
    {
      if kind in types {
        reassigned := reassigned + 1;
      }
      var id := GetNextViewType();
      types := types[kind := id];
    }

    /** `getViewType`: the type's id, or null for a type never registered. */
    function GetViewType(kind: Kind): (id: Option<int>)
      reads this
      ensures id.Some? <==> kind in types
      ensures id.Some? ==> id.value == types[kind]
    {
      if kind in types then Some(types[kind]) else None
    }

    /** `getTypeCount`: how many types are registered. */
    function GetTypeCount(): (count: int)
      reads this
      ensures count == |types|
    {
      |types|
    }

    /** There are never fewer ids handed out than types, and at least the three built-ins. */
    lemma CountBounds()
      requires Valid()
      ensures 3 <= GetTypeCount() <= nextViewType
    {
      assert {TextKind, ImageKind, PreviewKind} <= types.Keys;
      assert |{TextKind, ImageKind, PreviewKind}| == 3;
      SubsetCardinality({TextKind, ImageKind, PreviewKind}, types.Keys);
    }

    /** With no type registered twice, every id is below the type count. */
    lemma IdsBelowCount(kind: Kind)
      requires Valid() && reassigned == 0 && kind in types
      ensures GetViewType(kind).value < GetTypeCount()
    {
    }
  }

  lemma SubsetCardinality<T>(a: set<T>, b: set<T>)
    requires a <= b
    ensures |a| <= |b|
  {
    assert b == a + (b - a);
  }
}
