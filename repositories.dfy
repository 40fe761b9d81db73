/** The in-memory stores: an append-only list of buildings and a name-keyed dictionary
    of resources that remembers the order in which names were first stored. */
module Repositories {

  import opened Wrappers
  import opened Entities

  /** `BuildingRepository`: a list that only grows at its end. */
  class BuildingRepository {
    var store: seq<Building>

    constructor ()
      ensures store == []
    {
      store := [];
    }

    /** `all()`: the buildings in insertion order. The result is a value, so later changes
        to it cannot reach the store, and later additions to the store do not show in it. */
    method All() returns (bs: seq<Building>)
      ensures bs == store
    {
      bs := store;
    }

    /** `add(item)`: appends at the end; nothing is ever removed or reordered. */
    method Add(item: Building)
      modifies this
      ensures store == old(store) + [item]
      ensures |store| == |old(store)| + 1 && old(store) <= store
    {
      store := store + [item];
    }
  }

  /** `ResourceRepository`: a Python dict from name to resource. `order` is the dict's
      key order (first insertion of each name; re-assigning a key keeps its place). */
  class ResourceRepository {
    var order: seq<string>
    var store: map<string, Resource>

    ghost predicate Valid()
      reads this
    {
      && Distinct(order)
      && (forall n :: n in store <==> n in order)
      && (forall n :: n in store ==> store[n].name == n)
    }

    constructor ()
      ensures Valid() && order == [] && store == map[]
    {
      order := [];
      store := map[];
    }

    /** `all()`: the stored resources in key order, one per distinct name. */
    method All() returns (rs: seq<Resource>)
      requires Valid()
      ensures |rs| == |order| == |store|
      ensures forall i :: 0 <= i < |rs| ==> rs[i] == store[order[i]] && rs[i].name == order[i]
      ensures forall i, j :: 0 <= i < j < |rs| ==> rs[i].name != rs[j].name
    {
      rs := [];
      var i := 0;
      while i < |order|
        invariant 0 <= i <= |order|
        invariant |rs| == i
        invariant forall k :: 0 <= k < i ==> rs[k] == store[order[k]]
      {
        rs := rs + [store[order[i]]];
        i := i + 1;
      }
      DistinctCardinality(order, store.Keys);
    }

    /** `get(name)`: the stored resource, or None when the name is absent. */
    method Get(name: string) returns (r: Option<Resource>)
      requires Valid()
      ensures name in store ==> r == Some(store[name]) && r.value.name == name
      ensures name !in store <==> r == None
    {
      if name in store {
        r := Some(store[name]);
      } else {
        r := None;
      }
    }

    /** `add(item)`: stores the item under its own name, replacing any earlier entry. */
    method Add(item: Resource)
      requires Valid()
      modifies this
      ensures Valid()
      ensures store == old(store)[item.name := item]
      ensures order == if item.name in old(store) then old(order) else old(order) + [item.name]
    {
      if item.name !in store {
        order := order + [item.name];
      }
      store := store[item.name := item];
    }
  }

  /** A duplicate-free list of names has as many entries as the set of its names. */
  lemma {:induction false} DistinctCardinality(names: seq<string>, keys: set<string>)
    requires Distinct(names)
    requires forall n :: n in keys <==> n in names
    ensures |names| == |keys|
  {
    if names != [] {
      var last := names[|names| - 1];
      var init := names[..|names| - 1];
      assert forall n :: n in keys - {last} <==> n in init by {
        forall n ensures n in keys - {last} <==> n in init {
          if n in init {
            var k :| 0 <= k < |init| && init[k] == n;
            assert names[k] == n;
          }
          if n in names && n != last {
            var k :| 0 <= k < |names| && names[k] == n;
            assert k < |names| - 1;
            assert init[k] == n;
          }
        }
      }
      DistinctCardinality(init, keys - {last});
    }
  }
}
