/**
 Both levels of command dispatch: items are kept per entity, component items of an entity per component name,
 and an event goes to the items of its key while they may remove any item.
 */
module Dispatch {
  import opened Options
  import opened Events
  import opened SafeDelete

  /** The containers by key, and how items are sorted into them. */
  ghost predicate Sorted<K(!new), T(!new)>(keyOf: T -> K, sets: map<K, Items<T>>) {
    forall k | k in sets :: sets[k].Valid() && forall x | x in sets[k].items :: keyOf(x) == k
  }

  function At<K, T>(sets: map<K, Items<T>>, k: K): set<T> { if k in sets then sets[k].items else {} }

  /** m_entityItems[key], made when it is not there. */
  function SetOf<K, T(==)>(sets: map<K, Items<T>>, k: K): Items<T> {
    if k in sets then sets[k] else Items({}, false, {}, [], 0)
  }

  ghost function OfKey<K, T>(keyOf: T -> K, xs: set<T>, k: K): set<T> { set x | x in xs && keyOf(x) == k }

  /** One container after the removal of xs was asked for: they are gone at once, or marked if it is being iterated. */
  ghost predicate RemovedAt<K, T>(keyOf: T -> K, k: K, before: Items<T>, after: Items<T>, xs: set<T>) {
    if before.inIteration then after == before.(toDelete := before.toDelete + OfKey(keyOf, xs, k))
    else !after.inIteration && after.items == before.items - xs
  }

  ghost predicate RemovedFrom<K(!new), T(!new)>(
    keyOf: T -> K, before: map<K, Items<T>>, after: map<K, Items<T>>, xs: set<T>)
  {
    before.Keys <= after.Keys && forall k :: RemovedAt(keyOf, k, SetOf(before, k), SetOf(after, k), xs)
  }

  lemma RemovedTwice<K(!new), T(!new)>(
    keyOf: T -> K, before: map<K, Items<T>>, mid: map<K, Items<T>>, after: map<K, Items<T>>, xs: set<T>, ys: set<T>)
    requires RemovedFrom(keyOf, before, mid, xs) && RemovedFrom(keyOf, mid, after, ys)
    ensures RemovedFrom(keyOf, before, after, xs + ys)
  {
    forall k ensures RemovedAt(keyOf, k, SetOf(before, k), SetOf(after, k), xs + ys) {
      assert RemovedAt(keyOf, k, SetOf(before, k), SetOf(mid, k), xs);
      assert RemovedAt(keyOf, k, SetOf(mid, k), SetOf(after, k), ys);
      assert OfKey(keyOf, xs + ys, k) == OfKey(keyOf, xs, k) + OfKey(keyOf, ys, k);
    }
  }

  /** What happens to containers: an item is added, or some are asked to be removed, one by one or in a pass. */
  datatype Change<T(==)> = Added(x: T) | Dropped(xs: set<T>)

  ghost predicate Follows<K(!new), T(!new)>(
    keyOf: T -> K, before: map<K, Items<T>>, change: Change<T>, after: map<K, Items<T>>)
  {
    match change
    case Dropped(xs) => RemovedFrom(keyOf, before, after, xs)
    case Added(x) =>
      && before.Keys <= after.Keys
      && forall k :: SetOf(after, k) ==
           if k == keyOf(x) then SetOf(before, k).(items := At(before, k) + {x}) else SetOf(before, k)
  }

  // ---------------------------------------------------------------------------------------------
  // One pass
  // ---------------------------------------------------------------------------------------------

  /** The containers at the moment a pass over `order` is at position i and nothing was asked for. */
  function AtPosition<K, T(==)>(base: map<K, Items<T>>, key: K, order: seq<T>, i: nat): map<K, Items<T>> {
    base[key := Items(Elements(order), true, {}, order, i)]
  }

  /** A pass that began in `base` is at item order[i]; the callbacks so far have asked for `gone`. */
  ghost predicate Passing<K(!new), T(!new)>(
    keyOf: T -> K, key: K, base: map<K, Items<T>>, order: seq<T>, i: nat, now: map<K, Items<T>>, gone: set<T>)
  {
    && Sorted(keyOf, now) && i < |order| && order[i] !in gone
    && RemovedFrom(keyOf, AtPosition(base, key, order, i), now, gone)
  }

  /** A pass may begin on this key, in this order. */
  ghost predicate CanPass<K(!new), T(!new)>(keyOf: T -> K, base: map<K, Items<T>>, key: K, order: seq<T>) {
    && Sorted(keyOf, base) && !SetOf(base, key).inIteration
    && Distinct(order) && Elements(order) == At(base, key)
  }

  lemma PassBegins<K(!new), T(!new)>(keyOf: T -> K, base: map<K, Items<T>>, key: K, order: seq<T>)
    requires CanPass(keyOf, base, key, order) && order != []
    ensures key in base && base[key].First(order).1 == Some(order[0])
    ensures Passing(keyOf, key, base, order, 0, base[key := base[key].First(order).0], {})
  {
    assert order[0] in Elements(order);
    var now := base[key := base[key].First(order).0];
    assert now == AtPosition(base, key, order, 0);
    forall k ensures RemovedAt(keyOf, k, SetOf(now, k), SetOf(now, k), {}) {
      assert OfKey(keyOf, {}, k) == {};
    }
  }

  /** On to the next item nobody asked to remove, or to the end, where everything that was asked for is gone. */
  lemma PassGoesOn<K(!new), T(!new)>(
    keyOf: T -> K, key: K, base: map<K, Items<T>>, order: seq<T>, i: nat, now: map<K, Items<T>>, gone: set<T>)
    requires Sorted(keyOf, now) && i < |order| && RemovedFrom(keyOf, AtPosition(base, key, order, i), now, gone)
    requires CanPass(keyOf, base, key, order)
    ensures key in now && now[key].position == i < |now[key].order|
    ensures var (s, next) := now[key].Next();
      && i < s.position <= |order| && (forall k | i < k < s.position :: order[k] in gone)
      && (next.Some? ==>
            Passing(keyOf, key, base, order, s.position, now[key := s], gone) && next.value == order[s.position])
      && (next.None? ==>
            s.position == |order| && Sorted(keyOf, now[key := s]) && RemovedFrom(keyOf, base, now[key := s], gone))
  {
    assert RemovedAt(keyOf, key, SetOf(AtPosition(base, key, order, i), key), SetOf(now, key), gone);
    var (s, next) := now[key].Next();
    forall k | 0 <= k < |order| ensures keyOf(order[k]) == key { assert order[k] in Elements(order); }
    assert forall k | 0 <= k < |order| :: order[k] in now[key].toDelete <==> order[k] in gone;
    var after := now[key := s];
    if next.Some? {
      forall k ensures RemovedAt(keyOf, k, SetOf(AtPosition(base, key, order, s.position), k), SetOf(after, k), gone) {
        assert RemovedAt(keyOf, k, SetOf(AtPosition(base, key, order, i), k), SetOf(now, k), gone);
      }
    } else {
      forall k ensures RemovedAt(keyOf, k, SetOf(base, k), SetOf(after, k), gone) {
        assert RemovedAt(keyOf, k, SetOf(AtPosition(base, key, order, i), k), SetOf(now, k), gone);
        if k == key { PassLoses(keyOf, key, base, gone); }
      }
    }
  }

  /** After the callback of the item at position i: what has been visited when the pass gets to the next one, or ends. */
  lemma WalkGoesOn<K(!new), T(!new)>(
    keyOf: T -> K, key: K, base: map<K, Items<T>>, order: seq<T>, i: nat, now: map<K, Items<T>>, gone: set<T>,
    before: seq<T>, visited: seq<T>, requests: seq<T> -> seq<T>, earlier: set<T>)
    requires Sorted(keyOf, now) && i < |order| && RemovedFrom(keyOf, AtPosition(base, key, order, i), now, gone)
    requires CanPass(keyOf, base, key, order)
    requires visited == Walk(before, order[..i], requests) && order[i] !in Requested(requests, visited)
    requires Requested(requests, visited + [order[i]]) == earlier + gone
    ensures key in now && now[key].position == i < |now[key].order|
    ensures var (s, next) := now[key].Next();
      && i < s.position <= |order| && Sorted(keyOf, now[key := s])
      && (next.Some? ==>
            && Passing(keyOf, key, base, order, s.position, now[key := s], gone) && next.value == order[s.position]
            && visited + [order[i]] == Walk(before, order[..s.position], requests))
      && (next.None? ==>
            && RemovedFrom(keyOf, base, now[key := s], gone)
            && visited + [order[i]] == Walk(before, order, requests))
  {
    PassGoesOn(keyOf, key, base, order, i, now, gone);
    var (s, next) := now[key].Next();
    WalkStep(before, order, requests, visited, i, s.position);
    assert order[..|order|] == order;
  }

  /** Of a key's items exactly those of that key among the removed ones can go. */
  lemma PassLoses<K(!new), T(!new)>(keyOf: T -> K, key: K, base: map<K, Items<T>>, gone: set<T>)
    requires Sorted(keyOf, base)
    ensures At(base, key) - OfKey(keyOf, gone, key) == At(base, key) - gone
  {
  }

  class ItemTable<K(==, !new), T(==, !new)> {
    const keyOf: T -> K
    var sets: map<K, Items<T>>

    constructor (keyOf: T -> K)
      ensures this.keyOf == keyOf && sets == map[]
    {
      this.keyOf := keyOf;
      sets := map[];
    }

    /** Not into a container that is being iterated, whose hash might grow under the iterator. */
    method AddItem(x: T)
      requires Sorted(keyOf, sets) && !SetOf(sets, keyOf(x)).inIteration
      modifies this`sets
      ensures Sorted(keyOf, sets)
      ensures Follows(keyOf, old(sets), Added(x), sets)
    {
      sets := sets[keyOf(x) := SetOf(sets, keyOf(x)).Add(x)];
    }

    method RemoveItem(x: T)
      requires Sorted(keyOf, sets)
      modifies this`sets
      ensures Sorted(keyOf, sets) && Follows(keyOf, old(sets), Dropped({x}), sets)
    {
      var s := SetOf(sets, keyOf(x)).Remove(x);
      sets := sets[keyOf(x) := s];
    }

    /** What one callback asks for, item by item. */
    method RemoveItems(xs: seq<T>)
      requires Sorted(keyOf, sets)
      modifies this`sets
      ensures Sorted(keyOf, sets) && RemovedFrom(keyOf, old(sets), sets, Elements(xs))
    {
      NothingRemoved(keyOf, sets);
      for i := 0 to |xs|
        invariant Sorted(keyOf, sets) && RemovedFrom(keyOf, old(sets), sets, Elements(xs[..i]))
      {
        ghost var mid := sets;
        RemoveItem(xs[i]);
        RemovedTwice(keyOf, old(sets), mid, sets, Elements(xs[..i]), {xs[i]});
        assert xs[..i + 1] == xs[..i] + [xs[i]];
        ElementsAdd(xs[..i], xs[i]);
      }
      assert xs[..|xs|] == xs;
    }

    /**
     One pass over the items of a key, whose callbacks ask for `requests` to be removed: the walk in some order
     of these items. Other containers may be in a pass of their own. Afterwards everything that was asked for is
     gone, or marked where a pass is still going on.
     */
    method Deliver(key: K, requests: seq<T> -> seq<T>, order: seq<T>) returns (visited: seq<T>)
      requires CanPass(keyOf, sets, key, order)
      modifies this`sets
      ensures Sorted(keyOf, sets) && visited == Walk([], order, requests)
      ensures RemovedFrom(keyOf, old(sets), sets, Requested(requests, visited))
    {
      visited := [];
      if order == [] {
        NothingRemoved(keyOf, sets);
        return;
      }
      PassBegins(keyOf, sets, key, order);
      var (s, item) := sets[key].First(order);
      sets := sets[key := s];
      ghost var i := 0;
      while item.Some?
        invariant Sorted(keyOf, sets)
        invariant item.Some? ==>
          && Passing(keyOf, key, old(sets), order, i, sets, Requested(requests, visited)) && item.value == order[i]
          && visited == Walk([], order[..i], requests)
        invariant !item.Some? ==>
          visited == Walk([], order, requests) && RemovedFrom(keyOf, old(sets), sets, Requested(requests, visited))
        decreases if item.Some? then |order| - i else 0
      {
        ghost var before, mid := visited, sets;
        visited := visited + [item.value];
        RemoveItems(requests(visited));
        RequestedAdd(requests, before, item.value);
        RemovedTwice(
          keyOf, AtPosition(old(sets), key, order, i), mid, sets, Requested(requests, before), Elements(requests(visited)));
        WalkGoesOn(keyOf, key, old(sets), order, i, sets, Requested(requests, visited), [], before, requests, {});
        var (s, next) := sets[key].Next();
        sets := sets[key := s];
        item := next;
        i := s.position;
      }
    }
  }

  lemma NothingRemoved<K(!new), T(!new)>(keyOf: T -> K, sets: map<K, Items<T>>)
    requires Sorted(keyOf, sets)
    ensures RemovedFrom(keyOf, sets, sets, {})
  {
    forall k ensures RemovedAt(keyOf, k, SetOf(sets, k), SetOf(sets, k), {}) {
      assert OfKey(keyOf, {}, k) == {};
    }
  }

  // ---------------------------------------------------------------------------------------------
  // The two levels
  // ---------------------------------------------------------------------------------------------

  /** What an item is handed: the event, or the payload a rejected command had. */
  datatype Delivery = Event(event: CommandEvent) | Rejected(original: Payload)

  /** What unwrapping an error about an error yields: the default type is component data, and there are no bytes. */
  const EMPTY_COMPONENT := ComponentData(ComponentAdd, "", Invalid, Invalid)

  /** The payload the items of a rejected event get. */
  function Unwrapped(original: Payload): Payload { if original.ErrorData? then EMPTY_COMPONENT else original }

  /** First level: one subtype passes, errors are unwrapped. */
  function ForItems(filter: Subtype, ev: CommandEvent): Option<Delivery> {
    if ev.subtype != filter then None
    else
      match ev.payload
      case ErrorData(original, _) => Some(Rejected(Unwrapped(original)))
      case _ => Some(Event(ev))
  }

  /** Second level: component data, delivered or rejected, goes to the items of its component. */
  function ForComponents(d: Delivery): Option<string> {
    var payload := match d case Event(ev) => ev.payload case Rejected(original) => original;
    if payload.ComponentData? then Some(payload.name) else None
  }

  class VfCmdEventHandler<T(==, !new)> {
    const filter: Subtype
    const entityItems: ItemTable<EntityId, T>

    constructor (filter: Subtype, entityOf: T -> EntityId)
      ensures this.filter == filter && fresh(entityItems) && entityItems.keyOf == entityOf && entityItems.sets == map[]
    {
      this.filter := filter;
      entityItems := new ItemTable(entityOf);
    }

    method ProcessCommandEvent(ev: CommandEvent, requests: seq<T> -> seq<T>, order: seq<T>) returns (visited: seq<T>)
      requires CanPass(entityItems.keyOf, entityItems.sets, ev.entity, order)
      modifies entityItems`sets
      ensures Sorted(entityItems.keyOf, entityItems.sets)
      ensures visited == if ev.subtype == filter then Walk([], order, requests) else []
      ensures RemovedFrom(entityItems.keyOf, old(entityItems.sets), entityItems.sets, Requested(requests, visited))
    {
      visited := [];
      NothingRemoved(entityItems.keyOf, entityItems.sets);
      if ev.subtype == filter { visited := entityItems.Deliver(ev.entity, requests, order); }
    }
  }

  class VfEntityComponentEventItem<C(==, !new)> {
    const entityId: EntityId
    const componentItems: ItemTable<string, C>

    constructor (entityId: EntityId, nameOf: C -> string)
      ensures this.entityId == entityId && fresh(componentItems)
      ensures componentItems.keyOf == nameOf && componentItems.sets == map[]
    {
      this.entityId := entityId;
      componentItems := new ItemTable(nameOf);
    }

    method ProcessDelivery(d: Delivery, requests: seq<C> -> seq<C>, order: seq<C>) returns (visited: seq<C>)
      requires Sorted(componentItems.keyOf, componentItems.sets)
      requires ForComponents(d).Some? ==>
        CanPass(componentItems.keyOf, componentItems.sets, ForComponents(d).value, order)
      modifies componentItems`sets
      ensures Sorted(componentItems.keyOf, componentItems.sets)
      ensures visited == if ForComponents(d).Some? then Walk([], order, requests) else []
      ensures RemovedFrom(componentItems.keyOf, old(componentItems.sets), componentItems.sets, Requested(requests, visited))
    {
      visited := [];
      NothingRemoved(componentItems.keyOf, componentItems.sets);
      var name := ForComponents(d);
      if name.Some? { visited := componentItems.Deliver(name.value, requests, order); }
    }
  }
}
