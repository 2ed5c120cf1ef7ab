/**
 An event through both levels: the entity items of its entity, and for each of them the component items of its
 component, while every callback may remove items of both levels.
 */
module TwoLevelDispatch {
  import opened Options
  import opened Events
  import opened SafeDelete
  import opened Dispatch

  /** A component item with the entity item it belongs to. */
  function Pairs<E, C>(e: E, cs: seq<C>): seq<(E, C)> { seq(|cs|, i requires 0 <= i < |cs| => (e, cs[i])) }

  lemma PairsAre<E(!new), C(!new)>(e: E, cs: seq<C>)
    ensures forall x :: x in Pairs(e, cs) <==> x.0 == e && x.1 in cs
    ensures Distinct(cs) ==> Distinct(Pairs(e, cs))
  {
    forall x: (E, C) | x.0 == e && x.1 in cs ensures x in Pairs(e, cs) {
      var i :| 0 <= i < |cs| && cs[i] == x.1;
      assert Pairs(e, cs)[i] == x;
    }
  }

  // ---------------------------------------------------------------------------------------------
  // What is served
  // ---------------------------------------------------------------------------------------------

  /**
   Component items served by one event, oldest first. A callback knows everything served before; it asks for the
   removal of component items (`drops`) and of whole entity items (`dropsItems`).
   */
  function Serve<E(==), C(==)>(
    order: seq<E>, inner: E -> seq<C>, drops: seq<(E, C)> -> seq<(E, C)>, dropsItems: seq<(E, C)> -> seq<E>): seq<(E, C)>
  {
    if order == [] then []
    else
      var before, e := Serve(order[..|order| - 1], inner, drops, dropsItems), order[|order| - 1];
      if e in Requested(dropsItems, before) then before else Walk(before, Pairs(e, inner(e)), drops)
  }

  lemma {:induction false} ServeIsDistinct<E(!new), C(!new)>(
    order: seq<E>, inner: E -> seq<C>, drops: seq<(E, C)> -> seq<(E, C)>, dropsItems: seq<(E, C)> -> seq<E>)
    requires Distinct(order) && forall e | e in order :: Distinct(inner(e))
    ensures var served := Serve(order, inner, drops, dropsItems);
      Distinct(served) && forall x | x in served :: x.0 in order
    decreases |order|
  {
    if order != [] {
      var init, e := order[..|order| - 1], order[|order| - 1];
      ServeIsDistinct(init, inner, drops, dropsItems);
      assert e in order;
      LastServed(init, e, inner, drops, dropsItems);
    }
  }

  /** One more entity item at the end adds component items of its own only. */
  lemma LastServed<E(!new), C(!new)>(
    init: seq<E>, e: E, inner: E -> seq<C>, drops: seq<(E, C)> -> seq<(E, C)>, dropsItems: seq<(E, C)> -> seq<E>)
    requires e !in init && Distinct(inner(e))
    requires var before := Serve(init, inner, drops, dropsItems); Distinct(before) && forall x | x in before :: x.0 in init
    ensures var before, served := Serve(init, inner, drops, dropsItems), Serve(init + [e], inner, drops, dropsItems);
      && Distinct(served) && Elements(before) !! Elements(Pairs(e, inner(e)))
      && (forall x: (E, C) | x.0 != e :: x in served <==> x in before)
      && (forall x | x in served :: x.0 == e || x.0 in init)
  {
    var order := init + [e];
    assert order[..|order| - 1] == init;
    var before, pairs := Serve(init, inner, drops, dropsItems), Pairs(e, inner(e));
    PairsAre(e, inner(e));
    WalkIsDistinct(before, pairs, drops);
    forall x ensures x in Walk(before, pairs, drops) ==> x in before || x.0 == e
             ensures x in before ==> x in Walk(before, pairs, drops) {
      assert x in Walk(before, pairs, drops) <==> x in Elements(Walk(before, pairs, drops));
      assert x in before <==> x in Elements(before);
      assert x in pairs <==> x in Elements(pairs);
    }
  }

  lemma NotServedYet<E(!new), C(!new)>(init: seq<E>, before: seq<(E, C)>, e: E, c: C)
    requires e !in init && forall x | x in before :: x.0 in init
    ensures (e, c) !in before
  {
    forall x | x in before ensures x != (e, c) { assert x.0 in init; }
  }

  lemma LastServedIff<E(!new), C(!new)>(
    init: seq<E>, e: E, inner: E -> seq<C>, drops: seq<(E, C)> -> seq<(E, C)>, dropsItems: seq<(E, C)> -> seq<E>, m: nat)
    requires e !in init && Distinct(inner(e)) && m < |inner(e)|
    requires var before := Serve(init, inner, drops, dropsItems); Distinct(before) && forall x | x in before :: x.0 in init
    ensures var before := Serve(init, inner, drops, dropsItems);
      (e, inner(e)[m]) in Serve(init + [e], inner, drops, dropsItems) <==>
      && e !in Requested(dropsItems, before)
      && (e, inner(e)[m]) !in Requested(drops, Walk(before, Pairs(e, inner(e)[..m]), drops))
  {
    var order, before, pairs := init + [e], Serve(init, inner, drops, dropsItems), Pairs(e, inner(e));
    assert order[..|order| - 1] == init;
    LastServed(init, e, inner, drops, dropsItems);
    NotServedYet(init, before, e, inner(e)[m]);
    if e !in Requested(dropsItems, before) {
      PairsAre(e, inner(e));
      VisitedUnlessRemoved(before, pairs, drops, m);
      assert pairs[..m] == Pairs(e, inner(e)[..m]);
    }
  }

  /**
   A component item is served, once, exactly when no earlier callback asked for its removal, and none that came
   before the turn of its entity item asked for that of the entity item.
   */
  lemma {:induction false} ServedIff<E(!new), C(!new)>(
    order: seq<E>, inner: E -> seq<C>, drops: seq<(E, C)> -> seq<(E, C)>, dropsItems: seq<(E, C)> -> seq<E>, j: nat, m: nat)
    requires Distinct(order) && forall e | e in order :: Distinct(inner(e))
    requires j < |order| && m < |inner(order[j])|
    ensures Distinct(Serve(order, inner, drops, dropsItems))
    ensures var e, before := order[j], Serve(order[..j], inner, drops, dropsItems);
      (e, inner(e)[m]) in Serve(order, inner, drops, dropsItems) <==>
      && e !in Requested(dropsItems, before)
      && (e, inner(e)[m]) !in Requested(drops, Walk(before, Pairs(e, inner(e)[..m]), drops))
    decreases |order|
  {
    var init, last := order[..|order| - 1], order[|order| - 1];
    assert order == init + [last] && last in order && forall e | e in init :: e in order;
    ServeIsDistinct(init, inner, drops, dropsItems);
    LastServed(init, last, inner, drops, dropsItems);
    if j < |init| {
      ServedIff(init, inner, drops, dropsItems, j, m);
      assert init[..j] == order[..j] && init[j] == order[j] != last;
      var x := (order[j], inner(order[j])[m]);
      assert x.0 != last;
    } else {
      LastServedIff(init, last, inner, drops, dropsItems, m);
    }
  }

  // ---------------------------------------------------------------------------------------------
  // Orders after removals
  // ---------------------------------------------------------------------------------------------

  /** A hash container keeps the order of what is left when items are erased. */
  function Kept<T(==)>(order: seq<T>, items: set<T>): seq<T> {
    if order == [] then []
    else Kept(order[..|order| - 1], items) + if order[|order| - 1] in items then [order[|order| - 1]] else []
  }

  lemma {:induction false} KeptItems<T(!new)>(order: seq<T>, items: set<T>)
    requires Distinct(order)
    ensures Distinct(Kept(order, items)) && Elements(Kept(order, items)) == Elements(order) * items
    decreases |order|
  {
    if order != [] {
      var init, last := order[..|order| - 1], order[|order| - 1];
      KeptItems(init, items);
      assert order == init + [last];
      ElementsAdd(init, last);
      ElementsAdd(Kept(init, items), last);
      forall i | 0 <= i < |Kept(init, items)| ensures Kept(init, items)[i] != last {
        assert Kept(init, items)[i] in Elements(init);
      }
      if last !in items { assert Kept(init, items) + [] == Kept(init, items); }
    }
  }

  /** Items removed before the pass are skipped as if they were marked. */
  lemma {:induction false} WalkOfKept<T(!new)>(before: seq<T>, order: seq<T>, requests: seq<T> -> seq<T>, items: set<T>)
    requires forall x | x in order && x !in items :: x in Requested(requests, before)
    ensures Walk(before, Kept(order, items), requests) == Walk(before, order, requests)
    decreases |order|
  {
    if order != [] {
      var init, last := order[..|order| - 1], order[|order| - 1];
      assert last in order && forall x | x in init :: x in order;
      WalkOfKept(before, init, requests, items);
      if last in items {
        var kept := Kept(init, items) + [last];
        assert kept[..|kept| - 1] == Kept(init, items);
      } else {
        RequestedGrows(before, init, requests, requests);
        assert Kept(init, items) + [] == Kept(init, items);
      }
    }
  }

  lemma {:induction false} ServeSkips<E, C>(
    order: seq<E>, inner: E -> seq<C>, drops: seq<(E, C)> -> seq<(E, C)>, dropsItems: seq<(E, C)> -> seq<E>, i: nat, j: nat)
    requires i <= j <= |order|
    requires forall k | i <= k < j :: order[k] in Requested(dropsItems, Serve(order[..i], inner, drops, dropsItems))
    ensures Serve(order[..j], inner, drops, dropsItems) == Serve(order[..i], inner, drops, dropsItems)
    decreases j
  {
    if i < j {
      ServeSkips(order, inner, drops, dropsItems, i, j - 1);
      assert order[..j][..j - 1] == order[..j - 1];
    }
  }

  /** The entity item at position i is served, then the marked ones up to p are skipped. */
  lemma ServeStep<E, C>(
    order: seq<E>, inner: E -> seq<C>, drops: seq<(E, C)> -> seq<(E, C)>, dropsItems: seq<(E, C)> -> seq<E>,
    served: seq<(E, C)>, i: nat, p: nat)
    requires i < p <= |order| && order[i] !in Requested(dropsItems, Serve(order[..i], inner, drops, dropsItems))
    requires served == Walk(Serve(order[..i], inner, drops, dropsItems), Pairs(order[i], inner(order[i])), drops)
    requires forall k | i < k < p :: order[k] in Requested(dropsItems, served)
    ensures Serve(order[..p], inner, drops, dropsItems) == served
  {
    var upto := order[..i + 1];
    assert upto[..|upto| - 1] == order[..i] && upto[|upto| - 1] == order[i];
    ServeSkips(order, inner, drops, dropsItems, i + 1, p);
  }

  // ---------------------------------------------------------------------------------------------
  // The handler
  // ---------------------------------------------------------------------------------------------

  /** Whom an entity item hands the event: the items of the event's component, or nobody. */
  function Listening<E, C>(name: Option<string>, inner: E -> seq<C>): E -> seq<C> {
    e => if name.Some? then inner(e) else []
  }

  /** The components an event is about at the second level, if it passes the first. */
  function ComponentOf(filter: Subtype, ev: CommandEvent): Option<string> {
    match ForItems(filter, ev)
    case Some(d) => ForComponents(d)
    case None => None
  }

  /**
   A VfCmdEventHandler whose items are VfEntityComponentEventItems. Their component items are kept in one table,
   keyed by entity item and component name.
   */
  class ComponentEventHandler<E(==, !new), C(==, !new)> {
    const filter: Subtype
    const nameOf: C -> string
    const entityItems: ItemTable<EntityId, E>
    const componentItems: ItemTable<(E, string), (E, C)>

    constructor (filter: Subtype, entityOf: E -> EntityId, nameOf: C -> string)
      ensures this.filter == filter && this.nameOf == nameOf && fresh(entityItems) && fresh(componentItems)
      ensures entityItems.keyOf == entityOf && entityItems.sets == map[] && componentItems.sets == map[] && Valid()
      ensures forall x: (E, C) :: componentItems.keyOf(x) == (x.0, nameOf(x.1))
    {
      this.filter, this.nameOf := filter, nameOf;
      entityItems := new ItemTable(entityOf);
      componentItems := new ItemTable((x: (E, C)) => (x.0, nameOf(x.1)));
    }

    ghost predicate Valid()
      reads entityItems, componentItems
    {
      && (entityItems as object) != componentItems
      && Sorted(entityItems.keyOf, entityItems.sets) && Sorted(componentItems.keyOf, componentItems.sets)
    }

    /** The callback of the component item served last removes what it asks for on both levels. */
    method Callback(
      before: seq<(E, C)>, x: (E, C), drops: seq<(E, C)> -> seq<(E, C)>, dropsItems: seq<(E, C)> -> seq<E>,
      ghost base: map<(E, string), Items<(E, C)>>, ghost gone: set<(E, C)>,
      ghost baseItems: map<EntityId, Items<E>>, ghost goneItems: set<E>)
      returns (ghost now: set<(E, C)>, ghost nowItems: set<E>)
      requires Valid()
      requires RemovedFrom(componentItems.keyOf, base, componentItems.sets, gone)
      requires RemovedFrom(entityItems.keyOf, baseItems, entityItems.sets, goneItems)
      modifies entityItems`sets, componentItems`sets
      ensures Valid()
      ensures RemovedFrom(componentItems.keyOf, base, componentItems.sets, gone + now)
      ensures Requested(drops, before + [x]) == Requested(drops, before) + now
      ensures RemovedFrom(entityItems.keyOf, baseItems, entityItems.sets, goneItems + nowItems)
      ensures Requested(dropsItems, before + [x]) == Requested(dropsItems, before) + nowItems
    {
      ghost var mid, midItems := componentItems.sets, entityItems.sets;
      var xs, es := drops(before + [x]), dropsItems(before + [x]);
      now, nowItems := Elements(xs), Elements(es);
      componentItems.RemoveItems(xs);
      entityItems.RemoveItems(es);
      RequestedAdd(drops, before, x);
      RequestedAdd(dropsItems, before, x);
      RemovedTwice(componentItems.keyOf, base, mid, componentItems.sets, gone, now);
      RemovedTwice(entityItems.keyOf, baseItems, midItems, entityItems.sets, goneItems, nowItems);
    }

    /**
     VfEntityComponentEventItem's pass: `served` goes on from `before`; the ghost results say what was asked for on
     the way.
     */
    method ServeInOrder(
      key: (E, string), order: seq<(E, C)>, drops: seq<(E, C)> -> seq<(E, C)>, dropsItems: seq<(E, C)> -> seq<E>,
      before: seq<(E, C)>)
      returns (served: seq<(E, C)>, ghost gone: set<(E, C)>, ghost goneItems: set<E>)
      requires Valid() && CanPass(componentItems.keyOf, componentItems.sets, key, order)
      requires forall x | x in order :: x !in Requested(drops, before)
      modifies entityItems`sets, componentItems`sets
      ensures Valid() && served == Walk(before, order, drops)
      ensures RemovedFrom(componentItems.keyOf, old(componentItems.sets), componentItems.sets, gone)
      ensures Requested(drops, served) == Requested(drops, before) + gone
      ensures RemovedFrom(entityItems.keyOf, old(entityItems.sets), entityItems.sets, goneItems)
      ensures Requested(dropsItems, served) == Requested(dropsItems, before) + goneItems
    {
      ghost var base, baseItems := componentItems.sets, entityItems.sets;
      served, gone, goneItems := before, {}, {};
      NothingRemoved(entityItems.keyOf, entityItems.sets);
      NothingRemoved(componentItems.keyOf, componentItems.sets);
      if order == [] { return; }
      PassBegins(componentItems.keyOf, base, key, order);
      var (s, item) := componentItems.sets[key].First(order);
      componentItems.sets := componentItems.sets[key := s];
      ghost var i := 0;
      while item.Some?
        invariant Valid()
        invariant Requested(drops, served) == Requested(drops, before) + gone
        invariant Requested(dropsItems, served) == Requested(dropsItems, before) + goneItems
        invariant RemovedFrom(entityItems.keyOf, baseItems, entityItems.sets, goneItems)
        invariant item.Some? ==>
          && Passing(componentItems.keyOf, key, base, order, i, componentItems.sets, gone)
          && item.value == order[i] && served == Walk(before, order[..i], drops)
        invariant !item.Some? ==>
          served == Walk(before, order, drops) && RemovedFrom(componentItems.keyOf, base, componentItems.sets, gone)
        decreases if item.Some? then |order| - i else 0
      {
        ghost var sofar := served;
        ghost var now, nowItems := Callback(
          served, item.value, drops, dropsItems, AtPosition(base, key, order, i), gone, baseItems, goneItems);
        served := served + [item.value];
        gone, goneItems := gone + now, goneItems + nowItems;
        assert order[i] in order;
        WalkGoesOn(
          componentItems.keyOf, key, base, order, i, componentItems.sets, gone,
          before, sofar, drops, Requested(drops, before));
        var (s, next) := componentItems.sets[key].Next();
        componentItems.sets := componentItems.sets[key := s];
        item := next;
        i := s.position;
      }
    }

    /** The entity item can be handed the event: nobody is in a pass over the items of that component. */
    ghost predicate Ready(e: E, name: string, inner: E -> seq<C>)
      reads componentItems
    { CanPass(componentItems.keyOf, componentItems.sets, (e, name), Pairs(e, inner(e))) }

    /** One entity item is handed the event. */
    method ServeItem(
      e: E, name: Option<string>, inner: E -> seq<C>, drops: seq<(E, C)> -> seq<(E, C)>, dropsItems: seq<(E, C)> -> seq<E>,
      before: seq<(E, C)>, ghost base: map<(E, string), Items<(E, C)>>, ghost baseItems: map<EntityId, Items<E>>)
      returns (served: seq<(E, C)>)
      requires Valid()
      requires name.Some? ==> CanPass(componentItems.keyOf, base, (e, name.value), Pairs(e, inner(e)))
      requires RemovedFrom(componentItems.keyOf, base, componentItems.sets, Requested(drops, before))
      requires RemovedFrom(entityItems.keyOf, baseItems, entityItems.sets, Requested(dropsItems, before))
      modifies entityItems`sets, componentItems`sets
      ensures Valid() && served == Walk(before, Pairs(e, Listening(name, inner)(e)), drops)
      ensures RemovedFrom(componentItems.keyOf, base, componentItems.sets, Requested(drops, served))
      ensures RemovedFrom(entityItems.keyOf, baseItems, entityItems.sets, Requested(dropsItems, served))
    {
      served := before;
      if name.None? { return; }
      ghost var mid, midItems := componentItems.sets, entityItems.sets;
      CanStillPass(componentItems.keyOf, base, mid, (e, name.value), Pairs(e, inner(e)), Requested(drops, before));
      var items := At(componentItems.sets, (e, name.value));
      WalkOfKept(before, Pairs(e, inner(e)), drops, items);
      KeptAreLeft(Pairs(e, inner(e)), items, Requested(drops, before));
      ghost var gone, goneItems;
      served, gone, goneItems := ServeInOrder((e, name.value), Kept(Pairs(e, inner(e)), items), drops, dropsItems, before);
      RemovedTwice(componentItems.keyOf, base, mid, componentItems.sets, Requested(drops, before), gone);
      RemovedTwice(entityItems.keyOf, baseItems, midItems, entityItems.sets, Requested(dropsItems, before), goneItems);
    }

    /**
     VfCmdEventHandler's pass. `order` and `inner` are the iteration orders of the entity's items and, for each, of
     its component's items; other containers may be in passes of their own.
     */
    method ProcessCommandEvent(
      ev: CommandEvent, order: seq<E>, inner: E -> seq<C>,
      drops: seq<(E, C)> -> seq<(E, C)>, dropsItems: seq<(E, C)> -> seq<E>)
      returns (served: seq<(E, C)>)
      requires Valid() && CanPass(entityItems.keyOf, entityItems.sets, ev.entity, order)
      requires var name := ComponentOf(filter, ev);
        name.Some? ==> forall e | e in order :: Ready(e, name.value, inner)
      modifies entityItems`sets, componentItems`sets
      ensures Valid()
      ensures served ==
        if ev.subtype == filter
        then Serve(order, Listening(ComponentOf(filter, ev), inner), drops, dropsItems) else []
      ensures RemovedFrom(componentItems.keyOf, old(componentItems.sets), componentItems.sets, Requested(drops, served))
      ensures RemovedFrom(entityItems.keyOf, old(entityItems.sets), entityItems.sets, Requested(dropsItems, served))
    {
      served := [];
      NothingRemoved(entityItems.keyOf, entityItems.sets);
      NothingRemoved(componentItems.keyOf, componentItems.sets);
      if ForItems(filter, ev).None? || order == [] { return; }
      var name := ComponentOf(filter, ev);
      var all := Listening(name, inner);
      ghost var base, baseItems := componentItems.sets, entityItems.sets;
      PassBegins(entityItems.keyOf, baseItems, ev.entity, order);
      var (s, item) := entityItems.sets[ev.entity].First(order);
      entityItems.sets := entityItems.sets[ev.entity := s];
      ghost var i := 0;
      while item.Some?
        invariant Valid()
        invariant RemovedFrom(componentItems.keyOf, base, componentItems.sets, Requested(drops, served))
        invariant item.Some? ==>
          && Passing(entityItems.keyOf, ev.entity, baseItems, order, i, entityItems.sets, Requested(dropsItems, served))
          && item.value == order[i] && served == Serve(order[..i], all, drops, dropsItems)
        invariant !item.Some? ==>
          && served == Serve(order, all, drops, dropsItems)
          && RemovedFrom(entityItems.keyOf, baseItems, entityItems.sets, Requested(dropsItems, served))
        decreases if item.Some? then |order| - i else 0
      {
        assert order[i] in order;
        served := ServeItem(
          item.value, name, inner, drops, dropsItems, served,
          base, AtPosition(baseItems, ev.entity, order, i));
        PassGoesOn(entityItems.keyOf, ev.entity, baseItems, order, i, entityItems.sets, Requested(dropsItems, served));
        var (s, next) := entityItems.sets[ev.entity].Next();
        ServeStep(order, all, drops, dropsItems, served, i, s.position);
        assert order[..|order|] == order;
        entityItems.sets := entityItems.sets[ev.entity := s];
        item := next;
        i := s.position;
      }
    }
  }

  /** A pass is still possible after removals, over what is left in the same order. */
  lemma CanStillPass<K(!new), T(!new)>(
    keyOf: T -> K, base: map<K, Items<T>>, now: map<K, Items<T>>, key: K, order: seq<T>, gone: set<T>)
    requires CanPass(keyOf, base, key, order) && Sorted(keyOf, now) && RemovedFrom(keyOf, base, now, gone)
    ensures CanPass(keyOf, now, key, Kept(order, At(now, key)))
    ensures forall x | x in order :: x in At(now, key) <==> x !in gone
  {
    assert RemovedAt(keyOf, key, SetOf(base, key), SetOf(now, key), gone);
    KeptItems(order, At(now, key));
    forall x | x in order ensures x in At(now, key) <==> x !in gone { assert x in Elements(order); }
  }

  lemma KeptAreLeft<T(!new)>(order: seq<T>, items: set<T>, requested: set<T>)
    requires forall y | y in order :: y in items <==> y !in requested
    ensures forall x | x in Kept(order, items) :: x !in requested
  {
    forall x | x in Kept(order, items) ensures x !in requested { NotYetRequested(order, items, requested, x); }
  }

  lemma {:induction false} NotYetRequested<T(!new)>(order: seq<T>, items: set<T>, requested: set<T>, x: T)
    requires forall y | y in order :: y in items <==> y !in requested
    requires x in Kept(order, items)
    ensures x !in requested
    decreases |order|
  {
    var init, last := order[..|order| - 1], order[|order| - 1];
    assert last in order && forall y | y in init :: y in order;
    if x in Kept(init, items) { NotYetRequested(init, items, requested, x); }
  }
}
