/** Who listens, over any history of additions, removals and passes, and who is therefore served by an event. */
module ListenerHistory {
  import opened Options
  import opened Events
  import opened SafeDelete
  import opened Dispatch
  import opened TwoLevelDispatch

  /** The containers went through these states, from none at all, by these changes. */
  ghost predicate Happened<K(!new), T(!new)>(keyOf: T -> K, states: seq<map<K, Items<T>>>, changes: seq<Change<T>>) {
    && |states| == |changes| + 1 && states[0] == map[]
    && forall i | 0 <= i < |changes| :: Follows(keyOf, states[i], changes[i], states[i + 1])
  }

  function Last<K, T>(states: seq<map<K, Items<T>>>): map<K, Items<T>>
    requires states != []
  { states[|states| - 1] }

  predicate Drops<T(==)>(change: Change<T>, x: T) { change.Dropped? && x in change.xs }

  /** x was added, and its removal not asked for since. */
  ghost predicate Listens<T>(changes: seq<Change<T>>, x: T) {
    exists i :: 0 <= i < |changes| && changes[i] == Added(x) && forall j | i < j < |changes| :: !Drops(changes[j], x)
  }

  lemma ListensStep<T>(changes: seq<Change<T>>, change: Change<T>, x: T)
    ensures Listens(changes + [change], x) <==> change == Added(x) || (Listens(changes, x) && !Drops(change, x))
  {
    var all := changes + [change];
    if change == Added(x) {
      assert all[|changes|] == Added(x);
    }
    if Listens(changes, x) && !Drops(change, x) {
      var i :| 0 <= i < |changes| && changes[i] == Added(x) && forall j | i < j < |changes| :: !Drops(changes[j], x);
      assert all[i] == Added(x);
      assert forall j | i < j < |all| :: !Drops(all[j], x);
    }
    if Listens(all, x) && change != Added(x) {
      var i :| 0 <= i < |all| && all[i] == Added(x) && forall j | i < j < |all| :: !Drops(all[j], x);
      assert changes[i] == Added(x) && !Drops(all[|changes|], x);
      assert forall j | i < j < |changes| :: changes[j] == all[j];
    }
  }

  lemma MembersStep<K(!new), T(!new)>(
    keyOf: T -> K, before: map<K, Items<T>>, change: Change<T>, after: map<K, Items<T>>, k: K, x: T)
    requires Follows(keyOf, before, change, after) && !SetOf(before, k).inIteration
    ensures !SetOf(after, k).inIteration
    ensures x in At(after, k) <==> (change == Added(x) && k == keyOf(x)) || (x in At(before, k) && !Drops(change, x))
  {
    if change.Dropped? { assert RemovedAt(keyOf, k, SetOf(before, k), SetOf(after, k), change.xs); }
    assert At(after, k) == SetOf(after, k).items && At(before, k) == SetOf(before, k).items;
  }

  /** An item is in the container of its key, and nowhere else, exactly when it listens. */
  lemma {:induction false} MembersListen<K(!new), T(!new)>(
    keyOf: T -> K, states: seq<map<K, Items<T>>>, changes: seq<Change<T>>, k: K, x: T)
    requires Happened(keyOf, states, changes)
    ensures !SetOf(Last(states), k).inIteration
    ensures x in At(Last(states), k) <==> k == keyOf(x) && Listens(changes, x)
    decreases |changes|
  {
    if changes != [] {
      var n := |changes| - 1;
      assert changes == changes[..n] + [changes[n]];
      assert Follows(keyOf, states[n], changes[n], states[n + 1]);
      MembersListen(keyOf, states[..n + 1], changes[..n], k, x);
      ListensStep(changes[..n], changes[n], x);
      MembersStep(keyOf, states[n], changes[n], states[n + 1], k, x);
    }
  }

  // ---------------------------------------------------------------------------------------------
  // Who is served
  // ---------------------------------------------------------------------------------------------

  /** The event passes the filter and is about the component, itself, as a rejected one, or, without a name, by nesting. */
  predicate Concerns(filter: Subtype, ev: CommandEvent, name: string) {
    && ev.subtype == filter
    && match ev.payload
      case ComponentData(_, c, _, _) => c == name
      case ErrorData(ComponentData(_, c, _, _), _) => c == name
      case ErrorData(ErrorData(_, _), _) => name == ""
      case _ => false
  }

  lemma ConcernsIff(filter: Subtype, ev: CommandEvent, name: string)
    ensures ComponentOf(filter, ev) == Some(name) <==> Concerns(filter, ev, name)
  {
  }

  lemma {:induction false} ServedAreListed<E(!new), C(!new)>(
    order: seq<E>, inner: E -> seq<C>, drops: seq<(E, C)> -> seq<(E, C)>, dropsItems: seq<(E, C)> -> seq<E>, x: (E, C))
    requires Distinct(order) && (forall e | e in order :: Distinct(inner(e)))
    requires x in Serve(order, inner, drops, dropsItems)
    ensures x.0 in order && x.1 in inner(x.0)
    decreases |order|
  {
    var init, e := order[..|order| - 1], order[|order| - 1];
    assert order == init + [e] && e in order;
    ServeIsDistinct(init, inner, drops, dropsItems);
    var before := Serve(init, inner, drops, dropsItems);
    if x in before {
      ServedAreListed(init, inner, drops, dropsItems, x);
    } else {
      LastServed(init, e, inner, drops, dropsItems);
      PairsAre(e, inner(e));
      WalkIsDistinct(before, Pairs(e, inner(e)), drops);
      assert x in Elements(Walk(before, Pairs(e, inner(e)), drops));
      assert x in Elements(before) + Elements(Pairs(e, inner(e)));
    }
  }

  /** The tables of a handler, as they have come about, and orders in which an event may be passed through them. */
  ghost predicate Prepared<E(!new), C(!new)>(
    filter: Subtype, entityOf: E -> EntityId, nameOf: C -> string, pairKey: ((E, C)) -> (E, string),
    items: map<EntityId, Items<E>>, components: map<(E, string), Items<(E, C)>>,
    ev: CommandEvent, order: seq<E>, inner: E -> seq<C>)
  {
    && (forall x: (E, C) :: pairKey(x) == (x.0, nameOf(x.1)))
    && CanPass(entityOf, items, ev.entity, order)
    && forall name, e | Concerns(filter, ev, name) && e in order :: CanPass(pairKey, components, (e, name), Pairs(e, inner(e)))
  }

  lemma PairsDistinct<E(!new), C(!new)>(e: E, cs: seq<C>)
    requires Distinct(Pairs(e, cs))
    ensures Distinct(cs)
  {
    forall i, j | 0 <= i < j < |cs| ensures cs[i] != cs[j] { assert Pairs(e, cs)[i] != Pairs(e, cs)[j]; }
  }

  /** Listening items are where the pass looks for them. */
  lemma ListeningIsListed<E(!new), C(!new)>(
    filter: Subtype, entityOf: E -> EntityId, nameOf: C -> string, pairKey: ((E, C)) -> (E, string),
    itemStates: seq<map<EntityId, Items<E>>>, itemChanges: seq<Change<E>>,
    states: seq<map<(E, string), Items<(E, C)>>>, changes: seq<Change<(E, C)>>,
    ev: CommandEvent, order: seq<E>, inner: E -> seq<C>, e: E, c: C)
    requires Happened(entityOf, itemStates, itemChanges) && Happened(pairKey, states, changes)
    requires Prepared(filter, entityOf, nameOf, pairKey, Last(itemStates), Last(states), ev, order, inner)
    ensures var listening := Listening(ComponentOf(filter, ev), inner);
      && (forall x | x in order :: Distinct(listening(x)))
      && (e in order && c in listening(e) <==>
          && Concerns(filter, ev, nameOf(c)) && entityOf(e) == ev.entity
          && Listens(itemChanges, e) && Listens(changes, (e, c)))
  {
    MembersListen(entityOf, itemStates, itemChanges, ev.entity, e);
    assert e in order <==> e in Elements(order);
    var name := ComponentOf(filter, ev);
    ConcernsIff(filter, ev, nameOf(c));
    if name.Some? {
      ConcernsIff(filter, ev, name.value);
      forall x | x in order ensures Distinct(inner(x)) {
        assert CanPass(pairKey, Last(states), (x, name.value), Pairs(x, inner(x)));
        PairsDistinct(x, inner(x));
      }
      if e in order {
        assert CanPass(pairKey, Last(states), (e, name.value), Pairs(e, inner(e)));
        MembersListen(pairKey, states, changes, (e, name.value), (e, c));
        PairsAre(e, inner(e));
        assert (e, c) in Pairs(e, inner(e)) <==> (e, c) in Elements(Pairs(e, inner(e)));
      }
    }
  }

  /**
   A component item is served by an event if and only if it was added for the event's component at an entity item
   added for the event's entity, neither has been removed since, and no callback before its turn asks for that.
   */
  lemma ListenersAreServed<E(!new), C(!new)>(
    filter: Subtype, entityOf: E -> EntityId, nameOf: C -> string, pairKey: ((E, C)) -> (E, string),
    itemStates: seq<map<EntityId, Items<E>>>, itemChanges: seq<Change<E>>,
    states: seq<map<(E, string), Items<(E, C)>>>, changes: seq<Change<(E, C)>>,
    ev: CommandEvent, order: seq<E>, inner: E -> seq<C>,
    drops: seq<(E, C)> -> seq<(E, C)>, dropsItems: seq<(E, C)> -> seq<E>, e: E, c: C)
    requires Happened(entityOf, itemStates, itemChanges) && Happened(pairKey, states, changes)
    requires Prepared(filter, entityOf, nameOf, pairKey, Last(itemStates), Last(states), ev, order, inner)
    ensures var listening := Listening(ComponentOf(filter, ev), inner);
      var served := Serve(order, listening, drops, dropsItems);
      (e, c) in served <==>
      && Concerns(filter, ev, nameOf(c)) && entityOf(e) == ev.entity
      && Listens(itemChanges, e) && Listens(changes, (e, c))
      && exists j: nat, m: nat ::
           && j < |order| && order[j] == e && m < |inner(e)| && inner(e)[m] == c
           && var before := Serve(order[..j], listening, drops, dropsItems);
             && e !in Requested(dropsItems, before)
             && (e, c) !in Requested(drops, Walk(before, Pairs(e, inner(e)[..m]), drops))
  {
    var listening := Listening(ComponentOf(filter, ev), inner);
    var served := Serve(order, listening, drops, dropsItems);
    ListeningIsListed(
      filter, entityOf, nameOf, pairKey, itemStates, itemChanges, states, changes, ev, order, inner, e, c);
    if (e, c) in served { ServedAreListed(order, listening, drops, dropsItems, (e, c)); }
    if e in order && c in listening(e) {
      var j: nat :| j < |order| && order[j] == e;
      var m: nat :| m < |inner(e)| && inner(e)[m] == c;
      forall j': nat, m': nat | j' < |order| && order[j'] == e && m' < |inner(e)| && inner(e)[m'] == c
        ensures j' == j && m' == m
      {
        assert Distinct(listening(order[j]));
      }
      ServedIff(order, listening, drops, dropsItems, j, m);
    }
  }

  /** Whoever listens and is not asked to leave is served; whoever does not listen is not. */
  lemma ServedIffListening<E(!new), C(!new)>(
    filter: Subtype, entityOf: E -> EntityId, nameOf: C -> string, pairKey: ((E, C)) -> (E, string),
    itemStates: seq<map<EntityId, Items<E>>>, itemChanges: seq<Change<E>>,
    states: seq<map<(E, string), Items<(E, C)>>>, changes: seq<Change<(E, C)>>,
    ev: CommandEvent, order: seq<E>, inner: E -> seq<C>,
    drops: seq<(E, C)> -> seq<(E, C)>, dropsItems: seq<(E, C)> -> seq<E>, e: E, c: C)
    requires Happened(entityOf, itemStates, itemChanges) && Happened(pairKey, states, changes)
    requires Prepared(filter, entityOf, nameOf, pairKey, Last(itemStates), Last(states), ev, order, inner)
    requires forall h :: e !in dropsItems(h) && (e, c) !in drops(h)
    ensures (e, c) in Serve(order, Listening(ComponentOf(filter, ev), inner), drops, dropsItems) <==>
      && Concerns(filter, ev, nameOf(c)) && entityOf(e) == ev.entity
      && Listens(itemChanges, e) && Listens(changes, (e, c))
  {
    var listening := Listening(ComponentOf(filter, ev), inner);
    ListeningIsListed(
      filter, entityOf, nameOf, pairKey, itemStates, itemChanges, states, changes, ev, order, inner, e, c);
    if (e, c) in Serve(order, listening, drops, dropsItems) {
      ServedAreListed(order, listening, drops, dropsItems, (e, c));
    } else if e in order && c in listening(e) {
      var j: nat :| j < |order| && order[j] == e;
      var m: nat :| m < |listening(e)| && listening(e)[m] == c;
      var before := Serve(order[..j], listening, drops, dropsItems);
      ServedIff(order, listening, drops, dropsItems, j, m);
      NeverRequested(dropsItems, before, e);
      NeverRequested(drops, Walk(before, Pairs(e, listening(e)[..m]), drops), (e, c));
    }
  }

  lemma {:induction false} NeverRequested<T(!new), R(!new)>(requests: seq<T> -> seq<R>, visited: seq<T>, r: R)
    requires forall h :: r !in requests(h)
    ensures r !in Requested(requests, visited)
    decreases |visited|
  {
    if visited != [] { NeverRequested(requests, visited[..|visited| - 1], r); }
  }
}
