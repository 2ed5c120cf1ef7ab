/** Iterating over a set of listeners while their callbacks remove listeners, and the dispatch built on it. */
module SafeDelete {
  import opened Options

  ghost predicate Distinct<T(!new)>(s: seq<T>) {
    forall i, j | 0 <= i < j < |s| :: s[i] != s[j]
  }

  function Elements<T>(s: seq<T>): set<T> { set x | x in s }

  lemma ElementsAdd<T>(s: seq<T>, x: T)
    ensures Elements(s + [x]) == Elements(s) + {x}
  {
  }

  /** Everything whose removal was asked for while the items of `visited` were handled, in that order. */
  function Requested<T, R>(requests: seq<T> -> seq<R>, visited: seq<T>): set<R> {
    if visited == [] then {} else Requested(requests, visited[..|visited| - 1]) + Elements(requests(visited))
  }

  lemma RequestedAdd<T, R>(requests: seq<T> -> seq<R>, visited: seq<T>, x: T)
    ensures Requested(requests, visited + [x]) == Requested(requests, visited) + Elements(requests(visited + [x]))
  {
    var all := visited + [x];
    assert all[..|all| - 1] == visited;
  }

  /**
   What has been visited after a pass in the given order, if `before` had been visited already; a callback may
   know every item visited before its own.
   */
  function Walk<T(==)>(before: seq<T>, order: seq<T>, requests: seq<T> -> seq<T>): seq<T> {
    if order == [] then before
    else
      var visited, x := Walk(before, order[..|order| - 1], requests), order[|order| - 1];
      if x in Requested(requests, visited) then visited else visited + [x]
  }

  /** A pass visits items once each, of its own order only. */
  lemma {:induction false} WalkIsDistinct<T(!new)>(before: seq<T>, order: seq<T>, requests: seq<T> -> seq<T>)
    requires Distinct(before) && Distinct(order) && Elements(before) !! Elements(order)
    ensures Distinct(Walk(before, order, requests))
    ensures Elements(before) <= Elements(Walk(before, order, requests)) <= Elements(before) + Elements(order)
    decreases |order|
  {
    if order != [] {
      var init, last := order[..|order| - 1], order[|order| - 1];
      assert order == init + [last];
      ElementsAdd(init, last);
      WalkIsDistinct(before, init, requests);
      var visited := Walk(before, init, requests);
      ElementsAdd(visited, last);
      forall i | 0 <= i < |visited| ensures visited[i] != last { assert visited[i] in Elements(before) + Elements(init); }
    }
  }

  /** One more item at the end of the order decides about itself only. */
  lemma WalkLast<T(!new)>(before: seq<T>, init: seq<T>, last: T, requests: seq<T> -> seq<T>)
    requires Distinct(before) && Distinct(init) && Elements(before) !! Elements(init)
    requires last !in init && last !in before
    ensures last in Walk(before, init + [last], requests) <==> last !in Requested(requests, Walk(before, init, requests))
    ensures forall x | x in init :: x in Walk(before, init + [last], requests) <==> x in Walk(before, init, requests)
  {
    var order := init + [last];
    assert order[..|order| - 1] == init;
    WalkIsDistinct(before, init, requests);
    assert last !in Elements(before) + Elements(init);
    assert last !in Elements(Walk(before, init, requests));
  }

  /** An item is visited exactly when its removal was not requested before it was reached. */
  lemma {:induction false} VisitedUnlessRemoved<T(!new)>(before: seq<T>, order: seq<T>, requests: seq<T> -> seq<T>, j: nat)
    requires Distinct(before) && Distinct(order) && Elements(before) !! Elements(order) && j < |order|
    ensures order[j] in Walk(before, order, requests)
      <==> order[j] !in Requested(requests, Walk(before, order[..j], requests))
    decreases |order|
  {
    var init, last := order[..|order| - 1], order[|order| - 1];
    assert order == init + [last];
    assert last in Elements(order) && Elements(init) <= Elements(order);
    WalkLast(before, init, last, requests);
    if j < |init| {
      VisitedUnlessRemoved(before, init, requests, j);
      assert init[..j] == order[..j];
      assert init[j] in init;
    }
  }

  /** Items that are all marked for removal do not show in the walk. */
  lemma {:induction false} WalkSkips<T>(before: seq<T>, order: seq<T>, requests: seq<T> -> seq<T>, i: nat, j: nat)
    requires i <= j <= |order|
    requires forall k | i <= k < j :: order[k] in Requested(requests, Walk(before, order[..i], requests))
    ensures Walk(before, order[..j], requests) == Walk(before, order[..i], requests)
    decreases j
  {
    if i < j {
      WalkSkips(before, order, requests, i, j - 1);
      assert order[..j][..j - 1] == order[..j - 1];
    }
  }

  lemma WalkVisits<T>(before: seq<T>, order: seq<T>, requests: seq<T> -> seq<T>, i: nat)
    requires i < |order| && order[i] !in Requested(requests, Walk(before, order[..i], requests))
    ensures Walk(before, order[..i + 1], requests) == Walk(before, order[..i], requests) + [order[i]]
  {
    var upto := order[..i + 1];
    assert upto[..|upto| - 1] == order[..i] && upto[|upto| - 1] == order[i];
  }

  /** The item at position i is handled, then the marked ones up to p are skipped. */
  lemma WalkStep<T>(before: seq<T>, order: seq<T>, requests: seq<T> -> seq<T>, visited: seq<T>, i: nat, p: nat)
    requires i < p <= |order| && visited == Walk(before, order[..i], requests)
    requires order[i] !in Requested(requests, visited)
    requires forall k | i < k < p :: order[k] in Requested(requests, visited + [order[i]])
    ensures Walk(before, order[..p], requests) == visited + [order[i]]
  {
    WalkVisits(before, order, requests, i);
    WalkSkips(before, order, requests, i + 1, p);
  }

  /** What was asked for stays asked for. */
  lemma {:induction false} RequestedGrows<T, R>(before: seq<T>, order: seq<T>, drops: seq<T> -> seq<T>, requests: seq<T> -> seq<R>)
    ensures Requested(requests, before) <= Requested(requests, Walk(before, order, drops))
    decreases |order|
  {
    if order != [] {
      var init, last := order[..|order| - 1], order[|order| - 1];
      RequestedGrows(before, init, drops, requests);
      RequestedAdd(requests, Walk(before, init, drops), last);
    }
  }

  /** A container: its items, and the state of the pass over them, if one is going on. */
  datatype Items<T(==)> = Items(
    items: set<T>, inIteration: bool, toDelete: set<T>, order: seq<T>, position: nat)
  {
    ghost predicate Valid() {
      && (inIteration ==> Elements(order) == items && position < |order|)
      && (!inIteration ==> toDelete == {})
    }

    function Add(x: T): Items<T> { this.(items := items + {x}) }

    function Remove(x: T): Items<T> {
      if inIteration then this.(toDelete := toDelete + {x}) else this.(items := items - {x})
    }

    /** A pass begins, in the order the hash set happens to have. */
    function First(order: seq<T>): (Items<T>, Option<T>) {
      if order == [] then (this.(order := order, position := 0), None)
      else (this.(inIteration := true, order := order, position := 0), Some(order[0]))
    }

    /** The first position from `from` on whose item nobody asked to remove. */
    function Live(from: nat): (r: nat)
      requires from <= |order|
      ensures from <= r <= |order|
      ensures forall k | from <= k < r :: order[k] in toDelete
      ensures r < |order| ==> order[r] !in toDelete
      decreases |order| - from
    {
      if from < |order| && order[from] in toDelete then Live(from + 1) else from
    }

    /** On to the next item; after the last one the deferred removals are made. */
    function Next(): (Items<T>, Option<T>)
      requires position < |order|
    {
      var p := Live(position + 1);
      if p < |order| then (this.(position := p), Some(order[p]))
      else (Items(items - toDelete, false, {}, order, p), None)
    }
  }

  class SafeDeleteSet<T(==, !new)> {
    var items: set<T>
    var inIteration: bool
    var toDelete: set<T>
    var order: seq<T>
    var position: nat

    ghost function Model(): Items<T>
      reads this
    { Items(items, inIteration, toDelete, order, position) }

    constructor ()
      ensures Model() == Items({}, false, {}, [], 0)
    { items, inIteration, toDelete, order, position := {}, false, {}, [], 0; }

    method AddItem(x: T)
      modifies this`items
      ensures items == old(items) + {x} && Model() == old(Model()).Add(x)
    { items := items + {x}; }

    method RemoveItem(x: T)
      modifies this`items, this`toDelete
      ensures Model() == old(Model()).Remove(x)
    {
      if !inIteration { items := items - {x}; } else { toDelete := toDelete + {x}; }
    }

    /** Some order, the same for the whole pass. */
    method Enumerate() returns (s: seq<T>)
      ensures Distinct(s) && Elements(s) == items
    {
      s := [];
      var rest := items;
      while rest != {}
        invariant rest <= items && Elements(s) == items - rest && Distinct(s)
        decreases rest
      {
        var x :| x in rest;
        assert x !in Elements(s);
        ElementsAdd(s, x);
        s := s + [x];
        rest := rest - {x};
      }
    }

    method GetFirst() returns (x: Option<T>)
      modifies this
      ensures Distinct(order) && Elements(order) == items
      ensures (Model(), x) == old(Model()).First(order)
    {
      order := Enumerate();
      position := 0;
      x := None;
      if position != |order| {
        inIteration := true;
        x := Some(order[position]);
      }
    }

    method GetNext() returns (x: Option<T>)
      requires Model().Valid() && inIteration
      modifies this
      ensures Model().Valid() && (Model(), x) == old(Model()).Next()
    {
      ghost var before := Model();
      position := position + 1;
      while position < |order| && order[position] in toDelete
        invariant position <= |order| && order == before.order
        invariant before.Live(position) == before.Live(before.position + 1)
        invariant Model() == before.(position := position)
        decreases |order| - position
      {
        position := position + 1;
      }
      if position < |order| { return Some(order[position]); }
      inIteration := false;
      DoDeletions();
      x := None;
    }

    method DoDeletions()
      requires !inIteration
      modifies this`items, this`toDelete
      ensures items == old(items) - old(toDelete) && toDelete == {}
    {
      var rest := toDelete;
      while rest != {}
        invariant rest <= toDelete && toDelete == old(toDelete)
        invariant items == old(items) - (old(toDelete) - rest)
        decreases rest
      {
        var x :| x in rest;
        items := items - {x};
        rest := rest - {x};
      }
      toDelete := {};
    }
  }
}
