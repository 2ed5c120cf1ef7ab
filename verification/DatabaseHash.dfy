/** The entity/component database: heap objects, some handed out before the store knows their key. */
module DatabaseHash {
  import opened Options
  import opened OrderedKeys
  import opened Events
  import opened ComponentTables

  /** A value holder shared by everybody who ever asked for the component. */
  class StorageComponent {
    var value: Value

    constructor (v: Value)
      ensures value == v
    { value := v; }

    /** `changed` tells whether, besides sigValueSet, sigValueChange is emitted. */
    method SetValue(v: Value) returns (changed: bool)
      modifies this
      ensures value == v && changed == (old(value) != v)
    {
      changed := v != value;
      if changed { value := v; }
    }
  }

  ghost function Objects(table: Table<StorageComponent>): set<StorageComponent> {
    set e, c | e in table && c in table[e] :: table[e][c]
  }

  /** What a table says, objects replaced by the values they hold. */
  ghost function Values(table: Table<StorageComponent>): Table<Value>
    reads Objects(table)
  {
    map e | e in table :: map c | c in table[e] :: table[e][c].value
  }

  lemma ValuesFind(table: Table<StorageComponent>, e: EntityId, c: string)
    ensures e in Values(table) <==> e in table
    ensures Find(Values(table), e, c) == (match Find(table, e, c) case Some(x) => Some(x.value) case None => None)
  {
  }

  /** Objects nobody wrote to hold what they held. */
  twostate lemma ValuesKept(table: Table<StorageComponent>)
    requires forall o | o in Objects(table) :: old(allocated(o)) && old(o.value) == o.value
    ensures Values(table) == old(Values(table))
  {
    var now, before := Values(table), old(Values(table));
    forall e | e in table ensures now[e] == before[e] {
      forall c | c in table[e] ensures now[e][c] == before[e][c] { assert table[e][c] in Objects(table); }
    }
  }

  lemma ValuesWithEntity(table: Table<StorageComponent>, e: EntityId)
    ensures Values(table[e := map[]]) == Values(table)[e := map[]]
    ensures Values(table - {e}) == Values(table) - {e}
  {
  }

  lemma ValuesErase(table: Table<StorageComponent>, e: EntityId, c: string)
    ensures Values(Erase(table, e, c)) == Erase(Values(table), e, c)
  {
    if e in table {
      var r := table[e := table[e] - {c}];
      assert Values(r)[e] == Values(table)[e] - {c};
      assert Values(r) == Values(table)[e := Values(table)[e] - {c}];
    }
  }

  lemma ValuesPut(table: Table<StorageComponent>, e: EntityId, c: string, x: StorageComponent)
    ensures Values(Put(table, e, c, x)) == Put(Values(table), e, c, x.value)
  {
    var r := Put(table, e, c, x);
    var inner := if e in table then Values(table)[e] else map[];
    assert Values(r)[e] == inner[c := x.value];
    assert Values(r) == Values(table)[e := inner[c := x.value]];
  }

  lemma ValuesTake(t: Tables<StorageComponent>, e: EntityId, c: string)
    ensures Values(t.TakeFuture(e, c).futures) == Tables(map[], Values(t.futures)).TakeFuture(e, c).futures
  {
    ValuesErase(t.futures, e, c);
    var rest := Erase(t.futures, e, c);
    if e in rest {
      assert rest[e].Keys == Values(rest)[e].Keys;
      assert rest[e] == map[] <==> Values(rest)[e] == map[];
      ValuesWithEntity(rest, e);
    }
  }

  lemma InsertedObjects(t: Tables<StorageComponent>, e: EntityId, c: string, h: StorageComponent)
    requires t.WellFormed()
    ensures var r := t.Insert(e, c, h);
      Objects(r.stored) + Objects(r.futures) <= Objects(t.stored) + Objects(t.futures) + {h}
  {
    var r := t.Insert(e, c, h);
    TakenFuture(t, e, c);
    forall e', c' | e' in r.stored && c' in r.stored[e']
      ensures r.stored[e'][c'] == h || r.stored[e'][c'] in Objects(t.stored)
    {
      assert Find(r.stored, e', c') == Some(r.stored[e'][c']);
    }
    forall e', c' | e' in r.futures && c' in r.futures[e'] ensures r.futures[e'][c'] in Objects(t.futures) {
      assert Find(r.futures, e', c') == Some(r.futures[e'][c']) == Find(t.futures, e', c');
    }
  }

  lemma TakenObjects(t: Tables<StorageComponent>, e: EntityId, c: string)
    requires t.WellFormed()
    ensures Find(t.futures, e, c).ToSet() <= Objects(t.futures)
    ensures Objects(t.TakeFuture(e, c).futures) <= Objects(t.futures)
  {
    TakenFuture(t, e, c);
    var rest := t.TakeFuture(e, c).futures;
    forall e', c' | e' in rest && c' in rest[e'] ensures rest[e'][c'] in Objects(t.futures) {
      assert Find(rest, e', c') == Some(rest[e'][c']) == Find(t.futures, e', c');
    }
  }

  /** An unshared object is reachable under its own key only. */
  lemma OwnKeyOnly(t: Tables<StorageComponent>, e: EntityId, c: string, h: StorageComponent)
    requires t.WellFormed() && t.NoSharing() && Find(t.stored, e, c) == Some(h)
    ensures h !in Objects(Erase(t.stored, e, c)) && h !in Objects(t.futures)
    ensures t.stored == Put(Erase(t.stored, e, c), e, c, h)
  {
    var rest := Erase(t.stored, e, c);
    assert t.Lookup(e, c) == Some(h);
    forall e', c' | e' in t.futures && c' in t.futures[e'] ensures t.futures[e'][c'] != h {
      assert t.Lookup(e', c') == Some(t.futures[e'][c']);
    }
    forall e', c' | e' in rest && c' in rest[e'] ensures rest[e'][c'] != h {
      assert Find(rest, e', c') == Some(rest[e'][c']) == t.Lookup(e', c');
    }
    PutErased(t.stored, e, c, h);
    assert t.stored[e] == t.stored[e][c := h];
  }

  /** The object adopted for (e, c), or a new one, is the entry of no other key. */
  lemma AdoptedIsApart(t: Tables<StorageComponent>, e: EntityId, c: string, h: StorageComponent)
    requires t.WellFormed() && t.NoSharing()
    requires match Find(t.futures, e, c) case Some(x) => h == x case None => !t.Holds(h)
    ensures h !in Objects(t.stored) && h !in Objects(t.TakeFuture(e, c).futures)
  {
    TakenFuture(t, e, c);
    var rest := t.TakeFuture(e, c).futures;
    assert Find(t.futures, e, c).Some? ==> t.Lookup(e, c) == Some(h);
    assert forall e', c' | t.Lookup(e', c') == Some(h) :: e' == e && c' == c && Find(t.stored, e, c).None?;
    forall e', c' | e' in t.stored && c' in t.stored[e'] ensures t.stored[e'][c'] != h {
      assert t.Lookup(e', c') == Some(t.stored[e'][c']);
    }
    forall e', c' | e' in rest && c' in rest[e'] ensures rest[e'][c'] != h {
      assert Find(rest, e', c') == Some(rest[e'][c']) == t.Lookup(e', c');
    }
  }

  class Database {
    var tables: Tables<StorageComponent>

    ghost predicate Valid()
      reads this
    { tables.WellFormed() && tables.NoSharing() }

    ghost function Repr(): set<StorageComponent>
      reads this
    { Objects(tables.stored) + Objects(tables.futures) }

    ghost function Model(): Tables<Value>
      reads this, Repr()
    { Tables(Values(tables.stored), Values(tables.futures)) }

    constructor ()
      ensures Valid() && Model() == Tables(map[], map[])
    { tables := Tables(map[], map[]); }

    predicate HasEntity(e: EntityId)
      reads this
    { e in tables.stored }

    /** Component names of a known entity, no names for an unknown one. */
    function ComponentList(e: EntityId): (names: seq<string>)
      reads this
      ensures forall c :: c in names <==> Find(tables.stored, e, c).Some?
      ensures forall i, j | 0 <= i < j < |names| :: names[i] != names[j]
    { if e in tables.stored then Keys(tables.stored[e].Keys) else [] }

    /** Future names of an entity. */
    function FutureList(e: EntityId): (names: seq<string>)
      reads this
      ensures forall c :: c in names <==> Find(tables.futures, e, c).Some?
      ensures forall i, j | 0 <= i < j < |names| :: names[i] != names[j]
    { if e in tables.futures then Keys(tables.futures[e].Keys) else [] }

    /** Stored names first, futures after them. */
    function ComponentListWithFutures(e: EntityId): seq<string>
      reads this
    { ComponentList(e) + FutureList(e) }

    lemma ListWithFuturesIsExact(e: EntityId)
      requires tables.WellFormed()
      ensures var names := ComponentListWithFutures(e);
        && (forall c :: c in names <==> tables.Lookup(e, c).Some?)
        && (forall i, j | 0 <= i < j < |names| :: names[i] != names[j])
    {
      var stored, futures := ComponentList(e), FutureList(e);
      forall i, j | 0 <= i < |stored| && 0 <= j < |futures| ensures stored[i] != futures[j] {
        assert stored[i] in stored && futures[j] in futures;
      }
    }

    method InsertEntity(e: EntityId)
      requires Valid()
      modifies this
      ensures Valid() && tables == Apply(old(tables), Operation.InsertEntity(e))
      ensures Model() == old(Model()).InsertEntity(e)
    {
      ApplyKeepsShape(tables, Operation.InsertEntity(e));
      tables := tables.(stored := tables.stored[e := map[]]);
      ValuesWithEntity(old(tables.stored), e);
      ValuesKept(old(tables.stored));
      ValuesKept(tables.futures);
    }

    method RemoveEntity(e: EntityId)
      requires Valid()
      modifies this
      ensures Valid() && tables == Apply(old(tables), Operation.RemoveEntity(e))
      ensures Model() == old(Model()).RemoveEntity(e)
    {
      ApplyKeepsShape(tables, Operation.RemoveEntity(e));
      tables := tables.(stored := tables.stored - {e});
      ValuesWithEntity(old(tables.stored), e);
      ValuesKept(old(tables.stored));
      ValuesKept(tables.futures);
    }

    method RemoveComponentValue(e: EntityId, c: string)
      requires Valid() && HasEntity(e)
      modifies this
      ensures Valid() && tables == Apply(old(tables), Operation.RemoveComponent(e, c))
      ensures Model() == old(Model()).RemoveComponent(e, c)
    {
      ApplyKeepsShape(tables, Operation.RemoveComponent(e, c));
      tables := tables.(stored := tables.stored[e := tables.stored[e] - {c}]);
      ValuesErase(old(tables.stored), e, c);
      ValuesKept(old(tables.stored));
      ValuesKept(tables.futures);
    }

    /** The object of a key; for an unknown key a new future holding the invalid value. */
    method GetFutureComponent(e: EntityId, c: string) returns (h: StorageComponent)
      requires Valid()
      modifies this
      ensures Valid() && tables.Lookup(e, c) == Some(h)
      ensures tables == Apply(old(tables), GetFuture(e, c, h))
      ensures old(tables).Lookup(e, c).None? ==>
        fresh(h) && h.value == Invalid && Model() == old(Model()).AddFuture(e, c, Invalid)
    {
      if e in tables.stored && c in tables.stored[e] { return tables.stored[e][c]; }
      if e in tables.futures && c in tables.futures[e] { return tables.futures[e][c]; }
      h := CreateFuture(e, c);
    }

    method CreateFuture(e: EntityId, c: string) returns (h: StorageComponent)
      requires Valid() && tables.Lookup(e, c).None?
      modifies this
      ensures Valid() && tables == old(tables).AddFuture(e, c, h)
      ensures fresh(h) && h.value == Invalid
      ensures Model() == old(Model()).AddFuture(e, c, Invalid)
    {
      h := new StorageComponent(Invalid);
      ApplyKeepsShape(tables, GetFuture(e, c, h));
      tables := tables.AddFuture(e, c, h);
      ValuesPut(old(tables.futures), e, c, h);
      ValuesKept(tables.stored);
      ValuesKept(old(tables.futures));
    }

    /** takeFutureComponent: the announced object, which leaves the future table. */
    method TakeFutureComponent(e: EntityId, c: string) returns (h: StorageComponent?)
      requires Valid()
      modifies this
      ensures tables == old(tables).TakeFuture(e, c)
      ensures h == match Find(old(tables).futures, e, c) case Some(x) => x case None => null
    {
      if e !in tables.futures { return null; }
      if c !in tables.futures[e] {
        assert tables.futures[e] - {c} == tables.futures[e];
        return null;
      }
      h := tables.futures[e][c];
      var rest := tables.futures[e] - {c};
      var futures := tables.futures[e := rest];
      if rest == map[] { futures := futures - {e}; }
      tables := tables.(futures := futures);
    }

    method NewComponent(v: Value, ghost t: Tables<StorageComponent>) returns (h: StorageComponent)
      ensures fresh(h) && h.value == v && !t.Holds(h)
    {
      h := new StorageComponent(v);
    }

    /** The object that is going to be stored for (e, c): the announced one or a new one. */
    method AdoptOrCreate(e: EntityId, c: string, v: Value) returns (h: StorageComponent)
      requires Valid()
      modifies this, Find(tables.futures, e, c).ToSet()
      ensures tables == old(tables).TakeFuture(e, c) && h.value == v
      ensures match Find(old(tables).futures, e, c) case Some(x) => h == x case None => fresh(h) && !old(tables).Holds(h)
      ensures Values(tables.stored) == old(Values(tables.stored))
      ensures Values(tables.futures) == old(Model()).TakeFuture(e, c).futures
    {
      ghost var t, taken := tables, tables.TakeFuture(e, c);
      ValuesTake(t, e, c);
      var future := TakeFutureComponent(e, c);
      if future != null {
        var _ := future.SetValue(v);
        h := future;
      } else {
        h := NewComponent(v, t);
      }
      AdoptedIsApart(t, e, c, h);
      ValuesKept(t.stored);
      ValuesKept(taken.futures);
    }

    /** ADD: the announced object is adopted with the added value, otherwise a new object is stored. */
    method InsertComponentValue(e: EntityId, c: string, v: Value) returns (h: StorageComponent)
      requires Valid()
      modifies this, Find(tables.futures, e, c).ToSet()
      ensures Valid() && tables == Apply(old(tables), InsertComponent(e, c, h)) && Creates(old(tables), InsertComponent(e, c, h))
      ensures Find(tables.stored, e, c) == Some(h) && h.value == v
      ensures match Find(old(tables).futures, e, c) case Some(x) => h == x case None => fresh(h)
      ensures Repr() <= old(Repr()) + {h}
      ensures Model() == old(Model()).Insert(e, c, v)
    {
      ghost var t := tables;
      h := AdoptOrCreate(e, c, v);
      label adopted:
      tables := tables.(stored := Put(tables.stored, e, c, h));
      assert tables == Apply(t, InsertComponent(e, c, h));
      assert Valid() by { ApplyKeepsShape(t, InsertComponent(e, c, h)); }
      InsertedObjects(t, e, c, h);
      ValuesPut(t.stored, e, c, h);
      ValuesKept@adopted(t.stored);
      ValuesKept@adopted(tables.futures);
    }

    /** findComponent(e, c)->setValue(v): every holder of the object sees the value, no other key changes. */
    method SetComponentValue(e: EntityId, c: string, v: Value) returns (changed: bool)
      requires Valid() && Find(tables.stored, e, c).Some?
      modifies Find(tables.stored, e, c).ToSet()
      ensures tables == old(tables) && changed == (old(tables.stored[e][c].value) != v)
      ensures Model() == old(Model()).(stored := Put(old(Model()).stored, e, c, v))
    {
      var component := tables.stored[e][c];
      ghost var rest := Erase(tables.stored, e, c);
      ghost var before := Values(tables.stored);
      OwnKeyOnly(tables, e, c, component);
      ValuesErase(tables.stored, e, c);
      changed := component.SetValue(v);
      ValuesKept(rest);
      ValuesKept(tables.futures);
      ValuesPut(rest, e, c, component);
      PutErased(before, e, c, v);
    }
  }
}
