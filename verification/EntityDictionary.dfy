/** The entities a QML client knows, by id and by name. */
module EntityDictionary {
  import opened Options
  import opened Events

  /** An EntityComponentMap object, reduced to its identity. */
  type Handle = nat

  datatype Entry = Entry(name: string, entity: Handle)

  datatype Dictionary = Dictionary(byId: map<EntityId, Entry>, byName: map<string, Handle>) {
    /** The name index holds exactly the named entries, each name once. */
    ghost predicate Valid() {
      && "" !in byName
      && (forall id | id in byId && byId[id].name != "" ::
            byId[id].name in byName && byName[byId[id].name] == byId[id].entity)
      && (forall name | name in byName :: exists id :: id in byId && byId[id].name == name)
      && (forall a, b | a in byId && b in byId && byId[a].name == byId[b].name != "" :: a == b)
    }

    function Insert(id: EntityId, h: Handle): Dictionary {
      if id in byId then this else this.(byId := byId[id := Entry("", h)])
    }

    /** A name can be given once and to one entity only. */
    predicate Nameable(id: EntityId, name: string) {
      name != "" && id in byId && (byId[id].name == name || (name !in byName && byId[id].name == ""))
    }

    function SetName(id: EntityId, name: string): Dictionary {
      if Nameable(id, name) && byId[id].name != name
      then Dictionary(byId[id := byId[id].(name := name)], byName[name := byId[id].entity])
      else this
    }

    function Remove(id: EntityId): Dictionary {
      if id in byId then Dictionary(byId - {id}, byName - {byId[id].name}) else this
    }

    function FindById(id: EntityId): Option<Handle> { if id in byId then Some(byId[id].entity) else None }

    function FindByName(name: string): Option<Handle> { if name in byName then Some(byName[name]) else None }
  }

  lemma InsertKeepsValid(d: Dictionary, id: EntityId, h: Handle)
    requires d.Valid()
    ensures d.Insert(id, h).Valid()
  {
    var r := d.Insert(id, h);
    forall n | n in r.byName ensures exists i :: i in r.byId && r.byId[i].name == n {
      var i :| i in d.byId && d.byId[i].name == n;
      assert i in r.byId && r.byId[i].name == n;
    }
  }

  lemma SetNameKeepsValid(d: Dictionary, id: EntityId, name: string)
    requires d.Valid()
    ensures d.SetName(id, name).Valid()
  {
    var r := d.SetName(id, name);
    forall n | n in r.byName ensures exists i :: i in r.byId && r.byId[i].name == n {
      if n in d.byName {
        var i :| i in d.byId && d.byId[i].name == n;
        assert i in r.byId && r.byId[i].name == n;
      } else {
        assert r.byId[id].name == n;
      }
    }
  }

  lemma RemoveKeepsValid(d: Dictionary, id: EntityId)
    requires d.Valid()
    ensures d.Remove(id).Valid()
  {
    var r := d.Remove(id);
    forall n | n in r.byName ensures exists i :: i in r.byId && r.byId[i].name == n {
      var i :| i in d.byId && d.byId[i].name == n;
      assert i in r.byId && r.byId[i].name == n;
    }
  }

  /**
   An entity takes a name if and only if the name is not empty, the entity is known, and either has that name or
   neither it has a name nor any entity has this one. Then it is found under it; everything else is found as before.
   */
  lemma NamedIffFree(d: Dictionary, id: EntityId, name: string)
    requires d.Valid()
    ensures var r := d.SetName(id, name);
      var free := name != "" && id in d.byId
        && (d.byId[id].name == name || (d.byId[id].name == "" && forall x | x in d.byId :: d.byId[x].name != name));
      && d.Nameable(id, name) == free
      && (free ==> r.byId == d.byId[id := Entry(name, d.byId[id].entity)] && r.FindByName(name) == Some(d.byId[id].entity))
      && (!free ==> r == d)
      && (forall n | n != name :: r.FindByName(n) == d.FindByName(n))
  {
    if name in d.byName {
      var x :| x in d.byId && d.byId[x].name == name;
    }
  }

  /** An inserted entity is found by its id and has no name; removing it takes it out of both indexes, nothing else. */
  lemma FoundUntilRemoved(d: Dictionary, id: EntityId, h: Handle, x: EntityId, n: string)
    requires d.Valid() && n != ""
    ensures d.Insert(id, h).FindById(x) == (if x == id && id !in d.byId then Some(h) else d.FindById(x))
    ensures id !in d.byId ==> d.Insert(id, h).byId[id].name == ""
    ensures d.Insert(id, h).FindByName(n) == d.FindByName(n)
    ensures d.Remove(id).FindById(x) == (if x == id then None else d.FindById(x))
    ensures d.Remove(id).FindByName(n) == (if id in d.byId && d.byId[id].name == n then None else d.FindByName(n))
  {
  }

  /** Both indexes agree: what is found by name is the entity some id has under that name, and the other way round. */
  lemma IndexesAgree(d: Dictionary, name: string, h: Handle)
    requires d.Valid() && name != ""
    ensures d.FindByName(name) == Some(h) <==> exists id :: id in d.byId && d.byId[id] == Entry(name, h)
  {
    if d.FindByName(name) == Some(h) {
      var id :| id in d.byId && d.byId[id].name == name;
      assert d.byId[id] == Entry(name, h);
    }
  }

  class EntityDictionary {
    var entitiesById: map<EntityId, Entry>
    var entitiesByName: map<string, Handle>

    ghost function Model(): Dictionary
      reads this
    { Dictionary(entitiesById, entitiesByName) }

    constructor ()
      ensures Model() == Dictionary(map[], map[]) && Model().Valid()
    { entitiesById, entitiesByName := map[], map[]; }

    method Insert(id: EntityId, h: Handle) returns (done: bool)
      modifies this`entitiesById
      ensures Model() == old(Model()).Insert(id, h) && done == (id !in old(entitiesById))
    {
      done := id !in entitiesById;
      if done { entitiesById := entitiesById[id := Entry("", h)]; }
    }

    method SetEntityName(id: EntityId, name: string) returns (done: bool)
      modifies this
      ensures Model() == old(Model()).SetName(id, name) && done == old(Model()).Nameable(id, name)
    {
      if name == "" { return false; }
      if id in entitiesById {
        var entry := entitiesById[id];
        if entry.name == name { return true; }
        if name in entitiesByName { return false; }
        if entry.name != "" { return false; }
        entitiesById := entitiesById[id := entry.(name := name)];
        entitiesByName := entitiesByName[name := entry.entity];
        return true;
      }
      return false;
    }

    /** An unknown id yields an entry without a name; the name index never holds that. */
    method Remove(id: EntityId) returns (h: Option<Handle>)
      requires Model().Valid()
      modifies this
      ensures Model() == old(Model()).Remove(id) && h == old(Model()).FindById(id)
    {
      var name := "";
      h := None;
      if id in entitiesById {
        name, h := entitiesById[id].name, Some(entitiesById[id].entity);
        entitiesById := entitiesById - {id};
      }
      entitiesByName := entitiesByName - {name};
    }
  }
}
