/** The mirror a client keeps of the entities it subscribed to. */
module ClientStorage {
  import opened Options
  import opened OrderedKeys
  import opened Events
  import opened EventSystems
  import opened ComponentTables
  import DatabaseHash

  /** Inserts the named values one after the other. */
  function InsertAll(t: Tables<Value>, e: EntityId, values: map<string, Value>, names: seq<string>): Tables<Value>
    requires forall c | c in names :: c in values
    decreases |names|
  {
    if names == [] then t else InsertAll(t.Insert(e, names[0], values[names[0]]), e, values, names[1..])
  }

  /** An introspection adds an unknown entity with all its values; a known one is left alone. */
  function ProcessIntrospection(s: Store, ev: CommandEvent): Store
    requires ev.payload.IntrospectionData?
  {
    var e, values := ev.entity, ev.payload.values;
    if e in s.tables.stored then s
    else Store(
      InsertAll(s.tables.InsertEntity(e), e, values, Keys(values.Keys)),
      s.rpcs[e := ev.payload.rpcNames])
  }

  function ProcessComponent(s: Store, ev: CommandEvent): Outcome<Store>
    requires ev.payload.ComponentData?
  {
    var e, c, v := ev.entity, ev.payload.name, ev.payload.newValue;
    var known := e in s.tables.stored;
    var component := Find(s.tables.stored, e, c);
    match ev.payload.componentCommand
    case ComponentFetch =>
      if !known then Reject(s, ev, EntityUnknown)
      else if component.None? then Reject(s, ev, ComponentUnknown)
      else Pass(s.(tables := s.tables.(stored := Put(s.tables.stored, e, c, v))), ev)
    case ComponentRemove =>
      if !known then Reject(s, ev, EntityUnknown)
      else if component.None? then Reject(s, ev, ComponentUnknown)
      else Pass(s.(tables := s.tables.RemoveComponent(e, c)), ev)
    case ComponentSet =>
      if !known then Reject(s, ev, EntityUnknown)
      else if component.None? then Reject(s, ev, ComponentUnknown)
      else Pass(s.(tables := s.tables.(stored := Put(s.tables.stored, e, c, v))), ev)
    case ComponentAdd =>
      if !known then Reject(s, ev, EntityUnknown)
      else if component.Some? then Reject(s, ev, ComponentExists)
      else Pass(s.(tables := s.tables.Insert(e, c, v)), ev)
    case NoComponentCommand => Pass(s, ev)
  }

  function ProcessEntity(s: Store, ev: CommandEvent): Store {
    if ev.IsEntity(Unsubscribe) || ev.IsEntity(EntityRemove)
    then Store(s.tables.RemoveEntity(ev.entity), s.rpcs - {ev.entity})
    else s
  }

  /** A call is checked against the known procedures; an unknown entity yields both errors and an empty entry. */
  function ProcessRpc(s: Store, ev: CommandEvent): Outcome<Store>
    requires ev.payload.RpcData?
  {
    var e := ev.entity;
    if ev.payload.rpcCommand != RpcCall then Pass(s, ev)
    else
      var unknownEntity := if e in s.rpcs then [] else ErrorOut(ev, EntityUnknown);
      var names := if e in s.rpcs then s.rpcs[e] else [];
      var unknownRpc := if ev.payload.procedure in names then [] else ErrorOut(ev, RpcUnknown);
      var posted := unknownEntity + unknownRpc;
      Outcome(s.(rpcs := s.rpcs[e := names]), ev, posted != [], posted)
  }

  function Process(s: Store, ev: CommandEvent): Outcome<Store> {
    if ev.origin == UserOrigin then Pass(s, ev)
    else if ev.subtype == Notification then
      match ev.payload
      case IntrospectionData(_, _) => Pass(ProcessIntrospection(s, ev), ev)
      case ComponentData(_, _, _, _) => ProcessComponent(s, ev)
      case EntityData(_) => Pass(ProcessEntity(s, ev), ev)
      case _ => Pass(s, ev)
    else if ev.payload.RpcData? then ProcessRpc(s, ev)
    else Pass(s, ev)
  }

  /** A client posts two errors at most, with the target of the event they are about, and none about an error. */
  lemma PostsErrors(s: Store, ev: CommandEvent)
    ensures var posted := Process(s, ev).posted;
      && |posted| <= 2 && (ev.payload.ErrorData? ==> posted == [])
      && forall i | 0 <= i < |posted| ::
           && posted[i].Command? && posted[i].event.origin == Local && posted[i].event.payload.ErrorData?
           && posted[i].event.target == ev.target
  {
  }

  /** A client rejects a component notification exactly when it has no such entity or component, or has it already. */
  lemma RejectedIffUnfit(s: Store, ev: CommandEvent)
    requires ev.payload.ComponentData? && ev.payload.componentCommand != NoComponentCommand
    ensures var o, stored := Process(s, ev), Find(s.tables.stored, ev.entity, ev.payload.name);
      var unfit := ev.entity !in s.tables.stored || (if ev.IsComponent(ComponentAdd) then stored.Some? else stored.None?);
      && (o.posted != [] <==> ev.subtype == Notification && ev.origin != UserOrigin && unfit)
      && (o.accepted <==> o.posted != [])
      && (o.posted != [] ==>
            && o.state == s && |o.posted| == 1 && o.posted[0].Command?
            && o.posted[0].event.payload == ErrorData(ev.payload,
                 if ev.entity !in s.tables.stored then EntityUnknown
                 else if ev.IsComponent(ComponentAdd) then ComponentExists else ComponentUnknown))
  {
  }

  /** What the insertion loop builds: the named values on top of what the entity had, nothing else touched. */
  lemma {:induction false} InsertAllStores(t: Tables<Value>, e: EntityId, values: map<string, Value>, names: seq<string>)
    requires e in t.stored && forall c | c in names :: c in values
    ensures var r := InsertAll(t, e, values, names);
      && r.stored.Keys == t.stored.Keys
      && (forall e' | e' in t.stored && e' != e :: r.stored[e'] == t.stored[e'])
      && (forall c :: Find(r.stored, e, c) == if c in names then Some(values[c]) else Find(t.stored, e, c))
    decreases |names|
  {
    if names != [] {
      InsertAllStores(t.Insert(e, names[0], values[names[0]]), e, values, names[1..]);
    }
  }

  lemma FillEntity(t: Tables<Value>, e: EntityId, values: map<string, Value>, names: seq<string>)
    requires e in t.stored && t.stored[e] == map[]
    requires forall c :: c in names <==> c in values
    ensures InsertAll(t, e, values, names).stored == t.stored[e := values]
  {
    InsertAllStores(t, e, values, names);
    var r := InsertAll(t, e, values, names);
    SameInner(r.stored[e], values, r.stored, e);
  }

  /** After its introspection a new entity is mirrored exactly as it was introspected. */
  lemma IntrospectionMirrors(s: Store, ev: CommandEvent)
    requires ev.payload.IntrospectionData? && ev.entity !in s.tables.stored
    ensures ProcessIntrospection(s, ev).tables.stored == s.tables.stored[ev.entity := ev.payload.values]
  {
    var e, values := ev.entity, ev.payload.values;
    FillEntity(s.tables.InsertEntity(e), e, values, Keys(values.Keys));
  }

  /** A call leaves the client unhindered exactly when the procedure is known; an unknown entity costs two errors. */
  lemma CallsAreChecked(s: Store, ev: CommandEvent)
    requires ev.payload.RpcData? && ev.payload.rpcCommand == RpcCall && ev.subtype == Transaction && ev.origin != UserOrigin
    ensures var o := Process(s, ev);
      var known := ev.entity in s.rpcs && ev.payload.procedure in s.rpcs[ev.entity];
      && (o.accepted <==> !known) && o.state.tables == s.tables
      && |o.posted| == (if ev.entity !in s.rpcs then 2 else if known then 0 else 1)
      && (forall k | 0 <= k < |o.posted| ::
            o.posted[k].Command? && o.posted[k].event.payload.ErrorData? && o.posted[k].event.payload.original == ev.payload)
      && (forall e :: (if e in o.state.rpcs then o.state.rpcs[e] else []) == (if e in s.rpcs then s.rpcs[e] else []))
  {
  }

  lemma SameInner(a: map<string, Value>, b: map<string, Value>, table: Table<Value>, e: EntityId)
    requires e in table && table[e] == a
    requires forall c :: Find(table, e, c) == if c in b then Some(b[c]) else None
    ensures a == b
  {
    assert forall c :: c in a <==> Find(table, e, c).Some?;
    assert forall c | c in b :: Find(table, e, c) == Some(a[c]);
  }

  lemma InsertAllHead(t: Tables<Value>, e: EntityId, values: map<string, Value>, names: seq<string>, i: nat)
    requires i < |names| && forall c | c in names :: c in values
    ensures names[i] in values
    ensures InsertAll(t, e, values, names[i..]) == InsertAll(t.Insert(e, names[i], values[names[i]]), e, values, names[i + 1..])
  {
    assert names[i..][1..] == names[i + 1..] && names[i..][0] == names[i];
  }

  class ClientStorageEventSystem {
    const database: DatabaseHash.Database
    var rpcs: map<EntityId, seq<string>>

    ghost predicate Valid()
      reads this, database
    { database.Valid() }

    ghost function Model(): Store
      reads this, database, database.Repr()
    { Store(database.Model(), rpcs) }

    ghost function Frame(): set<object>
      reads this, database
    { {this, database} + database.Repr() }

    constructor ()
      ensures Valid() && fresh(database) && Model() == Store(Tables(map[], map[]), map[])
    {
      database := new DatabaseHash.Database();
      rpcs := map[];
    }

    /** Besides the database itself only announced components change, and there are fewer of them afterwards. */
    method InsertValue(e: EntityId, c: string, v: Value)
      requires Valid()
      modifies database, DatabaseHash.Objects(database.tables.futures)
      ensures Valid()
      ensures DatabaseHash.Objects(database.tables.futures) <= old(DatabaseHash.Objects(database.tables.futures))
      ensures database.Model() == old(database.Model()).Insert(e, c, v)
    {
      DatabaseHash.TakenObjects(database.tables, e, c);
      var _ := database.InsertComponentValue(e, c, v);
    }

    method InsertValues(e: EntityId, values: map<string, Value>)
      requires Valid()
      modifies database, DatabaseHash.Objects(database.tables.futures)
      ensures Valid()
      ensures database.Model() == InsertAll(old(database.Model()), e, values, Keys(values.Keys))
    {
      var names := Keys(values.Keys);
      ghost var t := database.Model();
      ghost var all := InsertAll(t, e, values, names);
      assert names[0..] == names;
      var i := 0;
      while i < |names|
        invariant 0 <= i <= |names|
        invariant Valid() && DatabaseHash.Objects(database.tables.futures) <= old(DatabaseHash.Objects(database.tables.futures))
        invariant database.Model() == t && InsertAll(t, e, values, names[i..]) == all
      {
        InsertAllHead(t, e, values, names, i);
        InsertValue(e, names[i], values[names[i]]);
        t := t.Insert(e, names[i], values[names[i]]);
        i := i + 1;
      }
    }

    method ProcessIntrospectionData(ev: CommandEvent)
      requires Valid() && ev.payload.IntrospectionData?
      modifies Frame()
      ensures Valid()
      ensures Model() == ProcessIntrospection(old(Model()), ev)
    {
      var e, values := ev.entity, ev.payload.values;
      DatabaseHash.ValuesFind(database.tables.stored, e, "");
      if !database.HasEntity(e) {
        rpcs := rpcs[e := ev.payload.rpcNames];
        DatabaseHash.ValuesKept(database.tables.stored);
        DatabaseHash.ValuesKept(database.tables.futures);
        database.InsertEntity(e);
        InsertValues(e, values);
      }
    }

    /** FETCH answers and SETs are written the same way. */
    method WriteComponent(ev: CommandEvent) returns (accepted: bool, posted: seq<QueueItem>)
      requires Valid() && (ev.IsComponent(ComponentSet) || ev.IsComponent(ComponentFetch))
      modifies Frame()
      ensures Valid()
      ensures Outcome(Model(), ev, accepted, posted) == ProcessComponent(old(Model()), ev)
    {
      var e, c := ev.entity, ev.payload.name;
      DatabaseHash.ValuesFind(database.tables.stored, e, c);
      accepted, posted := false, [];
      if !database.HasEntity(e) {
        accepted, posted := true, ErrorOut(ev, EntityUnknown);
      } else if Find(database.tables.stored, e, c).None? {
        accepted, posted := true, ErrorOut(ev, ComponentUnknown);
      } else {
        var _ := database.SetComponentValue(e, c, ev.payload.newValue);
      }
    }

    method RemoveComponent(ev: CommandEvent) returns (accepted: bool, posted: seq<QueueItem>)
      requires Valid() && ev.IsComponent(ComponentRemove)
      modifies Frame()
      ensures Valid()
      ensures Outcome(Model(), ev, accepted, posted) == ProcessComponent(old(Model()), ev)
    {
      var e, c := ev.entity, ev.payload.name;
      DatabaseHash.ValuesFind(database.tables.stored, e, c);
      accepted, posted := false, [];
      if !database.HasEntity(e) {
        accepted, posted := true, ErrorOut(ev, EntityUnknown);
      } else if Find(database.tables.stored, e, c).None? {
        accepted, posted := true, ErrorOut(ev, ComponentUnknown);
      } else {
        database.RemoveComponentValue(e, c);
      }
    }

    method AddComponent(ev: CommandEvent) returns (accepted: bool, posted: seq<QueueItem>)
      requires Valid() && ev.IsComponent(ComponentAdd)
      modifies Frame()
      ensures Valid()
      ensures Outcome(Model(), ev, accepted, posted) == ProcessComponent(old(Model()), ev)
    {
      var e, c := ev.entity, ev.payload.name;
      DatabaseHash.ValuesFind(database.tables.stored, e, c);
      accepted, posted := false, [];
      if !database.HasEntity(e) {
        accepted, posted := true, ErrorOut(ev, EntityUnknown);
      } else if Find(database.tables.stored, e, c).Some? {
        accepted, posted := true, ErrorOut(ev, ComponentExists);
      } else {
        var _ := database.InsertComponentValue(e, c, ev.payload.newValue);
      }
    }

    method ProcessComponentData(ev: CommandEvent) returns (accepted: bool, posted: seq<QueueItem>)
      requires Valid() && ev.payload.ComponentData?
      modifies Frame()
      ensures Valid()
      ensures Outcome(Model(), ev, accepted, posted) == ProcessComponent(old(Model()), ev)
    {
      accepted, posted := false, [];
      match ev.payload.componentCommand {
        case ComponentFetch => accepted, posted := WriteComponent(ev);
        case ComponentRemove => accepted, posted := RemoveComponent(ev);
        case ComponentSet => accepted, posted := WriteComponent(ev);
        case ComponentAdd => accepted, posted := AddComponent(ev);
        case NoComponentCommand =>
      }
    }

    method ProcessEntityData(ev: CommandEvent)
      requires Valid()
      modifies Frame()
      ensures Valid()
      ensures Model() == ProcessEntity(old(Model()), ev)
    {
      if ev.IsEntity(Unsubscribe) || ev.IsEntity(EntityRemove) {
        database.RemoveEntity(ev.entity);
        label removed:
        rpcs := rpcs - {ev.entity};
        DatabaseHash.ValuesKept@removed(database.tables.stored);
        DatabaseHash.ValuesKept@removed(database.tables.futures);
      }
    }

    method ProcessRpcData(ev: CommandEvent) returns (accepted: bool, posted: seq<QueueItem>)
      requires Valid() && ev.payload.RpcData?
      modifies this
      ensures Valid()
      ensures Outcome(Model(), ev, accepted, posted) == ProcessRpc(old(Model()), ev)
    {
      accepted, posted := false, [];
      if ev.payload.rpcCommand == RpcCall {
        var e := ev.entity;
        if e !in rpcs {
          accepted, posted := true, ErrorOut(ev, EntityUnknown);
        }
        var names := if e in rpcs then rpcs[e] else [];
        rpcs := rpcs[e := names];
        if ev.payload.procedure !in names {
          accepted, posted := true, posted + ErrorOut(ev, RpcUnknown);
        }
        DatabaseHash.ValuesKept(database.tables.stored);
        DatabaseHash.ValuesKept(database.tables.futures);
      }
    }

    method ProcessEvent(ev: CommandEvent) returns (accepted: bool, posted: seq<QueueItem>)
      requires Valid()
      modifies Frame()
      ensures Valid()
      ensures Outcome(Model(), ev, accepted, posted) == Process(old(Model()), ev)
    {
      accepted, posted := false, [];
      if ev.origin in {Local, Foreign} {
        if ev.subtype == Notification {
          match ev.payload {
            case IntrospectionData(_, _) => ProcessIntrospectionData(ev);
            case ComponentData(_, _, _, _) => accepted, posted := ProcessComponentData(ev);
            case EntityData(_) => ProcessEntityData(ev);
            case _ =>
          }
        } else if ev.payload.RpcData? {
          accepted, posted := ProcessRpcData(ev);
        }
      }
    }
  }
}
