/** The authoritative store of the server. */
module StorageSystem {
  import opened Options
  import opened Events
  import opened EventSystems
  import opened ComponentTables
  import DatabaseHash

  /** FETCH is answered by rewriting the event; an invalid value is not written into it. */
  function Answer(ev: CommandEvent, v: Value): CommandEvent
    requires ev.payload.ComponentData?
  {
    ev.(payload := if v == Invalid then ev.payload else ev.payload.(newValue := v), origin := Local, target := All)
  }

  function ProcessComponent(s: Store, ev: CommandEvent): Outcome<Store>
    requires ev.payload.ComponentData?
  {
    var e, c, v := ev.entity, ev.payload.name, ev.payload.newValue;
    var known := e in s.tables.stored;
    var component := Find(s.tables.stored, e, c);
    match ev.payload.componentCommand
    case ComponentAdd =>
      if !known then Reject(s, ev, EntityUnknown)
      else if component.Some? then Reject(s, ev, ComponentExists)
      else Pass(s.(tables := s.tables.Insert(e, c, v)), ev)
    case ComponentRemove =>
      if !known then Reject(s, ev, EntityUnknown)
      else if component.None? then Reject(s, ev, ComponentUnknown)
      else Pass(s.(tables := s.tables.RemoveComponent(e, c)), ev)
    case ComponentSet =>
      if !known then Reject(s, ev, EntityUnknown)
      else if component.None? then Reject(s, ev, ComponentUnknown)
      else Pass(s.(tables := s.tables.(stored := Put(s.tables.stored, e, c, v))), ev)
    case ComponentFetch =>
      if !known then Reject(s, ev, EntityUnknown)
      else if component.Some? then Pass(s, Answer(ev, component.value))
      else
        (match Find(s.tables.futures, e, c)
         case Some(future) => Pass(s, Answer(ev, future))
         case None => Reject(s, ev, ComponentUnknown))
    case NoComponentCommand => Pass(s, ev)
  }

  function ProcessEntity(s: Store, ev: CommandEvent): Outcome<Store>
    requires ev.payload.EntityData?
  {
    var e := ev.entity;
    var forgotten := if ev.origin == Local then s.(rpcs := s.rpcs - {e}) else s;
    match ev.payload.entityCommand
    case EntityAdd =>
      if e in s.tables.stored then Reject(forgotten, ev, EntityExists)
      else Pass(forgotten.(tables := s.tables.InsertEntity(e)), ev)
    case EntityRemove =>
      if e !in s.tables.stored then Reject(forgotten, ev, EntityUnknown)
      else Pass(forgotten.(tables := s.tables.RemoveEntity(e)), ev)
    case _ => Pass(s, ev)
  }

  function ProcessRpc(s: Store, ev: CommandEvent): Outcome<Store>
    requires ev.payload.RpcData?
  {
    var e, name := ev.entity, ev.payload.procedure;
    var names := if e in s.rpcs then s.rpcs[e] else [];
    if ev.payload.rpcCommand != RpcRegister then Pass(s, ev)
    else if name in names then Reject(s, ev, RpcExists)
    else Pass(s.(rpcs := s.rpcs[e := names + [name]]), ev)
  }

  /** A SET without a valid value is accepted and forgotten. */
  predicate IsEmptySet(ev: CommandEvent) {
    ev.IsComponent(ComponentSet) && ev.payload.newValue == Invalid
  }

  function Process(s: Store, ev: CommandEvent): Outcome<Store> {
    match ev.payload
    case ComponentData(_, _, _, _) =>
      if ev.subtype != Notification || ev.origin == UserOrigin then Pass(s, ev)
      else if IsEmptySet(ev) then Outcome(s, ev, true, [])
      else ProcessComponent(s, ev)
    case EntityData(_) =>
      if ev.subtype != Notification || ev.origin == UserOrigin then Pass(s, ev) else ProcessEntity(s, ev)
    case RpcData(_, _, _) => if ev.origin == Local then ProcessRpc(s, ev) else Pass(s, ev)
    case _ => Pass(s, ev)
  }

  /** The event asks for the removal of what (e, c) stands for. */
  predicate Removes(ev: CommandEvent, e: EntityId, c: string) {
    ev.entity == e && (ev.IsEntity(EntityRemove) || (ev.IsComponent(ComponentRemove) && ev.payload.name == c))
  }

  /** Notifications storage looks at. */
  predicate Considered(ev: CommandEvent) { ev.subtype == Notification && ev.origin != UserOrigin }

  /** What is missing or in the way when a command cannot be carried out. */
  predicate Unfit(t: Tables<Value>, ev: CommandEvent) {
    var e := ev.entity;
    match ev.payload
    case ComponentData(command, c, _, _) =>
      (match command
       case ComponentAdd => e !in t.stored || Find(t.stored, e, c).Some?
       case ComponentFetch => e !in t.stored || t.Lookup(e, c).None?
       case NoComponentCommand => false
       case _ => Find(t.stored, e, c).None?)
    case EntityData(command) =>
      (match command
       case EntityAdd => e in t.stored
       case EntityRemove => e !in t.stored
       case _ => false)
    case _ => false
  }

  /** An event about entities or components is rejected exactly when it is considered and cannot be carried out. */
  lemma RejectedIffUnfit(s: Store, ev: CommandEvent)
    requires ev.payload.ComponentData? || ev.payload.EntityData?
    ensures Process(s, ev).posted != [] <==> Considered(ev) && !IsEmptySet(ev) && Unfit(s.tables, ev)
    ensures Process(s, ev).accepted <==> Process(s, ev).posted != [] || (Considered(ev) && IsEmptySet(ev))
  {
  }

  /** Why an unfit event is rejected: the entity comes first, then the component. */
  lemma RejectionReason(s: Store, ev: CommandEvent)
    requires ev.payload.ComponentData? || ev.payload.EntityData?
    requires Process(s, ev).posted != []
    ensures var posted := Process(s, ev).posted;
      && |posted| == 1 && posted[0].Command? && posted[0].event.payload.ErrorData?
      && posted[0].event.payload.original == ev.payload && posted[0].event.entity == ev.entity && posted[0].event.peer == ev.peer
      && posted[0].event.payload.reason ==
           if ev.IsEntity(EntityAdd) then EntityExists
           else if ev.entity !in s.tables.stored then EntityUnknown
           else if ev.IsComponent(ComponentAdd) then ComponentExists
           else ComponentUnknown
  {
  }

  lemma ComponentEventChanges(s: Store, ev: CommandEvent, e: EntityId, c: string)
    requires s.tables.WellFormed() && ev.payload.ComponentData? && (e != ev.entity || c != ev.payload.name)
    ensures var after := ProcessComponent(s, ev).state.tables;
      && Find(after.stored, e, c) == Find(s.tables.stored, e, c)
      && Find(after.futures, e, c) == Find(s.tables.futures, e, c)
      && (e in after.stored <==> e in s.tables.stored)
  {
    if ev.IsComponent(ComponentAdd) { TakenFuture(s.tables, ev.entity, ev.payload.name); }
  }

  lemma EntityEventChanges(s: Store, ev: CommandEvent, e: EntityId, c: string)
    requires ev.payload.EntityData? && (e != ev.entity || ev.IsEntity(Subscribe) || ev.IsEntity(Unsubscribe))
    ensures var after := ProcessEntity(s, ev).state.tables;
      && Find(after.stored, e, c) == Find(s.tables.stored, e, c) && after.futures == s.tables.futures
      && (e in after.stored <==> e in s.tables.stored)
  {
  }

  /** No event changes what it does not name: neither stored values nor futures of any other key. */
  lemma OnlyTheNamedChanges(s: Store, ev: CommandEvent, e: EntityId, c: string)
    requires s.tables.WellFormed()
    requires e != ev.entity || (ev.payload.ComponentData? && c != ev.payload.name)
      || ev.IsEntity(Subscribe) || ev.IsEntity(Unsubscribe)
    ensures var after := Process(s, ev).state.tables;
      && Find(after.stored, e, c) == Find(s.tables.stored, e, c)
      && Find(after.futures, e, c) == Find(s.tables.futures, e, c)
      && (e in after.stored <==> e in s.tables.stored)
  {
    match ev.payload
    case ComponentData(_, _, _, _) => ComponentEventChanges(s, ev, e, c);
    case EntityData(_) => EntityEventChanges(s, ev, e, c);
    case _ =>
  }

  /** The event system itself: a database of shared objects and the names of registered procedures. */
  class StorageEventSystem {
    const database: DatabaseHash.Database
    var rpcs: map<EntityId, seq<string>>

    ghost predicate Valid()
      reads this, database
    { database.Valid() }

    ghost function Model(): Store
      reads this, database, database.Repr()
    { Store(database.Model(), rpcs) }

    constructor ()
      ensures Valid() && fresh(database) && Model() == Store(Tables(map[], map[]), map[])
    {
      database := new DatabaseHash.Database();
      rpcs := map[];
    }

    ghost function Frame(): set<object>
      reads this, database
    { {this, database} + database.Repr() }

    /** What handles taken from the database still are after an event. */
    twostate predicate HandlesKept(ev: CommandEvent)
      reads database
    {
      forall e, c :: old(database.tables.Lookup(e, c)).Some? && !Removes(ev, e, c)
        ==> database.tables.Lookup(e, c) == old(database.tables.Lookup(e, c))
    }

    method AddComponent(ev: CommandEvent) returns (accepted: bool, posted: seq<QueueItem>)
      requires Valid() && ev.IsComponent(ComponentAdd)
      modifies Frame()
      ensures Valid() && HandlesKept(ev)
      ensures Outcome(Model(), ev, accepted, posted) == ProcessComponent(old(Model()), ev)
    {
      var e, c := ev.entity, ev.payload.name;
      DatabaseHash.ValuesFind(database.tables.stored, e, c);
      accepted, posted := false, [];
      if !database.HasEntity(e) {
        accepted, posted := true, ErrorOut(ev, EntityUnknown);
      } else if Find(database.tables.stored, e, c).Some? {
        accepted, posted := true, ErrorOut(ev, ComponentExists);
      } else {
        ghost var t := database.tables;
        var h := database.InsertComponentValue(e, c, ev.payload.newValue);
        KeptUnlessDropped(t, InsertComponent(e, c, h));
      }
    }

    method RemoveComponent(ev: CommandEvent) returns (accepted: bool, posted: seq<QueueItem>)
      requires Valid() && ev.IsComponent(ComponentRemove)
      modifies Frame()
      ensures Valid() && HandlesKept(ev)
      ensures Outcome(Model(), ev, accepted, posted) == ProcessComponent(old(Model()), ev)
    {
      var e, c := ev.entity, ev.payload.name;
      DatabaseHash.ValuesFind(database.tables.stored, e, c);
      accepted, posted := false, [];
      if !database.HasEntity(e) {
        accepted, posted := true, ErrorOut(ev, EntityUnknown);
      } else if Find(database.tables.stored, e, c).None? {
        accepted, posted := true, ErrorOut(ev, ComponentUnknown);
      } else {
        KeptUnlessDropped(database.tables, Operation.RemoveComponent(e, c));
        database.RemoveComponentValue(e, c);
      }
    }

    method SetComponent(ev: CommandEvent) returns (accepted: bool, posted: seq<QueueItem>)
      requires Valid() && ev.IsComponent(ComponentSet)
      modifies Frame()
      ensures Valid() && HandlesKept(ev)
      ensures Outcome(Model(), ev, accepted, posted) == ProcessComponent(old(Model()), ev)
    {
      var e, c := ev.entity, ev.payload.name;
      DatabaseHash.ValuesFind(database.tables.stored, e, c);
      accepted, posted := false, [];
      if !database.HasEntity(e) {
        accepted, posted := true, ErrorOut(ev, EntityUnknown);
      } else if Find(database.tables.stored, e, c).None? {
        accepted, posted := true, ErrorOut(ev, ComponentUnknown);
      } else {
        var _ := database.SetComponentValue(e, c, ev.payload.newValue);
      }
    }

    method FetchComponent(ev: CommandEvent) returns (ev': CommandEvent, accepted: bool, posted: seq<QueueItem>)
      requires Valid() && ev.IsComponent(ComponentFetch)
      ensures Outcome(Model(), ev', accepted, posted) == ProcessComponent(Model(), ev)
    {
      var e, c := ev.entity, ev.payload.name;
      DatabaseHash.ValuesFind(database.tables.stored, e, c);
      DatabaseHash.ValuesFind(database.tables.futures, e, c);
      var component := Find(database.tables.stored, e, c);
      ev', accepted, posted := ev, false, [];
      if !database.HasEntity(e) {
        accepted, posted := true, ErrorOut(ev, EntityUnknown);
      } else if component.None? {
        var future := Find(database.tables.futures, e, c);
        if future.Some? {
          ev' := Answer(ev, future.value.value);
        } else {
          accepted, posted := true, ErrorOut(ev, ComponentUnknown);
        }
      } else {
        ev' := Answer(ev, component.value.value);
      }
    }

    method ProcessComponentData(ev: CommandEvent) returns (ev': CommandEvent, accepted: bool, posted: seq<QueueItem>)
      requires Valid() && ev.payload.ComponentData?
      modifies Frame()
      ensures Valid() && HandlesKept(ev)
      ensures Outcome(Model(), ev', accepted, posted) == ProcessComponent(old(Model()), ev)
    {
      ev', accepted, posted := ev, false, [];
      match ev.payload.componentCommand {
        case ComponentAdd => accepted, posted := AddComponent(ev);
        case ComponentRemove => accepted, posted := RemoveComponent(ev);
        case ComponentSet => accepted, posted := SetComponent(ev);
        case ComponentFetch => ev', accepted, posted := FetchComponent(ev);
        case NoComponentCommand =>
      }
    }

    /** m_entityRpcNames.remove */
    method ForgetRpcs(ev: CommandEvent)
      requires Valid()
      modifies this
      ensures Valid() && database.tables == old(database.tables)
      ensures database.Model() == old(database.Model())
      ensures rpcs == if ev.origin == Local then old(rpcs) - {ev.entity} else old(rpcs)
    {
      if ev.origin == Local { rpcs := rpcs - {ev.entity}; }
      DatabaseHash.ValuesKept(database.tables.stored);
      DatabaseHash.ValuesKept(database.tables.futures);
    }

    method AddEntity(ev: CommandEvent) returns (accepted: bool, posted: seq<QueueItem>)
      requires Valid() && ev.IsEntity(EntityAdd)
      modifies Frame()
      ensures Valid() && HandlesKept(ev)
      ensures Outcome(Model(), ev, accepted, posted) == ProcessEntity(old(Model()), ev)
    {
      DatabaseHash.ValuesFind(database.tables.stored, ev.entity, "");
      accepted, posted := false, [];
      ForgetRpcs(ev);
      if database.HasEntity(ev.entity) {
        accepted, posted := true, ErrorOut(ev, EntityExists);
      } else {
        KeptUnlessDropped(database.tables, Operation.InsertEntity(ev.entity));
        database.InsertEntity(ev.entity);
      }
    }

    method RemoveEntity(ev: CommandEvent) returns (accepted: bool, posted: seq<QueueItem>)
      requires Valid() && ev.IsEntity(EntityRemove)
      modifies Frame()
      ensures Valid() && HandlesKept(ev)
      ensures Outcome(Model(), ev, accepted, posted) == ProcessEntity(old(Model()), ev)
    {
      DatabaseHash.ValuesFind(database.tables.stored, ev.entity, "");
      accepted, posted := false, [];
      ForgetRpcs(ev);
      if !database.HasEntity(ev.entity) {
        accepted, posted := true, ErrorOut(ev, EntityUnknown);
      } else {
        KeptUnlessDropped(database.tables, Operation.RemoveEntity(ev.entity));
        database.RemoveEntity(ev.entity);
      }
    }

    method ProcessEntityData(ev: CommandEvent) returns (accepted: bool, posted: seq<QueueItem>)
      requires Valid() && ev.payload.EntityData?
      modifies Frame()
      ensures Valid() && HandlesKept(ev)
      ensures Outcome(Model(), ev, accepted, posted) == ProcessEntity(old(Model()), ev)
    {
      accepted, posted := false, [];
      match ev.payload.entityCommand {
        case EntityAdd => accepted, posted := AddEntity(ev);
        case EntityRemove => accepted, posted := RemoveEntity(ev);
        case _ =>
      }
    }

    method ProcessRpcData(ev: CommandEvent) returns (accepted: bool, posted: seq<QueueItem>)
      requires Valid() && ev.payload.RpcData?
      modifies this
      ensures Valid() && database.tables == old(database.tables)
      ensures Outcome(Model(), ev, accepted, posted) == ProcessRpc(old(Model()), ev)
    {
      accepted, posted := false, [];
      if ev.payload.rpcCommand == RpcRegister {
        var e, name := ev.entity, ev.payload.procedure;
        var names := if e in rpcs then rpcs[e] else [];
        if name !in names {
          rpcs := rpcs[e := names + [name]];
          DatabaseHash.ValuesKept(database.tables.stored);
          DatabaseHash.ValuesKept(database.tables.futures);
          assert database.Model() == old(database.Model());
          assert rpcs == old(Model()).rpcs[e := names + [name]];
        } else {
          accepted, posted := true, ErrorOut(ev, RpcExists);
        }
      }
    }

    method ProcessEvent(ev: CommandEvent) returns (ev': CommandEvent, accepted: bool, posted: seq<QueueItem>)
      requires Valid()
      modifies Frame()
      ensures Valid() && HandlesKept(ev)
      ensures Outcome(Model(), ev', accepted, posted) == Process(old(Model()), ev)
    {
      ev', accepted, posted := ev, false, [];
      if ev.subtype == Notification && ev.origin in {Local, Foreign} {
        match ev.payload {
          case ComponentData(_, _, _, _) =>
            if IsEmptySet(ev) {
              accepted := true;
            } else {
              ev', accepted, posted := ProcessComponentData(ev);
            }
          case EntityData(_) =>
            accepted, posted := ProcessEntityData(ev);
          case _ =>
        }
      }
      if ev.origin == Local && ev.payload.RpcData? {
        accepted, posted := ProcessRpcData(ev);
      }
    }
  }
}
