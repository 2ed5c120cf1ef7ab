/** What becomes of a value a module took over: the module's entity together with the server's chain. */
module EntityPublishing {
  import opened Options
  import opened Events
  import opened EventSystems
  import opened ComponentTables
  import opened Sequences
  import Entity
  import IntrospectionSystem
  import NetworkSystem
  import Publishing
  import Rpc
  import Server
  import StorageSystem
  import SystemModule

  function Announced(e: EntityId, name: string, v: Value): Message {
    Message(Notification, e, ComponentData(ComponentSet, name, v, Invalid))
  }

  /** A component notification passes validator and introspection untouched. */
  lemma ChainOfNotification(sur: SystemModule.Surroundings, s: Server.Server, ev: CommandEvent)
    requires ev.subtype == Notification && ev.payload.ComponentData?
    ensures var o, st := Server.Dispatch(sur, s, ev), StorageSystem.Process(s.store, ev);
      && o.state.store == st.state
      && o.state.subs == (if st.accepted then s.subs
         else NetworkSystem.ProcessCommand(NetworkSystem.Subscribed, s.subs, st.event).state)
      && o.posted == if st.accepted then st.posted
        else st.posted + NetworkSystem.ProcessCommand(NetworkSystem.Subscribed, s.subs, st.event).posted
  {
    assert IntrospectionSystem.Process(s.store, ev) == Pass(s.store, ev);
  }

  lemma OwnSetIsStored(s: Store, ev: CommandEvent)
    requires ev.subtype == Notification && ev.Publishable() && ev.IsComponent(ComponentSet)
    ensures var st, stored := StorageSystem.Process(s, ev), Find(s.tables.stored, ev.entity, ev.payload.name);
      && (st.accepted <==> ev.payload.newValue == Invalid || stored.None?)
      && Publishing.AllCommands(st.posted) && (!st.accepted ==> st.posted == []) && st.event == ev
      && (forall e, c :: Find(st.state.tables.stored, e, c) ==
            if e == ev.entity && c == ev.payload.name && !st.accepted
            then Some(ev.payload.newValue) else Find(s.tables.stored, e, c))
  {
  }

  /** The server forwards its own SET notification exactly when the value is valid, the component stored and subscribed to. */
  lemma OwnSetIsForwardedIff(sur: SystemModule.Surroundings, s: Server.Server, ev: CommandEvent)
    requires ev.subtype == Notification && ev.Publishable() && ev.IsComponent(ComponentSet)
    ensures var o := Server.Dispatch(sur, s, ev);
      var stored := Find(s.store.tables.stored, ev.entity, ev.payload.name);
      && (forall m :: Publishing.Publishes(o.posted, m) <==>
            && m == Wire(ev) && ev.payload.newValue != Invalid && stored.Some?
            && NetworkSystem.Subscribers(s.subs, ev.entity) != [])
      && (forall e, c :: Find(o.state.store.tables.stored, e, c) ==
            if e == ev.entity && c == ev.payload.name && ev.payload.newValue != Invalid && stored.Some?
            then Some(ev.payload.newValue) else Find(s.store.tables.stored, e, c))
      && o.state.subs == s.subs
  {
    var st := StorageSystem.Process(s.store, ev);
    var n := NetworkSystem.ProcessCommand(NetworkSystem.Subscribed, s.subs, st.event);
    var posted := Server.Dispatch(sur, s, ev).posted;
    ChainOfNotification(sur, s, ev);
    OwnSetIsStored(s.store, ev);
    if !st.accepted {
      NothingAdded(n.posted);
      if n.posted != [] { assert posted[0].Outbound? && posted[0].message == Wire(ev); }
    }
  }

  /** So it does with what a module posts when a value changes. */
  lemma NotificationIsForwardedIff(sur: SystemModule.Surroundings, s: Server.Server, e: EntityId, name: string, v: Value)
    ensures var o := Server.Dispatch(sur, s, Entity.SetNotification(e, name, v).event);
      var stored := Find(s.store.tables.stored, e, name);
      && (Publishing.Publishes(o.posted, Announced(e, name, v))
          <==> v != Invalid && stored.Some? && NetworkSystem.Subscribers(s.subs, e) != [])
      && Find(o.state.store.tables.stored, e, name) == (if v != Invalid && stored.Some? then Some(v) else stored)
  {
    OwnSetIsForwardedIff(sur, s, Entity.SetNotification(e, name, v).event);
  }

  /**
   A SET transaction, from the module's entity to the subscribers: it reaches them if and only if it changes a
   writable component, carries a valid value, and the component is stored and subscribed to when the module's
   notification is handled.
   */
  lemma SetReachesSubscribersIff(
    cv: Rpc.Conversions, fold: string -> string, e: EntityId, m: Entity.State, ev: CommandEvent,
    sur: SystemModule.Surroundings, s: Server.Server)
    requires ev.entity == e && ev.IsComponent(ComponentSet) && ev.subtype == Transaction && ev.payload.name in m.components
    ensures var r, c, v := Entity.Process(cv, fold, e, m, ev), m.components[ev.payload.name], ev.payload.newValue;
      (r.posted != [] && r.posted[0].Command?
        && Publishing.Publishes(Server.Dispatch(sur, s, r.posted[0].event).posted, Announced(e, ev.payload.name, v)))
      <==> (v != c.value && !c.readOnly && v != Invalid
            && Find(s.store.tables.stored, e, ev.payload.name).Some? && NetworkSystem.Subscribers(s.subs, e) != [])
  {
    NotificationIsForwardedIff(sur, s, e, ev.payload.name, ev.payload.newValue);
  }

  /** What the store holds for the component once the notification, if one was posted, has been handled. */
  function StoredAfter(
    sur: SystemModule.Surroundings, s: Server.Server, posted: seq<QueueItem>, e: EntityId, name: string): Option<Value>
  {
    if posted != [] && posted[0].Command?
    then Find(Server.Dispatch(sur, s, posted[0].event).state.store.tables.stored, e, name)
    else Find(s.store.tables.stored, e, name)
  }

  /**
   Module and store agree after a SET as they did before, exactly unless the module took over an invalid value:
   the store forgets the notification of one.
   */
  lemma ModuleAndStoreAgreeIff(
    cv: Rpc.Conversions, fold: string -> string, e: EntityId, m: Entity.State, ev: CommandEvent,
    sur: SystemModule.Surroundings, s: Server.Server)
    requires ev.entity == e && ev.IsComponent(ComponentSet) && ev.subtype == Transaction && ev.payload.name in m.components
    requires Find(s.store.tables.stored, e, ev.payload.name) == Some(m.components[ev.payload.name].value)
    ensures var r, c, v := Entity.Process(cv, fold, e, m, ev), m.components[ev.payload.name], ev.payload.newValue;
      StoredAfter(sur, s, r.posted, e, ev.payload.name) == Some(r.state.components[ev.payload.name].value)
      <==> v != Invalid || c.readOnly || c.value == Invalid
  {
    NotificationIsForwardedIff(sur, s, e, ev.payload.name, ev.payload.newValue);
  }

  /** A client sets a writable component to an invalid value: the module has it, the store does not, nobody is told. */
  lemma InvalidSetSplitsModuleAndStore(
    cv: Rpc.Conversions, fold: string -> string, sur: SystemModule.Surroundings, s: Server.Server)
    requires Find(s.store.tables.stored, 7, "Range") == Some(Text("10V"))
    ensures var m := Entity.State(map["Range" := Entity.Component(Text("10V"), false)], {});
      var ev := CommandEvent(Transaction, 7, ComponentData(ComponentSet, "Range", Invalid, Invalid), Foreign, Irrelevant, Some(1));
      var r := Entity.Process(cv, fold, 7, m, ev);
      && r.accepted && r.posted == [Entity.SetNotification(7, "Range", Invalid)]
      && Server.Dispatch(sur, s, r.posted[0].event).posted == []
      && r.state.components["Range"].value == Invalid
      && StoredAfter(sur, s, r.posted, 7, "Range") == Some(Text("10V"))
  {
    NotificationIsForwardedIff(sur, s, 7, "Range", Invalid);
    ChainOfNotification(sur, s, Entity.SetNotification(7, "Range", Invalid).event);
  }
}
