/** What becomes of system requests and of the system module's announcements: the validator together with the chain behind it. */
module SystemPublishing {
  import opened Options
  import opened Events
  import opened EventSystems
  import opened ComponentTables
  import opened SystemModule
  import EntityPublishing
  import NetworkSystem
  import Publishing
  import Server

  /** What the validator turns into a notification goes on like that notification. */
  lemma ValidatedGoesOn(sur: Surroundings, s: Server.Server, ev: CommandEvent)
    requires var v := Process(sur, s.system, ev); !v.accepted && v.posted == [] && v.event.subtype == Notification
    ensures var o, f := Server.Dispatch(sur, s, ev), Server.Dispatch(sur, s, Process(sur, s.system, ev).event);
      o.posted == f.posted && o.state.store == f.state.store && o.state.subs == f.state.subs && o.accepted == f.accepted
  {
  }

  /**
   A SET of ModulesPaused or DevMode by anybody, or of an X session that the module confirms: it is in the store and
   published to every subscriber as the server's own notification if and only if its value is valid and the component
   stored, for publishing also subscribed to.
   */
  lemma SystemSetIsPublishedIff(sur: Surroundings, s: Server.Server, ev: CommandEvent)
    requires IsSystemSet(ev, MODULES_PAUSED) || IsSystemSet(ev, DEV_MODE) || (IsSystemSet(ev, XSESSION) && Lets(sur, s.system, ev))
    ensures var o, name, v := Server.Dispatch(sur, s, ev), ev.payload.name, ev.payload.newValue;
      var stored := Find(s.store.tables.stored, SYSTEM_ENTITY, name);
      && (Publishing.Publishes(o.posted, Message(Notification, SYSTEM_ENTITY, ev.payload)) <==>
          v != Invalid && stored.Some? && NetworkSystem.Subscribers(s.subs, SYSTEM_ENTITY) != [])
      && Find(o.state.store.tables.stored, SYSTEM_ENTITY, name) == (if v != Invalid && stored.Some? then Some(v) else stored)
  {
    HandsOnIff(sur, s.system, ev);
    PostsIff(sur, s.system, ev);
    ValidatedGoesOn(sur, s, ev);
    EntityPublishing.OwnSetIsForwardedIff(sur, s, Process(sur, s.system, ev).event);
  }

  // ---------------------------------------------------------------------------------------------
  // Announcements
  // ---------------------------------------------------------------------------------------------

  /** The server after it dispatched these items one after the other, and everything it posted. */
  function DispatchAll(sur: Surroundings, s: Server.Server, items: seq<QueueItem>): (Server.Server, seq<QueueItem>)
    requires forall i | 0 <= i < |items| :: items[i].Command?
    decreases |items|
  {
    if items == [] then (s, [])
    else
      var o := Server.Dispatch(sur, s, items[0].event);
      var (after, posted) := DispatchAll(sur, o.state, items[1..]);
      (after, o.posted + posted)
  }

  /** One announcement after the other, of different components. */
  ghost predicate Announcements(items: seq<QueueItem>, names: seq<string>, values: seq<Value>) {
    && |items| == |names| == |values|
    && (forall i | 0 <= i < |items| :: Announces(items[i], names[i], Invalid, values[i]))
    && forall i, j | 0 <= i < j < |names| :: names[i] != names[j]
  }

  function SystemValue(s: Server.Server, name: string): Option<Value> { Find(s.store.tables.stored, SYSTEM_ENTITY, name) }

  lemma PublishedInSum(a: seq<QueueItem>, b: seq<QueueItem>, m: Message)
    ensures Publishing.Publishes(a + b, m) <==> Publishing.Publishes(a, m) || Publishing.Publishes(b, m)
  {
    var all := a + b;
    if Publishing.Publishes(a, m) {
      var i :| 0 <= i < |a| && a[i].Outbound? && a[i].message == m;
      assert all[i].Outbound? && all[i].message == m;
    }
    if Publishing.Publishes(b, m) {
      var i :| 0 <= i < |b| && b[i].Outbound? && b[i].message == m;
      assert all[|a| + i].Outbound? && all[|a| + i].message == m;
    }
    if Publishing.Publishes(all, m) {
      var i :| 0 <= i < |all| && all[i].Outbound? && all[i].message == m;
      if i < |a| { assert a[i].Outbound?; } else { assert b[i - |a|].Outbound?; }
    }
  }

  /** What a component nobody announces comes to: nothing. */
  lemma {:induction false} OthersStay(
    sur: Surroundings, s: Server.Server, items: seq<QueueItem>, names: seq<string>, values: seq<Value>, name: string)
    requires Announcements(items, names, values) && name !in names
    ensures SystemValue(DispatchAll(sur, s, items).0, name) == SystemValue(s, name)
    ensures forall v :: !Publishing.Publishes(DispatchAll(sur, s, items).1, EntityPublishing.Announced(SYSTEM_ENTITY, name, v))
    decreases |items|
  {
    if items != [] {
      var o := Server.Dispatch(sur, s, items[0].event);
      assert Announces(items[0], names[0], Invalid, values[0]) && names[0] in names;
      EntityPublishing.OwnSetIsForwardedIff(sur, s, items[0].event);
      Onwards(items, names, values);
      OthersStay(sur, o.state, items[1..], names[1..], values[1..], name);
      forall v ensures !Publishing.Publishes(DispatchAll(sur, s, items).1, EntityPublishing.Announced(SYSTEM_ENTITY, name, v)) {
        PublishedInSum(o.posted, DispatchAll(sur, o.state, items[1..]).1, EntityPublishing.Announced(SYSTEM_ENTITY, name, v));
      }
    }
  }

  lemma Onwards(items: seq<QueueItem>, names: seq<string>, values: seq<Value>)
    requires Announcements(items, names, values) && items != []
    ensures Announcements(items[1..], names[1..], values[1..]) && names[0] !in names[1..]
  {
  }

  /** What an announced component comes to: its announced value, stored and told to the subscribers if there are any. */
  lemma {:induction false} AnnouncedIsTold(
    sur: Surroundings, s: Server.Server, items: seq<QueueItem>, names: seq<string>, values: seq<Value>, k: nat)
    requires Announcements(items, names, values) && k < |items|
    ensures var (after, posted) := DispatchAll(sur, s, items);
      var told := values[k] != Invalid && SystemValue(s, names[k]).Some?;
      && SystemValue(after, names[k]) == (if told then Some(values[k]) else SystemValue(s, names[k]))
      && (Publishing.Publishes(posted, EntityPublishing.Announced(SYSTEM_ENTITY, names[k], values[k])) <==>
          told && NetworkSystem.Subscribers(s.subs, SYSTEM_ENTITY) != [])
    decreases |items|
  {
    var o := Server.Dispatch(sur, s, items[0].event);
    assert Announces(items[0], names[0], Invalid, values[0]) && Announces(items[k], names[k], Invalid, values[k]);
    EntityPublishing.OwnSetIsForwardedIff(sur, s, items[0].event);
    Onwards(items, names, values);
    PublishedInSum(
      o.posted, DispatchAll(sur, o.state, items[1..]).1, EntityPublishing.Announced(SYSTEM_ENTITY, names[k], values[k]));
    if k == 0 {
      OthersStay(sur, o.state, items[1..], names[1..], values[1..], names[0]);
    } else {
      assert names[1..][k - 1] == names[k] && values[1..][k - 1] == values[k];
      AnnouncedIsTold(sur, o.state, items[1..], names[1..], values[1..], k - 1);
    }
  }

  const SYSTEM_COMPONENTS := ["Entities", "Session", "XSession", "SessionsAvailable", "DevMode", "INF_ModuleInterface"]

  /**
   After an initialization whose announcements are dispatched, each of the six system components that is stored has
   the value it was initialized with, and the system entity's subscribers have been told.
   */
  lemma InitializationIsTold(
    sur: Surroundings, s: Server.Server, session: string, sessions: seq<string>, all: Inventory, k: nat)
    requires s.system.hasStorage && k < |SYSTEM_COMPONENTS|
    ensures var (system, items) := Initialize(s.system, session, sessions, all);
      var values := [all.entities, Text(session), Text(s.system.xSession), all.sessions, all.devMode, all.moduleInterface];
      && Announcements(items, SYSTEM_COMPONENTS, values)
      && system.currentSession == session && system.available == sessions && system.ready
      && var (after, posted) := DispatchAll(sur, s.(system := system), items);
        var name, v := SYSTEM_COMPONENTS[k], values[k];
        var told := v != Invalid && SystemValue(s, name).Some?;
        && SystemValue(after, name) == (if told then Some(v) else SystemValue(s, name))
        && (Publishing.Publishes(posted, EntityPublishing.Announced(SYSTEM_ENTITY, name, v)) <==>
            told && NetworkSystem.Subscribers(s.subs, SYSTEM_ENTITY) != [])
  {
    var (system, items) := Initialize(s.system, session, sessions, all);
    var values := [all.entities, Text(session), Text(s.system.xSession), all.sessions, all.devMode, all.moduleInterface];
    DifferentComponents();
    assert Announcements(items, SYSTEM_COMPONENTS, values);
    AnnouncedIsTold(sur, s.(system := system), items, SYSTEM_COMPONENTS, values, k);
  }

  lemma DifferentComponents()
    ensures forall i, j | 0 <= i < j < |SYSTEM_COMPONENTS| :: SYSTEM_COMPONENTS[i] != SYSTEM_COMPONENTS[j]
  {
    forall i, j | 0 <= i < j < |SYSTEM_COMPONENTS| ensures SYSTEM_COMPONENTS[i] != SYSTEM_COMPONENTS[j] {
      var a, b := SYSTEM_COMPONENTS[i], SYSTEM_COMPONENTS[j];
      assert a[0] != b[0] || |a| != |b|;
    }
  }
}
