/** The validator: turns acceptable transactions into notifications authored by the server. */
module SystemModule {
  import opened Options
  import opened Events
  import opened EventSystems

  const SYSTEM_ENTITY: EntityId := 0
  const SESSION := "Session"
  const XSESSION := "XSession"
  const MODULES_PAUSED := "ModulesPaused"
  const DEV_MODE := "DevMode"

  const ENTITIES := "Entities"
  const SESSIONS_AVAILABLE := "SessionsAvailable"
  const MODULE_INTERFACE := "INF_ModuleInterface"

  /**
   What the validator asks of its surroundings: QVariant conversions, the session file, the lxdm restart. Writing
   an X session yields, if it succeeds, the session the file names afterwards.
   */
  datatype Surroundings = Surroundings(
    toText: Value -> string,
    toFlag: Value -> bool,
    jsonName: string -> string,
    displayedName: string -> string,
    writesXSession: string -> Option<string>,
    restarts: bool)

  /** `xSession` is the X session the file names, `hasStorage` whether a storage was set. */
  datatype State = State(
    currentSession: string, available: seq<string>, ready: bool, paused: bool, xSession: string, hasStorage: bool)

  /** What the initialization publishes besides the sessions. */
  datatype Inventory = Inventory(entities: Value, sessions: Value, devMode: Value, moduleInterface: Value)

  function EndsWith(s: string, suffix: string): bool {
    |suffix| <= |s| && s[|s| - |suffix|..] == suffix
  }

  /** VfServerComponentSetter::generateEvent on the system entity. */
  function Setter(name: string, oldValue: Value, newValue: Value): QueueItem {
    Command(CommandEvent(Notification, SYSTEM_ENTITY, ComponentData(ComponentSet, name, newValue, oldValue), Local, All, None))
  }

  function Validated(ev: CommandEvent): CommandEvent {
    ev.(subtype := Notification, origin := Local, target := All)
  }

  function SessionName(sur: Surroundings, v: Value): string {
    var text := sur.toText(v);
    if EndsWith(text, ".json") then text else sur.jsonName(text)
  }

  function SetSession(sur: Surroundings, s: State, ev: CommandEvent): Outcome<State>
    requires ev.payload.ComponentData?
  {
    var session := SessionName(sur, ev.payload.newValue);
    if session !in s.available || session == s.currentSession then Pass(s, ev)
    else if s.ready then
      Outcome(s.(currentSession := session, ready := false), ev, true, [Setter(SESSION, ev.payload.oldValue, Text(""))])
    else Outcome(s, ev, true, [])
  }

  function SetXSession(sur: Surroundings, s: State, ev: CommandEvent): Outcome<State>
    requires ev.payload.ComponentData?
  {
    var x := sur.toText(ev.payload.newValue);
    var written := if s.xSession != x then sur.writesXSession(x) else None;
    var s' := if written.Some? then s.(xSession := written.value) else s;
    if s.xSession == x || (written.Some? && sur.restarts) then Outcome(s', Validated(ev), false, [])
    else Outcome(s', ev, true, [Setter(XSESSION, ev.payload.newValue, ev.payload.oldValue)])
  }

  /** What the SCPI module is told when a client fetches from the system entity. */
  function ScpiNotifications(sur: Surroundings, s: State, ev: CommandEvent): seq<QueueItem>
    requires ev.payload.ComponentData?
  {
    if ev.entity != SYSTEM_ENTITY then []
    else if ev.payload.name == SESSION then
      var shown := Text(sur.displayedName(sur.toText(ev.payload.oldValue)));
      [Command(CommandEvent(Notification, SYSTEM_ENTITY, ComponentData(NoComponentCommand, SESSION, shown, Invalid),
                            Local, Irrelevant, None))]
    else if ev.payload.name == XSESSION then [Setter(XSESSION, Invalid, Text(s.xSession))]
    else []
  }

  function Process(sur: Surroundings, s: State, ev: CommandEvent): Outcome<State> {
    if ev.subtype == Notification then Pass(s, ev)
    else
      match ev.payload
      case IntrospectionData(_, _) => Outcome(s, Validated(ev), false, [])
      case EntityData(command) =>
        if command == Subscribe || command == Unsubscribe then Outcome(s, Validated(ev), false, []) else Pass(s, ev)
      case ComponentData(command, name, newValue, _) =>
        if command == ComponentFetch then Outcome(s, Validated(ev), false, ScpiNotifications(sur, s, ev))
        else if command != ComponentSet || ev.entity != SYSTEM_ENTITY then Pass(s, ev)
        else if name == SESSION then SetSession(sur, s, ev)
        else if name == XSESSION then SetXSession(sur, s, ev)
        else if name == MODULES_PAUSED then Outcome(s.(paused := sur.toFlag(newValue)), Validated(ev), false, [])
        else if name == DEV_MODE then Outcome(s, Validated(ev), false, [])
        else Pass(s, ev)
      case _ => Pass(s, ev)
  }

  /** initializeEntity: a session was loaded, and which ones there are. Without a storage nothing happens. */
  function Initialize(s: State, session: string, sessions: seq<string>, all: Inventory): (State, seq<QueueItem>) {
    if !s.hasStorage then (s, [])
    else
      (s.(ready := true, currentSession := session, available := sessions),
       [Setter(ENTITIES, Invalid, all.entities),
        Setter(SESSION, Invalid, Text(session)),
        Setter(XSESSION, Invalid, Text(s.xSession)),
        Setter(SESSIONS_AVAILABLE, Invalid, all.sessions),
        Setter(DEV_MODE, Invalid, all.devMode),
        Setter(MODULE_INTERFACE, Invalid, all.moduleInterface)])
  }

  predicate IsSystemSet(ev: CommandEvent, name: string) {
    ev.subtype == Transaction && ev.IsComponent(ComponentSet) && ev.entity == SYSTEM_ENTITY && ev.payload.name == name
  }

  /** A new session is entered exactly on a transaction for a known other one while none is being loaded. */
  predicate Enters(sur: Surroundings, s: State, ev: CommandEvent, session: string) {
    && IsSystemSet(ev, SESSION) && session == SessionName(sur, ev.payload.newValue)
    && session in s.available && session != s.currentSession && s.ready
  }

  /**
   One event: the session is entered if and only if it may be; clients are then told the empty session once and the
   request goes no further.
   */
  lemma SessionChangesIff(sur: Surroundings, s: State, ev: CommandEvent)
    ensures var o := Process(sur, s, ev);
      && (o.state.currentSession != s.currentSession <==> exists x :: Enters(sur, s, ev, x))
      && (o.state.currentSession != s.currentSession ==>
            && o.accepted && !o.state.ready && Enters(sur, s, ev, o.state.currentSession)
            && o.posted == [Setter(SESSION, ev.payload.oldValue, Text(""))])
      && (o.state.ready != s.ready <==> o.state.currentSession != s.currentSession)
      && (IsSystemSet(ev, SESSION) && !s.ready ==> o.posted == [] && o.state == s)
      && o.state.available == s.available && o.state.hasStorage == s.hasStorage
  {
    if IsSystemSet(ev, SESSION) {
      var session := SessionName(sur, ev.payload.newValue);
      assert Enters(sur, s, ev, session) <==> session in s.available && session != s.currentSession && s.ready;
    }
  }

  /** A session is named by a file name, or by what the files' names are made of. */
  lemma SessionNameIs(sur: Surroundings, v: Value)
    ensures SessionName(sur, v) ==
      if exists base: string :: sur.toText(v) == base + ".json" then sur.toText(v) else sur.jsonName(sur.toText(v))
  {
    var text := sur.toText(v);
    if EndsWith(text, ".json") { assert text == text[..|text| - 5] + ".json"; }
  }

  /** A request to show or to change something that the module lets everybody see. */
  predicate Lets(sur: Surroundings, s: State, ev: CommandEvent) {
    && ev.subtype == Transaction
    && (|| ev.payload.IntrospectionData? || ev.IsEntity(Subscribe) || ev.IsEntity(Unsubscribe) || ev.IsComponent(ComponentFetch)
        || IsSystemSet(ev, MODULES_PAUSED) || IsSystemSet(ev, DEV_MODE)
        || (IsSystemSet(ev, XSESSION)
            && var x := sur.toText(ev.payload.newValue);
              s.xSession == x || (sur.writesXSession(x).Some? && sur.restarts)))
  }

  /** A session request for a known other session, or an X session request that cannot be met. */
  predicate Keeps(sur: Surroundings, s: State, ev: CommandEvent) {
    || (IsSystemSet(ev, SESSION)
        && var session := SessionName(sur, ev.payload.newValue); session in s.available && session != s.currentSession)
    || (IsSystemSet(ev, XSESSION) && !Lets(sur, s, ev))
  }

  /**
   What the module makes of any event: it hands it on as the server's own notification exactly when it lets it pass,
   and otherwise as it is; it accepts it exactly when it keeps it.
   */
  lemma HandsOnIff(sur: Surroundings, s: State, ev: CommandEvent)
    ensures var o := Process(sur, s, ev);
      && o.event == (if Lets(sur, s, ev) then ev.(subtype := Notification, origin := Local, target := All) else ev)
      && (o.accepted <==> Keeps(sur, s, ev))
      && !(Lets(sur, s, ev) && Keeps(sur, s, ev))
  {
  }

  /** A SET of a system component as the server's own event for everybody. */
  predicate Announces(item: QueueItem, name: string, oldValue: Value, newValue: Value) {
    && item.Command? && item.event.subtype == Notification && item.event.Publishable() && item.event.peer == None
    && item.event.entity == SYSTEM_ENTITY && item.event.payload == ComponentData(ComponentSet, name, newValue, oldValue)
  }

  predicate IsSystemFetch(ev: CommandEvent, name: string) {
    && ev.subtype == Transaction && ev.IsComponent(ComponentFetch) && ev.entity == SYSTEM_ENTITY && ev.payload.name == name
  }

  /** The session's displayed name, for the modules of this server only. */
  predicate ShowsSession(sur: Surroundings, item: QueueItem, oldValue: Value) {
    && item.Command? && item.event.subtype == Notification && !item.event.Publishable() && item.event.origin == Local
    && item.event.entity == SYSTEM_ENTITY && item.event.payload.ComponentData? && item.event.payload.name == SESSION
    && item.event.payload.newValue == Text(sur.displayedName(sur.toText(oldValue)))
  }

  /**
   What the module posts: for a session it enters the empty session, for an X session it refuses the old one, for a
   FETCH of one of the two what its SCPI side needs, and nothing else ever.
   */
  lemma PostsIff(sur: Surroundings, s: State, ev: CommandEvent)
    ensures var posted := Process(sur, s, ev).posted;
      && |posted| <= 1
      && (posted != [] <==>
          || (exists x :: Enters(sur, s, ev, x)) || (IsSystemSet(ev, XSESSION) && Keeps(sur, s, ev))
          || IsSystemFetch(ev, SESSION) || IsSystemFetch(ev, XSESSION))
      && (posted != [] && IsSystemSet(ev, SESSION) ==> Announces(posted[0], SESSION, ev.payload.oldValue, Text("")))
      && (posted != [] && IsSystemSet(ev, XSESSION) ==>
            Announces(posted[0], XSESSION, ev.payload.newValue, ev.payload.oldValue))
      && (IsSystemFetch(ev, XSESSION) ==> Announces(posted[0], XSESSION, Invalid, Text(s.xSession)))
      && (IsSystemFetch(ev, SESSION) ==> ShowsSession(sur, posted[0], ev.payload.oldValue))
  {
    if IsSystemSet(ev, SESSION) {
      var session := SessionName(sur, ev.payload.newValue);
      assert Enters(sur, s, ev, session) <==> session in s.available && session != s.currentSession && s.ready;
    }
  }

  /** One request for an X session: confirmed to everybody, or the old value put back for everybody. */
  lemma XSessionIsConfirmedOrPutBack(sur: Surroundings, s: State, ev: CommandEvent)
    requires IsSystemSet(ev, XSESSION)
    ensures var o, x := Process(sur, s, ev), sur.toText(ev.payload.newValue);
      var written := if s.xSession != x then sur.writesXSession(x) else None;
      && (o.accepted <==> s.xSession != x && !(written.Some? && sur.restarts))
      && (!o.accepted ==> o.event == Validated(ev) && o.posted == [])
      && (o.accepted ==>
            && o.posted == [Setter(XSESSION, ev.payload.newValue, ev.payload.oldValue)]
            && o.posted[0].event.payload.newValue == ev.payload.oldValue && o.posted[0].event.Publishable())
      && o.state == s.(xSession := if written.Some? then written.value else s.xSession)
  {
  }

  class SystemModuleEventSystem {
    const surroundings: Surroundings
    var currentSession: string
    var availableSessions: seq<string>
    var sessionReady: bool
    var modulesPaused: bool
    var xSession: string
    var hasStorage: bool

    constructor (surroundings: Surroundings, xSession: string)
      ensures Model() == State("", [], false, false, xSession, false)
    {
      this.surroundings := surroundings;
      currentSession, availableSessions, sessionReady, modulesPaused, hasStorage := "", [], false, false, false;
      this.xSession := xSession;
    }

    ghost function Model(): State
      reads this
    { State(currentSession, availableSessions, sessionReady, modulesPaused, xSession, hasStorage) }

    method SetStorage()
      modifies this`hasStorage
      ensures Model() == old(Model()).(hasStorage := true)
    { hasStorage := true; }

    method InitializeEntity(session: string, sessions: seq<string>, all: Inventory) returns (posted: seq<QueueItem>)
      modifies this
      ensures (Model(), posted) == Initialize(old(Model()), session, sessions, all)
    {
      posted := [];
      if hasStorage {
        sessionReady := true;
        currentSession := session;
        availableSessions := sessions;
        posted := [
          Setter(ENTITIES, Invalid, all.entities),
          Setter(SESSION, Invalid, Text(currentSession)),
          Setter(XSESSION, Invalid, Text(xSession)),
          Setter(SESSIONS_AVAILABLE, Invalid, all.sessions),
          Setter(DEV_MODE, Invalid, all.devMode),
          Setter(MODULE_INTERFACE, Invalid, all.moduleInterface)];
      }
    }

    /** A known other session is taken over when none is being loaded; `handled` even when it is not. */
    method HandleVeinSessionSet(oldValue: Value, newValue: Value) returns (handled: bool, posted: seq<QueueItem>)
      modifies this
      ensures var session := SessionName(surroundings, newValue);
        && handled == (session in old(availableSessions) && session != old(currentSession))
        && Model() == (if handled && old(sessionReady)
                       then old(Model()).(currentSession := session, ready := false) else old(Model()))
        && posted == (if handled && old(sessionReady) then [Setter(SESSION, oldValue, Text(""))] else [])
    {
      var session := SessionName(surroundings, newValue);
      handled, posted := false, [];
      if session in availableSessions && session != currentSession {
        if sessionReady {
          currentSession := session;
          posted := [Setter(SESSION, oldValue, Text(""))];
          sessionReady := false;
        }
        handled := true;
      }
    }

    method HandleXSessionSet(x: string) returns (ok: bool)
      modifies this`xSession
      ensures ok == (old(xSession) == x || (surroundings.writesXSession(x).Some? && surroundings.restarts))
      ensures xSession == if old(xSession) != x && surroundings.writesXSession(x).Some?
        then surroundings.writesXSession(x).value else old(xSession)
    {
      if xSession == x { return true; }
      var written := surroundings.writesXSession(x);
      if written.Some? {
        xSession := written.value;
        if surroundings.restarts { return true; }
      }
      return false;
    }

    method ProcessEvent(ev: CommandEvent) returns (ev': CommandEvent, accepted: bool, posted: seq<QueueItem>)
      modifies this
      ensures Outcome(Model(), ev', accepted, posted) == Process(surroundings, old(Model()), ev)
    {
      var validated := false;
      accepted, posted := false, [];
      if ev.subtype != Notification {
        match ev.payload {
          case IntrospectionData(_, _) => validated := true;
          case EntityData(command) =>
            if command == Subscribe || command == Unsubscribe { validated := true; }
          case ComponentData(command, name, newValue, oldValue) =>
            if command == ComponentFetch {
              validated := true;
              var now := State(currentSession, availableSessions, sessionReady, modulesPaused, xSession, hasStorage);
              posted := ScpiNotifications(surroundings, now, ev);
            } else if command == ComponentSet && ev.entity == SYSTEM_ENTITY {
              if name == SESSION {
                accepted, posted := HandleVeinSessionSet(oldValue, newValue);
              } else if name == XSESSION {
                var ok := HandleXSessionSet(surroundings.toText(newValue));
                if ok {
                  validated := true;
                } else {
                  accepted, posted := true, [Setter(XSESSION, newValue, oldValue)];
                }
              } else if name == MODULES_PAUSED {
                validated := true;
                if surroundings.toFlag(newValue) != modulesPaused { modulesPaused := surroundings.toFlag(newValue); }
              } else if name == DEV_MODE {
                validated := true;
              }
            }
          case _ =>
        }
      }
      ev' := if validated then Validated(ev) else ev;
    }
  }
}
