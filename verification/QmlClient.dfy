/** What a QML client keeps about its subscriptions: reference counts, resolved entities and its state. */
module QmlClient {
  import opened Options
  import opened Events
  import opened EntityDictionary

  datatype ConnectionState = Idle | Loaded

  datatype Output =
    | SendSubscribe(id: EntityId)
    | SendUnsubscribe(id: EntityId)
    | SystemEntityAvailable
    | StateChanged(state: ConnectionState)

  const SYSTEM: EntityId := 0
  const ENTITY_NAME := "EntityName"
  const SESSION := "Session"

  datatype Client = Client(counts: map<EntityId, nat>, resolved: set<EntityId>, dict: Dictionary, state: ConnectionState) {
    function Count(id: EntityId): nat { if id in counts then counts[id] else 0 }

    function Subscribe(id: EntityId): (Client, seq<Output>) {
      (this.(counts := counts[id := Count(id) + 1]), if id in dict.byId then [] else [SendSubscribe(id)])
    }

    function RemoveEntity(id: EntityId): Client {
      Client(counts - {id}, resolved - {id}, dict.Remove(id), state)
    }

    /** The last reference takes everything about the entity with it. */
    function Unsubscribe(id: EntityId): (Client, seq<Output>) {
      if Count(id) > 1 then (this.(counts := counts[id := Count(id) - 1]), [])
      else (RemoveEntity(id), [SendUnsubscribe(id)])
    }

    function OnEntityLoaded(id: EntityId): (Client, seq<Output>) {
      if id !in counts then (this, [])
      else
        var now := this.(resolved := resolved + {id});
        var system := if id == SYSTEM then [SystemEntityAvailable] else [];
        if state != Loaded && counts.Keys <= now.resolved then (now.(state := Loaded), system + [StateChanged(Loaded)])
        else (now, system)
    }

    /** An unknown entity enters the dictionary, under its name if it has one, and is loaded at once. */
    function Introduce(id: EntityId, h: Handle, name: Option<string>): (Client, seq<Output>) {
      if id in dict.byId then (this, [])
      else
        var inserted := dict.Insert(id, h);
        this.(dict := if name.Some? then inserted.SetName(id, name.value) else inserted).OnEntityLoaded(id)
    }

    /** The session entity saying that no session is left. */
    function CheckSessionLeave(id: EntityId, component: string, text: string): (Client, seq<Output>) {
      if id == SYSTEM && component == SESSION && text == "" && state != Idle
      then (this.(state := Idle), [StateChanged(Idle)])
      else (this, [])
    }

    ghost predicate Valid() {
      && (forall id | id in counts :: counts[id] >= 1)
      && resolved <= counts.Keys && resolved <= dict.byId.Keys
      && dict.Valid()
    }
  }

  function NameIn(toText: Value -> string, values: map<string, Value>): Option<string> {
    if ENTITY_NAME in values then Some(toText(values[ENTITY_NAME])) else None
  }

  /** What a notification does; `h` is the map object made for it if one is made. */
  function Process(toText: Value -> string, c: Client, ev: CommandEvent, h: Handle): (Client, seq<Output>) {
    if ev.subtype != Notification then (c, [])
    else
      match ev.payload
      case ComponentData(_, component, v, _) => c.CheckSessionLeave(ev.entity, component, toText(v))
      case EntityData(command) => (if command == EntityRemove then c.RemoveEntity(ev.entity) else c, [])
      case IntrospectionData(values, _) => c.Introduce(ev.entity, h, NameIn(toText, values))
      case _ => (c, [])
  }

  class VeinQml {
    const toText: Value -> string
    const dict: EntityDictionary
    var counts: map<EntityId, nat>
    var resolvedIds: set<EntityId>
    var state: ConnectionState

    ghost function Model(): Client
      reads this, dict
    { Client(counts, resolvedIds, dict.Model(), state) }

    constructor (toText: Value -> string)
      ensures Model().Valid() && Model() == Client(map[], {}, Dictionary(map[], map[]), Idle)
      ensures this.toText == toText && fresh(dict)
    {
      this.toText := toText;
      dict := new EntityDictionary();
      counts, resolvedIds, state := map[], {}, Idle;
    }

    method EntitySubscribeById(id: EntityId) returns (out: seq<Output>)
      requires Model().Valid()
      modifies this`counts
      ensures Model().Valid() && (Model(), out) == old(Model()).Subscribe(id)
    {
      out := [];
      if id !in dict.entitiesById { out := [SendSubscribe(id)]; }
      var count := if id in counts then counts[id] else 0;
      counts := counts[id := count + 1];
    }

    method EntityUnsubscribeById(id: EntityId) returns (out: seq<Output>)
      requires Model().Valid()
      modifies this, dict
      ensures Model().Valid() && (Model(), out) == old(Model()).Unsubscribe(id)
    {
      var count := if id in counts then counts[id] else 0;
      ghost var before := Model();
      out := [];
      if count > 0 {
        count := count - 1;
        counts := counts[id := count];
      }
      if count == 0 {
        assert counts - {id} == before.counts - {id};
        RemoveEntity(id);
        out := [SendUnsubscribe(id)];
      }
    }

    method RemoveEntity(id: EntityId)
      requires dict.Model().Valid()
      modifies this, dict
      ensures Model() == old(Model()).RemoveEntity(id) && dict.Model().Valid()
    {
      RemoveKeepsValid(dict.Model(), id);
      counts := counts - {id};
      resolvedIds := resolvedIds - {id};
      var _ := dict.Remove(id);
    }

    method OnEntityLoaded(id: EntityId) returns (out: seq<Output>)
      modifies this
      ensures (Model(), out) == old(Model()).OnEntityLoaded(id)
    {
      out := [];
      if id in counts {
        resolvedIds := resolvedIds + {id};
        if id == SYSTEM { out := [SystemEntityAvailable]; }
        if state != Loaded {
          if counts.Keys <= resolvedIds {
            state := Loaded;
            out := out + [StateChanged(Loaded)];
          }
        }
      }
    }

    method ProcessIntrospection(id: EntityId, values: map<string, Value>, h: Handle) returns (out: seq<Output>)
      requires Model().Valid()
      modifies this, dict
      ensures Model().Valid() && (Model(), out) == old(Model()).Introduce(id, h, NameIn(toText, values))
    {
      out := [];
      if id !in dict.entitiesById {
        ghost var inserted := dict.Model().Insert(id, h);
        InsertKeepsValid(dict.Model(), id, h);
        var _ := dict.Insert(id, h);
        if ENTITY_NAME in values {
          SetNameKeepsValid(inserted, id, toText(values[ENTITY_NAME]));
          var _ := dict.SetEntityName(id, toText(values[ENTITY_NAME]));
        }
        out := OnEntityLoaded(id);
      }
    }

    method ProcessEvent(ev: CommandEvent, h: Handle) returns (out: seq<Output>)
      requires Model().Valid()
      modifies this, dict
      ensures Model().Valid() && (Model(), out) == Process(toText, old(Model()), ev, h)
    {
      out := [];
      if ev.subtype == Notification {
        match ev.payload {
          case ComponentData(_, component, v, _) =>
            if ev.entity == SYSTEM && component == SESSION && toText(v) == "" && state != Idle {
              state := Idle;
              out := [StateChanged(Idle)];
            }
          case EntityData(command) =>
            if command == EntityRemove { RemoveEntity(ev.entity); }
          case IntrospectionData(values, _) => out := ProcessIntrospection(ev.entity, values, h);
          case _ =>
        }
      }
    }
  }

  // ---------------------------------------------------------------------------------------------
  // Every run
  // ---------------------------------------------------------------------------------------------

  datatype Call = SubscribeCall(id: EntityId) | UnsubscribeCall(id: EntityId) | EventCall(ev: CommandEvent, h: Handle)

  function Step(toText: Value -> string, c: Client, call: Call): (Client, seq<Output>) {
    match call
    case SubscribeCall(id) => c.Subscribe(id)
    case UnsubscribeCall(id) => c.Unsubscribe(id)
    case EventCall(ev, h) => Process(toText, c, ev, h)
  }

  function RunFrom(toText: Value -> string, c: Client, calls: seq<Call>): Client {
    if calls == [] then c else Step(toText, RunFrom(toText, c, calls[..|calls| - 1]), calls[|calls| - 1]).0
  }

  function Run(toText: Value -> string, calls: seq<Call>): Client {
    RunFrom(toText, Client(map[], {}, Dictionary(map[], map[]), Idle), calls)
  }

  /** Bookkeeping is kept by every call, and LOADED is signalled only when every subscribed entity is resolved. */
  lemma StepKeepsValid(toText: Value -> string, c: Client, call: Call)
    requires c.Valid()
    ensures var (c', out) := Step(toText, c, call);
      && c'.Valid()
      && (StateChanged(Loaded) in out ==> c'.state == Loaded && c'.resolved == c'.counts.Keys && c.state != Loaded)
  {
    match call
    case SubscribeCall(_) =>
    case UnsubscribeCall(id) => RemoveKeepsValid(c.dict, id);
    case EventCall(ev, h) =>
      match ev.payload
      case EntityData(_) => RemoveKeepsValid(c.dict, ev.entity);
      case IntrospectionData(values, _) => IntroduceKeepsValid(c, ev.entity, h, NameIn(toText, values));
      case _ =>
  }

  lemma IntroduceKeepsValid(c: Client, id: EntityId, h: Handle, name: Option<string>)
    requires c.Valid()
    ensures var (c', out) := c.Introduce(id, h, name);
      && c'.Valid()
      && (StateChanged(Loaded) in out ==> c'.state == Loaded && c'.resolved == c'.counts.Keys && c.state != Loaded)
  {
    InsertKeepsValid(c.dict, id, h);
    if id !in c.dict.byId && name.Some? { SetNameKeepsValid(c.dict.Insert(id, h), id, name.value); }
  }

  predicate IsIntroduction(call: Call, id: EntityId) {
    call.EventCall? && call.ev.subtype == Notification && call.ev.payload.IntrospectionData? && call.ev.entity == id
  }

  /** A notification that the session entity's session is empty. */
  predicate IsSessionLeave(toText: Value -> string, call: Call) {
    && call.EventCall? && call.ev.subtype == Notification && call.ev.entity == SYSTEM && call.ev.payload.ComponentData?
    && call.ev.payload.name == SESSION && toText(call.ev.payload.newValue) == ""
  }

  /**
   What any call sends and signals: a SUBSCRIBE for an unknown entity, an UNSUBSCRIBE for the last reference, the
   system entity when it is introduced to a subscriber, IDLE when the session is left, at most one of each.
   */
  lemma OutputsIff(toText: Value -> string, c: Client, call: Call, id: EntityId)
    ensures var out := Step(toText, c, call).1;
      && (forall i, j | 0 <= i < j < |out| :: out[i] != out[j])
      && (SendSubscribe(id) in out <==> call == SubscribeCall(id) && id !in c.dict.byId)
      && (SendUnsubscribe(id) in out <==> call == UnsubscribeCall(id) && c.Count(id) <= 1)
      && (SystemEntityAvailable in out <==> IsIntroduction(call, SYSTEM) && SYSTEM in c.counts && SYSTEM !in c.dict.byId)
      && (StateChanged(Idle) in out <==> IsSessionLeave(toText, call) && c.state != Idle)
  {
  }

  /** The state is the one signalled last, and an entity is resolved by its introduction to a subscriber. */
  lemma StateFollowsSignals(toText: Value -> string, c: Client, call: Call, id: EntityId)
    ensures var (c', out) := Step(toText, c, call);
      && c'.state == (if StateChanged(Idle) in out then Idle else if StateChanged(Loaded) in out then Loaded else c.state)
      && (id in c'.resolved <==>
          || (IsIntroduction(call, id) && id in c.counts && id !in c.dict.byId)
          || (id in c.resolved && !(SendUnsubscribe(id) in out)
              && !(call.EventCall? && call.ev.subtype == Notification && call.ev.entity == id && call.ev.IsEntity(EntityRemove))))
  {
  }

  /** An entity introduced for the first time is known by its id, and by its name if that is new and not empty. */
  lemma IntroducedIsFound(toText: Value -> string, c: Client, call: Call, id: EntityId)
    requires c.Valid() && IsIntroduction(call, id) && id !in c.dict.byId
    ensures var dict, values := Step(toText, c, call).0.dict, call.ev.payload.values;
      && dict.FindById(id) == Some(call.h)
      && (ENTITY_NAME in values && toText(values[ENTITY_NAME]) != "" && c.dict.FindByName(toText(values[ENTITY_NAME])).None? ==>
            dict.FindByName(toText(values[ENTITY_NAME])) == Some(call.h))
      && (forall n | c.dict.FindByName(n).Some? :: dict.FindByName(n) == c.dict.FindByName(n))
  {
  }

  /** LOADED is signalled exactly by the introspection that resolves the last subscribed entity. */
  lemma LoadedIffLastResolves(toText: Value -> string, c: Client, call: Call)
    requires c.Valid()
    ensures StateChanged(Loaded) in Step(toText, c, call).1 <==>
      && call.EventCall? && call.ev.subtype == Notification && call.ev.payload.IntrospectionData?
      && c.state != Loaded && call.ev.entity in c.counts && call.ev.entity !in c.dict.byId
      && c.counts.Keys - {call.ev.entity} <= c.resolved
  {
    if call.EventCall? && call.ev.entity in c.counts {
      assert c.counts.Keys - {call.ev.entity} <= c.resolved <==> c.counts.Keys <= c.resolved + {call.ev.entity};
    }
  }

  lemma {:induction false} RunIsValid(toText: Value -> string, calls: seq<Call>)
    ensures Run(toText, calls).Valid()
  {
    if calls != [] {
      RunIsValid(toText, calls[..|calls| - 1]);
      StepKeepsValid(toText, Run(toText, calls[..|calls| - 1]), calls[|calls| - 1]);
    }
  }

  /** References taken and not given back since the entity was last dropped. */
  function References(calls: seq<Call>, id: EntityId): nat {
    if calls == [] then 0
    else
      var before, last := References(calls[..|calls| - 1], id), calls[|calls| - 1];
      match last
      case SubscribeCall(x) => if x == id then before + 1 else before
      case UnsubscribeCall(x) => if x == id && before > 0 then before - 1 else before
      case EventCall(ev, _) =>
        if ev.subtype == Notification && ev.entity == id && ev.IsEntity(EntityRemove) then 0 else before
  }

  /** The table counts exactly the references held, and keeps no entry for an entity nobody holds. */
  lemma {:induction false} CountsAreReferences(toText: Value -> string, calls: seq<Call>, id: EntityId)
    ensures var c := Run(toText, calls);
      c.Count(id) == References(calls, id) && (id in c.counts <==> References(calls, id) > 0)
  {
    if calls != [] {
      CountsAreReferences(toText, calls[..|calls| - 1], id);
      RunIsValid(toText, calls[..|calls| - 1]);
    }
  }

  /** Giving back the last reference: one UNSUBSCRIBE, and the entity is gone from all three structures. */
  lemma LastReferenceUnsubscribes(toText: Value -> string, calls: seq<Call>, id: EntityId)
    ensures var c := Run(toText, calls);
      var (c', out) := c.Unsubscribe(id);
      if References(calls, id) <= 1
      then out == [SendUnsubscribe(id)] && id !in c'.counts && id !in c'.resolved && id !in c'.dict.byId
      else out == [] && c'.resolved == c.resolved && c'.dict == c.dict && c'.Count(id) == c.Count(id) - 1
  {
    CountsAreReferences(toText, calls, id);
  }

  predicate Drops(call: Call, id: EntityId) {
    match call
    case UnsubscribeCall(x) => x == id
    case EventCall(ev, _) => ev.entity == id && ev.IsEntity(EntityRemove)
    case _ => false
  }

  lemma StaysUnresolved(toText: Value -> string, c: Client, call: Call, id: EntityId)
    requires c.Valid() && id in c.counts && id in c.dict.byId && id !in c.resolved && !Drops(call, id)
    ensures var (c', out) := Step(toText, c, call);
      c'.Valid() && id in c'.counts && id in c'.dict.byId && id !in c'.resolved && StateChanged(Loaded) !in out
  {
    StepKeepsValid(toText, c, call);
  }

  /**
   An entity that was introduced before anybody subscribed to it is never resolved by subscribing later: no
   SUBSCRIBE is sent, further introspections are ignored, and until it is dropped no call signals LOADED.
   */
  lemma {:induction false} KnownBeforeSubscribedIsNeverResolved(
    toText: Value -> string, c: Client, id: EntityId, calls: seq<Call>, next: Call)
    requires c.Valid() && id in c.dict.byId && id !in c.counts
    requires (forall i | 0 <= i < |calls| :: !Drops(calls[i], id)) && !Drops(next, id)
    ensures c.Subscribe(id).1 == []
    ensures var now := RunFrom(toText, c.Subscribe(id).0, calls);
      && now.Valid() && id in now.counts && id in now.dict.byId && id !in now.resolved
      && StateChanged(Loaded) !in Step(toText, now, next).1
    decreases |calls|
  {
    if calls != [] {
      KnownBeforeSubscribedIsNeverResolved(toText, c, id, calls[..|calls| - 1], calls[|calls| - 1]);
      StaysUnresolved(toText, RunFrom(toText, c.Subscribe(id).0, calls[..|calls| - 1]), calls[|calls| - 1], id);
    }
    StaysUnresolved(toText, RunFrom(toText, c.Subscribe(id).0, calls), next, id);
  }
}
