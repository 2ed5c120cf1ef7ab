/** Answers a subscription with a snapshot of the entity and a fetch of every component. */
module IntrospectionSystem {
  import opened OrderedKeys
  import opened Events
  import opened EventSystems
  import opened ComponentTables
  import DatabaseHash
  import StorageSystem

  function Rpcs(s: Store, e: EntityId): seq<string> { if e in s.rpcs then s.rpcs[e] else [] }

  function Introspection(e: EntityId, values: map<string, Value>, rpcs: seq<string>, peer: Peer): CommandEvent {
    CommandEvent(Notification, e, IntrospectionData(values, rpcs), Local, All, peer)
  }

  function Fetch(e: EntityId, c: string, v: Value, peer: Peer): CommandEvent {
    CommandEvent(Notification, e, ComponentData(ComponentFetch, c, v, Invalid), Local, All, peer)
  }

  /** One fetch per name, in the order of the names. */
  function Fetches(e: EntityId, values: map<string, Value>, names: seq<string>, peer: Peer): seq<QueueItem>
    requires forall c | c in names :: c in values
  {
    seq(|names|, i requires 0 <= i < |names| => Command(Fetch(e, names[i], values[names[i]], peer)))
  }

  /** Snapshot first, the fetches after it, all addressed to the subscriber. */
  function AnswerWith(e: EntityId, values: map<string, Value>, rpcs: seq<string>, names: seq<string>, peer: Peer)
    : (items: seq<QueueItem>)
    requires forall c | c in names :: c in values
    ensures |items| == 1 + |names| && items[0] == Command(Introspection(e, values, rpcs, peer))
    ensures forall i | 0 <= i < |names| :: items[1 + i] == Command(Fetch(e, names[i], values[names[i]], peer))
  {
    [Command(Introspection(e, values, rpcs, peer))] + Fetches(e, values, names, peer)
  }

  function Answer(s: Store, e: EntityId, peer: Peer): seq<QueueItem>
    requires e in s.tables.stored
  {
    var values := s.tables.stored[e];
    AnswerWith(e, values, Rpcs(s, e), Keys(values.Keys), peer)
  }

  /** The answer starts with the snapshot and has one more item for every stored component. */
  lemma AnswerStart(s: Store, e: EntityId, peer: Peer)
    requires e in s.tables.stored
    ensures var items, values := Answer(s, e, peer), s.tables.stored[e];
      |items| == 1 + |values| && items[0] == Command(Introspection(e, values, Rpcs(s, e), peer))
  {
    assert |s.tables.stored[e].Keys| == |s.tables.stored[e]|;
  }

  /** Every item after the snapshot fetches a stored component. */
  lemma AnswerRest(s: Store, e: EntityId, peer: Peer, i: nat) returns (c: string)
    requires e in s.tables.stored && 1 <= i < |Answer(s, e, peer)|
    ensures c in s.tables.stored[e]
    ensures Answer(s, e, peer)[i] == Command(Fetch(e, c, s.tables.stored[e][c], peer))
  {
    var names := Keys(s.tables.stored[e].Keys);
    c := names[i - 1];
    assert c in names;
  }

  /** Every stored component is fetched after the snapshot. */
  lemma AnswerFetches(s: Store, e: EntityId, peer: Peer, c: string) returns (i: nat)
    requires e in s.tables.stored && c in s.tables.stored[e]
    ensures 1 <= i < |Answer(s, e, peer)|
    ensures Answer(s, e, peer)[i] == Command(Fetch(e, c, s.tables.stored[e][c], peer))
  {
    var names := Keys(s.tables.stored[e].Keys);
    assert c in names;
    var k :| 0 <= k < |names| && names[k] == c;
    i := k + 1;
  }

  function Process(s: Store, ev: CommandEvent): Outcome<Store> {
    if ev.subtype != Notification || !ev.IsEntity(Subscribe) then Pass(s, ev)
    else if ev.entity in s.tables.stored && s.tables.stored[ev.entity] != map[] then
      Outcome(s, ev, false, Answer(s, ev.entity, ev.peer))
    else Reject(s, ev, NoIntrospection)
  }

  /**
   A SUBSCRIBE notification is answered, and goes on to the subscriber table, exactly when the entity is stored with
   components; otherwise it is rejected with one error. Nothing else is touched.
   */
  lemma AnsweredIff(s: Store, ev: CommandEvent)
    ensures var o := Process(s, ev);
      var asks := ev.subtype == Notification && ev.IsEntity(Subscribe);
      var known := ev.entity in s.tables.stored && s.tables.stored[ev.entity] != map[];
      && o.state == s && o.event == ev
      && (o.accepted <==> asks && !known)
      && (o.posted != [] <==> asks)
      && (asks && known ==> o.posted == Answer(s, ev.entity, ev.peer))
      && (asks && !known ==>
            && |o.posted| == 1 && o.posted[0].Command? && o.posted[0].event.payload == ErrorData(ev.payload, NoIntrospection)
            && o.posted[0].event.entity == ev.entity && o.posted[0].event.peer == ev.peer)
  {
  }

  class IntrospectionSystem {
    const storage: StorageSystem.StorageEventSystem

    constructor (storage: StorageSystem.StorageEventSystem)
      ensures this.storage == storage
    { this.storage := storage; }

    /** Collects the stored values of the listed components. */
    method ComponentValues(components: map<string, DatabaseHash.StorageComponent>, names: seq<string>)
      returns (values: map<string, Value>)
      requires forall c :: c in names <==> c in components
      ensures values == map c | c in components :: components[c].value
    {
      values := map[];
      var i := 0;
      while i < |names|
        invariant 0 <= i <= |names|
        invariant forall c :: c in values <==> c in names[..i]
        invariant forall c | c in values :: c in components && values[c] == components[c].value
      {
        assert names[i] in names;
        values := values[names[i] := components[names[i]].value];
        assert names[..i + 1] == names[..i] + [names[i]];
        i := i + 1;
      }
      assert names[..i] == names;
    }

    method PostFetches(e: EntityId, values: map<string, Value>, names: seq<string>, peer: Peer) returns (posted: seq<QueueItem>)
      requires forall c | c in names :: c in values
      ensures posted == Fetches(e, values, names, peer)
    {
      ghost var all := Fetches(e, values, names, peer);
      posted := [];
      var i := 0;
      while i < |names|
        invariant 0 <= i <= |names|
        invariant posted == all[..i]
      {
        posted := posted + [Command(Fetch(e, names[i], values[names[i]], peer))];
        i := i + 1;
      }
    }

    method AnswerSubscription(e: EntityId, peer: Peer) returns (posted: seq<QueueItem>)
      requires storage.Valid() && storage.database.HasEntity(e)
      ensures storage.Model() == old(storage.Model())
      ensures e in storage.Model().tables.stored && posted == Answer(storage.Model(), e, peer)
    {
      ghost var s := storage.Model();
      DatabaseHash.ValuesFind(storage.database.tables.stored, e, "");
      var components := storage.database.tables.stored[e];
      var values := ComponentValues(components, storage.database.ComponentList(e));
      assert values == s.tables.stored[e];
      var rpcs := if e in storage.rpcs then storage.rpcs[e] else [];
      var fetches := PostFetches(e, values, Keys(values.Keys), peer);
      posted := [Command(Introspection(e, values, rpcs, peer))] + fetches;
      DatabaseHash.ValuesKept(storage.database.tables.stored);
      DatabaseHash.ValuesKept(storage.database.tables.futures);
    }

    method ProcessEvent(ev: CommandEvent) returns (accepted: bool, posted: seq<QueueItem>)
      requires storage.Valid()
      ensures storage.Model() == old(storage.Model())
      ensures Outcome(storage.Model(), ev, accepted, posted) == Process(storage.Model(), ev)
    {
      accepted, posted := false, [];
      if ev.subtype == Notification && ev.IsEntity(Subscribe) {
        var e := ev.entity;
        DatabaseHash.ValuesFind(storage.database.tables.stored, e, "");
        if storage.database.HasEntity(e) && storage.database.tables.stored[e] != map[] {
          assert storage.Model().tables.stored[e].Keys == storage.database.tables.stored[e].Keys;
          posted := AnswerSubscription(e, ev.peer);
        } else {
          accepted, posted := true, ErrorOut(ev, NoIntrospection);
        }
      }
    }
  }
}
