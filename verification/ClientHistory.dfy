/** What a client's storage knows, as a function of the events it has handled since it was empty. */
module ClientHistory {
  import opened Events
  import opened EventSystems
  import opened ComponentTables
  import opened StorageHistory
  import ClientStorage
  import IntrospectionSystem

  /** The client's store after `history`, oldest event first. */
  function ClientAfter(history: seq<CommandEvent>): Store
    decreases |history|
  {
    if history == [] then EMPTY
    else ClientStorage.Process(ClientAfter(history[..|history| - 1]), history[|history| - 1]).state
  }

  predicate Introduces(ev: CommandEvent, e: EntityId) { Heeded(ev) && ev.entity == e && ev.payload.IntrospectionData? }

  /** The entity is given up: removed by the server, or unsubscribed. */
  predicate GivenUp(ev: CommandEvent, e: EntityId) {
    Heeded(ev) && ev.entity == e && (ev.IsEntity(EntityRemove) || ev.IsEntity(Unsubscribe))
  }

  /** The entity was introduced and not given up since. */
  ghost predicate Mirrored(history: seq<CommandEvent>, e: EntityId) {
    exists i :: 0 <= i < |history| && Introduces(history[i], e) && forall j | i < j < |history| :: !GivenUp(history[j], e)
  }

  /** The introduction that made the mirror listed the procedure. */
  ghost predicate Offered(history: seq<CommandEvent>, e: EntityId, name: string) {
    exists i :: 0 <= i < |history| && OffersAt(history, i, e, name) && forall j | i < j < |history| :: !GivenUp(history[j], e)
  }

  ghost predicate OffersAt(history: seq<CommandEvent>, i: nat, e: EntityId, name: string)
    requires i < |history|
  { Introduces(history[i], e) && !Mirrored(history[..i], e) && name in history[i].payload.rpcNames }

  lemma MirroredStep(history: seq<CommandEvent>, ev: CommandEvent, e: EntityId)
    ensures Mirrored(history + [ev], e) <==> Introduces(ev, e) || (Mirrored(history, e) && !GivenUp(ev, e))
  {
    var h := history + [ev];
    if Introduces(ev, e) { assert Introduces(h[|history|], e); }
    if Mirrored(history, e) && !GivenUp(ev, e) {
      var i :| 0 <= i < |history| && Introduces(history[i], e) && forall j | i < j < |history| :: !GivenUp(history[j], e);
      assert Introduces(h[i], e);
      assert forall j | i < j < |h| :: !GivenUp(h[j], e);
    }
    if Mirrored(h, e) && !Introduces(ev, e) {
      var i :| 0 <= i < |h| && Introduces(h[i], e) && forall j | i < j < |h| :: !GivenUp(h[j], e);
      assert Introduces(history[i], e) && !GivenUp(h[|history|], e);
      assert forall j | i < j < |history| :: history[j] == h[j];
    }
  }

  lemma OfferedStep(history: seq<CommandEvent>, ev: CommandEvent, e: EntityId, name: string)
    ensures Offered(history + [ev], e, name) <==>
      (Introduces(ev, e) && !Mirrored(history, e) && name in ev.payload.rpcNames)
      || (Offered(history, e, name) && !GivenUp(ev, e))
  {
    var h, n := history + [ev], |history|;
    assert h[..n] == history;
    forall i | 0 <= i < n ensures OffersAt(h, i, e, name) == OffersAt(history, i, e, name) { assert h[..i] == history[..i]; }
    if Introduces(ev, e) && !Mirrored(history, e) && name in ev.payload.rpcNames { assert OffersAt(h, n, e, name); }
    if Offered(history, e, name) && !GivenUp(ev, e) {
      var i :| 0 <= i < n && OffersAt(history, i, e, name) && forall j | i < j < n :: !GivenUp(history[j], e);
      assert OffersAt(h, i, e, name);
      assert forall j | i < j < |h| :: !GivenUp(h[j], e);
    }
    if Offered(h, e, name) && !(Introduces(ev, e) && !Mirrored(history, e) && name in ev.payload.rpcNames) {
      var i :| 0 <= i < |h| && OffersAt(h, i, e, name) && forall j | i < j < |h| :: !GivenUp(h[j], e);
      assert OffersAt(history, i, e, name) && !GivenUp(h[n], e);
      assert forall j | i < j < n :: history[j] == h[j];
    }
  }

  lemma EntryStep(s: Store, ev: CommandEvent, e: EntityId, name: string)
    ensures var r := ClientStorage.Process(s, ev).state;
      && (e in r.tables.stored <==> Introduces(ev, e) || (e in s.tables.stored && !GivenUp(ev, e)))
      && (name in NamesOf(r, e) <==>
          if Introduces(ev, e) && e !in s.tables.stored then name in ev.payload.rpcNames
          else name in NamesOf(s, e) && !GivenUp(ev, e))
  {
    if Introduces(ev, ev.entity) && ev.entity !in s.tables.stored { ClientStorage.IntrospectionMirrors(s, ev); }
  }

  /** An entity is mirrored, with no names while it is not, exactly when it was introduced and not given up since. */
  lemma {:induction false} MirrorsRefineHistory(history: seq<CommandEvent>, e: EntityId, name: string)
    ensures e in ClientAfter(history).tables.stored <==> Mirrored(history, e)
    ensures name in NamesOf(ClientAfter(history), e) ==> Mirrored(history, e)
    decreases |history|
  {
    if history != [] {
      var before, ev := history[..|history| - 1], history[|history| - 1];
      assert history == before + [ev];
      MirrorsRefineHistory(before, e, name);
      MirroredStep(before, ev, e);
      EntryStep(ClientAfter(before), ev, e, name);
    }
  }

  lemma {:induction false} OffersRefineHistory(history: seq<CommandEvent>, e: EntityId, name: string)
    ensures name in NamesOf(ClientAfter(history), e) <==> Offered(history, e, name)
    decreases |history|
  {
    if history != [] {
      var before, ev := history[..|history| - 1], history[|history| - 1];
      assert history == before + [ev];
      OffersRefineHistory(before, e, name);
      MirrorsRefineHistory(before, e, name);
      OfferedStep(before, ev, e, name);
      EntryStep(ClientAfter(before), ev, e, name);
    }
  }

  predicate IsCall(ev: CommandEvent, e: EntityId, name: string) {
    && ev.subtype == Transaction && ev.origin != UserOrigin && ev.entity == e
    && ev.payload.RpcData? && ev.payload.rpcCommand == RpcCall && ev.payload.procedure == name
  }

  /** Over every history: a call passes the client exactly when the introduction behind its mirror listed the procedure. */
  lemma CallPassesIff(history: seq<CommandEvent>, call: CommandEvent, e: EntityId, name: string)
    requires IsCall(call, e, name)
    ensures !ClientStorage.Process(ClientAfter(history), call).accepted <==> Offered(history, e, name)
  {
    OffersRefineHistory(history, e, name);
  }

  /**
   From the server's registrations to the client's calls: a client without a mirror that handles the server's answer
   to its subscription lets exactly the calls of procedures pass that are registered there and then.
   */
  lemma RegisteredCallsPass(
    server: seq<CommandEvent>, client: seq<CommandEvent>, e: EntityId, peer: Peer, sender: Peer, call: CommandEvent, name: string)
    requires Exists(server, e) && !Mirrored(client, e) && IsCall(call, e, name)
    ensures e in StoreAfter(server).tables.stored
    ensures var answer := IntrospectionSystem.Answer(StoreAfter(server), e, peer);
      && answer[0].Command?
      && var now := client + [Received(Wire(answer[0].event), sender)];
        !ClientStorage.Process(ClientAfter(now), call).accepted <==> Registered(server, e, name)
  {
    EntitiesRefineHistory(server, e);
    ProceduresRefineHistory(server, e);
    RegistrationsAreRegistered(server, e, name);
    IntrospectionSystem.AnswerStart(StoreAfter(server), e, peer);
    var ev := Received(Wire(IntrospectionSystem.Answer(StoreAfter(server), e, peer)[0].event), sender);
    OfferedStep(client, ev, e, name);
    OffersRefineHistory(client, e, name);
    MirrorsRefineHistory(client, e, name);
    CallPassesIff(client + [ev], call, e, name);
  }
}
