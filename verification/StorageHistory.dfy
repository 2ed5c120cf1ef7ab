/** What the server's storage holds, as a function of the events it has been handed since it was empty. */
module StorageHistory {
  import opened Options
  import opened Events
  import opened EventSystems
  import opened ComponentTables
  import Rpc
  import StorageSystem

  const EMPTY := Store(Tables(map[], map[]), map[])

  /** The store after `history`, oldest event first. */
  function StoreAfter(history: seq<CommandEvent>): Store
    decreases |history|
  {
    if history == [] then EMPTY
    else StorageSystem.Process(StoreAfter(history[..|history| - 1]), history[|history| - 1]).state
  }

  /** Notifications that are not somebody's private events. */
  predicate Heeded(ev: CommandEvent) { ev.subtype == Notification && ev.origin != UserOrigin }

  // ---------------------------------------------------------------------------------------------
  // Entities and components
  // ---------------------------------------------------------------------------------------------

  predicate AddsEntity(ev: CommandEvent, e: EntityId) { Heeded(ev) && ev.entity == e && ev.IsEntity(EntityAdd) }

  predicate RemovesEntity(ev: CommandEvent, e: EntityId) { Heeded(ev) && ev.entity == e && ev.IsEntity(EntityRemove) }

  predicate Names(ev: CommandEvent, command: ComponentCommand, e: EntityId, c: string) {
    Heeded(ev) && ev.entity == e && ev.IsComponent(command) && ev.payload.name == c
  }

  predicate Clears(ev: CommandEvent, e: EntityId, c: string) { RemovesEntity(ev, e) || Names(ev, ComponentRemove, e, c) }

  predicate SetsValid(ev: CommandEvent, e: EntityId, c: string) {
    Names(ev, ComponentSet, e, c) && ev.payload.newValue != Invalid
  }

  lemma EntityStep(s: Store, ev: CommandEvent, e: EntityId)
    ensures e in StorageSystem.Process(s, ev).state.tables.stored
      <==> AddsEntity(ev, e) || (e in s.tables.stored && !RemovesEntity(ev, e))
  {
  }

  lemma ComponentStep(s: Store, ev: CommandEvent, e: EntityId, c: string)
    ensures var was := Find(s.tables.stored, e, c);
      Find(StorageSystem.Process(s, ev).state.tables.stored, e, c) ==
        if Clears(ev, e, c) then None
        else if Names(ev, ComponentAdd, e, c) && e in s.tables.stored && was.None? then Some(ev.payload.newValue)
        else if SetsValid(ev, e, c) && was.Some? then Some(ev.payload.newValue)
        else was
  {
  }

  /** The entity was added and not removed since. */
  ghost predicate Exists(history: seq<CommandEvent>, e: EntityId) {
    exists i :: 0 <= i < |history| && AddsEntity(history[i], e) && forall j | i < j < |history| :: !RemovesEntity(history[j], e)
  }

  ghost predicate AddedAt(history: seq<CommandEvent>, i: nat, e: EntityId, c: string)
    requires i < |history|
  { Names(history[i], ComponentAdd, e, c) && Exists(history[..i], e) }

  /** The component was added to the entity as long as it was there, and neither was removed since. */
  ghost predicate Has(history: seq<CommandEvent>, e: EntityId, c: string) {
    exists i :: 0 <= i < |history| && AddedAt(history, i, e, c)
      && forall j | i < j < |history| :: !Clears(history[j], e, c)
  }

  /** The event, coming after `before`, makes the component or sets it. */
  ghost predicate Writes(before: seq<CommandEvent>, ev: CommandEvent, e: EntityId, c: string) {
    || (Names(ev, ComponentAdd, e, c) && Exists(before, e) && !Has(before, e, c))
    || (SetsValid(ev, e, c) && Has(before, e, c))
  }

  ghost predicate WritesAt(history: seq<CommandEvent>, i: nat, e: EntityId, c: string)
    requires i < |history|
  { Writes(history[..i], history[i], e, c) }

  ghost predicate Overrules(history: seq<CommandEvent>, j: nat, e: EntityId, c: string)
    requires j < |history|
  { Clears(history[j], e, c) || WritesAt(history, j, e, c) }

  /** v was written last, and nothing cleared it since. */
  ghost predicate Holds(history: seq<CommandEvent>, e: EntityId, c: string, v: Value) {
    exists i :: 0 <= i < |history| && WritesAt(history, i, e, c) && history[i].payload.newValue == v
      && forall j | i < j < |history| :: !Overrules(history, j, e, c)
  }

  lemma ExistsStep(history: seq<CommandEvent>, ev: CommandEvent, e: EntityId)
    ensures Exists(history + [ev], e) <==> AddsEntity(ev, e) || (Exists(history, e) && !RemovesEntity(ev, e))
  {
    var h := history + [ev];
    if AddsEntity(ev, e) { assert AddsEntity(h[|history|], e); }
    if Exists(history, e) && !RemovesEntity(ev, e) {
      var i :| 0 <= i < |history| && AddsEntity(history[i], e) && forall j | i < j < |history| :: !RemovesEntity(history[j], e);
      assert AddsEntity(h[i], e);
      assert forall j | i < j < |h| :: !RemovesEntity(h[j], e);
    }
    if Exists(h, e) && !AddsEntity(ev, e) {
      var i :| 0 <= i < |h| && AddsEntity(h[i], e) && forall j | i < j < |h| :: !RemovesEntity(h[j], e);
      assert AddsEntity(history[i], e) && !RemovesEntity(h[|history|], e);
      assert forall j | i < j < |history| :: history[j] == h[j];
    }
  }

  lemma AddedEarlier(history: seq<CommandEvent>, ev: CommandEvent, i: nat, e: EntityId, c: string)
    requires i < |history|
    ensures AddedAt(history + [ev], i, e, c) == AddedAt(history, i, e, c)
  {
    assert (history + [ev])[..i] == history[..i];
  }

  lemma HadBefore(history: seq<CommandEvent>, ev: CommandEvent, e: EntityId, c: string)
    requires Has(history + [ev], e, c)
    ensures (Names(ev, ComponentAdd, e, c) && Exists(history, e)) || (Has(history, e, c) && !Clears(ev, e, c))
  {
    var h, n := history + [ev], |history|;
    assert h[..n] == history;
    var i :| 0 <= i < |h| && AddedAt(h, i, e, c) && forall j | i < j < |h| :: !Clears(h[j], e, c);
    if i < n {
      AddedEarlier(history, ev, i, e, c);
      assert !Clears(h[n], e, c);
      assert forall j | i < j < n :: history[j] == h[j];
    }
  }

  lemma HasAfter(history: seq<CommandEvent>, ev: CommandEvent, e: EntityId, c: string)
    requires (Names(ev, ComponentAdd, e, c) && Exists(history, e)) || (Has(history, e, c) && !Clears(ev, e, c))
    ensures Has(history + [ev], e, c)
  {
    var h, n := history + [ev], |history|;
    assert h[..n] == history;
    if Names(ev, ComponentAdd, e, c) && Exists(history, e) {
      assert AddedAt(h, n, e, c);
    } else {
      var i :| 0 <= i < n && AddedAt(history, i, e, c) && forall j | i < j < n :: !Clears(history[j], e, c);
      AddedEarlier(history, ev, i, e, c);
      assert forall j | i < j < |h| :: !Clears(h[j], e, c);
    }
  }

  lemma HasStep(history: seq<CommandEvent>, ev: CommandEvent, e: EntityId, c: string)
    ensures Has(history + [ev], e, c)
      <==> (Names(ev, ComponentAdd, e, c) && Exists(history, e)) || (Has(history, e, c) && !Clears(ev, e, c))
  {
    if Has(history + [ev], e, c) { HadBefore(history, ev, e, c); }
    if (Names(ev, ComponentAdd, e, c) && Exists(history, e)) || (Has(history, e, c) && !Clears(ev, e, c)) {
      HasAfter(history, ev, e, c);
    }
  }

  lemma EarlierIsKept(history: seq<CommandEvent>, ev: CommandEvent, i: nat, e: EntityId, c: string)
    requires i < |history|
    ensures WritesAt(history + [ev], i, e, c) == WritesAt(history, i, e, c)
    ensures Overrules(history + [ev], i, e, c) == Overrules(history, i, e, c)
  {
    assert (history + [ev])[..i] == history[..i];
  }

  lemma HeldBefore(history: seq<CommandEvent>, ev: CommandEvent, e: EntityId, c: string, v: Value)
    requires Holds(history + [ev], e, c, v)
    ensures if Writes(history, ev, e, c) then ev.payload.newValue == v else Holds(history, e, c, v) && !Clears(ev, e, c)
  {
    var h, n := history + [ev], |history|;
    assert h[..n] == history;
    var i :| 0 <= i < |h| && WritesAt(h, i, e, c) && h[i].payload.newValue == v
      && forall j | i < j < |h| :: !Overrules(h, j, e, c);
    if i < n {
      assert !Overrules(h, n, e, c);
      EarlierIsKept(history, ev, i, e, c);
      forall j | i < j < n ensures !Overrules(history, j, e, c) { EarlierIsKept(history, ev, j, e, c); }
    }
  }

  lemma HeldAfter(history: seq<CommandEvent>, ev: CommandEvent, e: EntityId, c: string, v: Value)
    requires if Writes(history, ev, e, c) then ev.payload.newValue == v else Holds(history, e, c, v) && !Clears(ev, e, c)
    ensures Holds(history + [ev], e, c, v)
  {
    var h, n := history + [ev], |history|;
    assert h[..n] == history;
    if Writes(history, ev, e, c) {
      assert WritesAt(h, n, e, c);
    } else {
      var i :| 0 <= i < n && WritesAt(history, i, e, c) && history[i].payload.newValue == v
        && forall j | i < j < n :: !Overrules(history, j, e, c);
      EarlierIsKept(history, ev, i, e, c);
      forall j | i < j < |h| ensures !Overrules(h, j, e, c) {
        if j < n { EarlierIsKept(history, ev, j, e, c); }
      }
    }
  }

  lemma HoldsStep(history: seq<CommandEvent>, ev: CommandEvent, e: EntityId, c: string, v: Value)
    ensures Holds(history + [ev], e, c, v) <==>
      if Writes(history, ev, e, c) then ev.payload.newValue == v else Holds(history, e, c, v) && !Clears(ev, e, c)
  {
    var stays := if Writes(history, ev, e, c) then ev.payload.newValue == v else Holds(history, e, c, v) && !Clears(ev, e, c);
    if Holds(history + [ev], e, c, v) { HeldBefore(history, ev, e, c, v); }
    if stays { HeldAfter(history, ev, e, c, v); }
  }

  /** An entity is stored exactly when it was added and not removed since. */
  lemma {:induction false} EntitiesRefineHistory(history: seq<CommandEvent>, e: EntityId)
    ensures e in StoreAfter(history).tables.stored <==> Exists(history, e)
    decreases |history|
  {
    if history != [] {
      var before, ev := history[..|history| - 1], history[|history| - 1];
      assert history == before + [ev];
      EntitiesRefineHistory(before, e);
      ExistsStep(before, ev, e);
      EntityStep(StoreAfter(before), ev, e);
    }
  }

  /** A component is stored exactly when the history has it. */
  lemma {:induction false} ComponentsRefineHistory(history: seq<CommandEvent>, e: EntityId, c: string)
    ensures Find(StoreAfter(history).tables.stored, e, c).Some? <==> Has(history, e, c)
    decreases |history|
  {
    if history != [] {
      var before, ev := history[..|history| - 1], history[|history| - 1];
      assert history == before + [ev];
      ComponentsRefineHistory(before, e, c);
      EntitiesRefineHistory(before, e);
      HasStep(before, ev, e, c);
      ComponentStep(StoreAfter(before), ev, e, c);
    }
  }

  /** A component's value is the one written last, by the ADD that made it or by a valid SET since. */
  lemma {:induction false} ValuesRefineHistory(history: seq<CommandEvent>, e: EntityId, c: string, v: Value)
    ensures Find(StoreAfter(history).tables.stored, e, c) == Some(v) <==> Holds(history, e, c, v)
    decreases |history|
  {
    if history != [] {
      var before, ev := history[..|history| - 1], history[|history| - 1];
      assert history == before + [ev];
      ValuesRefineHistory(before, e, c, v);
      EntitiesRefineHistory(before, e);
      ComponentsRefineHistory(before, e, c);
      HoldsStep(before, ev, e, c, v);
      ComponentStep(StoreAfter(before), ev, e, c);
    }
  }

  // ---------------------------------------------------------------------------------------------
  // Registered procedures
  // ---------------------------------------------------------------------------------------------

  predicate Registers(ev: CommandEvent, e: EntityId, name: string) {
    && ev.origin == Local && ev.entity == e && ev.payload.RpcData?
    && ev.payload.rpcCommand == RpcRegister && ev.payload.procedure == name
  }

  /** So does what a module's procedure posts when it is made. */
  lemma ProceduresRegister(ev: CommandEvent, e: EntityId, name: string)
    requires Rpc.IsRegistration(ev, e, name)
    ensures Registers(ev, e, name)
  {
  }

  /** Adding or removing an entity forgets its procedures, but only when it is done on this side. */
  predicate Forgets(ev: CommandEvent, e: EntityId) { ev.origin == Local && (AddsEntity(ev, e) || RemovesEntity(ev, e)) }

  /** Some registration came in and nothing made the entity's procedures forgotten since. */
  ghost predicate Registered(history: seq<CommandEvent>, e: EntityId, name: string) {
    exists i :: 0 <= i < |history| && Registers(history[i], e, name) && forall j | i < j < |history| :: !Forgets(history[j], e)
  }

  /** All registrations since, in order and with repetitions. */
  function Registrations(history: seq<CommandEvent>, e: EntityId): seq<string>
    decreases |history|
  {
    if history == [] then []
    else
      var before, ev := Registrations(history[..|history| - 1], e), history[|history| - 1];
      if Forgets(ev, e) then []
      else if ev.payload.RpcData? && Registers(ev, e, ev.payload.procedure) then before + [ev.payload.procedure]
      else before
  }

  /** Every name where it occurs first. */
  function Firsts(names: seq<string>): (r: seq<string>)
    ensures forall x :: x in r <==> x in names
    decreases |names|
  {
    if names == [] then []
    else
      var init, last := names[..|names| - 1], names[|names| - 1];
      assert names == init + [last];
      if last in init then Firsts(init) else Firsts(init) + [last]
  }

  lemma {:induction false} FirstsAreDistinct(names: seq<string>)
    ensures forall i, j | 0 <= i < j < |Firsts(names)| :: Firsts(names)[i] != Firsts(names)[j]
    decreases |names|
  {
    if names != [] {
      var init, last := names[..|names| - 1], names[|names| - 1];
      FirstsAreDistinct(init);
      forall i | 0 <= i < |Firsts(init)| && last !in init ensures Firsts(init)[i] != last { assert Firsts(init)[i] in init; }
    }
  }

  /** First occurrences keep their order. */
  lemma {:induction false} FirstsKeepOrder(names: seq<string>, i: nat, j: nat) returns (k: nat, l: nat)
    requires i < j < |Firsts(names)|
    ensures k < l < |names| && names[k] == Firsts(names)[i] && names[l] == Firsts(names)[j]
    ensures names[k] !in names[..k] && names[l] !in names[..l]
    decreases |names|
  {
    var n := |names| - 1;
    var init, last := names[..n], names[n];
    if j < |Firsts(init)| {
      k, l := FirstsKeepOrder(init, i, j);
      assert init[..k] == names[..k] && init[..l] == names[..l];
    } else {
      k := FirstAt(init, Firsts(init)[i]);
      l := n;
      assert init[..k] == names[..k];
    }
  }

  lemma {:induction false} FirstAt(names: seq<string>, name: string) returns (k: nat)
    requires name in names
    ensures k < |names| && names[k] == name && name !in names[..k]
  {
    if names[0] == name {
      k := 0;
    } else {
      k := FirstAt(names[1..], name);
      assert names[1..][..k] == names[1..k + 1] && names[..k + 1] == [names[0]] + names[1..k + 1];
      k := k + 1;
    }
  }

  /** The names storage has for an entity. */
  function NamesOf(s: Store, e: EntityId): seq<string> { if e in s.rpcs then s.rpcs[e] else [] }

  lemma RpcStep(s: Store, ev: CommandEvent, e: EntityId)
    ensures var was, now := NamesOf(s, e), NamesOf(StorageSystem.Process(s, ev).state, e);
      now ==
        if Forgets(ev, e) then []
        else if ev.payload.RpcData? && Registers(ev, e, ev.payload.procedure) && ev.payload.procedure !in was
        then was + [ev.payload.procedure]
        else was
  {
  }

  /** Storage has the registered names, each once, in the order in which they were registered first. */
  lemma {:induction false} ProceduresRefineHistory(history: seq<CommandEvent>, e: EntityId)
    ensures NamesOf(StoreAfter(history), e) == Firsts(Registrations(history, e))
    decreases |history|
  {
    if history != [] {
      var before, ev := history[..|history| - 1], history[|history| - 1];
      var names := Registrations(before, e);
      ProceduresRefineHistory(before, e);
      RpcStep(StoreAfter(before), ev, e);
      if ev.payload.RpcData? {
        var all := names + [ev.payload.procedure];
        assert all[..|all| - 1] == names;
      }
    }
  }

  lemma {:induction false} RegistrationsAreRegistered(history: seq<CommandEvent>, e: EntityId, name: string)
    ensures name in Registrations(history, e) <==> Registered(history, e, name)
    decreases |history|
  {
    if history != [] {
      var before, ev := history[..|history| - 1], history[|history| - 1];
      assert history == before + [ev];
      RegistrationsAreRegistered(before, e, name);
      RegisteredStep(before, ev, e, name);
    }
  }

  lemma RegisteredStep(history: seq<CommandEvent>, ev: CommandEvent, e: EntityId, name: string)
    ensures Registered(history + [ev], e, name) <==> Registers(ev, e, name) || (Registered(history, e, name) && !Forgets(ev, e))
  {
    var h := history + [ev];
    if Registers(ev, e, name) { assert Registers(h[|history|], e, name); }
    if Registered(history, e, name) && !Forgets(ev, e) {
      var i :| 0 <= i < |history| && Registers(history[i], e, name) && forall j | i < j < |history| :: !Forgets(history[j], e);
      assert Registers(h[i], e, name);
      assert forall j | i < j < |h| :: !Forgets(h[j], e);
    }
    if Registered(h, e, name) && !Registers(ev, e, name) {
      var i :| 0 <= i < |h| && Registers(h[i], e, name) && forall j | i < j < |h| :: !Forgets(h[j], e);
      assert Registers(history[i], e, name) && !Forgets(h[|history|], e);
      assert forall j | i < j < |history| :: history[j] == h[j];
    }
  }

  /**
   Over every history: a name is stored, once, exactly when it was registered and not forgotten since; and
   registering it is rejected exactly then.
   */
  lemma ProcedureIsStoredIff(history: seq<CommandEvent>, e: EntityId, name: string, ev: CommandEvent)
    requires Registers(ev, e, name)
    ensures var s := StoreAfter(history);
      && (name in NamesOf(s, e) <==> Registered(history, e, name))
      && (forall i, j | 0 <= i < j < |NamesOf(s, e)| :: NamesOf(s, e)[i] != NamesOf(s, e)[j])
      && (StorageSystem.Process(s, ev).accepted <==> Registered(history, e, name))
      && (StorageSystem.Process(s, ev).posted != [] <==> Registered(history, e, name))
  {
    ProceduresRefineHistory(history, e);
    RegistrationsAreRegistered(history, e, name);
    FirstsAreDistinct(Registrations(history, e));
  }
}
