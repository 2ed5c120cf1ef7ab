/**
 Replica agreement: a connected, subscribed client's mirror of an entity, with everything in flight applied,
 is the server's entity except for components whose FETCH is still queued.
 */
module Replica {
  import opened Options
  import opened OrderedKeys
  import opened Sequences
  import opened Events
  import opened EventSystems
  import opened ComponentTables
  import opened Server
  import opened Protocol
  import opened Mirror
  import SystemModule
  import IntrospectionSystem
  import StorageSystem
  import NetworkSystem
  import Publishing

  // ---------------------------------------------------------------------------------------------
  // What a dispatch sends to one peer
  // ---------------------------------------------------------------------------------------------

  /** The event as the network system gets it, if it gets it. */
  function Forwarded(sur: SystemModule.Surroundings, s: Server, ev: CommandEvent): Option<CommandEvent> {
    var v := SystemModule.Process(sur, s.system, ev);
    var i := IntrospectionSystem.Process(s.store, v.event);
    var st := StorageSystem.Process(s.store, v.event);
    if v.accepted || i.accepted || st.accepted then None else Some(st.event)
  }

  /** The peer is among the receivers the network system chooses for f. */
  predicate Hears(subs: NetworkSystem.Subscriptions, f: CommandEvent, p: PeerId) {
    && f.Publishable() && !NetworkSystem.IsSubscription(f) && f.entity in subs
    && Some(p) in NetworkSystem.Receivers(subs, f)
  }

  lemma {:induction false} CommandsSendNothing(items: seq<QueueItem>, p: PeerId)
    requires Publishing.AllCommands(items)
    ensures OutFor(items, p) == []
  {
    if items != [] { CommandsSendNothing(items[1..], p); }
  }

  lemma DispatchSends(sur: SystemModule.Surroundings, s: Server, ev: CommandEvent, p: PeerId)
    ensures OutFor(Dispatch(sur, s, ev).posted, p)
      == match Forwarded(sur, s, ev)
         case None => []
         case Some(f) => OutFor(NetworkSystem.ProcessCommand(NetworkSystem.Subscribed, s.subs, f).posted, p)
  {
    var v := SystemModule.Process(sur, s.system, ev);
    var i := IntrospectionSystem.Process(s.store, v.event);
    var st := StorageSystem.Process(s.store, i.event);
    var n := NetworkSystem.ProcessCommand(NetworkSystem.Subscribed, s.subs, st.event);
    Publishing.ValidatorPostsCommands(sur, s.system, ev);
    Publishing.IntrospectionPostsCommands(s.store, v.event);
    Publishing.StoragePostsCommands(s.store, i.event);
    assert i.event == v.event;
    ComposedSends(s, v, i, st, n, p);
  }

  lemma ComposedSends(
    s: Server, v: Outcome<SystemModule.State>, i: Outcome<Store>, st: Outcome<Store>,
    n: Outcome<NetworkSystem.Subscriptions>, p: PeerId)
    requires Publishing.AllCommands(v.posted) && Publishing.AllCommands(i.posted) && Publishing.AllCommands(st.posted)
    ensures OutFor(Compose(s, v, i, st, n).posted, p)
      == if v.accepted || i.accepted || st.accepted then [] else OutFor(n.posted, p)
  {
    var all := Compose(s, v, i, st, n).posted;
    var before := v.posted + i.posted + st.posted;
    CommandsSendNothing(before, p);
    if v.accepted || i.accepted || st.accepted {
      assert Publishing.AllCommands(all);
      CommandsSendNothing(all, p);
    } else {
      OutForSum(before, n.posted, p);
      NothingAdded(OutFor(n.posted, p));
    }
  }

  /** The effect of what the network system sends p: none, or that of the event it hears. */
  lemma SentEffect(subs: NetworkSystem.Subscriptions, f: CommandEvent, p: PeerId, v: View, e: EntityId)
    ensures Fold(v, Good(OutFor(NetworkSystem.ProcessCommand(NetworkSystem.Subscribed, subs, f).posted, p)), e)
      == if Hears(subs, f, p) && Deliverable(Wire(f)) then ApplyView(v, Wire(f), e) else v
  {
    var posted := NetworkSystem.ProcessCommand(NetworkSystem.Subscribed, subs, f).posted;
    if posted != [] {
      Single(posted[0], p);
      NamedOnce(v, posted[0].receivers, p, Wire(f), e);
    }
  }

  function ViewAfter(sur: SystemModule.Surroundings, s: Server, ev: CommandEvent, p: PeerId, v: View, e: EntityId): View {
    Fold(v, Good(OutFor(Dispatch(sur, s, ev).posted, p)), e)
  }

  function EntityAfter(sur: SystemModule.Surroundings, s: Server, ev: CommandEvent, e: EntityId): View {
    ViewOf(Dispatch(sur, s, ev).state.store, e)
  }

  /** Both sides of one dispatch in terms of the event storage gets. */
  lemma BothSides(sur: SystemModule.Surroundings, s: Server, ev: CommandEvent, p: PeerId, v: View, e: EntityId)
    ensures var vo := SystemModule.Process(sur, s.system, ev);
      var i := IntrospectionSystem.Process(s.store, vo.event);
      var st := StorageSystem.Process(s.store, vo.event);
      && EntityAfter(sur, s, ev, e) == (if vo.accepted || i.accepted then ViewOf(s.store, e) else ViewOf(st.state, e))
      && ViewAfter(sur, s, ev, p, v, e)
         == (if vo.accepted || i.accepted || st.accepted || !Hears(s.subs, st.event, p) || !Deliverable(Wire(st.event)) then v
             else ApplyView(v, Wire(st.event), e))
  {
    DispatchSends(sur, s, ev, p);
    var f := Forwarded(sur, s, ev);
    if f.Some? { SentEffect(s.subs, f.value, p, v, e); }
  }

  // ---------------------------------------------------------------------------------------------
  // What one command does to the server's entity and to the view of a subscriber
  // ---------------------------------------------------------------------------------------------

  predicate Changes(ev: CommandEvent) {
    ev.IsComponent(ComponentAdd) || ev.IsComponent(ComponentRemove) || ev.IsComponent(ComponentSet)
  }

  /** Transactions, or what storage ignores, or notifications the subscribers get to see. */
  predicate Visible(ev: CommandEvent) {
    ev.subtype == Transaction || ev.origin == UserOrigin || ev.Publishable()
  }

  predicate IsFetchOf(item: QueueItem, e: EntityId, c: string) {
    && item.Command? && item.event.entity == e && item.event.IsComponent(ComponentFetch) && item.event.payload.name == c
    && (item.event.subtype == Transaction || item.event.origin != UserOrigin)
  }

  /** An introspection that p will get. */
  predicate IsIntroFor(item: QueueItem, p: PeerId, e: EntityId) {
    && item.Command? && item.event.entity == e && item.event.payload.IntrospectionData?
    && item.event.payload.values != map[] && item.event.peer == Some(p)
    && (item.event.subtype == Transaction || item.event.Publishable())
  }

  function Wrote(e: EntityId, command: ComponentCommand, c: string, x: Value): Message {
    Message(Notification, e, ComponentData(command, c, x, Invalid))
  }

  lemma StorageElsewhere(s: Store, ev: CommandEvent, e: EntityId)
    requires ev.entity != e
    ensures ViewOf(StorageSystem.Process(s, ev).state, e) == ViewOf(s, e)
  {
  }

  lemma ElsewhereEffect(sur: SystemModule.Surroundings, s: Server, ev: CommandEvent, p: PeerId, v: View, e: EntityId)
    requires ev.entity != e
    ensures ViewAfter(sur, s, ev, p, v, e) == v && EntityAfter(sur, s, ev, e) == ViewOf(s.store, e)
  {
    BothSides(sur, s, ev, p, v, e);
    var ev' := SystemModule.Process(sur, s.system, ev).event;
    Publishing.ValidatorKeepsHeader(sur, s.system, ev);
    Publishing.StorageKeepsHeader(s.store, ev');
    StorageElsewhere(s.store, ev', e);
  }

  /** A change is made on both sides or on neither. */
  lemma ChangeEffect(sur: SystemModule.Surroundings, s: Server, ev: CommandEvent, p: PeerId, v: View, e: EntityId)
    returns (made: bool)
    requires ev.entity == e && Changes(ev) && Visible(ev)
    requires ViewOf(s.store, e).Some? && Some(p) in NetworkSystem.Subscribers(s.subs, e)
    ensures var d := ViewOf(s.store, e);
      var m := Wrote(e, ev.payload.componentCommand, ev.payload.name, ev.payload.newValue);
      && ViewAfter(sur, s, ev, p, v, e) == (if made then ApplyView(v, m, e) else v)
      && EntityAfter(sur, s, ev, e) == (if made then ApplyView(d, m, e) else d)
      && (made ==> (ev.payload.name in d.value <==> ev.payload.componentCommand != ComponentAdd))
  {
    BothSides(sur, s, ev, p, v, e);
    var vo := SystemModule.Process(sur, s.system, ev);
    made := !vo.accepted && vo.event.subtype == Notification && !StorageSystem.Process(s.store, vo.event).accepted
      && vo.event.origin != UserOrigin;
    Publishing.ValidatorKeepsHeader(sur, s.system, ev);
    if !vo.accepted { StoredChange(s.store, vo.event); }
  }

  lemma StoredChange(s: Store, ev: CommandEvent)
    requires Changes(ev) && ViewOf(s, ev.entity).Some?
    ensures var o := StorageSystem.Process(s, ev);
      var d := ViewOf(s, ev.entity);
      var m := Wrote(ev.entity, ev.payload.componentCommand, ev.payload.name, ev.payload.newValue);
      && o.event == ev
      && (o.accepted || ev.subtype == Transaction || ev.origin == UserOrigin ==> o.state == s)
      && (!o.accepted && ev.subtype == Notification && ev.origin != UserOrigin ==>
          && ViewOf(o.state, ev.entity) == ApplyView(d, m, ev.entity)
          && (ev.payload.name in d.value <==> ev.payload.componentCommand != ComponentAdd))
  {
  }

  /** Storage accepts a FETCH only to reject it; otherwise it writes what it has into it, for everybody. */
  lemma StoredFetch(s: Store, ev: CommandEvent)
    requires ev.IsComponent(ComponentFetch) && Publishing.FetchAnswerable(s.tables, ev) && ev.entity in s.tables.stored
    requires ev.subtype == Notification && ev.origin != UserOrigin
    ensures var o := StorageSystem.Process(s, ev);
      var c, d := ev.payload.name, s.tables.stored[ev.entity];
      && o.state == s
      && (if o.accepted then c !in d else
          && o.event.Publishable() && o.event.entity == ev.entity && o.event.IsComponent(ComponentFetch)
          && o.event.payload.name == c && o.event.subtype == Notification
          && (c in d ==> o.event.payload.newValue == d[c]))
  {
  }

  lemma IgnoredFetch(s: Store, ev: CommandEvent)
    requires ev.IsComponent(ComponentFetch) && ev.subtype == Notification && ev.origin == UserOrigin
    ensures StorageSystem.Process(s, ev) == Pass(s, ev)
  {
  }

  lemma ValidatedFetch(sur: SystemModule.Surroundings, s: SystemModule.State, ev: CommandEvent)
    requires ev.IsComponent(ComponentFetch)
    ensures var o := SystemModule.Process(sur, s, ev);
      !o.accepted && o.event == if ev.subtype == Transaction then SystemModule.Validated(ev) else ev
  {
  }

  /** The answer to a FETCH tells the subscriber what the server has. */
  lemma FetchEffect(sur: SystemModule.Surroundings, s: Server, ev: CommandEvent, p: PeerId, v: View, e: EntityId)
    returns (x: Value)
    requires ev.entity == e && ev.IsComponent(ComponentFetch) && Publishing.FetchAnswerable(s.store.tables, ev)
    requires ViewOf(s.store, e).Some? && Some(p) in NetworkSystem.Subscribers(s.subs, e)
    ensures var c, d := ev.payload.name, ViewOf(s.store, e);
      && EntityAfter(sur, s, ev, e) == d
      && (if IsFetchOf(Command(ev), e, c)
          then ViewAfter(sur, s, ev, p, v, e) == ApplyView(v, Wrote(e, ComponentFetch, c, x), e)
            && (c in d.value ==> x == d.value[c])
          else ViewAfter(sur, s, ev, p, v, e) == v)
  {
    BothSides(sur, s, ev, p, v, e);
    ValidatedFetch(sur, s.system, ev);
    var ev' := SystemModule.Process(sur, s.system, ev).event;
    var c := ev.payload.name;
    if !IsFetchOf(Command(ev), e, c) {
      IgnoredFetch(s.store, ev);
      x := Invalid;
    } else {
      StoredFetch(s.store, ev');
      var f := StorageSystem.Process(s.store, ev');
      if f.accepted {
        x := if v.Some? && c in v.value then v.value[c] else Invalid;
        assert v.Some? && c in v.value ==> v.value[c := x] == v.value;
      } else {
        x := f.event.payload.newValue;
      }
    }
  }

  lemma IntrospectionEffect(sur: SystemModule.Surroundings, s: Server, ev: CommandEvent, p: PeerId, v: View, e: EntityId)
    requires ev.entity == e && ev.payload.IntrospectionData? && e in s.subs
    ensures EntityAfter(sur, s, ev, e) == ViewOf(s.store, e)
    ensures ViewAfter(sur, s, ev, p, v, e)
      == if IsIntroFor(Command(ev), p, e) && v.None? then Some(ev.payload.values) else v
  {
    BothSides(sur, s, ev, p, v, e);
  }

  lemma StoredOther(s: Store, ev: CommandEvent)
    requires ev.entity in s.tables.stored
    requires !ev.payload.IntrospectionData? && !ev.IsEntity(EntityRemove)
    requires ev.payload.ComponentData? ==> ev.IsComponent(NoComponentCommand)
    ensures var o := StorageSystem.Process(s, ev); o.state.tables == s.tables && o.event == ev
  {
  }

  /** Everything else about the entity that does not remove it or end a subscription. */
  lemma OtherEffect(sur: SystemModule.Surroundings, s: Server, ev: CommandEvent, p: PeerId, v: View, e: EntityId)
    requires ev.entity == e && ViewOf(s.store, e).Some?
    requires !ev.payload.IntrospectionData? && !ev.IsEntity(EntityRemove) && !ev.IsEntity(Unsubscribe)
    requires ev.payload.ComponentData? ==> ev.IsComponent(NoComponentCommand)
    ensures ViewAfter(sur, s, ev, p, v, e) == v && EntityAfter(sur, s, ev, e) == ViewOf(s.store, e)
  {
    BothSides(sur, s, ev, p, v, e);
    Publishing.ValidatorKeepsHeader(sur, s.system, ev);
    StoredOther(s.store, SystemModule.Process(sur, s.system, ev).event);
  }

  // ---------------------------------------------------------------------------------------------
  // What still waits in the server's queue
  // ---------------------------------------------------------------------------------------------

  ghost predicate FetchPending(q: seq<QueueItem>, e: EntityId, c: string) {
    exists k :: 0 <= k < |q| && IsFetchOf(q[k], e, c)
  }

  /** The snapshot in the first introspection for p. */
  function NextIntro(q: seq<QueueItem>, p: PeerId, e: EntityId): View {
    if q == [] then None
    else if IsIntroFor(q[0], p, e) then Some(q[0].event.payload.values)
    else NextIntro(q[1..], p, e)
  }

  function AfterIntro(q: seq<QueueItem>, p: PeerId, e: EntityId): seq<QueueItem> {
    if q == [] then [] else if IsIntroFor(q[0], p, e) then q[1..] else AfterIntro(q[1..], p, e)
  }

  lemma {:induction false} IntroStays(q: seq<QueueItem>, items: seq<QueueItem>, p: PeerId, e: EntityId)
    requires NextIntro(q, p, e).Some?
    ensures NextIntro(q + items, p, e) == NextIntro(q, p, e)
    ensures AfterIntro(q + items, p, e) == AfterIntro(q, p, e) + items
  {
    SumHead(q, items);
    if !IsIntroFor(q[0], p, e) { IntroStays(q[1..], items, p, e); }
  }

  lemma {:induction false} IntroComes(q: seq<QueueItem>, items: seq<QueueItem>, p: PeerId, e: EntityId)
    requires NextIntro(q, p, e).None?
    ensures NextIntro(q + items, p, e) == NextIntro(items, p, e)
    ensures AfterIntro(q + items, p, e) == AfterIntro(items, p, e)
  {
    if q == [] { NothingAdded(items); } else {
      SumHead(q, items);
      IntroComes(q[1..], items, p, e);
    }
  }

  lemma PendingInSum(a: seq<QueueItem>, b: seq<QueueItem>, e: EntityId, c: string)
    requires FetchPending(a, e, c) || FetchPending(b, e, c)
    ensures FetchPending(a + b, e, c)
  {
    if FetchPending(a, e, c) {
      var k :| 0 <= k < |a| && IsFetchOf(a[k], e, c);
      assert (a + b)[k] == a[k];
    } else {
      var k :| 0 <= k < |b| && IsFetchOf(b[k], e, c);
      assert (a + b)[|a| + k] == b[k];
    }
  }

  lemma PendingInTail(q: seq<QueueItem>, e: EntityId, c: string)
    requires q != [] && FetchPending(q, e, c) && !IsFetchOf(q[0], e, c)
    ensures FetchPending(q[1..], e, c)
  {
    var k :| 0 <= k < |q| && IsFetchOf(q[k], e, c);
    assert q[1..][k - 1] == q[k];
  }

  // ---------------------------------------------------------------------------------------------
  // The relation between the view of a subscriber and the server's entity
  // ---------------------------------------------------------------------------------------------

  /** Every component both sides have agrees, or its FETCH is still to come. */
  ghost predicate Close(v: map<string, Value>, d: map<string, Value>, q: seq<QueueItem>, e: EntityId) {
    forall c | c in v && c in d :: v[c] == d[c] || FetchPending(q, e, c)
  }

  /** Nothing is mirrored yet; an introspection and then a FETCH of every component in it are on their way. */
  ghost predicate Waiting(v: View, d: map<string, Value>, q: seq<QueueItem>, p: PeerId, e: EntityId) {
    && v.None? && NextIntro(q, p, e).Some?
    && forall c | c in d && c in NextIntro(q, p, e).value :: FetchPending(AfterIntro(q, p, e), e, c)
  }

  ghost predicate Related(v: View, d: View, q: seq<QueueItem>, p: PeerId, e: EntityId) {
    && d.Some?
    && (Waiting(v, d.value, q, p, e) || (v.Some? && Close(v.value, d.value, q, e)))
  }

  /** The component names the mirror has or is going to get. */
  function Names(v: View, q: seq<QueueItem>, p: PeerId, e: EntityId): set<string> {
    if v.Some? then v.value.Keys else if NextIntro(q, p, e).Some? then NextIntro(q, p, e).value.Keys else {}
  }

  lemma RelatedGrows(v: View, d: View, q: seq<QueueItem>, items: seq<QueueItem>, p: PeerId, e: EntityId)
    requires Related(v, d, q, p, e)
    ensures Related(v, d, q + items, p, e) && Names(v, q + items, p, e) == Names(v, q, p, e)
  {
    if v.None? {
      IntroStays(q, items, p, e);
      forall c | c in d.value && c in NextIntro(q, p, e).value ensures FetchPending(AfterIntro(q + items, p, e), e, c) {
        PendingInSum(AfterIntro(q, p, e), items, e, c);
      }
    } else {
      forall c | c in v.value && c in d.value && v.value[c] != d.value[c] ensures FetchPending(q + items, e, c) {
        PendingInSum(q, items, e, c);
      }
    }
  }

  /** The head is neither a FETCH of e nor its introspection for p. */
  lemma RelatedWithoutHead(v: View, d: View, q: seq<QueueItem>, p: PeerId, e: EntityId)
    requires q != [] && Related(v, d, q, p, e) && !IsIntroFor(q[0], p, e)
    requires forall c :: !IsFetchOf(q[0], e, c)
    ensures Related(v, d, q[1..], p, e) && Names(v, q[1..], p, e) == Names(v, q, p, e)
  {
    if v.Some? {
      forall c | c in v.value && c in d.value && v.value[c] != d.value[c] ensures FetchPending(q[1..], e, c) {
        PendingInTail(q, e, c);
      }
    }
  }

  /** Both sides write the same value into the same component; `command` is SET, ADD or REMOVE. */
  lemma RelatedAfterChange(v: View, d: View, q: seq<QueueItem>, p: PeerId, e: EntityId, m: Message)
    requires Related(v, d, q, p, e) && m.subtype == Notification && m.entity == e
    requires m.payload.ComponentData?
    requires m.payload.componentCommand in {ComponentAdd, ComponentRemove, ComponentSet}
    requires m.payload.name in d.value <==> m.payload.componentCommand != ComponentAdd
    requires m.payload.componentCommand != ComponentSet ==> Names(v, q, p, e) == d.value.Keys
    ensures var v', d' := ApplyView(v, m, e), ApplyView(d, m, e);
      && Related(v', d', q, p, e)
      && (m.payload.componentCommand == ComponentSet ==> Names(v', q, p, e) == Names(v, q, p, e) && d'.value.Keys == d.value.Keys)
      && (m.payload.componentCommand != ComponentSet ==>
            d'.value.Keys != d.value.Keys && (Names(v', q, p, e) == d'.value.Keys <==> v.Some?))
  {
    var c, x := m.payload.name, m.payload.newValue;
    if m.payload.componentCommand != ComponentSet {
      assert c in ApplyView(d, m, e).value.Keys <==> c !in d.value.Keys;
    } else {
      assert d.value[c := x].Keys == d.value.Keys;
      assert v.Some? && c in v.value ==> v.value[c := x].Keys == v.value.Keys;
    }
  }

  /** The FETCH of c at the head is answered. */
  lemma RelatedAfterFetch(v: View, d: View, q: seq<QueueItem>, p: PeerId, e: EntityId, c: string, x: Value)
    requires q != [] && Related(v, d, q, p, e) && IsFetchOf(q[0], e, c) && (c in d.value ==> x == d.value[c])
    ensures var v' := ApplyView(v, Wrote(e, ComponentFetch, c, x), e);
      Related(v', d, q[1..], p, e) && Names(v', q[1..], p, e) == Names(v, q, p, e)
  {
    if v.Some? {
      var v' := ApplyView(v, Wrote(e, ComponentFetch, c, x), e);
      assert v'.value.Keys == v.value.Keys;
      forall b | b in v'.value && b in d.value && v'.value[b] != d.value[b] ensures FetchPending(q[1..], e, b) {
        assert b != c && v'.value[b] == v.value[b];
        PendingInTail(q, e, b);
      }
    }
  }
}
