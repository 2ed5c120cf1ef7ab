/** Storage comes before the network: what is published agrees with the store, what is rejected is not published. */
module Publishing {
  import opened Options
  import opened Events
  import opened EventSystems
  import opened ComponentTables
  import opened Server
  import SystemModule
  import IntrospectionSystem
  import StorageSystem
  import NetworkSystem

  predicate Publishes(items: seq<QueueItem>, m: Message) {
    exists i :: 0 <= i < |items| && items[i].Outbound? && items[i].message == m
  }

  predicate IsError(item: QueueItem) { item.Command? && item.event.payload.ErrorData? }

  ghost predicate PostsError(items: seq<QueueItem>) {
    exists i :: 0 <= i < |items| && IsError(items[i])
  }

  /** What a published notification claims about the store holds in the store right after the same dispatch. */
  ghost predicate Agrees(tables: Tables<Value>, m: Message) {
    match m.payload
    case ComponentData(command, c, v, _) =>
      (match command
       case ComponentAdd => Find(tables.stored, m.entity, c) == Some(v)
       case ComponentSet => Find(tables.stored, m.entity, c) == Some(v)
       case ComponentRemove => Find(tables.stored, m.entity, c) == None
       case ComponentFetch => tables.Lookup(m.entity, c) == Some(v)
       case NoComponentCommand => true)
    case EntityData(command) =>
      (match command
       case EntityAdd => m.entity in tables.stored && tables.stored[m.entity] == map[]
       case EntityRemove => m.entity !in tables.stored
       case _ => true)
    case _ => true
  }

  /**
   A FETCH answer is wrong exactly when the component's value is invalid while the request brought a
   valid value along: the answer is written into the request, and invalid values are never written.
   */
  predicate FetchAnswerable(tables: Tables<Value>, ev: CommandEvent) {
    ev.IsComponent(ComponentFetch) ==>
      tables.Lookup(ev.entity, ev.payload.name) == Some(Invalid) ==> ev.payload.newValue == Invalid
  }

  predicate AllCommands(items: seq<QueueItem>) {
    forall i | 0 <= i < |items| :: items[i].Command?
  }

  lemma ValidatorPostsCommands(sur: SystemModule.Surroundings, s: SystemModule.State, ev: CommandEvent)
    ensures AllCommands(SystemModule.Process(sur, s, ev).posted)
    ensures !PostsError(SystemModule.Process(sur, s, ev).posted)
  {
  }

  lemma ValidatorKeepsHeader(sur: SystemModule.Surroundings, s: SystemModule.State, ev: CommandEvent)
    ensures var o := SystemModule.Process(sur, s, ev);
      && o.event.payload == ev.payload && o.event.entity == ev.entity && o.event.peer == ev.peer
      && (o.event == ev || (ev.subtype == Transaction && o.event == SystemModule.Validated(ev)))
  {
  }

  lemma AnswerIsCommands(s: Store, e: EntityId, peer: Peer)
    requires e in s.tables.stored
    ensures AllCommands(IntrospectionSystem.Answer(s, e, peer)) && !PostsError(IntrospectionSystem.Answer(s, e, peer))
  {
    var items := IntrospectionSystem.Answer(s, e, peer);
    IntrospectionSystem.AnswerStart(s, e, peer);
    forall i | 0 <= i < |items| ensures items[i].Command? && !IsError(items[i]) {
      if i > 0 { var _ := IntrospectionSystem.AnswerRest(s, e, peer, i); }
    }
  }

  lemma IntrospectionPostsCommands(s: Store, ev: CommandEvent)
    ensures AllCommands(IntrospectionSystem.Process(s, ev).posted)
    ensures !IntrospectionSystem.Process(s, ev).accepted ==> !PostsError(IntrospectionSystem.Process(s, ev).posted)
  {
    var posted := IntrospectionSystem.Process(s, ev).posted;
    if ev.entity in s.tables.stored {
      AnswerIsCommands(s, ev.entity, ev.peer);
      assert posted in {[], IntrospectionSystem.Answer(s, ev.entity, ev.peer), ErrorOut(ev, NoIntrospection)};
    }
  }

  lemma StoragePostsCommands(s: Store, ev: CommandEvent)
    ensures var o := StorageSystem.Process(s, ev);
      AllCommands(o.posted) && (!o.accepted ==> o.posted == [])
  {
  }

  lemma OutboundIsLast(before: seq<QueueItem>, last: seq<QueueItem>, m: Message)
    requires AllCommands(before) && Publishes(before + last, m)
    ensures Publishes(last, m)
  {
    var all := before + last;
    var i :| 0 <= i < |all| && all[i].Outbound? && all[i].message == m;
    assert i >= |before| by { assert forall j | 0 <= j < |before| :: all[j] == before[j]; }
    assert last[i - |before|] == all[i];
  }

  /** Whatever is published went through the whole chain and was handed on by storage and not accepted. */
  lemma PublishedPassedStorage(sur: SystemModule.Surroundings, s: Server, ev: CommandEvent, m: Message)
    requires Publishes(Dispatch(sur, s, ev).posted, m)
    ensures var v := SystemModule.Process(sur, s.system, ev);
      var st := StorageSystem.Process(s.store, v.event);
      && !v.accepted && !st.accepted
      && Dispatch(sur, s, ev).state.store == st.state
      && m == Wire(st.event) && st.event.Publishable()
  {
    var v := SystemModule.Process(sur, s.system, ev);
    var i := IntrospectionSystem.Process(s.store, v.event);
    var st := StorageSystem.Process(s.store, i.event);
    var n := NetworkSystem.ProcessCommand(NetworkSystem.Subscribed, s.subs, st.event);
    ValidatorPostsCommands(sur, s.system, ev);
    IntrospectionPostsCommands(s.store, v.event);
    StoragePostsCommands(s.store, i.event);
    ComposedPublisher(s, v, i, st, n, m);
  }

  lemma ComposedPublisher(
    s: Server, v: Outcome<SystemModule.State>, i: Outcome<Store>, st: Outcome<Store>,
    n: Outcome<NetworkSystem.Subscriptions>, m: Message)
    requires AllCommands(v.posted) && AllCommands(i.posted) && AllCommands(st.posted)
    requires Publishes(Compose(s, v, i, st, n).posted, m)
    ensures !v.accepted && !i.accepted && !st.accepted && Publishes(n.posted, m)
  {
    var all := Compose(s, v, i, st, n).posted;
    assert v.accepted || i.accepted || st.accepted ==> AllCommands(all);
    var k :| 0 <= k < |all| && all[k].Outbound? && all[k].message == m;
    assert !all[k].Command?;
    OutboundIsLast(v.posted + i.posted + st.posted, n.posted, m);
  }

  lemma StorageAgrees(s: Store, ev: CommandEvent)
    requires ev.subtype == Notification && ev.origin != UserOrigin && !StorageSystem.Process(s, ev).accepted
    ensures var o := StorageSystem.Process(s, ev);
      Agrees(o.state.tables, Wire(o.event)) <==> FetchAnswerable(s.tables, ev)
  {
    if ev.IsComponent(ComponentAdd) {
      var c, v := ev.payload.name, ev.payload.newValue;
      assert Find(s.tables.Insert(ev.entity, c, v).stored, ev.entity, c) == Some(v);
    }
  }

  /**
   Apply before publish: whatever notification leaves for the subscribers agrees with the store as the same
   dispatch left it; for a FETCH answer this is so exactly when it was answerable.
   */
  lemma ApplyBeforePublish(sur: SystemModule.Surroundings, s: Server, ev: CommandEvent, m: Message)
    requires Publishes(Dispatch(sur, s, ev).posted, m) && m.subtype == Notification
    ensures Agrees(Dispatch(sur, s, ev).state.store.tables, m) <==> FetchAnswerable(s.store.tables, ev)
  {
    PublishedPassedStorage(sur, s, ev, m);
    var v := SystemModule.Process(sur, s.system, ev).event;
    ValidatorKeepsHeader(sur, s.system, ev);
    StorageKeepsHeader(s.store, v);
    StorageAgrees(s.store, v);
  }

  /** An unanswerable FETCH: the component has no value yet, so the subscriber is told the requester's value. */
  lemma FetchCanEcho(sur: SystemModule.Surroundings, s: Server)
    requires s.store.tables == Tables(map[1 := map["c" := Invalid]], map[]) && s.subs == map[1 := [Some(7)]]
    ensures var fetch := ComponentData(ComponentFetch, "c", Text("mine"), Invalid);
      var ev := CommandEvent(Transaction, 1, fetch, Foreign, Irrelevant, Some(8));
      var m := Message(Notification, 1, ComponentData(ComponentFetch, "c", Text("mine"), Invalid));
      && Publishes(Dispatch(sur, s, ev).posted, m)
      && !Agrees(Dispatch(sur, s, ev).state.store.tables, m)
  {
    var ev := CommandEvent(Transaction, 1, ComponentData(ComponentFetch, "c", Text("mine"), Invalid), Foreign, Irrelevant, Some(8));
    var o := Dispatch(sur, s, ev);
    assert o.posted[0] == Outbound([Some(7)], Message(Notification, 1, ComponentData(ComponentFetch, "c", Text("mine"), Invalid)));
  }

  /** Storage rewrites nothing but a FETCH, and that only when it answers it. */
  lemma StorageKeepsHeader(s: Store, ev: CommandEvent)
    ensures var o := StorageSystem.Process(s, ev);
      && o.event.subtype == ev.subtype && o.event.entity == ev.entity && o.event.peer == ev.peer
      && (o.event.Publishable() && ev.subtype == Notification ==> ev.origin != UserOrigin)
  {
  }

  ghost predicate OneError(items: seq<QueueItem>) {
    exists k :: 0 <= k < |items| && OnlyErrorAt(items, k)
  }

  ghost predicate OnlyErrorAt(items: seq<QueueItem>, k: nat)
    requires k < |items|
  { IsError(items[k]) && forall j | 0 <= j < |items| && IsError(items[j]) :: j == k }

  lemma OneErrorLast(before: seq<QueueItem>, last: seq<QueueItem>)
    requires !PostsError(before) && |last| == 1 && IsError(last[0])
    ensures OneError(before + last)
  {
    var all := before + last;
    assert IsError(all[|before|]);
    assert forall j | 0 <= j < |before| :: all[j] == before[j] && !IsError(before[j]);
    assert OnlyErrorAt(all, |before|);
  }

  /** A command rejected by introspection or storage: one error, nothing published, the store as it was. */
  lemma RejectedIsSilent(sur: SystemModule.Surroundings, s: Server, ev: CommandEvent)
    requires PostsError(Dispatch(sur, s, ev).posted)
    ensures var o := Dispatch(sur, s, ev);
      && o.accepted && OneError(o.posted) && (forall m :: !Publishes(o.posted, m))
      && o.state.store.tables == s.store.tables && o.state.subs == s.subs
  {
    var v := SystemModule.Process(sur, s.system, ev);
    var i := IntrospectionSystem.Process(s.store, v.event);
    var st := StorageSystem.Process(s.store, i.event);
    var n := NetworkSystem.ProcessCommand(NetworkSystem.Subscribed, s.subs, st.event);
    ValidatorPostsCommands(sur, s.system, ev);
    IntrospectionPostsCommands(s.store, v.event);
    IntrospectionRejects(s.store, v.event);
    StoragePostsCommands(s.store, i.event);
    StorageRejects(s.store, i.event);
    ComposedReject(s, v, i, st, n);
  }

  lemma IntrospectionRejects(s: Store, ev: CommandEvent)
    ensures var o := IntrospectionSystem.Process(s, ev); o.accepted ==> |o.posted| == 1 && IsError(o.posted[0])
  {
  }

  lemma StorageRejects(s: Store, ev: CommandEvent)
    ensures var o := StorageSystem.Process(s, ev);
      o.posted != [] ==> o.accepted && |o.posted| == 1 && IsError(o.posted[0]) && o.state.tables == s.tables
  {
  }

  lemma ComposedReject(
    s: Server, v: Outcome<SystemModule.State>, i: Outcome<Store>, st: Outcome<Store>,
    n: Outcome<NetworkSystem.Subscriptions>)
    requires AllCommands(v.posted) && !PostsError(v.posted)
    requires AllCommands(i.posted) && (!i.accepted ==> !PostsError(i.posted))
    requires i.accepted ==> |i.posted| == 1 && IsError(i.posted[0])
    requires st.posted != [] ==>
      st.accepted && |st.posted| == 1 && IsError(st.posted[0]) && st.state.tables == s.store.tables
    requires !PostsError(n.posted)
    requires PostsError(Compose(s, v, i, st, n).posted)
    ensures var o := Compose(s, v, i, st, n);
      && o.accepted && OneError(o.posted) && (forall m :: !Publishes(o.posted, m))
      && o.state.store.tables == s.store.tables && o.state.subs == s.subs
  {
    var o := Compose(s, v, i, st, n);
    var before := v.posted + i.posted;
    if i.accepted {
      OneErrorLast(v.posted, i.posted);
      assert AllCommands(o.posted);
    } else {
      assert !PostsError(before);
      assert st.posted == [] ==> o.posted == before || o.posted == before + n.posted;
      assert st.posted != [];
      OneErrorLast(before, st.posted);
      assert AllCommands(o.posted);
    }
  }
}
