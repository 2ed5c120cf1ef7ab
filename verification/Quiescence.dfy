/** Left alone, the server's event loop always runs dry. */
module Quiescence {
  import opened Options
  import opened OrderedKeys
  import opened Events
  import opened EventSystems
  import opened ComponentTables
  import opened Server
  import SystemModule
  import IntrospectionSystem
  import StorageSystem
  import NetworkSystem

  // ---------------------------------------------------------------------------------------------
  // How many components there can ever be
  // ---------------------------------------------------------------------------------------------

  ghost function Stored(table: Table<Value>): set<(EntityId, string)> {
    set e, c | e in table && c in table[e] :: (e, c)
  }

  function AddsComponent(p: Payload): nat {
    if p.ComponentData? && p.componentCommand == ComponentAdd then 1 else 0
  }

  /** An ADD can make a component, a SUBSCRIBE can make an entry of a subscriber list. */
  function Grows(p: Payload): nat {
    if p.EntityData? && p.entityCommand == Subscribe then 1 else AddsComponent(p)
  }

  function AddsInEnvelope(envelope: seq<Message>): nat {
    if envelope == [] then 0 else Grows(envelope[0].payload) + AddsInEnvelope(envelope[1..])
  }

  function AddsInItem(item: QueueItem): nat {
    match item
    case Command(ev) => Grows(ev.payload)
    case Inbound(_, envelope) => AddsInEnvelope(envelope)
    case _ => 0
  }

  function Adds(items: seq<QueueItem>): nat {
    if items == [] then 0 else AddsInItem(items[0]) + Adds(items[1..])
  }

  /** Components in the store plus all the queue may still add. */
  ghost function Bound(s: Server): nat { |Stored(s.store.tables.stored)| + Adds(s.queue) }

  lemma {:induction false} AddsOfSum(a: seq<QueueItem>, b: seq<QueueItem>)
    ensures Adds(a + b) == Adds(a) + Adds(b)
  {
    if a == [] { assert a + b == b; } else {
      assert (a + b)[1..] == a[1..] + b;
      AddsOfSum(a[1..], b);
    }
  }

  lemma {:induction false} AddsOfDecoded(envelope: seq<Message>, sender: Peer)
    ensures Adds(Decoded(envelope, sender)) <= AddsInEnvelope(envelope)
  {
    if envelope != [] {
      AddsOfDecoded(envelope[1..], sender);
      var first := if Deliverable(envelope[0]) then [Command(Received(envelope[0], sender))] else [];
      AddsOfSum(first, Decoded(envelope[1..], sender));
      assert Adds(first) <= Grows(envelope[0].payload);
    }
  }

  lemma {:induction false} InnerCount(e: EntityId, inner: map<string, Value>, s: set<(EntityId, string)>)
    requires forall c | c in inner :: (e, c) in s
    ensures |inner| <= |s|
    decreases |inner|
  {
    if inner != map[] {
      var c :| c in inner;
      var rest := inner - {c};
      assert inner.Keys == rest.Keys + {c};
      InnerCount(e, rest, s - {(e, c)});
    }
  }

  lemma SubsetCount(a: set<(EntityId, string)>, b: set<(EntityId, string)>)
    requires a <= b
    ensures |a| <= |b|
  {
    assert b == a + (b - a);
  }

  lemma StoredShrinks(after: Table<Value>, before: Table<Value>)
    requires forall e, c | Find(after, e, c).Some? :: Find(before, e, c).Some?
    ensures |Stored(after)| <= |Stored(before)|
  {
    forall k | k in Stored(after) ensures k in Stored(before) { assert Find(after, k.0, k.1).Some?; }
    SubsetCount(Stored(after), Stored(before));
  }

  lemma StoredGrowsByOne(after: Table<Value>, before: Table<Value>, key: (EntityId, string))
    requires forall e: EntityId, c: string | Find(after, e, c).Some? && (e, c) != key :: Find(before, e, c).Some?
    ensures |Stored(after)| <= |Stored(before)| + 1
  {
    forall k | k in Stored(after) ensures k in Stored(before) + {key} {
      assert Find(after, k.0, k.1).Some?;
    }
    SubsetCount(Stored(after), Stored(before) + {key});
  }

  /** Handling an event makes at most the one component it was a queued ADD for. */
  lemma StorageGrowth(s: Store, ev: CommandEvent)
    ensures |Stored(StorageSystem.Process(s, ev).state.tables.stored)|
      <= |Stored(s.tables.stored)| + AddsComponent(ev.payload)
  {
    var before, after := s.tables.stored, StorageSystem.Process(s, ev).state.tables.stored;
    if ev.IsComponent(ComponentAdd) {
      StoredGrowsByOne(after, before, (ev.entity, ev.payload.name));
    } else if after != before {
      assert forall e, c | Find(after, e, c).Some? :: Find(before, e, c).Some?;
      StoredShrinks(after, before);
    }
  }

  // ---------------------------------------------------------------------------------------------
  // What an item costs
  // ---------------------------------------------------------------------------------------------

  /** An upper bound, strictly above the total weight of everything handling the item can post. */
  function Weight(item: QueueItem, bound: nat): nat {
    match item
    case Command(ev) =>
      (match ev.payload
       case ErrorData(_, _) => 2
       case IntrospectionData(_, _) => 2
       case RpcData(_, _, _) => 3
       case EntityData(_) => 4 + 3 * bound
       case ComponentData(_, _, _, _) => if ev.subtype == Transaction then 6 else 3)
    case Inbound(_, envelope) => 1 + EnvelopeWeight(envelope, bound)
    case _ => 1
  }

  function EnvelopeWeight(envelope: seq<Message>, bound: nat): nat {
    if envelope == [] then 0 else 6 + 3 * bound + EnvelopeWeight(envelope[1..], bound)
  }

  function Measure(items: seq<QueueItem>, bound: nat): nat {
    if items == [] then 0 else Weight(items[0], bound) + Measure(items[1..], bound)
  }

  lemma {:induction false} MeasureOfSum(a: seq<QueueItem>, b: seq<QueueItem>, bound: nat)
    ensures Measure(a + b, bound) == Measure(a, bound) + Measure(b, bound)
  {
    if a == [] { assert a + b == b; } else {
      assert (a + b)[1..] == a[1..] + b;
      MeasureOfSum(a[1..], b, bound);
    }
  }

  lemma {:induction false} EnvelopeWeightGrows(envelope: seq<Message>, small: nat, large: nat)
    requires small <= large
    ensures EnvelopeWeight(envelope, small) <= EnvelopeWeight(envelope, large)
  {
    if envelope != [] { EnvelopeWeightGrows(envelope[1..], small, large); }
  }

  lemma {:induction false} MeasureGrows(items: seq<QueueItem>, small: nat, large: nat)
    requires small <= large
    ensures Measure(items, small) <= Measure(items, large)
  {
    if items != [] {
      if items[0].Inbound? { EnvelopeWeightGrows(items[0].envelope, small, large); }
      MeasureGrows(items[1..], small, large);
    }
  }

  lemma {:induction false} DecodedWeight(envelope: seq<Message>, sender: Peer, bound: nat)
    ensures Measure(Decoded(envelope, sender), bound) <= EnvelopeWeight(envelope, bound)
  {
    if envelope != [] {
      DecodedWeight(envelope[1..], sender, bound);
      var first := if Deliverable(envelope[0]) then [Command(Received(envelope[0], sender))] else [];
      MeasureOfSum(first, Decoded(envelope[1..], sender), bound);
      assert Measure(first, bound) <= 6 + 3 * bound;
    }
  }

  /** Notifications about components weigh 3 each and add nothing to the bound. */
  lemma {:induction false} FetchWeight(items: seq<QueueItem>, bound: nat)
    requires forall i | 0 <= i < |items| :: IsFetch(items[i])
    ensures Measure(items, bound) == 3 * |items| && Adds(items) == 0
  {
    if items != [] { FetchWeight(items[1..], bound); }
  }

  predicate IsFetch(item: QueueItem) {
    item.Command? && item.event.subtype == Notification && item.event.IsComponent(ComponentFetch)
  }

  lemma SnapshotAndFetchesWeight(items: seq<QueueItem>, bound: nat)
    requires items != [] && items[0].Command? && items[0].event.payload.IntrospectionData?
    requires forall i | 1 <= i < |items| :: IsFetch(items[i])
    ensures Measure(items, bound) == 2 + 3 * (|items| - 1) && Adds(items) == 0
  {
    FetchWeight(items[1..], bound);
  }

  lemma AnswerWeight(s: Store, e: EntityId, peer: Peer, bound: nat)
    requires e in s.tables.stored
    ensures var items := IntrospectionSystem.Answer(s, e, peer);
      Measure(items, bound) == 2 + 3 * |s.tables.stored[e]| && Adds(items) == 0
  {
    var items := IntrospectionSystem.Answer(s, e, peer);
    IntrospectionSystem.AnswerStart(s, e, peer);
    forall i | 1 <= i < |items| ensures IsFetch(items[i]) {
      var _ := IntrospectionSystem.AnswerRest(s, e, peer, i);
    }
    SnapshotAndFetchesWeight(items, bound);
  }

  lemma ValidatorWeight(sur: SystemModule.Surroundings, s: SystemModule.State, ev: CommandEvent, bound: nat)
    ensures var o := SystemModule.Process(sur, s, ev);
      && Measure(o.posted, bound) <= (if ev.payload.ComponentData? && ev.subtype == Transaction then 3 else 0)
      && Adds(o.posted) == 0 && o.event.payload == ev.payload && o.event.entity == ev.entity
  {
  }

  lemma ErrorWeight(ev: CommandEvent, reason: Reason, bound: nat)
    ensures Measure(ErrorOut(ev, reason), bound) == 2 && Adds(ErrorOut(ev, reason)) == 0
  {
    assert ErrorOut(ev, reason)[1..] == [];
  }

  lemma SnapshotWeight(s: Store, e: EntityId, peer: Peer, bound: nat)
    requires e in s.tables.stored && |Stored(s.tables.stored)| <= bound
    ensures var items := IntrospectionSystem.Answer(s, e, peer); Measure(items, bound) <= 2 + 3 * bound && Adds(items) == 0
  {
    AnswerWeight(s, e, peer, bound);
    InnerCount(e, s.tables.stored[e], Stored(s.tables.stored));
  }

  lemma IntrospectionWeight(s: Store, ev: CommandEvent, bound: nat)
    requires |Stored(s.tables.stored)| <= bound
    ensures var o := IntrospectionSystem.Process(s, ev);
      && Measure(o.posted, bound) <= (if ev.payload.EntityData? then 2 + 3 * bound else 0)
      && Adds(o.posted) == 0 && o.event == ev
      && (o.posted != [] ==> ev.IsEntity(Subscribe))
  {
    ErrorWeight(ev, NoIntrospection, bound);
    if ev.entity in s.tables.stored { SnapshotWeight(s, ev.entity, ev.peer, bound); }
  }

  lemma StorageWeight(s: Store, ev: CommandEvent, bound: nat)
    ensures var o := StorageSystem.Process(s, ev);
      && Measure(o.posted, bound) <= (if ev.payload.ErrorData? || ev.payload.IntrospectionData? then 0 else 2)
      && Adds(o.posted) == 0 && (!o.accepted ==> o.posted == [])
      && (ev.IsEntity(Subscribe) ==> o.posted == [])
  {
  }

  lemma NetworkWeight(subs: NetworkSystem.Subscriptions, ev: CommandEvent, bound: nat)
    ensures var o := NetworkSystem.ProcessCommand(NetworkSystem.Subscribed, subs, ev);
      Measure(o.posted, bound) <= 1 && Adds(o.posted) == 0
  {
  }

  lemma ComposedWeight(
    s: Server, v: Outcome<SystemModule.State>, i: Outcome<Store>, st: Outcome<Store>,
    n: Outcome<NetworkSystem.Subscriptions>, bound: nat)
    ensures var o := Compose(s, v, i, st, n);
      && Measure(o.posted, bound) <= Measure(v.posted, bound) + Measure(i.posted, bound)
           + (if st.accepted then Measure(st.posted, bound) else Measure(st.posted, bound) + Measure(n.posted, bound))
      && Adds(o.posted) <= Adds(v.posted) + Adds(i.posted) + Adds(st.posted) + Adds(n.posted)
  {
    MeasureOfSum(v.posted, i.posted, bound);
    MeasureOfSum(v.posted + i.posted, st.posted, bound);
    MeasureOfSum(v.posted + i.posted + st.posted, n.posted, bound);
    AddsOfSum(v.posted, i.posted);
    AddsOfSum(v.posted + i.posted, st.posted);
    AddsOfSum(v.posted + i.posted + st.posted, n.posted);
  }

  /** A dispatch posts less than the event weighed and never an ADD. */
  lemma DispatchWeight(sur: SystemModule.Surroundings, s: Server, ev: CommandEvent, bound: nat)
    requires |Stored(s.store.tables.stored)| <= bound
    ensures var o := Dispatch(sur, s, ev);
      && Measure(o.posted, bound) < Weight(Command(ev), bound) && Adds(o.posted) == 0
      && |Stored(o.state.store.tables.stored)| <= |Stored(s.store.tables.stored)| + AddsComponent(ev.payload)
  {
    var v := SystemModule.Process(sur, s.system, ev);
    var i := IntrospectionSystem.Process(s.store, v.event);
    var st := StorageSystem.Process(s.store, i.event);
    var n := NetworkSystem.ProcessCommand(NetworkSystem.Subscribed, s.subs, st.event);
    ValidatorWeight(sur, s.system, ev, bound);
    IntrospectionWeight(s.store, v.event, bound);
    StorageWeight(s.store, i.event, bound);
    NetworkWeight(s.subs, st.event, bound);
    ComposedWeight(s, v, i, st, n, bound);
    StorageGrowth(s.store, i.event);
  }

  // ---------------------------------------------------------------------------------------------
  // The loop
  // ---------------------------------------------------------------------------------------------

  /** One turn against any bound on the number of components. */
  lemma TurnWork(sur: SystemModule.Surroundings, s: Server, bound: nat)
    requires s.queue != [] && |Stored(s.store.tables.stored)| <= bound
    ensures var s' := Handle(sur, s);
      && Measure(s'.queue, bound) < Measure(s.queue, bound)
      && |Stored(s'.store.tables.stored)| + Adds(s'.queue) <= |Stored(s.store.tables.stored)| + Adds(s.queue)
      && (s.queue[0].Command? ==> Adds(s'.queue) + Grows(s.queue[0].event.payload) == Adds(s.queue))
      && Adds(s'.queue) <= Adds(s.queue)
  {
    var item, rest := s.queue[0], s.queue[1..];
    var after := Handle(sur, s);
    var posted := after.queue[|rest|..];
    assert after.queue == rest + posted;
    AddsOfSum(rest, posted);
    MeasureOfSum(rest, posted, bound);
    if item.Command? {
      DispatchWeight(sur, s, item.event, bound);
    } else if item.Inbound? {
      AddsOfDecoded(item.envelope, item.sender);
      DecodedWeight(item.envelope, item.sender, bound);
    }
  }

  ghost function Remaining(s: Server): nat { Measure(s.queue, Bound(s)) }

  /** Every turn of the event loop makes the remaining work strictly smaller. */
  lemma HandleDecreases(sur: SystemModule.Surroundings, s: Server)
    requires s.queue != []
    ensures Bound(Handle(sur, s)) <= Bound(s)
    ensures Remaining(Handle(sur, s)) < Remaining(s)
  {
    TurnWork(sur, s, Bound(s));
    MeasureGrows(Handle(sur, s).queue, Bound(Handle(sur, s)), Bound(s));
  }

  /** The state after the loop ran dry; turn k finds the surroundings sur(k). */
  ghost function Drained(sur: nat -> SystemModule.Surroundings, turn: nat, s: Server): Server
    decreases Remaining(s)
  {
    if s.queue == [] then s
    else
      HandleDecreases(sur(turn), s);
      Drained(sur, turn + 1, Handle(sur(turn), s))
  }

  /**
   The event loop without new input: it ends, after at most `Remaining` turns, whatever the queue holds and
   however the surroundings answer.
   */
  method RunUntilIdle(sur: nat -> SystemModule.Surroundings, start: Server) returns (s: Server, turns: nat)
    ensures s.queue == [] && s == Drained(sur, 0, start)
    ensures turns <= Remaining(start)
  {
    s, turns := start, 0;
    while s.queue != []
      invariant turns + Remaining(s) <= Remaining(start)
      invariant Drained(sur, turns, s) == Drained(sur, 0, start)
      decreases Remaining(s)
    {
      HandleDecreases(sur(turns), s);
      s := Handle(sur(turns), s);
      turns := turns + 1;
    }
  }
}
