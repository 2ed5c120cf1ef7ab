/** Who gets which event over the network: the subscription table and the routing it decides. */
module NetworkSystem {
  import opened Options
  import opened Sequences
  import opened Events
  import opened EventSystems

  type Subscriptions = map<EntityId, seq<Peer>>

  /** Clients pass everything on, servers only what a peer subscribed to. */
  datatype Mode = PassThrough | Subscribed

  function Subscribers(subs: Subscriptions, e: EntityId): seq<Peer> {
    if e in subs then subs[e] else []
  }

  function RemoveAll(s: seq<Peer>, p: Peer): (r: seq<Peer>)
    ensures forall x :: x in r <==> x in s && x != p
    ensures |r| <= |s|
  {
    if s == [] then [] else (if s[0] == p then [] else [s[0]]) + RemoveAll(s[1..], p)
  }

  /** Introspections and RPC data answer one peer, everything else informs all subscribers. */
  predicate IsUnicast(ev: CommandEvent) { ev.payload.IntrospectionData? || ev.payload.RpcData? }

  predicate IsSubscription(ev: CommandEvent) {
    ev.Publishable() && ev.subtype == Notification && ev.IsEntity(Subscribe)
  }

  function Receivers(subs: Subscriptions, ev: CommandEvent): seq<Peer> {
    if IsUnicast(ev) then [ev.peer] else Subscribers(subs, ev.entity)
  }

  function AfterForwarding(subs: Subscriptions, ev: CommandEvent): Subscriptions
    requires ev.entity in subs
  {
    if ev.IsEntity(Unsubscribe) then subs[ev.entity := RemoveAll(subs[ev.entity], ev.peer)]
    else if ev.IsEntity(EntityRemove) then subs - {ev.entity}
    else subs
  }

  function ProcessCommand(mode: Mode, subs: Subscriptions, ev: CommandEvent): Outcome<Subscriptions> {
    if !ev.Publishable() then Pass(subs, ev)
    else
      match mode
      case PassThrough =>
        Outcome(subs, ev, false, [Outbound(if ev.peer.Some? then [ev.peer] else [], Wire(ev))])
      case Subscribed =>
        if IsSubscription(ev) then
          var now := Subscribers(subs, ev.entity);
          Outcome(subs[ev.entity := if ev.peer in now then now else now + [ev.peer]], ev, true, [])
        else if ev.entity in subs then
          var receivers := Receivers(subs, ev);
          Outcome(AfterForwarding(subs, ev), ev, false,
                  if receivers == [] then [] else [Outbound(receivers, Wire(ev))])
        else Pass(subs, ev)
  }

  function Disconnect(subs: Subscriptions, p: Peer): Subscriptions {
    map e | e in subs :: RemoveAll(subs[e], p)
  }

  /** The system's view of one queue item: new table and posted items. */
  function ProcessItem(mode: Mode, subs: Subscriptions, item: QueueItem): (Subscriptions, seq<QueueItem>) {
    match item
    case Command(ev) => var o := ProcessCommand(mode, subs, ev); (o.state, o.posted)
    case Inbound(sender, envelope) => (subs, Decoded(envelope, sender))
    case Outbound(_, _) => (subs, [])
    case Disconnected(p) => (Disconnect(subs, p), [])
  }

  class NetworkSystem {
    var mode: Mode
    var subscriptions: Subscriptions

    constructor ()
      ensures mode == Subscribed && subscriptions == map[]
    { mode, subscriptions := Subscribed, map[]; }

    method TryAddSubscription(ev: CommandEvent) returns (isSubscription: bool)
      requires ev.payload.EntityData?
      modifies this`subscriptions
      ensures isSubscription == ev.IsEntity(Subscribe)
      ensures subscriptions == if !isSubscription then old(subscriptions) else
        var now := Subscribers(old(subscriptions), ev.entity);
        old(subscriptions)[ev.entity := if ev.peer in now then now else now + [ev.peer]]
    {
      isSubscription := false;
      if ev.payload.entityCommand == Subscribe {
        var now := Subscribers(subscriptions, ev.entity);
        if ev.peer !in now { now := now + [ev.peer]; }
        subscriptions := subscriptions[ev.entity := now];
        isSubscription := true;
      }
    }

    method ProcessCmdEvents(ev: CommandEvent) returns (accepted: bool, posted: seq<QueueItem>)
      modifies this`subscriptions
      ensures Outcome(subscriptions, ev, accepted, posted) == ProcessCommand(mode, old(subscriptions), ev)
    {
      accepted, posted := false, [];
      match mode {
        case PassThrough =>
          if ev.origin == Local && ev.target == All {
            var receivers := [];
            if ev.peer.Some? { receivers := [ev.peer]; }
            posted := [Outbound(receivers, Wire(ev))];
          }
        case Subscribed =>
          if ev.origin == Local && ev.target == All {
            var isSubscription := false;
            if ev.subtype == Notification && ev.payload.EntityData? {
              isSubscription := TryAddSubscription(ev);
            }
            if isSubscription {
              accepted := true;
            } else if ev.entity in subscriptions {
              var receivers := [];
              if ev.payload.IntrospectionData? || ev.payload.RpcData? {
                receivers := [ev.peer];
              } else {
                receivers := Subscribers(subscriptions, ev.entity);
              }
              if receivers != [] { posted := [Outbound(receivers, Wire(ev))]; }
              if ev.payload.EntityData? {
                if ev.payload.entityCommand == Unsubscribe {
                  subscriptions := subscriptions[ev.entity := RemoveAll(subscriptions[ev.entity], ev.peer)];
                } else if ev.payload.entityCommand == EntityRemove {
                  subscriptions := subscriptions - {ev.entity};
                }
              }
            }
          }
      }
    }

    /** Takes a disconnected peer out of every list, key by key in any order. */
    method HandleDisconnected(p: Peer)
      modifies this`subscriptions
      ensures subscriptions == Disconnect(old(subscriptions), p)
    {
      var rest := subscriptions.Keys;
      while rest != {}
        invariant rest <= subscriptions.Keys == old(subscriptions).Keys
        invariant forall e | e in subscriptions ::
          subscriptions[e] == if e in rest then old(subscriptions)[e] else RemoveAll(old(subscriptions)[e], p)
        decreases rest
      {
        var key :| key in rest;
        var subscribers := subscriptions[key];
        if p in subscribers {
          subscriptions := subscriptions[key := RemoveAll(subscribers, p)];
        } else {
          NothingToRemove(subscribers, p);
        }
        rest := rest - {key};
      }
    }

    /** Posts a command event for every deliverable event of a received envelope. */
    method DeserializeIncoming(sender: Peer, envelope: seq<Message>) returns (posted: seq<QueueItem>)
      ensures posted == Decoded(envelope, sender)
    {
      posted := [];
      var i := 0;
      NothingAdded(Decoded(envelope, sender));
      while i < |envelope|
        invariant 0 <= i <= |envelope|
        invariant posted + Decoded(envelope[i..], sender) == Decoded(envelope, sender)
      {
        DecodeNext(posted, envelope, i, sender);
        if Deliverable(envelope[i]) {
          posted := posted + [Command(Received(envelope[i], sender))];
        }
        i := i + 1;
      }
      NothingAdded(posted);
    }

    method ProcessEvent(item: QueueItem) returns (accepted: bool, posted: seq<QueueItem>)
      modifies this`subscriptions
      ensures (subscriptions, posted) == ProcessItem(mode, old(subscriptions), item)
      ensures accepted == (item.Command? && ProcessCommand(mode, old(subscriptions), item.event).accepted)
    {
      accepted, posted := false, [];
      match item {
        case Command(ev) => accepted, posted := ProcessCmdEvents(ev);
        case Inbound(sender, envelope) => posted := DeserializeIncoming(sender, envelope);
        case Outbound(_, _) =>
        case Disconnected(p) => HandleDisconnected(p);
      }
    }

    function SubscriberCount(e: EntityId): nat
      reads this
    { if e in subscriptions then |subscriptions[e]| else 0 }
  }

  /** One more message decoded. */
  lemma DecodeNext(posted: seq<QueueItem>, envelope: seq<Message>, i: nat, sender: Peer)
    requires i < |envelope|
    ensures posted + Decoded(envelope[i..], sender)
      == (if Deliverable(envelope[i]) then posted + [Command(Received(envelope[i], sender))] else posted)
         + Decoded(envelope[i + 1..], sender)
  {
    var first := if Deliverable(envelope[i]) then [Command(Received(envelope[i], sender))] else [];
    assert envelope[i..][1..] == envelope[i + 1..];
    Regroup(posted, first, Decoded(envelope[i + 1..], sender));
    NothingAdded(posted);
  }

  lemma {:induction false} NothingToRemove(s: seq<Peer>, p: Peer)
    requires p !in s
    ensures RemoveAll(s, p) == s
  {
    if s != [] { NothingToRemove(s[1..], p); }
  }

  // ---------------------------------------------------------------------------------------------
  // The table as a function of its history
  // ---------------------------------------------------------------------------------------------

  /** The table after a server's network system has seen `history`, oldest item first. */
  function Table(history: seq<QueueItem>): Subscriptions
    decreases |history|
  {
    if history == [] then map[]
    else ProcessItem(Subscribed, Table(history[..|history| - 1]), history[|history| - 1]).0
  }

  predicate Begins(item: QueueItem, p: Peer, e: EntityId) {
    item.Command? && IsSubscription(item.event) && item.event.entity == e && item.event.peer == p
  }

  predicate RemovesEntity(item: QueueItem, e: EntityId) {
    item.Command? && item.event.Publishable() && item.event.entity == e && item.event.IsEntity(EntityRemove)
  }

  predicate Ends(item: QueueItem, p: Peer, e: EntityId) {
    || RemovesEntity(item, e)
    || (item.Command? && item.event.Publishable() && item.event.entity == e && item.event.IsEntity(Unsubscribe)
        && item.event.peer == p)
    || item == Disconnected(p)
  }

  /** Some subscription of p to e came in and nothing ended it since. */
  ghost predicate Listed(history: seq<QueueItem>, p: Peer, e: EntityId) {
    exists i :: 0 <= i < |history| && Begins(history[i], p, e) && forall j | i < j < |history| :: !Ends(history[j], p, e)
  }

  lemma ListedStep(history: seq<QueueItem>, item: QueueItem, p: Peer, e: EntityId)
    ensures Listed(history + [item], p, e) <==> Begins(item, p, e) || (Listed(history, p, e) && !Ends(item, p, e))
  {
    var h := history + [item];
    if Begins(item, p, e) {
      assert Begins(h[|history|], p, e);
    }
    if Listed(history, p, e) && !Ends(item, p, e) {
      var i :| 0 <= i < |history| && Begins(history[i], p, e) && forall j | i < j < |history| :: !Ends(history[j], p, e);
      assert Begins(h[i], p, e);
      assert forall j | i < j < |h| :: !Ends(h[j], p, e);
    }
    if Listed(h, p, e) && !Begins(item, p, e) {
      var i :| 0 <= i < |h| && Begins(h[i], p, e) && forall j | i < j < |h| :: !Ends(h[j], p, e);
      assert Begins(history[i], p, e) && !Ends(h[|history|], p, e);
      assert forall j | i < j < |history| :: history[j] == h[j];
    }
  }

  lemma SubscribersStep(subs: Subscriptions, item: QueueItem, p: Peer, e: EntityId)
    ensures p in Subscribers(ProcessItem(Subscribed, subs, item).0, e)
      <==> Begins(item, p, e) || (p in Subscribers(subs, e) && !Ends(item, p, e))
  {
  }

  /** A peer is in an entity's list exactly when its history says so. */
  lemma {:induction false} TableRefinesHistory(history: seq<QueueItem>, p: Peer, e: EntityId)
    ensures p in Subscribers(Table(history), e) <==> Listed(history, p, e)
    decreases |history|
  {
    if history != [] {
      var before, item := history[..|history| - 1], history[|history| - 1];
      assert history == before + [item];
      TableRefinesHistory(before, p, e);
      ListedStep(before, item, p, e);
      SubscribersStep(Table(before), item, p, e);
    }
  }

  ghost predicate NoDuplicates(s: seq<Peer>) {
    forall i, j | 0 <= i < j < |s| :: s[i] != s[j]
  }

  lemma {:induction false} RemoveAllKeepsDistinct(s: seq<Peer>, p: Peer)
    requires NoDuplicates(s)
    ensures NoDuplicates(RemoveAll(s, p))
  {
    if s != [] {
      assert NoDuplicates(s[1..]);
      RemoveAllKeepsDistinct(s[1..], p);
      var r := RemoveAll(s[1..], p);
      forall i | 0 <= i < |r| ensures r[i] != s[0] { assert r[i] in s[1..]; }
    }
  }

  /** No list ever holds a peer twice. */
  lemma {:induction false} ListsAreDuplicateFree(history: seq<QueueItem>, e: EntityId)
    ensures NoDuplicates(Subscribers(Table(history), e))
    decreases |history|
  {
    if history != [] {
      var before, item := history[..|history| - 1], history[|history| - 1];
      ListsAreDuplicateFree(before, e);
      var subs := Table(before);
      match item
      case Command(ev) => RemoveAllKeepsDistinct(Subscribers(subs, e), ev.peer);
      case Disconnected(p) => RemoveAllKeepsDistinct(Subscribers(subs, e), p);
      case _ =>
    }
  }

  lemma {:induction false} DistinctCount(s: seq<Peer>)
    requires NoDuplicates(s)
    ensures |s| == |set p | p in s|
  {
    if s != [] {
      DistinctCount(s[1..]);
      assert (set p | p in s) == {s[0]} + set p | p in s[1..];
      assert s[0] !in s[1..];
    }
  }

  /** getSubscriberCount is the number of peers whose subscription is alive. */
  lemma CountIsSubscribers(history: seq<QueueItem>, e: EntityId, alive: set<Peer>)
    requires forall p :: p in alive <==> Listed(history, p, e)
    ensures |Subscribers(Table(history), e)| == |alive|
  {
    var s := Subscribers(Table(history), e);
    ListsAreDuplicateFree(history, e);
    DistinctCount(s);
    forall p ensures p in s <==> p in alive { TableRefinesHistory(history, p, e); }
    assert alive == set p | p in s;
  }

  /** Some subscription to e came in and the entity was not removed since. */
  ghost predicate Known(history: seq<QueueItem>, e: EntityId) {
    exists i :: 0 <= i < |history| && BeginsAny(history[i], e) && forall j | i < j < |history| :: !RemovesEntity(history[j], e)
  }

  predicate BeginsAny(item: QueueItem, e: EntityId) {
    item.Command? && IsSubscription(item.event) && item.event.entity == e
  }

  lemma KnownStep(history: seq<QueueItem>, item: QueueItem, e: EntityId)
    ensures Known(history + [item], e) <==> BeginsAny(item, e) || (Known(history, e) && !RemovesEntity(item, e))
  {
    var h := history + [item];
    if BeginsAny(item, e) {
      assert BeginsAny(h[|history|], e);
    }
    if Known(history, e) && !RemovesEntity(item, e) {
      var i :| 0 <= i < |history| && BeginsAny(history[i], e) && forall j | i < j < |history| :: !RemovesEntity(history[j], e);
      assert BeginsAny(h[i], e);
      assert forall j | i < j < |h| :: !RemovesEntity(h[j], e);
    }
    if Known(h, e) && !BeginsAny(item, e) {
      var i :| 0 <= i < |h| && BeginsAny(h[i], e) && forall j | i < j < |h| :: !RemovesEntity(h[j], e);
      assert BeginsAny(history[i], e) && !RemovesEntity(h[|history|], e);
      assert forall j | i < j < |history| :: history[j] == h[j];
    }
  }

  lemma EntryStep(subs: Subscriptions, item: QueueItem, e: EntityId)
    ensures e in ProcessItem(Subscribed, subs, item).0 <==> BeginsAny(item, e) || (e in subs && !RemovesEntity(item, e))
  {
  }

  /** An entity has an entry, even an empty one, exactly when its history says so. */
  lemma {:induction false} EntryRefinesHistory(history: seq<QueueItem>, e: EntityId)
    ensures e in Table(history) <==> Known(history, e)
    decreases |history|
  {
    if history != [] {
      var before, item := history[..|history| - 1], history[|history| - 1];
      assert history == before + [item];
      EntryRefinesHistory(before, e);
      KnownStep(before, item, e);
      EntryStep(Table(before), item, e);
    }
  }

  /**
   Delivery precision: what a server forwards goes, once each, to exactly the peers whose subscription is
   alive when the event is handled, or, for introspection and RPC data, to the peer the event names. The
   list is never empty, which TcpSystem would take for a broadcast. An event is forwarded exactly when it is
   publishable, no subscription itself, and somebody is subscribed, or, for introspection and RPC data, somebody
   was since the entity was last removed.
   */
  lemma DeliveryPrecision(history: seq<QueueItem>, ev: CommandEvent)
    ensures var posted := ProcessCommand(Subscribed, Table(history), ev).posted;
      && |posted| <= 1
      && (posted != [] ==>
          && posted[0].Outbound? && posted[0].message == Wire(ev)
          && posted[0].receivers != [] && NoDuplicates(posted[0].receivers)
          && forall p :: p in posted[0].receivers <==> if IsUnicast(ev) then p == ev.peer else Listed(history, p, ev.entity))
    ensures !IsUnicast(ev) ==>
      (ProcessCommand(Subscribed, Table(history), ev).posted != []
       <==> ev.Publishable() && !IsSubscription(ev) && exists p :: Listed(history, p, ev.entity))
    ensures IsUnicast(ev) ==>
      (ProcessCommand(Subscribed, Table(history), ev).posted != [] <==> ev.Publishable() && Known(history, ev.entity))
  {
    var s := Subscribers(Table(history), ev.entity);
    ListsAreDuplicateFree(history, ev.entity);
    EntryRefinesHistory(history, ev.entity);
    forall p ensures p in s <==> Listed(history, p, ev.entity) { TableRefinesHistory(history, p, ev.entity); }
    if s != [] { assert s[0] in s; }
  }
}
