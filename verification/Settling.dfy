/**
 Left alone, the whole system settles: when nobody connects, posts or leaves, the turns of the event loops and the
 messages on the wires come to an end, and only with everything handled.
 */
module Settling {
  import opened Options
  import opened Sums
  import opened Events
  import opened EventSystems
  import opened ComponentTables
  import opened Server
  import opened Protocol
  import opened Ordering
  import opened Quiescence
  import SystemModule
  import IntrospectionSystem
  import StorageSystem
  import NetworkSystem
  import ClientStorage
  import Publishing
  import Mirror
  import Replica
  import Agreement

  /** What the system does by itself. */
  predicate Quiet(move: Move) { move.ServerTurn? || move.Download? || move.ClientTurn? || move.Upload? }

  ghost predicate AllQuiet(moves: seq<Move>) { forall i | 0 <= i < |moves| :: Quiet(moves[i]) }

  // ---------------------------------------------------------------------------------------------
  // What is left to do
  // ---------------------------------------------------------------------------------------------

  /** Work that may reach the server: commands for all and what they make, in a client's queue. */
  function Loud(bound: nat): QueueItem -> nat {
    (item: QueueItem) =>
      match item
      case Outbound(_, _) => 9 + 3 * bound
      case Command(ev) => if ev.target != All then 0 else if ev.payload.ErrorData? then 10 + 3 * bound else 30 + 9 * bound
      case _ => 0
  }

  /** Work that stays with the client. */
  function Silent(): QueueItem -> nat {
    (item: QueueItem) =>
      match item
      case Outbound(_, _) => 0
      case Command(ev) => if ev.target == All then 0 else if ev.payload.ErrorData? then 1 else 3
      case Inbound(_, envelope) => 1 + 3 * |envelope|
      case Disconnected(_) => 1
  }

  /** Requests in a client's queue that may make components or subscriptions at the server. */
  function Growing(): QueueItem -> nat {
    (item: QueueItem) =>
      match item
      case Outbound(_, m) => Grows(m.payload)
      case Command(ev) => if ev.target == All then Grows(ev.payload) else 0
      case _ => 0
  }

  function Frame(bound: nat): seq<Message> -> nat { frame => 2 + EnvelopeWeight(frame, bound) }

  function FrameGrowing(): seq<Message> -> nat { frame => AddsInEnvelope(frame) }

  function LoudOf(n: Net, bound: nat): PeerId -> nat {
    p => if p in n.clients && p in n.up then Total(Loud(bound), n.clients[p].queue) + Total(Frame(bound), n.up[p]) else 0
  }

  function SilentOf(n: Net): PeerId -> nat {
    p => if p in n.clients && p in n.down then Total(Silent(), n.clients[p].queue) + 5 * |n.down[p]| else 0
  }

  function GrowingOf(n: Net): PeerId -> nat {
    p => if p in n.clients && p in n.up then Total(Growing(), n.clients[p].queue) + Total(FrameGrowing(), n.up[p]) else 0
  }

  /** Everything that passes through the server, and everything else. */
  ghost function Shared(n: Net, bound: nat): nat { Measure(n.server.queue, bound) + Sum(n.clients.Keys, LoudOf(n, bound)) }

  ghost function Private(n: Net): nat { Sum(n.clients.Keys, SilentOf(n)) }

  /** A message sent to everybody makes private work of at most 5 for every copy. */
  ghost function Work(n: Net, bound: nat): nat { (1 + 5 * bound) * Shared(n, bound) + Private(n) }

  ghost function Pending(n: Net): nat { Adds(n.server.queue) + Sum(n.clients.Keys, GrowingOf(n)) }

  /** The bound covers clients, components and subscriptions, now and after all pending requests. */
  ghost predicate Fits(n: Net, bound: nat) {
    && |n.clients.Keys| < bound
    && |Stored(n.server.store.tables.stored)| + Pending(n) <= bound
    && (forall e: EntityId :: |NetworkSystem.Subscribers(n.server.subs, e)| + Pending(n) <= bound)
    && Narrow(n.server.queue, bound)
  }

  ghost predicate Narrow(items: seq<QueueItem>, bound: nat) {
    forall i | 0 <= i < |items| && items[i].Outbound? :: |items[i].receivers| <= bound
  }

  lemma Weighed(unit: nat, less: nat, more: nat)
    requires less < more
    ensures unit * less + unit <= unit * more
  {
    assert unit * more == unit * (less + 1) + unit * (more - less - 1);
    assert unit * (less + 1) == unit * less + unit;
  }

  /** Shared work counts more than the private work it can make. */
  lemma LessWork(n: Net, n': Net, bound: nat)
    requires (Shared(n', bound) < Shared(n, bound) && Private(n') <= Private(n) + 5 * bound)
      || (Shared(n', bound) <= Shared(n, bound) && Private(n') < Private(n))
    ensures Work(n', bound) < Work(n, bound)
  {
    if Shared(n', bound) < Shared(n, bound) { Weighed(1 + 5 * bound, Shared(n', bound), Shared(n, bound)); }
  }

  // ---------------------------------------------------------------------------------------------
  // The server's turn
  // ---------------------------------------------------------------------------------------------

  lemma StorageKeepsEntityCommands(s: Store, ev: CommandEvent)
    requires StorageSystem.Process(s, ev).event.payload.EntityData?
    ensures StorageSystem.Process(s, ev).event == ev
  {
  }

  lemma ListGrowth(subs: NetworkSystem.Subscriptions, ev: CommandEvent, e: EntityId)
    ensures var o := NetworkSystem.ProcessCommand(NetworkSystem.Subscribed, subs, ev);
      |NetworkSystem.Subscribers(o.state, e)|
      <= |NetworkSystem.Subscribers(subs, e)| + (if ev.IsEntity(Subscribe) then 1 else 0)
  {
  }

  /** A subscriber list grows by one at most, and by a SUBSCRIBE only. */
  lemma DispatchGrowth(sur: SystemModule.Surroundings, s: Server, ev: CommandEvent, e: EntityId)
    ensures |NetworkSystem.Subscribers(Dispatch(sur, s, ev).state.subs, e)|
      <= |NetworkSystem.Subscribers(s.subs, e)| + Grows(ev.payload)
  {
    var v := SystemModule.Process(sur, s.system, ev);
    var i := IntrospectionSystem.Process(s.store, v.event);
    var st := StorageSystem.Process(s.store, i.event);
    ValidatorWeight(sur, s.system, ev, 0);
    IntrospectionWeight(s.store, v.event, |Stored(s.store.tables.stored)|);
    if st.event.payload.EntityData? { StorageKeepsEntityCommands(s.store, i.event); }
    ListGrowth(s.subs, st.event, e);
  }

  lemma NetworkIsNarrow(subs: NetworkSystem.Subscriptions, ev: CommandEvent, bound: nat)
    requires 1 <= bound && |NetworkSystem.Subscribers(subs, ev.entity)| <= bound
    ensures Narrow(NetworkSystem.ProcessCommand(NetworkSystem.Subscribed, subs, ev).posted, bound)
  {
  }

  lemma CommandsAreNarrow(items: seq<QueueItem>, bound: nat)
    requires Publishing.AllCommands(items)
    ensures Narrow(items, bound)
  {
  }

  lemma ComposedIsNarrow(
    s: Server, v: Outcome<SystemModule.State>, i: Outcome<Store>, st: Outcome<Store>,
    n: Outcome<NetworkSystem.Subscriptions>, bound: nat)
    requires Narrow(v.posted, bound) && Narrow(i.posted, bound) && Narrow(st.posted, bound) && Narrow(n.posted, bound)
    ensures Narrow(Compose(s, v, i, st, n).posted, bound)
  {
  }

  lemma DispatchIsNarrow(sur: SystemModule.Surroundings, s: Server, ev: CommandEvent, bound: nat)
    requires 1 <= bound && forall e: EntityId :: |NetworkSystem.Subscribers(s.subs, e)| <= bound
    ensures Narrow(Dispatch(sur, s, ev).posted, bound)
  {
    var v := SystemModule.Process(sur, s.system, ev);
    var i := IntrospectionSystem.Process(s.store, v.event);
    var st := StorageSystem.Process(s.store, i.event);
    var n := NetworkSystem.ProcessCommand(NetworkSystem.Subscribed, s.subs, st.event);
    Publishing.ValidatorPostsCommands(sur, s.system, ev);
    Publishing.IntrospectionPostsCommands(s.store, v.event);
    Publishing.StoragePostsCommands(s.store, i.event);
    CommandsAreNarrow(v.posted, bound);
    CommandsAreNarrow(i.posted, bound);
    CommandsAreNarrow(st.posted, bound);
    NetworkIsNarrow(s.subs, st.event, bound);
    ComposedIsNarrow(s, v, i, st, n, bound);
  }

  lemma TurnGrowth(sur: SystemModule.Surroundings, s: Server, e: EntityId, bound: nat)
    requires s.queue != [] && |Stored(s.store.tables.stored)| <= bound
    ensures |NetworkSystem.Subscribers(Handle(sur, s).subs, e)| + Adds(Handle(sur, s).queue)
      <= |NetworkSystem.Subscribers(s.subs, e)| + Adds(s.queue)
  {
    TurnWork(sur, s, bound);
    if s.queue[0].Command? { DispatchGrowth(sur, s, s.queue[0].event, e); }
  }

  lemma TurnIsNarrow(sur: SystemModule.Surroundings, s: Server, bound: nat)
    requires s.queue != [] && 1 <= bound && Narrow(s.queue, bound)
    requires forall e: EntityId :: |NetworkSystem.Subscribers(s.subs, e)| <= bound
    ensures Narrow(Handle(sur, s).queue, bound)
  {
    if s.queue[0].Command? { DispatchIsNarrow(sur, s, s.queue[0].event, bound); }
    var rest, after := s.queue[1..], Handle(sur, s).queue;
    forall i | 0 <= i < |after| && after[i].Outbound? ensures |after[i].receivers| <= bound {
      if i < |rest| { assert after[i] == s.queue[i + 1]; }
    }
  }

  /** The copies of one message that go on the wires. */
  function CopyCount(receivers: seq<Peer>, m: Message): PeerId -> nat { p => |Copies(receivers, p, m)| }

  function NamedCount(receivers: seq<Peer>, m: Message): PeerId -> nat { p => |Named(receivers, p, m)| }

  lemma NamedOnce(receiver: Peer, m: Message)
    ensures forall p: PeerId :: Named([receiver], p, m) == if receiver == Some(p) then [m] else []
  {
    var none: seq<Peer> := [receiver][1..];
    assert none == [];
  }

  lemma {:induction false} NamedTotal(ps: set<PeerId>, receivers: seq<Peer>, m: Message)
    ensures Sum(ps, NamedCount(receivers, m)) <= |receivers|
  {
    if receivers == [] {
      SumKept(ps, NamedCount(receivers, m), Always(0));
      SumOfNothing(ps);
    } else {
      var first, f := receivers[0], NamedCount([receivers[0]], m);
      NamedOnce(first, m);
      forall p ensures NamedCount(receivers, m)(p) <= NamedCount(receivers[1..], m)(p) + f(p) { }
      SumAtMost(ps, NamedCount(receivers, m), NamedCount(receivers[1..], m), f);
      NamedTotal(ps, receivers[1..], m);
      OneNamed(ps, first, m);
    }
  }

  lemma OneNamed(ps: set<PeerId>, receiver: Peer, m: Message)
    ensures Sum(ps, NamedCount([receiver], m)) <= 1
  {
    var f := NamedCount([receiver], m);
    NamedOnce(receiver, m);
    if receiver.Some? && receiver.value in ps {
      SumSplit(ps, receiver.value, f);
      SumKept(ps - {receiver.value}, f, Always(0));
      SumOfNothing(ps - {receiver.value});
    } else {
      SumKept(ps, f, Always(0));
      SumOfNothing(ps);
    }
  }

  lemma CopyTotal(ps: set<PeerId>, receivers: seq<Peer>, m: Message, bound: nat)
    requires |ps| <= bound && |receivers| <= bound
    ensures Sum(ps, CopyCount(receivers, m)) <= bound
  {
    if receivers == [] {
      SumKept(ps, CopyCount(receivers, m), Always(1));
      SumOfOnes(ps);
    } else {
      SumKept(ps, CopyCount(receivers, m), NamedCount(receivers, m));
      NamedTotal(ps, receivers, m);
    }
  }

  /** What a server's turn does outside the server: an outgoing message is copied to the wires. */
  lemma TurnSends(n: Net, sur: SystemModule.Surroundings)
    requires Consistent(n) && n.server.queue != []
    ensures var n', item := After(n, ServerTurn(sur)), n.server.queue[0];
      && n'.server == Handle(sur, n.server) && n'.clients == n.clients && n'.up == n.up && n'.down.Keys == n.down.Keys
      && (forall p | p in n.down :: n'.down[p] ==
            if item.Outbound? && p in n.connected then n.down[p] + Copies(item.receivers, p, item.message) else n.down[p])
  {
  }

  lemma SilentGrowth(n: Net, n': Net, p: PeerId, copies: nat)
    requires n'.clients == n.clients && n'.down.Keys == n.down.Keys
    requires p in n.down ==> |n'.down[p]| <= |n.down[p]| + copies
    ensures SilentOf(n')(p) <= SilentOf(n)(p) + 5 * copies
  {
  }

  lemma TurnPrivate(n: Net, sur: SystemModule.Surroundings, bound: nat)
    requires Consistent(n) && n.server.queue != [] && Narrow(n.server.queue, bound) && |n.clients.Keys| <= bound
    ensures Private(After(n, ServerTurn(sur))) <= Private(n) + 5 * bound
  {
    var n', item, ps := After(n, ServerTurn(sur)), n.server.queue[0], n.clients.Keys;
    TurnSends(n, sur);
    if item.Outbound? {
      var copies := CopyCount(item.receivers, item.message);
      forall p | p in ps ensures SilentOf(n')(p) <= SilentOf(n)(p) + Times5(copies)(p) {
        SilentGrowth(n, n', p, copies(p));
      }
      SumAtMost(ps, SilentOf(n'), SilentOf(n), Times5(copies));
      SumTimes5(ps, copies);
      CopyTotal(ps, item.receivers, item.message, bound);
    } else {
      forall p | p in ps ensures SilentOf(n')(p) <= SilentOf(n)(p) { SilentGrowth(n, n', p, 0); }
      SumKept(ps, SilentOf(n'), SilentOf(n));
    }
  }

  /** Clients and uploads as they were: so is what they may still send. */
  lemma ClientsKept(n: Net, n': Net, bound: nat)
    requires n'.clients == n.clients && n'.up == n.up
    ensures Sum(n'.clients.Keys, LoudOf(n', bound)) <= Sum(n.clients.Keys, LoudOf(n, bound))
    ensures Sum(n'.clients.Keys, GrowingOf(n')) <= Sum(n.clients.Keys, GrowingOf(n))
  {
    SumKept(n.clients.Keys, LoudOf(n', bound), LoudOf(n, bound));
    SumKept(n.clients.Keys, GrowingOf(n'), GrowingOf(n));
  }

  lemma TurnFits(n: Net, n': Net, sur: SystemModule.Surroundings, bound: nat)
    requires n.server.queue != [] && Fits(n, bound)
    requires n'.server == Handle(sur, n.server) && n'.clients == n.clients && n'.up == n.up
    ensures Fits(n', bound)
  {
    TurnWork(sur, n.server, bound);
    ClientsKept(n, n', bound);
    forall e: EntityId ensures |NetworkSystem.Subscribers(n'.server.subs, e)| + Pending(n') <= bound {
      TurnGrowth(sur, n.server, e, bound);
      assert |NetworkSystem.Subscribers(n.server.subs, e)| + Pending(n) <= bound;
    }
    forall e: EntityId ensures |NetworkSystem.Subscribers(n.server.subs, e)| <= bound {
      assert |NetworkSystem.Subscribers(n.server.subs, e)| + Pending(n) <= bound;
    }
    TurnIsNarrow(sur, n.server, bound);
  }

  lemma TurnSettles(n: Net, sur: SystemModule.Surroundings, bound: nat)
    requires Consistent(n) && n.server.queue != [] && Fits(n, bound)
    ensures var n' := After(n, ServerTurn(sur)); Fits(n', bound) && Work(n', bound) < Work(n, bound)
  {
    var n' := After(n, ServerTurn(sur));
    TurnSends(n, sur);
    TurnFits(n, n', sur, bound);
    TurnWork(sur, n.server, bound);
    ClientsKept(n, n', bound);
    TurnPrivate(n, sur, bound);
    LessWork(n, n', bound);
  }

  // ---------------------------------------------------------------------------------------------
  // Everybody else
  // ---------------------------------------------------------------------------------------------

  /** What a client posts weighs less than the command it handled, on the side the command is on. */
  lemma ClientDispatchWork(c: Client, ev: CommandEvent, bound: nat)
    ensures var posted := ClientDispatch(c, ev).1;
      && Total(Growing(), posted) <= Growing()(Command(ev))
      && (ev.target == All ==> Total(Loud(bound), posted) < Loud(bound)(Command(ev)) && Total(Silent(), posted) == 0)
      && (ev.target != All ==> Total(Loud(bound), posted) == 0 && Total(Silent(), posted) < Silent()(Command(ev)))
  {
    var n := NetworkSystem.ProcessCommand(NetworkSystem.PassThrough, map[], ev).posted;
    var st := ClientStorage.Process(c.store, ev).posted;
    ClientStorage.PostsErrors(c.store, ev);
    TotalOfSum(Loud(bound), n, st);
    TotalOfSum(Silent(), n, st);
    TotalOfSum(Growing(), n, st);
    TotalAtMost(Loud(bound), st, if ev.target == All then 10 + 3 * bound else 0);
    TotalAtMost(Silent(), st, if ev.target == All then 0 else 1);
    TotalAtMost(Growing(), st, 0);
    if n != [] {
      TotalOfOne(Loud(bound), n[0]);
      TotalOfOne(Silent(), n[0]);
      TotalOfOne(Growing(), n[0]);
    }
  }

  lemma {:induction false} DecodedIsSilent(envelope: seq<Message>, sender: Peer, bound: nat)
    ensures var items := Decoded(envelope, sender);
      Total(Loud(bound), items) == 0 && Total(Silent(), items) <= 3 * |envelope| && Total(Growing(), items) == 0
  {
    if envelope != [] {
      DecodedIsSilent(envelope[1..], sender, bound);
      var first := if Deliverable(envelope[0]) then [Command(Received(envelope[0], sender))] else [];
      TotalOfSum(Loud(bound), first, Decoded(envelope[1..], sender));
      TotalOfSum(Silent(), first, Decoded(envelope[1..], sender));
      TotalOfSum(Growing(), first, Decoded(envelope[1..], sender));
    }
  }

  lemma FrameWeight(m: Message, bound: nat)
    ensures Total(Frame(bound), [[m]]) == 8 + 3 * bound && Total(FrameGrowing(), [[m]]) == Grows(m.payload)
  {
    TotalOfOne(Frame(bound), [m]);
    TotalOfOne(FrameGrowing(), [m]);
    assert [m][1..] == [];
    assert EnvelopeWeight([m], bound) == 6 + 3 * bound && AddsInEnvelope([m]) == Grows(m.payload);
  }

  /** One turn of a client: what it sends and posts weighs less than the item it handled. */
  lemma ClientHandleWork(c: Client, bound: nat)
    requires c.queue != []
    ensures var q, sent := ClientHandle(c).queue, ClientSends(c);
      && Total(Growing(), q) + Total(FrameGrowing(), sent) <= Total(Growing(), c.queue)
      && Total(Loud(bound), q) + Total(Frame(bound), sent) <= Total(Loud(bound), c.queue)
      && Total(Silent(), q) <= Total(Silent(), c.queue)
      && (Total(Loud(bound), q) + Total(Frame(bound), sent) < Total(Loud(bound), c.queue)
          || Total(Silent(), q) < Total(Silent(), c.queue))
  {
    var item, rest := c.queue[0], c.queue[1..];
    match item
    case Command(ev) =>
      var posted := ClientDispatch(c, ev).1;
      ClientDispatchWork(c, ev, bound);
      TotalOfSum(Loud(bound), rest, posted);
      TotalOfSum(Silent(), rest, posted);
      TotalOfSum(Growing(), rest, posted);
    case Inbound(sender, envelope) =>
      var items := Decoded(envelope, sender);
      DecodedIsSilent(envelope, sender, bound);
      TotalOfSum(Loud(bound), rest, items);
      TotalOfSum(Silent(), rest, items);
      TotalOfSum(Growing(), rest, items);
    case Outbound(_, m) => FrameWeight(m, bound);
    case Disconnected(_) =>
  }

  lemma StillFits(n: Net, n': Net, bound: nat)
    requires Fits(n, bound) && n'.clients.Keys == n.clients.Keys && Pending(n') <= Pending(n)
    requires n'.server.store == n.server.store && n'.server.subs == n.server.subs && Narrow(n'.server.queue, bound)
    ensures Fits(n', bound)
  {
    forall e: EntityId ensures |NetworkSystem.Subscribers(n'.server.subs, e)| + Pending(n') <= bound {
      assert |NetworkSystem.Subscribers(n.server.subs, e)| + Pending(n) <= bound;
    }
  }

  /** Only client p, its uploads and its downloads changed. */
  ghost predicate OnlyAt(n: Net, n': Net, p: PeerId) {
    && n'.server == n.server && n'.clients.Keys == n.clients.Keys
    && n.clients.Keys <= n.up.Keys && n.clients.Keys <= n.down.Keys
    && n.clients.Keys <= n'.up.Keys && n.clients.Keys <= n'.down.Keys
    && forall q | q in n.clients && q != p ::
         n'.clients[q] == n.clients[q] && n'.up[q] == n.up[q] && n'.down[q] == n.down[q]
  }

  /** Client p of n has at most so much to do more than that of n'. */
  ghost predicate LessAt(n: Net, n': Net, p: PeerId, bound: nat)
    requires p in n.clients && p in n'.clients && p in n.up && p in n'.up && p in n.down && p in n'.down
  {
    var q, q' := n.clients[p].queue, n'.clients[p].queue;
    var loud := Total(Loud(bound), q) + Total(Frame(bound), n.up[p]);
    var loud' := Total(Loud(bound), q') + Total(Frame(bound), n'.up[p]);
    var silent, silent' := Total(Silent(), q) + 5 * |n.down[p]|, Total(Silent(), q') + 5 * |n'.down[p]|;
    && Total(Growing(), q') + Total(FrameGrowing(), n'.up[p]) <= Total(Growing(), q) + Total(FrameGrowing(), n.up[p])
    && loud' <= loud && silent' <= silent && (loud' < loud || silent' < silent)
  }

  lemma OthersAsBusy(n: Net, n': Net, p: PeerId, q: PeerId, bound: nat)
    requires OnlyAt(n, n', p) && q in n.clients && q != p
    ensures LoudOf(n', bound)(q) == LoudOf(n, bound)(q)
    ensures SilentOf(n')(q) == SilentOf(n)(q)
    ensures GrowingOf(n')(q) == GrowingOf(n)(q)
  {
  }

  lemma SumsAtClient(n: Net, n': Net, p: PeerId, bound: nat)
    requires p in n.clients && OnlyAt(n, n', p) && LessAt(n, n', p, bound)
    ensures Pending(n') <= Pending(n) && Shared(n', bound) <= Shared(n, bound) && Private(n') <= Private(n)
    ensures Shared(n', bound) < Shared(n, bound) || Private(n') < Private(n)
  {
    var ps := n.clients.Keys;
    forall q | q in ps && q != p
      ensures LoudOf(n', bound)(q) == LoudOf(n, bound)(q) && SilentOf(n')(q) == SilentOf(n)(q)
      ensures GrowingOf(n')(q) == GrowingOf(n)(q)
    {
      OthersAsBusy(n, n', p, q, bound);
    }
    SumDrops(ps, p, LoudOf(n', bound), LoudOf(n, bound), LoudOf(n, bound)(p) - LoudOf(n', bound)(p));
    SumDrops(ps, p, SilentOf(n'), SilentOf(n), SilentOf(n)(p) - SilentOf(n')(p));
    SumDrops(ps, p, GrowingOf(n'), GrowingOf(n), 0);
  }

  /** Server and bound as they were, one client less busy. */
  lemma ClientSettles(n: Net, n': Net, p: PeerId, bound: nat)
    requires Fits(n, bound) && p in n.clients && OnlyAt(n, n', p) && LessAt(n, n', p, bound)
    ensures Fits(n', bound) && Work(n', bound) < Work(n, bound)
  {
    SumsAtClient(n, n', p, bound);
    StillFits(n, n', bound);
    LessWork(n, n', bound);
  }

  lemma ClientMoveIsLocal(n: Net, move: Move, p: PeerId)
    requires Consistent(n) && Enabled(n, move) && (move == ClientTurn(p) || move == Download(p))
    ensures OnlyAt(n, After(n, move), p)
  {
  }

  lemma ClientTurnIsLess(n: Net, p: PeerId, bound: nat)
    requires Consistent(n) && Enabled(n, ClientTurn(p)) && OnlyAt(n, After(n, ClientTurn(p)), p)
    ensures LessAt(n, After(n, ClientTurn(p)), p, bound)
  {
    var c := n.clients[p];
    ClientHandleWork(c, bound);
    TotalOfSum(Frame(bound), n.up[p], ClientSends(c));
    TotalOfSum(FrameGrowing(), n.up[p], ClientSends(c));
  }

  lemma DownloadIsLess(n: Net, p: PeerId, bound: nat)
    requires Consistent(n) && Enabled(n, Download(p)) && OnlyAt(n, After(n, Download(p)), p)
    ensures LessAt(n, After(n, Download(p)), p, bound)
  {
    var c := n.clients[p];
    var item := Inbound(Some(c.serverId), [n.down[p][0]]);
    TotalOfSum(Loud(bound), c.queue, [item]);
    TotalOfSum(Silent(), c.queue, [item]);
    TotalOfSum(Growing(), c.queue, [item]);
    TotalOfOne(Loud(bound), item);
    TotalOfOne(Silent(), item);
    TotalOfOne(Growing(), item);
  }

  lemma UploadIsLessLoud(n: Net, n': Net, p: PeerId, bound: nat)
    requires p in n.clients && p in n.up && n.up[p] != []
    requires n'.clients == n.clients && n'.up == n.up[p := n.up[p][1..]]
    ensures Sum(n'.clients.Keys, LoudOf(n', bound)) + 2 + EnvelopeWeight(n.up[p][0], bound)
      <= Sum(n.clients.Keys, LoudOf(n, bound))
  {
    SumDrops(n.clients.Keys, p, LoudOf(n', bound), LoudOf(n, bound), 2 + EnvelopeWeight(n.up[p][0], bound));
  }

  lemma UploadGrowsLess(n: Net, n': Net, p: PeerId)
    requires p in n.clients && p in n.up && n.up[p] != []
    requires n'.clients == n.clients && n'.up == n.up[p := n.up[p][1..]]
    ensures Sum(n'.clients.Keys, GrowingOf(n')) + AddsInEnvelope(n.up[p][0]) <= Sum(n.clients.Keys, GrowingOf(n))
  {
    SumDrops(n.clients.Keys, p, GrowingOf(n'), GrowingOf(n), AddsInEnvelope(n.up[p][0]));
  }

  lemma UploadArrives(n: Net, n': Net, p: PeerId, bound: nat)
    requires p in n.clients && p in n.up && n.up[p] != []
    requires n'.clients == n.clients && n'.up == n.up[p := n.up[p][1..]] && n'.down == n.down
    requires n'.server == n.server.(queue := n.server.queue + [Inbound(Some(p), n.up[p][0])])
    ensures Pending(n') <= Pending(n) && Shared(n', bound) < Shared(n, bound) && Private(n') <= Private(n)
  {
    var item := Inbound(Some(p), n.up[p][0]);
    MeasureOfSum(n.server.queue, [item], bound);
    AddsOfSum(n.server.queue, [item]);
    assert [item][1..] == [];
    UploadIsLessLoud(n, n', p, bound);
    UploadGrowsLess(n, n', p);
    SumKept(n.clients.Keys, SilentOf(n'), SilentOf(n));
  }

  lemma UploadSettles(n: Net, n': Net, p: PeerId, bound: nat)
    requires Fits(n, bound) && p in n.clients && p in n.up && n.up[p] != []
    requires n'.clients == n.clients && n'.up == n.up[p := n.up[p][1..]] && n'.down == n.down
    requires n'.server == n.server.(queue := n.server.queue + [Inbound(Some(p), n.up[p][0])])
    ensures Fits(n', bound) && Work(n', bound) < Work(n, bound)
  {
    UploadArrives(n, n', p, bound);
    StillFits(n, n', bound);
    LessWork(n, n', bound);
  }

  // ---------------------------------------------------------------------------------------------
  // Runs
  // ---------------------------------------------------------------------------------------------

  /** Whatever the system does by itself leaves less to do. */
  lemma QuietMoveSettles(n: Net, move: Move, bound: nat)
    requires Consistent(n) && Fits(n, bound) && Quiet(move) && Enabled(n, move)
    ensures Fits(After(n, move), bound) && Work(After(n, move), bound) < Work(n, bound)
  {
    match move
    case ServerTurn(sur) => TurnSettles(n, sur, bound);
    case ClientTurn(p) =>
      ClientMoveIsLocal(n, move, p);
      ClientTurnIsLess(n, p, bound);
      ClientSettles(n, After(n, move), p, bound);
    case Download(p) =>
      ClientMoveIsLocal(n, move, p);
      DownloadIsLess(n, p, bound);
      ClientSettles(n, After(n, move), p, bound);
    case Upload(p) => UploadSettles(n, After(n, move), p, bound);
  }

  /** Every run without input from outside is bounded by the work there is at its start. */
  lemma {:induction false} QuietRunsAreBounded(n: Net, moves: seq<Move>, bound: nat)
    requires Consistent(n) && Fits(n, bound) && Runs(n, moves) && AllQuiet(moves)
    ensures |moves| + Work(Protocol.Run(n, moves), bound) <= Work(n, bound)
    decreases |moves|
  {
    if moves != [] {
      MoveKeepsConsistent(n, moves[0]);
      QuietMoveSettles(n, moves[0], bound);
      QuietRunsAreBounded(After(n, moves[0]), moves[1..], bound);
    }
  }

  /** Nothing queued and nothing on a wire that is still connected. */
  ghost predicate AllHandled(n: Net) {
    && n.server.queue == []
    && forall p | p in n.clients ::
         n.clients[p].queue == [] && p in n.down && n.down[p] == [] && (p in n.connected && p in n.up ==> n.up[p] == [])
  }

  /** The system stops only with everything handled. */
  lemma StopsIffAllHandled(n: Net, sur: SystemModule.Surroundings)
    requires Consistent(n)
    ensures (forall move | Quiet(move) :: !Enabled(n, move)) <==> AllHandled(n)
  {
    if forall move | Quiet(move) :: !Enabled(n, move) {
      assert !Enabled(n, ServerTurn(sur));
      forall p | p in n.clients
        ensures n.clients[p].queue == [] && n.down[p] == [] && (p in n.connected ==> n.up[p] == [])
      {
        assert !Enabled(n, ClientTurn(p)) && !Enabled(n, Download(p)) && !Enabled(n, Upload(p));
      }
    }
  }

  lemma {:induction false} LongestList(subs: NetworkSystem.Subscriptions) returns (longest: nat)
    ensures forall e: EntityId :: |NetworkSystem.Subscribers(subs, e)| <= longest
    decreases |subs|
  {
    longest := 0;
    if subs != map[] {
      var e :| e in subs;
      longest := LongestList(subs - {e});
      if longest < |subs[e]| { longest := |subs[e]|; }
      forall e': EntityId ensures |NetworkSystem.Subscribers(subs, e')| <= longest {
        assert e' == e || NetworkSystem.Subscribers(subs - {e}, e') == NetworkSystem.Subscribers(subs, e');
      }
    }
  }

  lemma {:induction false} WidestMessage(items: seq<QueueItem>) returns (widest: nat)
    ensures Narrow(items, widest)
  {
    widest := 0;
    if items != [] {
      widest := WidestMessage(items[1..]);
      if items[0].Outbound? && widest < |items[0].receivers| { widest := |items[0].receivers|; }
      forall i | 0 <= i < |items| && items[i].Outbound? ensures |items[i].receivers| <= widest {
        if i > 0 { assert items[i] == items[1..][i - 1]; }
      }
    }
  }

  /** Every state has such a bound. */
  lemma SomeBoundFits(n: Net) returns (bound: nat)
    ensures Fits(n, bound)
  {
    var longest := LongestList(n.server.subs);
    var widest := WidestMessage(n.server.queue);
    bound := 1 + |n.clients.Keys| + |Stored(n.server.store.tables.stored)| + Pending(n) + longest + widest;
  }

  /** A scheduler with arbitrary preferences: it moves whenever something is left to do. */
  ghost predicate Schedules(choose: Net -> Move) {
    forall n | Consistent(n) && !AllHandled(n) :: Quiet(choose(n)) && Enabled(n, choose(n))
  }

  ghost predicate Follows(n: Net, moves: seq<Move>, choose: Net -> Move)
    requires Runs(n, moves)
    decreases |moves|
  {
    moves == [] || (moves[0] == choose(n) && Follows(After(n, moves[0]), moves[1..], choose))
  }

  /** Whoever's turn it is next, the system comes to rest with everything handled, within its work bound. */
  lemma {:induction false} EveryScheduleSettles(n: Net, choose: Net -> Move, bound: nat) returns (moves: seq<Move>)
    requires Consistent(n) && Fits(n, bound) && Schedules(choose)
    ensures Runs(n, moves) && AllQuiet(moves) && |moves| <= Work(n, bound)
    ensures Follows(n, moves, choose) && AllHandled(Protocol.Run(n, moves))
    decreases Work(n, bound)
  {
    moves := [];
    if !AllHandled(n) {
      var first := choose(n);
      MoveKeepsConsistent(n, first);
      QuietMoveSettles(n, first, bound);
      var rest := EveryScheduleSettles(After(n, first), choose, bound);
      moves := [first] + rest;
      RunOnwards(n, first, rest);
    }
  }

  lemma RunOnwards(n: Net, first: Move, rest: seq<Move>)
    requires Enabled(n, first) && Runs(After(n, first), rest)
    ensures var moves := [first] + rest;
      && moves[0] == first && moves[1..] == rest && Runs(n, moves)
      && Protocol.Run(n, moves) == Protocol.Run(After(n, first), rest)
  {
    assert ([first] + rest)[1..] == rest;
  }

  lemma AllHandledIsSettled(n: Net, p: PeerId)
    requires AllHandled(n) && p in n.clients
    ensures p in n.down && Agreement.Settled(n, p)
  {
  }

  lemma {:induction false} ClientStays(n: Net, moves: seq<Move>, p: PeerId)
    requires Runs(n, moves) && AllQuiet(moves) && p in n.clients
    ensures p in Protocol.Run(n, moves).clients
    decreases |moves|
  {
    if moves != [] { ClientStays(After(n, moves[0]), moves[1..], p); }
  }

  /**
   Replica agreement without assuming that the system settles: once p's SUBSCRIBE is the server's next event and
   nothing more comes from outside, a run that goes on while it can ends after boundedly many moves, and, when it was
   calm, with p's mirror equal to the entity if and only if the names agreed at its start.
   */
  lemma LeftAloneReplicaAgreesIff(n: Net, moves: seq<Move>, p: PeerId, e: EntityId, bound: nat)
    requires Consistent(n) && p in n.connected && Agreement.QuietAtHome(n.clients[p].queue, e)
    requires Agreement.Subscribes(n.server, p, e)
    requires Fits(n, bound) && moves != [] && moves[0].ServerTurn? && Runs(n, moves) && AllQuiet(moves)
    requires forall move | Quiet(move) :: !Enabled(Protocol.Run(n, moves), move)
    ensures |moves| <= Work(n, bound)
    ensures Agreement.CalmRun(n, moves, p, e) ==>
      var r := Protocol.Run(n, moves);
      (p in r.clients
       && (Mirror.ViewOf(r.clients[p].store, e) == Agreement.ServerView(r, e) <==>
           Agreement.Unintroduced(n, p, e)
           || Replica.Names(Agreement.ExpectedView(n, p, e), n.server.queue, p, e) == Agreement.ServerView(n, e).value.Keys))
  {
    QuietRunsAreBounded(n, moves, bound);
    RunKeepsConsistent(n, moves);
    var r := Protocol.Run(n, moves);
    StopsIffAllHandled(r, moves[0].sur);
    ClientStays(n, moves, p);
    AllHandledIsSettled(r, p);
    if Agreement.CalmRun(n, moves, p, e) { Agreement.ReplicaAgreesIff(n, moves, p, e); }
  }
}
