/** Two queues on each side do not change the order: a client handles its messages as they were addressed to it. */
module Ordering {
  import opened Options
  import opened Sequences
  import opened Events
  import opened EventSystems
  import opened Server
  import opened Protocol
  import SystemModule
  import IntrospectionSystem
  import StorageSystem
  import NetworkSystem
  import ClientStorage
  import ComponentTables
  import Publishing

  /** What may wait in the server's queue. No protocol event names nobody, which would make it a broadcast. */
  ghost predicate Expected(n: Net, item: QueueItem) {
    match item
    case Outbound(receivers, _) => receivers != []
    case Disconnected(gone) => gone.Some? && gone.value in n.clients.Keys - n.connected
    case _ => true
  }

  ghost predicate Consistent(n: Net) {
    && n.connected <= n.clients.Keys
    && n.clients.Keys == n.down.Keys == n.up.Keys == n.addressed.Keys
    && forall i | 0 <= i < |n.server.queue| :: Expected(n, n.server.queue[i])
  }

  /** Protocol events of the server that will reach p. */
  function Outgoing(n: Net, p: PeerId): seq<Message> {
    if p in n.connected then OutFor(n.server.queue, p) else []
  }

  /** What a queue, the wire and the outgoing events hold for a client, in the order in which it will be handled. */
  function Line(queue: seq<QueueItem>, down: seq<Message>, out: seq<Message>): seq<Message> {
    Commands(queue) + Good(Envelopes(queue) + down + out)
  }

  /** Everything on its way to a client. */
  function InFlight(n: Net, p: PeerId): seq<Message>
    requires p in n.clients && p in n.down
  {
    Line(n.clients[p].queue, n.down[p], Outgoing(n, p))
  }

  /** What the server's network system addresses to p in a move. */
  function Added(n: Net, move: Move, p: PeerId): seq<Message>
    requires Enabled(n, move)
  {
    if move.ServerTurn? && n.server.queue[0].Command?
    then OutFor(Dispatch(move.sur, n.server, n.server.queue[0].event).posted, p)
    else []
  }

  /** What p's client handles in a move. */
  function Taken(n: Net, move: Move, p: PeerId): seq<Message>
    requires Enabled(n, move)
  {
    if move == ClientTurn(p) then Commands([n.clients[p].queue[0]]) else []
  }

  // ---------------------------------------------------------------------------------------------
  // Server side
  // ---------------------------------------------------------------------------------------------

  ghost predicate CommandsAndSends(items: seq<QueueItem>) {
    forall i | 0 <= i < |items| :: items[i].Command? || (items[i].Outbound? && items[i].receivers != [])
  }

  lemma DispatchPosts(sur: SystemModule.Surroundings, s: Server, ev: CommandEvent)
    ensures CommandsAndSends(Dispatch(sur, s, ev).posted)
  {
    var v := SystemModule.Process(sur, s.system, ev);
    var i := IntrospectionSystem.Process(s.store, v.event);
    var st := StorageSystem.Process(s.store, i.event);
    var n := NetworkSystem.ProcessCommand(NetworkSystem.Subscribed, s.subs, st.event);
    Publishing.ValidatorPostsCommands(sur, s.system, ev);
    Publishing.IntrospectionPostsCommands(s.store, v.event);
    Publishing.StoragePostsCommands(s.store, i.event);
    ComposedPosts(s, v, i, st, n);
  }

  lemma ComposedPosts(
    s: Server, v: Outcome<SystemModule.State>, i: Outcome<ComponentTables.Store>, st: Outcome<ComponentTables.Store>,
    n: Outcome<NetworkSystem.Subscriptions>)
    requires CommandsAndSends(v.posted) && CommandsAndSends(i.posted) && CommandsAndSends(st.posted)
    requires CommandsAndSends(n.posted)
    ensures CommandsAndSends(Compose(s, v, i, st, n).posted)
  {
  }

  lemma ServerTurnKeepsExpected(n: Net, sur: SystemModule.Surroundings)
    requires Consistent(n) && n.server.queue != []
    ensures forall i | 0 <= i < |Handle(sur, n.server).queue| :: Expected(n, Handle(sur, n.server).queue[i])
  {
    var item, rest := n.server.queue[0], n.server.queue[1..];
    var after := Handle(sur, n.server).queue;
    if item.Command? { DispatchPosts(sur, n.server, item.event); }
    forall i | 0 <= i < |after| ensures Expected(n, after[i]) {
      if i < |rest| { assert after[i] == n.server.queue[i + 1]; }
    }
  }

  lemma PartiesKept(n: Net, move: Move)
    requires Consistent(n) && Enabled(n, move)
    ensures var n' := After(n, move);
      && n'.connected <= n'.clients.Keys
      && n'.clients.Keys == n'.down.Keys == n'.up.Keys == n'.addressed.Keys
      && n.clients.Keys - n.connected <= n'.clients.Keys - n'.connected
  {
  }

  lemma QueueKept(n: Net, move: Move, i: nat)
    requires Consistent(n) && Enabled(n, move) && !move.ServerTurn? && i < |After(n, move).server.queue|
    ensures i < |n.server.queue| ==> After(n, move).server.queue[i] == n.server.queue[i]
    ensures i >= |n.server.queue| ==> Expected(After(n, move), After(n, move).server.queue[i])
  {
  }

  /** No run brings a broadcast into the server's queue, and departures are announced after the fact. */
  lemma MoveKeepsConsistent(n: Net, move: Move)
    requires Consistent(n) && Enabled(n, move)
    ensures Consistent(After(n, move))
  {
    var n' := After(n, move);
    PartiesKept(n, move);
    if move.ServerTurn? { ServerTurnKeepsExpected(n, move.sur); }
    forall i | 0 <= i < |n'.server.queue| ensures Expected(n', n'.server.queue[i]) {
      if move.ServerTurn? {
        assert Expected(n, n'.server.queue[i]);
      } else {
        QueueKept(n, move, i);
      }
    }
  }

  // ---------------------------------------------------------------------------------------------
  // Queue views along one move
  // ---------------------------------------------------------------------------------------------

  lemma HeadViews(q: seq<QueueItem>, p: PeerId)
    requires q != []
    ensures Commands(q) == Commands([q[0]]) + Commands(q[1..])
    ensures Envelopes(q) == Envelopes([q[0]]) + Envelopes(q[1..])
    ensures OutFor(q, p) == OutFor([q[0]], p) + OutFor(q[1..], p)
  {
    HeadAndTail(q);
    CommandsSum([q[0]], q[1..]);
    EnvelopesSum([q[0]], q[1..]);
    OutForSum([q[0]], q[1..], p);
  }

  lemma AddViews(q: seq<QueueItem>, items: seq<QueueItem>, p: PeerId)
    ensures Commands(q + items) == Commands(q) + Commands(items)
    ensures Envelopes(q + items) == Envelopes(q) + Envelopes(items)
    ensures OutFor(q + items, p) == OutFor(q, p) + OutFor(items, p)
  {
    CommandsSum(q, items);
    EnvelopesSum(q, items);
    OutForSum(q, items, p);
  }

  /** What a client's own dispatch posts is none of the server's messages. */
  lemma ClientPostsNothingForeign(c: Client, ev: CommandEvent)
    ensures var posted := ClientDispatch(c, ev).1;
      Commands(posted) == [] && Envelopes(posted) == []
  {
    var n := NetworkSystem.ProcessCommand(NetworkSystem.PassThrough, map[], ev).posted;
    var st := ClientStorage.Process(c.store, ev).posted;
    if n != [] { Single(n[0], 0); }
    ClientStorage.PostsErrors(c.store, ev);
    OwnCommandsAreSilent(st);
    CommandsSum(n, st);
    EnvelopesSum(n, st);
  }

  lemma {:induction false} OwnCommandsAreSilent(items: seq<QueueItem>)
    requires forall i | 0 <= i < |items| :: items[i].Command? && items[i].event.origin != Foreign
    ensures Commands(items) == [] && Envelopes(items) == []
  {
    if items != [] { OwnCommandsAreSilent(items[1..]); }
  }

  /** Taking a command off a queue, with posts that carry none of the server's messages. */
  lemma CommandLeaves(queue: seq<QueueItem>, posted: seq<QueueItem>, p: PeerId, down: seq<Message>, out: seq<Message>)
    requires queue != [] && !queue[0].Inbound? && Commands(posted) == [] && Envelopes(posted) == []
    ensures Commands([queue[0]]) + Line(queue[1..] + posted, down, out) == Line(queue, down, out)
  {
    var item, rest := queue[0], queue[1..];
    HeadViews(queue, p);
    AddViews(rest, posted, p);
    Single(item, p);
    NothingAdded(Envelopes(rest));
    NothingAdded(Commands(rest));
    Regroup(Commands([item]), Commands(rest), Good(Envelopes(rest) + down + out));
  }

  /** Deserializing an envelope moves its messages from the last part of the line to the first. */
  lemma EnvelopeOpens(queue: seq<QueueItem>, p: PeerId, down: seq<Message>, out: seq<Message>)
    requires queue != [] && queue[0].Inbound?
    ensures Line(queue[1..] + Decoded(queue[0].envelope, queue[0].sender), down, out) == Line(queue, down, out)
  {
    var item, rest := queue[0], queue[1..];
    var items := Decoded(item.envelope, item.sender);
    HeadViews(queue, p);
    DecodedViews(item.envelope, item.sender, p);
    AddViews(rest, items, p);
    Single(item, p);
    NothingAdded(Envelopes(rest));
    NothingAdded(Commands(rest));
    OpenedLine(Commands(rest), item.envelope, Envelopes(rest), down, out);
  }

  lemma OpenedLine(commands: seq<Message>, envelope: seq<Message>, rest: seq<Message>, down: seq<Message>, out: seq<Message>)
    ensures commands + Good(envelope) + Good(rest + down + out) == commands + Good(envelope + rest + down + out)
  {
    Regroup(commands, Good(envelope), Good(rest + down + out));
    GoodSum(envelope, rest + down + out);
    Regroup(envelope, rest + down, out);
    Regroup(envelope, rest, down);
  }

  /** A client's turn takes the next message in flight, or moves messages from one queue to the other. */
  lemma ClientTurnFlow(c: Client, p: PeerId, down: seq<Message>, out: seq<Message>)
    requires c.queue != []
    ensures var c' := ClientHandle(c);
      && c'.handled == c.handled + Commands([c.queue[0]])
      && Commands([c.queue[0]]) + Line(c'.queue, down, out) == Line(c.queue, down, out)
  {
    Single(c.queue[0], p);
    match c.queue[0]
    case Command(ev) =>
      ClientPostsNothingForeign(c, ev);
      CommandLeaves(c.queue, ClientDispatch(c, ev).1, p, down, out);
    case Inbound(_, _) =>
      EnvelopeOpens(c.queue, p, down, out);
      NothingAdded(Line(ClientHandle(c).queue, down, out));
      NothingAdded(c.handled);
    case _ =>
      CommandLeaves(c.queue, [], p, down, out);
      NothingAdded(c.queue[1..]);
      NothingAdded(c.handled);
  }

  lemma LineGrows(queue: seq<QueueItem>, down: seq<Message>, out: seq<Message>, more: seq<Message>)
    ensures Line(queue, down, out + more) == Line(queue, down, out) + Good(more)
  {
    var base := Envelopes(queue) + down;
    Regroup(base, out, more);
    GoodSum(base + out, more);
    Regroup(Commands(queue), Good(base + out), Good(more));
  }

  lemma LineSends(queue: seq<QueueItem>, down: seq<Message>, sent: seq<Message>, out: seq<Message>)
    ensures Line(queue, down + sent, out) == Line(queue, down, sent + out)
  {
    Regroup(Envelopes(queue), down, sent);
    Regroup(Envelopes(queue) + down, sent, out);
  }

  /** What the server's turn takes from and adds to the outgoing events. */
  lemma ServerTurnOutgoing(s: Server, sur: SystemModule.Surroundings, p: PeerId)
    requires s.queue != []
    ensures var item := s.queue[0];
      OutFor(s.queue, p) + (if item.Command? then OutFor(Dispatch(sur, s, item.event).posted, p) else [])
      == (if item.Outbound? then Copies(item.receivers, p, item.message) else []) + OutFor(Handle(sur, s).queue, p)
  {
    var item, rest := s.queue[0], s.queue[1..];
    HeadViews(s.queue, p);
    Single(item, p);
    NothingAdded(OutFor(rest, p));
    NothingAdded(OutFor(s.queue, p));
    NothingAdded(OutFor(Handle(sur, s).queue, p));
    match item
    case Command(ev) => AddViews(rest, Dispatch(sur, s, ev).posted, p);
    case Outbound(_, _) => NothingAdded(rest);
    case Inbound(sender, envelope) =>
      AddViews(rest, Decoded(envelope, sender), p);
      DecodedViews(envelope, sender, p);
    case Disconnected(_) => NothingAdded(rest);
  }

  lemma ServerTurnFlow(n: Net, sur: SystemModule.Surroundings, p: PeerId)
    requires Consistent(n) && p in n.clients && n.server.queue != []
    ensures var n' := After(n, ServerTurn(sur));
      InFlight(n', p) == InFlight(n, p) + if p in n.connected then Good(Added(n, ServerTurn(sur), p)) else []
  {
    var n' := After(n, ServerTurn(sur));
    NothingAdded(InFlight(n, p));
    if p in n.connected {
      var item, queue, added := n.server.queue[0], n.clients[p].queue, Added(n, ServerTurn(sur), p);
      ServerTurnOutgoing(n.server, sur, p);
      LineGrows(queue, n.down[p], OutFor(n.server.queue, p), added);
      if item.Outbound? {
        LineSends(queue, n.down[p], Copies(item.receivers, p, item.message), OutFor(n'.server.queue, p));
        NothingAdded(OutFor(n.server.queue, p));
      } else {
        NothingAdded(OutFor(n'.server.queue, p));
      }
    }
  }

  ghost predicate Flows(n: Net, move: Move, p: PeerId)
    requires Enabled(n, move) && p in n.clients && p in n.down && p in n.addressed
  {
    var n' := After(n, move);
    && p in n'.clients && p in n'.down && p in n'.addressed && (p in n'.connected <==> p in n.connected)
    && n'.addressed[p] == n.addressed[p] + Added(n, move, p)
    && n'.clients[p].handled == n.clients[p].handled + Taken(n, move, p)
    && Taken(n, move, p) + InFlight(n', p) == InFlight(n, p) + if p in n.connected then Good(Added(n, move, p)) else []
  }

  lemma FlowAtServer(n: Net, move: Move, p: PeerId)
    requires Consistent(n) && Enabled(n, move) && p in n.clients
    requires move.ServerTurn? || move.ServerPost? || move.Upload?
    ensures Flows(n, move, p)
  {
    match move
    case ServerTurn(sur) => ServerTurnFlow(n, sur, p);
    case ServerPost(ev) => NothingOutgoing(n.server.queue, Command(ev), p);
    case Upload(x) => NothingOutgoing(n.server.queue, Inbound(Some(x), n.up[x][0]), p);
  }

  lemma FlowAtDeparture(n: Net, x: PeerId, arriving: nat, p: PeerId)
    requires Consistent(n) && Enabled(n, Disconnect(x, arriving)) && p in n.clients && x != p
    ensures Flows(n, Disconnect(x, arriving), p)
  {
    NothingOutgoing(n.server.queue, Disconnected(Some(x)), p);
  }

  lemma FlowAtClient(n: Net, move: Move, p: PeerId)
    requires Consistent(n) && Enabled(n, move) && p in n.clients
    requires move.Download? || move.ClientTurn? || move.ClientPost? || move.Connect? || move.Reconfigure?
    ensures Flows(n, move, p)
  {
    match move
    case ClientTurn(x) => if x == p { ClientTurnFlow(n.clients[p], p, n.down[p], Outgoing(n, p)); }
    case ClientPost(x, ev) => if x == p { ClientPostFlow(n, p, ev); }
    case Download(x) => if x == p { DownloadFlow(n, p); }
    case _ =>
  }

  /**
   One move and one client: messages come in at the end as they are addressed, leave at the front as they are
   handled, and nothing else happens to the line.
   */
  lemma Flow(n: Net, move: Move, p: PeerId)
    requires Consistent(n) && Enabled(n, move) && p in n.clients
    requires !(move.Disconnect? && move.p == p)
    ensures var n' := After(n, move);
      && p in n'.clients && p in n'.down && p in n'.addressed && (p in n'.connected <==> p in n.connected)
      && n'.addressed[p] == n.addressed[p] + Added(n, move, p)
      && n'.clients[p].handled == n.clients[p].handled + Taken(n, move, p)
      && Taken(n, move, p) + InFlight(n', p)
         == InFlight(n, p) + if p in n.connected then Good(Added(n, move, p)) else []
  {
    if move.ServerTurn? || move.ServerPost? || move.Upload? {
      FlowAtServer(n, move, p);
    } else if move.Disconnect? {
      FlowAtDeparture(n, move.p, move.arriving, p);
    } else {
      FlowAtClient(n, move, p);
    }
  }

  lemma NothingOutgoing(q: seq<QueueItem>, item: QueueItem, p: PeerId)
    requires !item.Outbound?
    ensures OutFor(q + [item], p) == OutFor(q, p)
  {
    AddViews(q, [item], p);
    Single(item, p);
    NothingAdded(OutFor(q, p));
  }

  lemma ClientPostFlow(n: Net, p: PeerId, ev: CommandEvent)
    requires Consistent(n) && Enabled(n, ClientPost(p, ev))
    ensures InFlight(After(n, ClientPost(p, ev)), p) == InFlight(n, p)
  {
    var q := n.clients[p].queue;
    AddViews(q, [Command(ev)], p);
    Single(Command(ev), p);
    NothingAdded(Commands(q));
    NothingAdded(Envelopes(q));
  }

  lemma DownloadFlow(n: Net, p: PeerId)
    requires Consistent(n) && Enabled(n, Download(p))
    ensures InFlight(After(n, Download(p)), p) == InFlight(n, p)
  {
    var q := n.clients[p].queue;
    var item := Inbound(Some(n.clients[p].serverId), [n.down[p][0]]);
    AddViews(q, [item], p);
    Single(item, p);
    NothingAdded(Commands(q));
    HeadAndTail(n.down[p]);
    Regroup(Envelopes(q), [n.down[p][0]], n.down[p][1..]);
  }

  /** A cut connection loses what had not arrived: the end of the line. */
  lemma CutFlow(n: Net, p: PeerId, arriving: nat)
    requires Consistent(n) && Enabled(n, Disconnect(p, arriving))
    ensures InFlight(After(n, Disconnect(p, arriving)), p) <= InFlight(n, p)
  {
    var q, kept, lost := n.clients[p].queue, n.down[p][..arriving], n.down[p][arriving..];
    assert n.down[p] == kept + lost;
    LineSends(q, kept, lost, OutFor(n.server.queue, p));
    LineGrows(q, kept, [], lost + OutFor(n.server.queue, p));
    NothingAdded(lost + OutFor(n.server.queue, p));
  }

  // ---------------------------------------------------------------------------------------------
  // Runs
  // ---------------------------------------------------------------------------------------------

  /** Handled and in flight together are what was addressed, up to the point where a lost connection was cut. */
  ghost predicate Ordered(n: Net, p: PeerId)
    requires p in n.clients && p in n.down && p in n.addressed
  {
    var sofar := n.clients[p].handled + InFlight(n, p);
    if p in n.connected then sofar == Good(n.addressed[p]) else sofar <= Good(n.addressed[p])
  }

  lemma Nobody(items: seq<QueueItem>, p: PeerId)
    requires Unused(items, p)
    requires forall i | 0 <= i < |items| && items[i].Outbound? :: items[i].receivers != []
    ensures OutFor(items, p) == []
  {
    if items != [] {
      if items[0].Outbound? { NotNamed(items[0].receivers, p, items[0].message); }
      Nobody(items[1..], p);
    }
  }

  lemma {:induction false} NotNamed(receivers: seq<Peer>, p: PeerId, m: Message)
    requires Some(p) !in receivers
    ensures Named(receivers, p, m) == []
  {
    if receivers != [] { NotNamed(receivers[1..], p, m); }
  }

  lemma Passed(handled: seq<Message>, taken: seq<Message>, before: seq<Message>, after: seq<Message>, news: seq<Message>)
    requires taken + after == before + news
    ensures handled + taken + after == handled + before + news
  {
    assert handled + taken + after == handled + (taken + after);
  }

  lemma MoveKeepsOrder(n: Net, move: Move, p: PeerId)
    requires Consistent(n) && Enabled(n, move) && p in After(n, move).clients
    requires p in n.clients ==> Ordered(n, p)
    ensures Consistent(After(n, move)) && Ordered(After(n, move), p)
  {
    var n' := After(n, move);
    MoveKeepsConsistent(n, move);
    if p !in n.clients {
      assert forall i | 0 <= i < |n.server.queue| :: Expected(n, n.server.queue[i]);
      Nobody(n.server.queue, p);
    } else if move.Disconnect? && move.p == p {
      CutFlow(n, p, move.arriving);
    } else {
      Flow(n, move, p);
      GoodSum(n.addressed[p], Added(n, move, p));
      var news := Good(Added(n, move, p));
      Passed(n.clients[p].handled, Taken(n, move, p), InFlight(n, p), InFlight(n', p),
             if p in n.connected then news else []);
    }
  }

  /**
   For every run from a server without clients, every client has at every moment handled a prefix of the
   deliverable messages addressed to it, in order, none twice; while it is connected the rest is in flight.
   */
  lemma {:induction false} EveryRunIsOrdered(n: Net, moves: seq<Move>, p: PeerId)
    requires Consistent(n) && Runs(n, moves) && (p in n.clients ==> Ordered(n, p)) && p in Run(n, moves).clients
    ensures var r := Run(n, moves);
      Consistent(r) && Ordered(r, p) && r.clients[p].handled <= Good(r.addressed[p])
    decreases |moves|
  {
    if moves != [] {
      var n' := After(n, moves[0]);
      MoveKeepsConsistent(n, moves[0]);
      if p in n'.clients { MoveKeepsOrder(n, moves[0], p); }
      EveryRunIsOrdered(n', moves[1..], p);
    }
  }

  lemma {:induction false} RunKeepsConsistent(n: Net, moves: seq<Move>)
    requires Consistent(n) && Runs(n, moves)
    ensures Consistent(Run(n, moves))
    decreases |moves|
  {
    if moves != [] {
      MoveKeepsConsistent(n, moves[0]);
      RunKeepsConsistent(After(n, moves[0]), moves[1..]);
    }
  }

  /** Whatever a server without clients gets into is consistent. */
  lemma ReachableIsConsistent(n: Net, moves: seq<Move>)
    requires Initial(n) && Runs(n, moves)
    ensures Consistent(Run(n, moves))
  {
    RunKeepsConsistent(n, moves);
  }
}
