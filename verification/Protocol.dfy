/**
 Server, clients and the connections between them as one transition system. A message passes two queues
 on each side: as a command and then a protocol event on the server, the other way round on the client.
 */
module Protocol {
  import opened Options
  import opened Sequences
  import opened Events
  import opened EventSystems
  import opened ComponentTables
  import opened Server
  import SystemModule
  import NetworkSystem
  import ClientStorage

  /** `serverId` is the id the client gave its connection; `handled` records the server's notifications it handled. */
  datatype Client = Client(queue: seq<QueueItem>, store: Store, serverId: PeerId, handled: seq<Message>)

  /**
   `clients` holds everybody who ever connected, `connected` the peers in the server's peer list. `down` and
   `up` are the frames on the wire. `addressed` records what the server's network system addressed to a peer.
   */
  datatype Net = Net(
    server: Server,
    connected: set<PeerId>,
    clients: map<PeerId, Client>,
    down: map<PeerId, seq<Message>>,
    up: map<PeerId, seq<seq<Message>>>,
    addressed: map<PeerId, seq<Message>>)

  datatype Move =
    | Connect(p: PeerId, serverId: PeerId)
    | ServerPost(ev: CommandEvent)
    | Reconfigure(system: SystemModule.State)
    | ServerTurn(sur: SystemModule.Surroundings)
    | Download(p: PeerId)
    | ClientTurn(p: PeerId)
    | ClientPost(p: PeerId, ev: CommandEvent)
    | Upload(p: PeerId)
    | Disconnect(p: PeerId, arriving: nat)

  // ---------------------------------------------------------------------------------------------
  // What is where
  // ---------------------------------------------------------------------------------------------

  /** The copies of a sent message that go to one peer; an empty receiver list is a broadcast. */
  function Copies(receivers: seq<Peer>, p: PeerId, m: Message): seq<Message> {
    if receivers == [] then [m] else Named(receivers, p, m)
  }

  function Named(receivers: seq<Peer>, p: PeerId, m: Message): seq<Message> {
    if receivers == [] then [] else (if receivers[0] == Some(p) then [m] else []) + Named(receivers[1..], p, m)
  }

  /** Messages for p among queued protocol events. */
  function OutFor(items: seq<QueueItem>, p: PeerId): seq<Message> {
    if items == [] then []
    else (if items[0].Outbound? then Copies(items[0].receivers, p, items[0].message) else []) + OutFor(items[1..], p)
  }

  /** Received messages not yet deserialized. */
  function Envelopes(items: seq<QueueItem>): seq<Message> {
    if items == [] then []
    else (if items[0].Inbound? then items[0].envelope else []) + Envelopes(items[1..])
  }

  /** Received messages that are command events already. */
  function Commands(items: seq<QueueItem>): seq<Message> {
    if items == [] then []
    else
      (if items[0].Command? && items[0].event.origin == Foreign then [Wire(items[0].event)] else [])
      + Commands(items[1..])
  }

  /** Messages a receiver makes events of. */
  function Good(ms: seq<Message>): seq<Message> {
    if ms == [] then [] else (if Deliverable(ms[0]) then [ms[0]] else []) + Good(ms[1..])
  }

  // ---------------------------------------------------------------------------------------------
  // Moves
  // ---------------------------------------------------------------------------------------------

  /** A client's chain: pass-through network system, TCP system, command handlers, storage. */
  function ClientDispatch(c: Client, ev: CommandEvent): (Store, seq<QueueItem>) {
    var n := NetworkSystem.ProcessCommand(NetworkSystem.PassThrough, map[], ev);
    var st := ClientStorage.Process(c.store, ev);
    (st.state, n.posted + st.posted)
  }

  function ClientHandle(c: Client): Client
    requires c.queue != []
  {
    var item, rest := c.queue[0], c.queue[1..];
    match item
    case Command(ev) =>
      var (store, posted) := ClientDispatch(c, ev);
      Client(rest + posted, store, c.serverId, c.handled + if ev.origin == Foreign then [Wire(ev)] else [])
    case Inbound(sender, envelope) => c.(queue := rest + Decoded(envelope, sender))
    case _ => c.(queue := rest)
  }

  /** What the client's TCP system sends when it handles the item. */
  function ClientSends(c: Client): seq<seq<Message>>
    requires c.queue != []
  {
    var item := c.queue[0];
    if item.Outbound? && Copies(item.receivers, c.serverId, item.message) != [] then [[item.message]] else []
  }

  /** A new peer id is a new uuid: nothing has been addressed to it. */
  predicate Unused(items: seq<QueueItem>, p: PeerId) {
    forall i | 0 <= i < |items| && items[i].Outbound? :: Some(p) !in items[i].receivers
  }

  predicate Enabled(n: Net, move: Move) {
    match move
    case Connect(p, _) => p !in n.clients && Unused(n.server.queue, p)
    case ServerPost(_) => true
    case Reconfigure(_) => true
    case ServerTurn(_) => n.server.queue != []
    case Download(p) => p in n.down && n.down[p] != [] && p in n.clients
    case ClientTurn(p) => p in n.clients && n.clients[p].queue != []
    case ClientPost(p, ev) => p in n.clients && ev.origin != Foreign
    case Upload(p) => p in n.connected && p in n.up && n.up[p] != []
    case Disconnect(p, arriving) => p in n.connected && p in n.down && arriving <= |n.down[p]|
  }

  /** Server queue item by item: commands run through the chain, protocol events go out on the wire. */
  function AfterServerTurn(n: Net, sur: SystemModule.Surroundings): Net
    requires n.server.queue != []
  {
    var item := n.server.queue[0];
    var server := Handle(sur, n.server);
    match item
    case Command(ev) =>
      var posted := Dispatch(sur, n.server, ev).posted;
      n.(server := server, addressed := map p | p in n.addressed :: n.addressed[p] + OutFor(posted, p))
    case Outbound(receivers, m) =>
      n.(server := server,
         down := map p | p in n.down :: if p in n.connected then n.down[p] + Copies(receivers, p, m) else n.down[p])
    case _ => n.(server := server)
  }

  function After(n: Net, move: Move): Net
    requires Enabled(n, move)
  {
    match move
    case Connect(p, serverId) =>
      Net(n.server, n.connected + {p}, n.clients[p := Client([], Store(Tables(map[], map[]), map[]), serverId, [])],
          n.down[p := []], n.up[p := []], n.addressed[p := []])
    case ServerPost(ev) => n.(server := n.server.(queue := n.server.queue + [Command(ev)]))
    case Reconfigure(system) => n.(server := n.server.(system := system))
    case ServerTurn(sur) => AfterServerTurn(n, sur)
    case Download(p) =>
      var c := n.clients[p];
      var arrived := c.(queue := c.queue + [Inbound(Some(c.serverId), [n.down[p][0]])]);
      n.(clients := n.clients[p := arrived], down := n.down[p := n.down[p][1..]])
    case ClientTurn(p) =>
      var c := n.clients[p];
      n.(clients := n.clients[p := ClientHandle(c)],
         up := if p in n.connected && p in n.up then n.up[p := n.up[p] + ClientSends(c)] else n.up)
    case ClientPost(p, ev) =>
      var c := n.clients[p];
      n.(clients := n.clients[p := c.(queue := c.queue + [Command(ev)])])
    case Upload(p) =>
      n.(server := n.server.(queue := n.server.queue + [Inbound(Some(p), n.up[p][0])]), up := n.up[p := n.up[p][1..]])
    case Disconnect(p, arriving) =>
      n.(server := n.server.(queue := n.server.queue + [Disconnected(Some(p))]),
         connected := n.connected - {p}, down := n.down[p := n.down[p][..arriving]], up := n.up[p := []])
  }

  /** A server without clients. */
  predicate Initial(n: Net) {
    && n.connected == {} && n.clients == map[] && n.down == map[] && n.up == map[] && n.addressed == map[]
    && (forall i | 0 <= i < |n.server.queue| :: n.server.queue[i].Command?)
  }

  predicate Runs(n: Net, moves: seq<Move>)
    decreases |moves|
  {
    moves == [] || (Enabled(n, moves[0]) && Runs(After(n, moves[0]), moves[1..]))
  }

  function Run(n: Net, moves: seq<Move>): Net
    requires Runs(n, moves)
    decreases |moves|
  {
    if moves == [] then n else Run(After(n, moves[0]), moves[1..])
  }

  /** A peer gets one copy of a broadcast, and otherwise one for each time it is named. */
  lemma {:induction false} CopiesAreCounted(receivers: seq<Peer>, p: PeerId, m: Message)
    ensures |Named(receivers, p, m)| == multiset(receivers)[Some(p)]
    ensures |Copies(receivers, p, m)| == if receivers == [] then 1 else multiset(receivers)[Some(p)]
    ensures forall x | x in Copies(receivers, p, m) :: x == m
    ensures forall x | x in Named(receivers, p, m) :: x == m
  {
    if receivers != [] {
      CopiesAreCounted(receivers[1..], p, m);
      assert receivers == [receivers[0]] + receivers[1..];
    }
  }

  // ---------------------------------------------------------------------------------------------
  // Queue views of sums
  // ---------------------------------------------------------------------------------------------

  lemma {:induction false} OutForSum(a: seq<QueueItem>, b: seq<QueueItem>, p: PeerId)
    ensures OutFor(a + b, p) == OutFor(a, p) + OutFor(b, p)
  {
    if a == [] {
      NothingAdded(b);
      NothingAdded(OutFor(b, p));
    } else {
      var first := if a[0].Outbound? then Copies(a[0].receivers, p, a[0].message) else [];
      SumHead(a, b);
      OutForSum(a[1..], b, p);
      Regroup(first, OutFor(a[1..], p), OutFor(b, p));
    }
  }

  lemma {:induction false} EnvelopesSum(a: seq<QueueItem>, b: seq<QueueItem>)
    ensures Envelopes(a + b) == Envelopes(a) + Envelopes(b)
  {
    if a == [] {
      NothingAdded(b);
      NothingAdded(Envelopes(b));
    } else {
      SumHead(a, b);
      EnvelopesSum(a[1..], b);
      Regroup(if a[0].Inbound? then a[0].envelope else [], Envelopes(a[1..]), Envelopes(b));
    }
  }

  lemma {:induction false} CommandsSum(a: seq<QueueItem>, b: seq<QueueItem>)
    ensures Commands(a + b) == Commands(a) + Commands(b)
  {
    if a == [] {
      NothingAdded(b);
      NothingAdded(Commands(b));
    } else {
      var first := if a[0].Command? && a[0].event.origin == Foreign then [Wire(a[0].event)] else [];
      SumHead(a, b);
      CommandsSum(a[1..], b);
      Regroup(first, Commands(a[1..]), Commands(b));
    }
  }

  lemma {:induction false} GoodSum(a: seq<Message>, b: seq<Message>)
    ensures Good(a + b) == Good(a) + Good(b)
  {
    if a == [] {
      NothingAdded(b);
      NothingAdded(Good(b));
    } else {
      SumHead(a, b);
      GoodSum(a[1..], b);
      Regroup(if Deliverable(a[0]) then [a[0]] else [], Good(a[1..]), Good(b));
    }
  }

  /** One item's views. */
  lemma Single(item: QueueItem, p: PeerId)
    ensures Commands([item]) == if item.Command? && item.event.origin == Foreign then [Wire(item.event)] else []
    ensures Envelopes([item]) == if item.Inbound? then item.envelope else []
    ensures OutFor([item], p) == if item.Outbound? then Copies(item.receivers, p, item.message) else []
  {
    NothingAdded(if item.Inbound? then item.envelope else []);
    NothingAdded(if item.Outbound? then Copies(item.receivers, p, item.message) else []);
    assert [item][1..] == [];
  }

  lemma {:induction false} DecodedViews(envelope: seq<Message>, sender: Peer, p: PeerId)
    ensures var items := Decoded(envelope, sender);
      Commands(items) == Good(envelope) && Envelopes(items) == [] && OutFor(items, p) == []
  {
    if envelope != [] {
      DecodedViews(envelope[1..], sender, p);
      var rest := Decoded(envelope[1..], sender);
      if Deliverable(envelope[0]) {
        var item := Command(Received(envelope[0], sender));
        Single(item, p);
        CommandsSum([item], rest);
        EnvelopesSum([item], rest);
        OutForSum([item], rest, p);
      } else {
        NothingAdded(rest);
        NothingAdded(Good(envelope[1..]));
      }
    }
  }
}
