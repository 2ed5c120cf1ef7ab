/**
 From the clients to the server: what a client posts for everybody leaves it, and the server makes commands of it,
 once and in order, through two queues on each side.
 */
module Upward {
  import opened Options
  import opened Sequences
  import opened Events
  import opened EventSystems
  import ComponentTables
  import opened Server
  import opened Protocol
  import opened Ordering
  import ClientStorage
  import IntrospectionSystem
  import NetworkSystem
  import StorageSystem
  import SystemModule

  /** A client's own event for everybody, sent to its server as every other peer, or to it by name. */
  predicate Shared(ev: CommandEvent, serverId: PeerId) {
    ev.origin == Local && ev.target == All && (ev.peer == None || ev.peer == Some(serverId))
  }

  /** Shared commands in a client's queue. */
  function Said(items: seq<QueueItem>, serverId: PeerId): seq<Message> {
    if items == [] then []
    else
      (if items[0].Command? && Shared(items[0].event, serverId) then [Wire(items[0].event)] else [])
      + Said(items[1..], serverId)
  }

  /** Messages for the server among a client's protocol events. */
  function Leaving(items: seq<QueueItem>, serverId: PeerId): seq<Message> {
    if items == [] then []
    else
      (if items[0].Outbound? && (items[0].receivers == [] || Some(serverId) in items[0].receivers)
       then [items[0].message] else [])
      + Leaving(items[1..], serverId)
  }

  /** Messages of p in the server's queue that no command was made of yet. */
  function From(items: seq<QueueItem>, p: PeerId): seq<Message> {
    if items == [] then []
    else (if items[0].Inbound? && items[0].sender == Some(p) then items[0].envelope else []) + From(items[1..], p)
  }

  /** A command that came from p and has not been validated. */
  predicate IsMade(item: QueueItem, p: PeerId) {
    item.Command? && item.event.origin == Foreign && item.event.target == Irrelevant && item.event.peer == Some(p)
  }

  /** Commands the server has made of p's messages. */
  function MadeOf(items: seq<QueueItem>, p: PeerId): seq<Message> {
    if items == [] then []
    else
      (if IsMade(items[0], p) then [Wire(items[0].event)] else []) + MadeOf(items[1..], p)
  }

  function Flat(frames: seq<seq<Message>>): seq<Message> { if frames == [] then [] else frames[0] + Flat(frames[1..]) }

  /** Everything on its way from p, in the order in which the server will make commands of it. */
  function Rising(n: Net, p: PeerId): seq<Message>
    requires p in n.clients && p in n.up
  {
    var c := n.clients[p];
    Good(From(n.server.queue, p) + (Flat(n.up[p]) + (Leaving(c.queue, c.serverId) + Said(c.queue, c.serverId))))
  }

  /** What p says in a move: the user's shared events, and the errors of its own storage about them. */
  function Voiced(n: Net, move: Move, p: PeerId): seq<Message>
    requires Enabled(n, move)
  {
    if move.ClientPost? && move.p == p then Said([Command(move.ev)], n.clients[p].serverId)
    else if move == ClientTurn(p) && n.clients[p].queue[0].Command?
    then Said(ClientStorage.Process(n.clients[p].store, n.clients[p].queue[0].event).posted, n.clients[p].serverId)
    else []
  }

  /** The commands the server makes of p's messages in a move: what its turn adds to the queue. */
  function Made(n: Net, move: Move, p: PeerId): seq<Message>
    requires Enabled(n, move)
  {
    if move.ServerTurn? then MadeOf(Handle(move.sur, n.server).queue[|n.server.queue| - 1..], p) else []
  }

  // ---------------------------------------------------------------------------------------------
  // Views of sums
  // ---------------------------------------------------------------------------------------------

  lemma {:induction false} ClientViewsSum(a: seq<QueueItem>, b: seq<QueueItem>, id: PeerId)
    ensures Said(a + b, id) == Said(a, id) + Said(b, id)
    ensures Leaving(a + b, id) == Leaving(a, id) + Leaving(b, id)
  {
    if a == [] {
      NothingAdded(b);
      NothingAdded(Said(b, id));
      NothingAdded(Leaving(b, id));
    } else {
      SumHead(a, b);
      ClientViewsSum(a[1..], b, id);
      Regroup(if a[0].Command? && Shared(a[0].event, id) then [Wire(a[0].event)] else [], Said(a[1..], id), Said(b, id));
      Regroup(
        if a[0].Outbound? && (a[0].receivers == [] || Some(id) in a[0].receivers) then [a[0].message] else [],
        Leaving(a[1..], id), Leaving(b, id));
    }
  }

  lemma {:induction false} ServerViewsSum(a: seq<QueueItem>, b: seq<QueueItem>, p: PeerId)
    ensures From(a + b, p) == From(a, p) + From(b, p)
    ensures MadeOf(a + b, p) == MadeOf(a, p) + MadeOf(b, p)
  {
    if a == [] {
      NothingAdded(b);
      NothingAdded(From(b, p));
      NothingAdded(MadeOf(b, p));
    } else {
      SumHead(a, b);
      ServerViewsSum(a[1..], b, p);
      Regroup(if a[0].Inbound? && a[0].sender == Some(p) then a[0].envelope else [], From(a[1..], p), From(b, p));
      Regroup(
        if IsMade(a[0], p) then [Wire(a[0].event)] else [],
        MadeOf(a[1..], p), MadeOf(b, p));
    }
  }

  lemma {:induction false} FlatSum(a: seq<seq<Message>>, b: seq<seq<Message>>)
    ensures Flat(a + b) == Flat(a) + Flat(b)
  {
    if a == [] {
      NothingAdded(b);
      NothingAdded(Flat(b));
    } else {
      SumHead(a, b);
      FlatSum(a[1..], b);
      Regroup(a[0], Flat(a[1..]), Flat(b));
    }
  }

  lemma OneItem(item: QueueItem, id: PeerId)
    ensures Said([item], id) == if item.Command? && Shared(item.event, id) then [Wire(item.event)] else []
    ensures Leaving([item], id) ==
      if item.Outbound? && (item.receivers == [] || Some(id) in item.receivers) then [item.message] else []
    ensures From([item], id) == if item.Inbound? && item.sender == Some(id) then item.envelope else []
    ensures MadeOf([item], id) == if IsMade(item, id) then [Wire(item.event)] else []
  {
    NothingAdded(if item.Inbound? then item.envelope else []);
    assert [item][1..] == [];
  }

  lemma OneFrame(m: Message)
    ensures Flat([[m]]) == [m]
  {
    assert [[m]][1..] == [];
    NothingAdded([m]);
  }

  // ---------------------------------------------------------------------------------------------
  // The client's turn
  // ---------------------------------------------------------------------------------------------

  lemma {:induction false} NobodyNamed(receivers: seq<Peer>, p: PeerId, m: Message)
    ensures Named(receivers, p, m) == [] <==> Some(p) !in receivers
  {
    if receivers != [] { NobodyNamed(receivers[1..], p, m); }
  }

  /** A client sends a message exactly when it is for everybody or names the server. */
  lemma SendsIff(c: Client)
    requires c.queue != []
    ensures ClientSends(c) ==
      if c.queue[0].Outbound? && (c.queue[0].receivers == [] || Some(c.serverId) in c.queue[0].receivers)
      then [[c.queue[0].message]] else []
  {
    if c.queue[0].Outbound? { NobodyNamed(c.queue[0].receivers, c.serverId, c.queue[0].message); }
  }

  /** Of its own command a client makes a message for the server exactly when the command is shared. */
  lemma CommandLeavesAs(c: Client, ev: CommandEvent)
    ensures var posted, errors := ClientDispatch(c, ev).1, ClientStorage.Process(c.store, ev).posted;
      && Leaving(posted, c.serverId) == (if Shared(ev, c.serverId) then [Wire(ev)] else [])
      && Said(posted, c.serverId) == Said(errors, c.serverId)
  {
    var n := NetworkSystem.ProcessCommand(NetworkSystem.PassThrough, map[], ev).posted;
    var st := ClientStorage.Process(c.store, ev).posted;
    ClientStorage.PostsErrors(c.store, ev);
    ClientViewsSum(n, st, c.serverId);
    CommandsDoNotLeave(st, c.serverId);
    NothingAdded(Leaving(n, c.serverId));
    NothingAdded(Said(st, c.serverId));
    if n != [] { OneItem(n[0], c.serverId); }
  }

  lemma {:induction false} CommandsDoNotLeave(items: seq<QueueItem>, id: PeerId)
    requires forall i | 0 <= i < |items| :: items[i].Command?
    ensures Leaving(items, id) == []
  {
    if items != [] { CommandsDoNotLeave(items[1..], id); }
  }

  lemma {:induction false} ForeignIsNotSaid(items: seq<QueueItem>, id: PeerId)
    requires forall i | 0 <= i < |items| :: items[i].Command? && items[i].event.origin == Foreign
    ensures Said(items, id) == [] && Leaving(items, id) == []
  {
    if items != [] { ForeignIsNotSaid(items[1..], id); }
  }

  /** Sent frames followed by what is left to send: the same as before, with what the storage said at the end. */
  lemma ClientTurnRises(c: Client, voiced: seq<Message>)
    requires c.queue != []
    requires voiced == if c.queue[0].Command? then Said(ClientStorage.Process(c.store, c.queue[0].event).posted, c.serverId) else []
    ensures var q := ClientHandle(c).queue;
      Flat(ClientSends(c)) + (Leaving(q, c.serverId) + Said(q, c.serverId))
      == Leaving(c.queue, c.serverId) + Said(c.queue, c.serverId) + voiced
  {
    var item, rest, id := c.queue[0], c.queue[1..], c.serverId;
    var posted := ClientHandle(c).queue[|rest|..];
    assert ClientHandle(c).queue == rest + posted;
    HeadAndTail(c.queue);
    ClientViewsSum([item], rest, id);
    ClientViewsSum(rest, posted, id);
    OneItem(item, id);
    SendsIff(c);
    match item
    case Command(ev) =>
      assert posted == ClientDispatch(c, ev).1;
      CommandLeavesAs(c, ev);
      Shuffle(Leaving(rest, id), if Shared(ev, id) then [Wire(ev)] else [], Said(rest, id), voiced);
    case Inbound(sender, envelope) =>
      assert posted == Decoded(envelope, sender);
      ForeignIsNotSaid(posted, id);
      Shuffle(Leaving(rest, id), [], Said(rest, id), voiced);
    case Outbound(_, m) =>
      assert posted == [];
      OneFrame(m);
      SentFirst(Flat(ClientSends(c)), Leaving(rest, id), Said(rest, id));
    case Disconnected(_) =>
      assert posted == [];
      Shuffle(Leaving(rest, id), [], Said(rest, id), voiced);
  }

  lemma Shuffle(leaving: seq<Message>, moved: seq<Message>, said: seq<Message>, voiced: seq<Message>)
    ensures [] + (leaving + moved + (said + voiced)) == [] + leaving + (moved + said) + voiced
    ensures [] + (leaving + [] + (said + [])) == [] + leaving + ([] + said) + []
  {
  }

  lemma SentFirst(sent: seq<Message>, leaving: seq<Message>, said: seq<Message>)
    ensures sent + (leaving + [] + (said + [])) == sent + leaving + ([] + said) + []
  {
  }

  // ---------------------------------------------------------------------------------------------
  // The server's turn
  // ---------------------------------------------------------------------------------------------

  ghost predicate NoneForeign(items: seq<QueueItem>) {
    forall i | 0 <= i < |items| ::
      !items[i].Inbound? && (items[i].Command? ==> items[i].event.origin != Foreign)
  }

  lemma {:induction false} NoneForeignViews(items: seq<QueueItem>, p: PeerId)
    requires NoneForeign(items)
    ensures From(items, p) == [] && MadeOf(items, p) == []
  {
    if items != [] { NoneForeignViews(items[1..], p); }
  }

  lemma {:induction false} DecodedIsMade(envelope: seq<Message>, sender: Peer, p: PeerId)
    ensures var items := Decoded(envelope, sender);
      From(items, p) == [] && MadeOf(items, p) == (if sender == Some(p) then Good(envelope) else [])
  {
    if envelope != [] {
      DecodedIsMade(envelope[1..], sender, p);
      var rest := Decoded(envelope[1..], sender);
      if Deliverable(envelope[0]) {
        var item := Command(Received(envelope[0], sender));
        OneItem(item, p);
        ServerViewsSum([item], rest, p);
      } else {
        NothingAdded(rest);
        NothingAdded(Good(envelope[1..]));
      }
    }
  }

  lemma ValidatorIsLocal(sur: SystemModule.Surroundings, s: SystemModule.State, ev: CommandEvent)
    ensures NoneForeign(SystemModule.Process(sur, s, ev).posted)
  {
  }

  lemma AnswerIsLocal(s: ComponentTables.Store, e: EntityId, peer: Peer)
    requires e in s.tables.stored
    ensures NoneForeign(IntrospectionSystem.Answer(s, e, peer))
  {
    forall i: nat | i < |IntrospectionSystem.Answer(s, e, peer)|
      ensures IsOwn(IntrospectionSystem.Answer(s, e, peer)[i])
    {
      AnswerItemIsOwn(s, e, peer, i);
    }
  }

  predicate IsOwn(item: QueueItem) { item.Command? && item.event.origin == Local }

  lemma AnswerItemIsOwn(s: ComponentTables.Store, e: EntityId, peer: Peer, i: nat)
    requires e in s.tables.stored && i < |IntrospectionSystem.Answer(s, e, peer)|
    ensures IsOwn(IntrospectionSystem.Answer(s, e, peer)[i])
  {
    if i == 0 {
      IntrospectionSystem.AnswerStart(s, e, peer);
    } else {
      var _ := IntrospectionSystem.AnswerRest(s, e, peer, i);
    }
  }

  lemma IntrospectionIsLocal(s: ComponentTables.Store, ev: CommandEvent)
    ensures NoneForeign(IntrospectionSystem.Process(s, ev).posted)
  {
    IntrospectionSystem.AnsweredIff(s, ev);
    if ev.entity in s.tables.stored { AnswerIsLocal(s, ev.entity, ev.peer); }
  }

  lemma StorageIsLocal(s: ComponentTables.Store, ev: CommandEvent)
    ensures NoneForeign(StorageSystem.Process(s, ev).posted)
  {
  }

  lemma ComposedIsLocal(
    s: Server, v: Outcome<SystemModule.State>, i: Outcome<ComponentTables.Store>, st: Outcome<ComponentTables.Store>,
    n: Outcome<NetworkSystem.Subscriptions>)
    requires NoneForeign(v.posted) && NoneForeign(i.posted) && NoneForeign(st.posted) && NoneForeign(n.posted)
    ensures NoneForeign(Compose(s, v, i, st, n).posted)
  {
  }

  /** A dispatch posts the server's own events only. */
  lemma DispatchIsLocal(sur: SystemModule.Surroundings, s: Server, ev: CommandEvent)
    ensures NoneForeign(Dispatch(sur, s, ev).posted)
  {
    var v := SystemModule.Process(sur, s.system, ev);
    var i := IntrospectionSystem.Process(s.store, v.event);
    var st := StorageSystem.Process(s.store, i.event);
    var n := NetworkSystem.ProcessCommand(NetworkSystem.Subscribed, s.subs, st.event);
    ValidatorIsLocal(sur, s.system, ev);
    IntrospectionIsLocal(s.store, v.event);
    StorageIsLocal(s.store, i.event);
    assert NoneForeign(n.posted);
    ComposedIsLocal(s, v, i, st, n);
  }

  /** What a turn adds to the server's queue, in terms of p's messages. */
  lemma TurnMakes(sur: SystemModule.Surroundings, s: Server, p: PeerId)
    requires s.queue != []
    ensures var added := Handle(sur, s).queue[|s.queue| - 1..];
      && Handle(sur, s).queue == s.queue[1..] + added && From(added, p) == []
      && MadeOf(added, p) == if s.queue[0].Inbound? && s.queue[0].sender == Some(p) then Good(s.queue[0].envelope) else []
  {
    var rest := s.queue[1..];
    var added := Handle(sur, s).queue[|rest|..];
    assert Handle(sur, s).queue == rest + added;
    match s.queue[0]
    case Command(ev) =>
      assert added == Dispatch(sur, s, ev).posted;
      DispatchIsLocal(sur, s, ev);
      NoneForeignViews(added, p);
    case Inbound(sender, envelope) =>
      assert added == Decoded(envelope, sender);
      DecodedIsMade(envelope, sender, p);
    case _ => assert added == [];
  }

  lemma TurnRises(sur: SystemModule.Surroundings, s: Server, p: PeerId, below: seq<Message>)
    requires s.queue != []
    ensures MadeOf(Handle(sur, s).queue[|s.queue| - 1..], p) + Good(From(Handle(sur, s).queue, p) + below)
      == Good(From(s.queue, p) + below)
  {
    var item, rest := s.queue[0], s.queue[1..];
    var added := Handle(sur, s).queue[|rest|..];
    TurnMakes(sur, s, p);
    HeadAndTail(s.queue);
    ServerViewsSum([item], rest, p);
    ServerViewsSum(rest, added, p);
    OneItem(item, p);
    NothingAdded(From(rest, p));
    NothingAdded(Good(From(rest, p) + below));
    if item.Inbound? && item.sender == Some(p) {
      Regroup(item.envelope, From(rest, p), below);
      GoodSum(item.envelope, From(rest, p) + below);
    }
  }

  // ---------------------------------------------------------------------------------------------
  // Every move, every run
  // ---------------------------------------------------------------------------------------------

  lemma PostRises(q: seq<QueueItem>, item: QueueItem, p: PeerId)
    requires !item.Inbound?
    ensures From(q + [item], p) == From(q, p)
  {
    ServerViewsSum(q, [item], p);
    OneItem(item, p);
    NothingAdded(From(q, p));
  }

  lemma SaidRises(above: seq<Message>, below: seq<Message>, more: seq<Message>)
    ensures Good(above + (below + more)) == Good(above + below) + Good(more)
  {
    Regroup(above, below, more);
    GoodSum(above + below, more);
  }

  lemma ClientTurnMove(n: Net, p: PeerId)
    requires Consistent(n) && p in n.connected && Enabled(n, ClientTurn(p))
    ensures var n' := After(n, ClientTurn(p)); Rising(n', p) == Rising(n, p) + Good(Voiced(n, ClientTurn(p), p))
  {
    var n', c, voiced := After(n, ClientTurn(p)), n.clients[p], Voiced(n, ClientTurn(p), p);
    var q, sent := ClientHandle(c).queue, ClientSends(c);
    var before, after := Leaving(c.queue, c.serverId) + Said(c.queue, c.serverId), Leaving(q, c.serverId) + Said(q, c.serverId);
    ClientTurnRises(c, voiced);
    FlatSum(n.up[p], sent);
    Regroup(Flat(n.up[p]), Flat(sent), after);
    Regroup(Flat(n.up[p]), before, voiced);
    SaidRises(From(n.server.queue, p), Flat(n.up[p]) + before, voiced);
  }

  lemma ClientPostMove(n: Net, p: PeerId, ev: CommandEvent)
    requires Consistent(n) && p in n.connected && Enabled(n, ClientPost(p, ev))
    ensures var n' := After(n, ClientPost(p, ev)); Rising(n', p) == Rising(n, p) + Good(Voiced(n, ClientPost(p, ev), p))
  {
    var c := n.clients[p];
    ClientViewsSum(c.queue, [Command(ev)], c.serverId);
    OneItem(Command(ev), c.serverId);
    var leaving, said, more := Leaving(c.queue, c.serverId), Said(c.queue, c.serverId), Said([Command(ev)], c.serverId);
    NothingAdded(leaving);
    Regroup(leaving, said, more);
    Regroup(Flat(n.up[p]), leaving + said, more);
    SaidRises(From(n.server.queue, p), Flat(n.up[p]) + (leaving + said), more);
  }

  lemma UploadMove(n: Net, x: PeerId, p: PeerId)
    requires Consistent(n) && p in n.connected && Enabled(n, Upload(x))
    ensures Rising(After(n, Upload(x)), p) == Rising(n, p)
  {
    var frame, c := n.up[x][0], n.clients[p];
    var item, below := Inbound(Some(x), frame), Leaving(c.queue, c.serverId) + Said(c.queue, c.serverId);
    ServerViewsSum(n.server.queue, [item], p);
    OneItem(item, p);
    NothingAdded(From(n.server.queue, p));
    if x == p {
      Regroup(From(n.server.queue, p), frame, Flat(n.up[p][1..]) + below);
      Regroup(frame, Flat(n.up[p][1..]), below);
    }
  }

  ghost predicate Rises(n: Net, move: Move, p: PeerId)
    requires Enabled(n, move) && p in n.clients && p in n.up
  {
    var n' := After(n, move);
    && p in n'.clients && p in n'.up
    && Made(n, move, p) + Rising(n', p) == Rising(n, p) + Good(Voiced(n, move, p))
  }

  lemma RisesAtServer(n: Net, move: Move, p: PeerId)
    requires Consistent(n) && Enabled(n, move) && p in n.connected
    requires move.ServerTurn? || move.ServerPost? || move.Upload?
    ensures Rises(n, move, p)
  {
    NothingAdded(Rising(n, p));
    NothingAdded(Rising(After(n, move), p));
    match move
    case ServerTurn(sur) =>
      var c := n.clients[p];
      TurnRises(sur, n.server, p, Flat(n.up[p]) + (Leaving(c.queue, c.serverId) + Said(c.queue, c.serverId)));
    case Upload(x) => UploadMove(n, x, p);
    case ServerPost(ev) => PostRises(n.server.queue, Command(ev), p);
  }

  lemma RisesAtClient(n: Net, move: Move, p: PeerId)
    requires Consistent(n) && Enabled(n, move) && p in n.connected
    requires move.ClientTurn? || move.ClientPost? || move.Download?
    ensures Rises(n, move, p)
  {
    NothingAdded(Rising(n, p));
    NothingAdded(Rising(After(n, move), p));
    match move
    case ClientTurn(x) => if x == p { ClientTurnMove(n, p); }
    case ClientPost(x, ev) => if x == p { ClientPostMove(n, p, ev); }
    case Download(x) => if x == p { DownloadMove(n, p); }
  }

  lemma RisesElsewhere(n: Net, move: Move, p: PeerId)
    requires Consistent(n) && Enabled(n, move) && p in n.connected && p in After(n, move).connected
    requires move.Connect? || move.Reconfigure? || move.Disconnect?
    ensures Rises(n, move, p)
  {
    NothingAdded(Rising(n, p));
    NothingAdded(Rising(After(n, move), p));
    if move.Disconnect? { PostRises(n.server.queue, Disconnected(Some(move.p)), p); }
  }

  /**
   One move while p stays connected: what p says enters the line at its end, the server takes from its front what it
   makes commands of, and nothing else happens to it.
   */
  lemma MoveRises(n: Net, move: Move, p: PeerId)
    requires Consistent(n) && Enabled(n, move) && p in n.connected && p in After(n, move).connected
    ensures var n' := After(n, move);
      && p in n'.clients && p in n'.up
      && Made(n, move, p) + Rising(n', p) == Rising(n, p) + Good(Voiced(n, move, p))
  {
    if move.ServerTurn? || move.ServerPost? || move.Upload? {
      RisesAtServer(n, move, p);
    } else if move.ClientTurn? || move.ClientPost? || move.Download? {
      RisesAtClient(n, move, p);
    } else {
      RisesElsewhere(n, move, p);
    }
  }

  lemma DownloadMove(n: Net, p: PeerId)
    requires Consistent(n) && p in n.connected && Enabled(n, Download(p))
    ensures Rising(After(n, Download(p)), p) == Rising(n, p)
  {
    var c := n.clients[p];
    var item := Inbound(Some(c.serverId), [n.down[p][0]]);
    ClientViewsSum(c.queue, [item], c.serverId);
    OneItem(item, c.serverId);
    NothingAdded(Leaving(c.queue, c.serverId));
    NothingAdded(Said(c.queue, c.serverId));
  }

  function VoicedIn(n: Net, moves: seq<Move>, p: PeerId): seq<Message>
    requires Runs(n, moves)
    decreases |moves|
  {
    if moves == [] then [] else Voiced(n, moves[0], p) + VoicedIn(After(n, moves[0]), moves[1..], p)
  }

  function MadeIn(n: Net, moves: seq<Move>, p: PeerId): seq<Message>
    requires Runs(n, moves)
    decreases |moves|
  {
    if moves == [] then [] else Made(n, moves[0], p) + MadeIn(After(n, moves[0]), moves[1..], p)
  }

  /** Connections are not taken up again. */
  lemma {:induction false} ConnectedThroughout(n: Net, moves: seq<Move>, p: PeerId)
    requires Consistent(n) && Runs(n, moves) && p in n.clients && p in Run(n, moves).connected
    ensures p in n.connected
    decreases |moves|
  {
    if moves != [] {
      MoveKeepsConsistent(n, moves[0]);
      ConnectedThroughout(After(n, moves[0]), moves[1..], p);
    }
  }

  /** Over every run through which p is connected. */
  lemma {:induction false} RunRises(n: Net, moves: seq<Move>, p: PeerId)
    requires Consistent(n) && Runs(n, moves) && p in n.connected && p in Run(n, moves).connected
    ensures p in Run(n, moves).clients && p in Run(n, moves).up
    ensures MadeIn(n, moves, p) + Rising(Run(n, moves), p) == Rising(n, p) + Good(VoicedIn(n, moves, p))
    decreases |moves|
  {
    if moves == [] {
      NothingAdded(Rising(n, p));
    } else {
      var n', rest := After(n, moves[0]), moves[1..];
      MoveKeepsConsistent(n, moves[0]);
      ConnectedThroughout(n', rest, p);
      MoveRises(n, moves[0], p);
      RunRises(n', rest, p);
      Regroup(Made(n, moves[0], p), MadeIn(n', rest, p), Rising(Run(n, moves), p));
      Regroup(Made(n, moves[0], p), Rising(n', p), Good(VoicedIn(n', rest, p)));
      Regroup(Rising(n, p), Good(Voiced(n, moves[0], p)), Good(VoicedIn(n', rest, p)));
      GoodSum(Voiced(n, moves[0], p), VoicedIn(n', rest, p));
    }
  }

  /** Nothing of p is queued at the server. */
  ghost predicate Unheard(n: Net, p: PeerId) {
    p !in n.clients && forall i | 0 <= i < |n.server.queue| && n.server.queue[i].Inbound? :: n.server.queue[i].sender != Some(p)
  }

  lemma {:induction false} UnheardIsNothing(items: seq<QueueItem>, p: PeerId)
    requires forall i | 0 <= i < |items| && items[i].Inbound? :: items[i].sender != Some(p)
    ensures From(items, p) == []
  {
    if items != [] { UnheardIsNothing(items[1..], p); }
  }

  lemma StaysUnheard(n: Net, move: Move, p: PeerId)
    requires Consistent(n) && Enabled(n, move) && Unheard(n, p)
    ensures Made(n, move, p) == [] && Voiced(n, move, p) == []
    ensures p !in After(n, move).clients ==> Unheard(After(n, move), p)
    ensures p in After(n, move).clients ==>
      p in After(n, move).connected && p in After(n, move).up && Rising(After(n, move), p) == []
  {
    if move.ServerTurn? {
      TurnMakes(move.sur, n.server, p);
      TurnStaysUnheard(n, move.sur, p);
    } else {
      UnheardIsNothing(n.server.queue, p);
    }
  }

  lemma TurnStaysUnheard(n: Net, sur: SystemModule.Surroundings, p: PeerId)
    requires n.server.queue != [] && Unheard(n, p)
    ensures Unheard(After(n, ServerTurn(sur)), p)
  {
    var rest, q := n.server.queue[1..], Handle(sur, n.server).queue;
    if n.server.queue[0].Command? { DispatchIsLocal(sur, n.server, n.server.queue[0].event); }
    forall i | 0 <= i < |q| && q[i].Inbound? ensures q[i].sender != Some(p) {
      if i < |rest| { assert q[i] == n.server.queue[i + 1]; }
    }
  }

  lemma {:induction false} NewcomerRises(n: Net, moves: seq<Move>, p: PeerId)
    requires Consistent(n) && Runs(n, moves) && Unheard(n, p) && p in Run(n, moves).connected
    ensures p in Run(n, moves).clients && p in Run(n, moves).up
    ensures MadeIn(n, moves, p) + Rising(Run(n, moves), p) == Good(VoicedIn(n, moves, p))
    decreases |moves|
  {
    MoveKeepsConsistent(n, moves[0]);
    StaysUnheard(n, moves[0], p);
    var n', rest := After(n, moves[0]), moves[1..];
    NothingAdded(MadeIn(n', rest, p));
    NothingAdded(VoicedIn(n', rest, p));
    NothingAdded(Good(VoicedIn(n', rest, p)));
    if p in n'.clients { RunRises(n', rest, p); } else { NewcomerRises(n', rest, p); }
  }

  /**
   Over every run from a server without clients: of a client that is connected at the end the server has made
   commands of a beginning of what it said for everybody, in order and once, and the rest is on its way.
   */
  lemma EveryRunIsHeard(n: Net, moves: seq<Move>, p: PeerId)
    requires Initial(n) && Runs(n, moves) && p in Run(n, moves).connected
    ensures p in Run(n, moves).clients && p in Run(n, moves).up
    ensures MadeIn(n, moves, p) + Rising(Run(n, moves), p) == Good(VoicedIn(n, moves, p))
  {
    NewcomerRises(n, moves, p);
  }
}
