/** A client's request on its way: what a client posts is handled by the server, a SUBSCRIBE up to the mirror it asks for. */
module Requests {
  import opened Sequences
  import opened Events
  import opened Server
  import opened Protocol
  import opened Ordering
  import opened Upward
  import Agreement
  import Mirror
  import Replica
  import Settling

  function StateAt(n: Net, moves: seq<Move>, k: nat): Net
    requires Runs(n, moves) && k <= |moves|
    decreases |moves|
  { if k == 0 then n else StateAt(After(n, moves[0]), moves[1..], k - 1) }

  lemma {:induction false} RunFromState(n: Net, moves: seq<Move>, k: nat)
    requires Runs(n, moves) && k <= |moves|
    ensures Runs(StateAt(n, moves, k), moves[k..]) && Run(StateAt(n, moves, k), moves[k..]) == Run(n, moves)
    decreases |moves|
  {
    if k == 0 {
      assert moves[0..] == moves;
    } else {
      RunFromState(After(n, moves[0]), moves[1..], k - 1);
      assert moves[1..][k - 1..] == moves[k..];
    }
  }

  lemma QueueMoves(n: Net, move: Move, item: QueueItem)
    requires Enabled(n, move) && item in n.server.queue
    ensures item in After(n, move).server.queue || (move.ServerTurn? && n.server.queue[0] == item)
  {
    var i :| 0 <= i < |n.server.queue| && n.server.queue[i] == item;
    if move.ServerTurn? && i > 0 {
      var rest := n.server.queue[1..];
      assert rest[i - 1] == item;
      TurnMakes(move.sur, n.server, 0);
      assert Handle(move.sur, n.server).queue[i - 1] == item;
    } else if !move.ServerTurn? {
      assert After(n, move).server.queue[i] == item;
    }
  }

  /** What is queued at a server that runs dry is handled. */
  lemma {:induction false} QueuedIsHandled(n: Net, moves: seq<Move>, item: QueueItem) returns (k: nat)
    requires Runs(n, moves) && item in n.server.queue && Run(n, moves).server.queue == []
    ensures k < |moves| && moves[k].ServerTurn?
    ensures StateAt(n, moves, k).server.queue != [] && StateAt(n, moves, k).server.queue[0] == item
    decreases |moves|
  {
    QueueMoves(n, moves[0], item);
    if moves[0].ServerTurn? && n.server.queue[0] == item {
      k := 0;
    } else {
      k := QueuedIsHandled(After(n, moves[0]), moves[1..], item);
      k := k + 1;
    }
  }

  predicate MadeItem(item: QueueItem, p: PeerId, m: Message) {
    IsMade(item, p) && Wire(item.event) == m
  }

  lemma {:induction false} MadeIsQueued(items: seq<QueueItem>, p: PeerId, m: Message) returns (i: nat)
    requires m in MadeOf(items, p)
    ensures i < |items| && MadeItem(items[i], p, m)
  {
    if MadeItem(items[0], p, m) {
      i := 0;
    } else {
      i := MadeIsQueued(items[1..], p, m);
      i := i + 1;
    }
  }

  lemma JustMadeIsQueued(n: Net, move: Move, p: PeerId, m: Message) returns (item: QueueItem)
    requires Enabled(n, move) && m in Made(n, move, p)
    ensures MadeItem(item, p, m) && item in After(n, move).server.queue
  {
    var added := Handle(move.sur, n.server).queue[|n.server.queue| - 1..];
    var i := MadeIsQueued(added, p, m);
    item := added[i];
    assert Handle(move.sur, n.server).queue[|n.server.queue| - 1 + i] == item;
  }

  /** Whatever the server makes of p's messages in a run that ends with an empty queue, it handles. */
  lemma {:induction false} MadeIsHandled(n: Net, moves: seq<Move>, p: PeerId, m: Message) returns (k: nat)
    requires Runs(n, moves) && m in MadeIn(n, moves, p) && Run(n, moves).server.queue == []
    ensures k < |moves| && moves[k].ServerTurn?
    ensures StateAt(n, moves, k).server.queue != [] && MadeItem(StateAt(n, moves, k).server.queue[0], p, m)
    decreases |moves|
  {
    if m in Made(n, moves[0], p) {
      var item := JustMadeIsQueued(n, moves[0], p, m);
      k := QueuedIsHandled(After(n, moves[0]), moves[1..], item);
    } else {
      k := MadeIsHandled(After(n, moves[0]), moves[1..], p, m);
    }
    k := k + 1;
  }

  lemma HandledRises(n: Net, p: PeerId)
    requires Consistent(n) && Settling.AllHandled(n) && p in n.connected
    ensures Rising(n, p) == []
  {
  }

  /** A shared event that a client posts is handled by the server as the client's, if the system comes to rest with p connected. */
  lemma PostedIsHandled(n: Net, p: PeerId, ev: CommandEvent, moves: seq<Move>) returns (k: nat)
    requires Consistent(n) && p in n.connected && Enabled(n, ClientPost(p, ev))
    requires Shared(ev, n.clients[p].serverId) && Deliverable(Wire(ev))
    requires var n' := After(n, ClientPost(p, ev));
      Runs(n', moves) && p in Run(n', moves).connected && Settling.AllHandled(Run(n', moves))
    ensures var n' := After(n, ClientPost(p, ev));
      && k < |moves| && moves[k].ServerTurn? && StateAt(n', moves, k).server.queue != []
      && MadeItem(StateAt(n', moves, k).server.queue[0], p, Wire(ev))
  {
    var n', m := After(n, ClientPost(p, ev)), Wire(ev);
    MoveKeepsConsistent(n, ClientPost(p, ev));
    MoveRises(n, ClientPost(p, ev), p);
    OneItem(Command(ev), n.clients[p].serverId);
    assert Good([m]) == [m] by { assert [m][1..] == []; }
    NothingAdded(Rising(n', p));
    assert Rising(n', p) == Rising(n, p) + [m];
    RunRises(n', moves, p);
    RunKeepsConsistent(n', moves);
    HandledRises(Run(n', moves), p);
    NothingAdded(MadeIn(n', moves, p));
    assert m in MadeIn(n', moves, p);
    k := MadeIsHandled(n', moves, p, m);
  }

  /**
   A client's SUBSCRIBE, from the client's queue to the head of the server's: there it is the request that the replica
   theorems start from, if and only if the entity is stored with components by then.
   */
  lemma SubscribeArrives(n: Net, p: PeerId, ev: CommandEvent, moves: seq<Move>, e: EntityId) returns (k: nat)
    requires Consistent(n) && p in n.connected && Enabled(n, ClientPost(p, ev))
    requires Shared(ev, n.clients[p].serverId) && ev.subtype == Transaction && ev.IsEntity(Subscribe) && ev.entity == e
    requires var n' := After(n, ClientPost(p, ev));
      Runs(n', moves) && p in Run(n', moves).connected && Settling.AllHandled(Run(n', moves))
    ensures k < |moves| && moves[k].ServerTurn?
    ensures var s := StateAt(After(n, ClientPost(p, ev)), moves, k).server;
      Agreement.Subscribes(s, p, e) <==> e in s.store.tables.stored && s.store.tables.stored[e] != map[]
  {
    k := PostedIsHandled(n, p, ev, moves);
  }

  /**
   From the client's request to the client's mirror: the system comes to rest, calmly from where the request was
   handled, and then the mirror equals the entity if and only if the names agreed there.
   */
  lemma RequestedReplicaAgreesIff(n: Net, p: PeerId, ev: CommandEvent, moves: seq<Move>, e: EntityId) returns (k: nat)
    requires Consistent(n) && p in n.connected && Enabled(n, ClientPost(p, ev))
    requires Shared(ev, n.clients[p].serverId) && ev.subtype == Transaction && ev.IsEntity(Subscribe) && ev.entity == e
    requires var n' := After(n, ClientPost(p, ev));
      Runs(n', moves) && p in Run(n', moves).connected && Settling.AllHandled(Run(n', moves))
    ensures k <= |moves|
    ensures var at, r := StateAt(After(n, ClientPost(p, ev)), moves, k), Run(After(n, ClientPost(p, ev)), moves);
      && Runs(at, moves[k..]) && p in at.clients && p in at.down && p in r.clients
      && (e in at.server.store.tables.stored && at.server.store.tables.stored[e] != map[]
          && Agreement.QuietAtHome(at.clients[p].queue, e) && Agreement.CalmRun(at, moves[k..], p, e) ==>
          (Mirror.ViewOf(r.clients[p].store, e) == Agreement.ServerView(r, e) <==>
           Agreement.Unintroduced(at, p, e)
           || Replica.Names(Agreement.ExpectedView(at, p, e), at.server.queue, p, e) == at.server.store.tables.stored[e].Keys))
  {
    k := SubscribeArrives(n, p, ev, moves, e);
    var n' := After(n, ClientPost(p, ev));
    var at, r := StateAt(n', moves, k), Run(n', moves);
    MoveKeepsConsistent(n, ClientPost(p, ev));
    RunKeepsConsistent(n', moves);
    RunFromState(n', moves, k);
    StateIsConsistent(n', moves, k, p);
    ConnectedThroughout(at, moves[k..], p);
    Settling.AllHandledIsSettled(r, p);
    if e in at.server.store.tables.stored && at.server.store.tables.stored[e] != map[]
      && Agreement.QuietAtHome(at.clients[p].queue, e) && Agreement.CalmRun(at, moves[k..], p, e)
    {
      Agreement.ReplicaAgreesIff(at, moves[k..], p, e);
    }
  }

  lemma {:induction false} StateIsConsistent(n: Net, moves: seq<Move>, k: nat, p: PeerId)
    requires Consistent(n) && Runs(n, moves) && k <= |moves| && p in n.clients
    ensures Consistent(StateAt(n, moves, k)) && p in StateAt(n, moves, k).clients
    decreases |moves|
  {
    if k > 0 {
      MoveKeepsConsistent(n, moves[0]);
      StateIsConsistent(After(n, moves[0]), moves[1..], k - 1, p);
    }
  }
}
