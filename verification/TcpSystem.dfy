/** Connections and their ids: who is behind a peer id, and whom an outgoing protocol event is written to. */
module TcpSystem {
  import opened Options
  import opened Events
  import opened Protocol
  import Sequences

  /** One connection. `sent` records the messages framed onto its socket. */
  class TcpPeer {
    var peerId: Peer
    var sent: seq<Message>

    constructor ()
      ensures peerId == None && sent == []
    { peerId, sent := None, []; }

    method SendMessage(m: Message)
      modifies this`sent
      ensures sent == old(sent) + [m]
    { sent := sent + [m]; }
  }

  function Without(s: seq<TcpPeer>, x: TcpPeer): (r: seq<TcpPeer>)
    ensures forall y | y in r :: y in s && y != x
    ensures forall y | y in s && y != x :: y in r
  {
    if s == [] then [] else (if s[0] == x then [] else [s[0]]) + Without(s[1..], x)
  }

  class TcpSystem {
    var waitingAuth: seq<TcpPeer>
    var peerList: map<PeerId, TcpPeer>
    /** All open connections, and all ids ever given away. */
    ghost var connections: set<TcpPeer>
    ghost var used: set<PeerId>

    /**
     Every open connection either waits without an id or is listed under its own, and nothing else is listed:
     an id stands for one connection and a connection for one id.
     */
    ghost predicate Valid()
      reads this, connections
    {
      && connections == (set x | x in waitingAuth) + peerList.Values
      && (forall x | x in waitingAuth :: x.peerId == None)
      && (forall id | id in peerList :: peerList[id] in connections && peerList[id].peerId == Some(id))
      && peerList.Keys <= used
    }

    constructor ()
      ensures Valid() && connections == {} && peerList == map[]
    {
      waitingAuth, peerList := [], map[];
      connections, used := {}, {};
    }

    /** onClientConnected and onConnectionEstablished, which differ in the greeting. */
    method OnConnected(x: TcpPeer, greeting: Message)
      requires Valid() && x !in connections && x.peerId == None
      modifies this, x
      ensures Valid() && connections == old(connections) + {x} && peerList == old(peerList) && used == old(used)
      ensures x.peerId == None && x.sent == old(x.sent) + [greeting]
    {
      waitingAuth := waitingAuth + [x];
      connections := connections + {x};
      x.SendMessage(greeting);
    }

    /**
     The first message of a connection gives it an id, a fresh uuid; it keeps it from then on. The message is
     posted with the id of the connection it came from.
     */
    method OnMessageReceived(x: TcpPeer, envelope: seq<Message>, newId: PeerId) returns (posted: QueueItem)
      requires Valid() && x in connections && newId !in used
      modifies this, x
      ensures Valid() && connections == old(connections) && x.sent == old(x.sent)
      ensures posted == Inbound(x.peerId, envelope) && x.peerId.Some? && x.peerId.value in peerList && peerList[x.peerId.value] == x
      ensures if old(x.peerId).None? then x.peerId == Some(newId) && peerList == old(peerList)[newId := x] && newId in used
        else x.peerId == old(x.peerId) && peerList == old(peerList)
    {
      if x in waitingAuth {
        peerList := peerList[newId := x];
        used := used + {newId};
        x.peerId := Some(newId);
        waitingAuth := Without(waitingAuth, x);
        assert forall id | id in old(peerList) :: peerList[id] == old(peerList)[id] != x;
        assert peerList.Values == old(peerList).Values + {x} by { assert peerList[newId] == x; }
      }
      posted := Inbound(x.peerId, envelope);
    }

    /** onClientDisconnected: the departure is posted, without an id when the connection never got one. */
    method OnDisconnected(x: TcpPeer) returns (posted: QueueItem)
      requires Valid() && x in connections
      modifies this
      ensures Valid() && connections == old(connections) - {x} && used == old(used)
      ensures posted == Disconnected(x.peerId)
      ensures peerList == old(peerList) - x.peerId.ToSet()
    {
      posted := Disconnected(x.peerId);
      waitingAuth := Without(waitingAuth, x);
      if x.peerId.Some? { peerList := peerList - {x.peerId.value}; }
      connections := connections - {x};
      assert forall id | id in old(peerList) && old(peerList)[id] != x :: id in peerList && peerList[id] == old(peerList)[id];
      assert peerList.Values == old(peerList).Values - {x};
    }

    method Broadcast(m: Message)
      requires Valid()
      modifies peerList.Values
      ensures forall id | id in peerList :: peerList[id].sent == old(peerList[id].sent) + [m] && peerList[id].peerId == Some(id)
    {
      var rest := peerList.Keys;
      while rest != {}
        invariant rest <= peerList.Keys
        invariant forall id | id in peerList :: peerList[id].peerId == Some(id)
        invariant forall id | id in peerList ::
          peerList[id].sent == old(peerList[id].sent) + if id in rest then [] else [m]
        decreases rest
      {
        var id :| id in rest;
        peerList[id].SendMessage(m);
        rest := rest - {id};
      }
    }

    method SendToReceivers(receivers: seq<Peer>, m: Message)
      requires Valid()
      modifies peerList.Values
      ensures forall id | id in peerList ::
        peerList[id].sent == old(peerList[id].sent) + Named(receivers, id, m) && peerList[id].peerId == Some(id)
    {
      var i := 0;
      while i < |receivers|
        invariant 0 <= i <= |receivers|
        invariant forall id | id in peerList :: peerList[id].peerId == Some(id)
        invariant forall id | id in peerList :: peerList[id].sent == old(peerList[id].sent) + Named(receivers[..i], id, m)
      {
        var r := receivers[i];
        forall id: PeerId
          ensures Named(receivers[..i + 1], id, m) == Named(receivers[..i], id, m) + if r == Some(id) then [m] else []
        {
          assert receivers[..i + 1] == receivers[..i] + [r];
          NamedAdd(receivers[..i], r, id, m);
        }
        if r.Some? && r.value in peerList { peerList[r.value].SendMessage(m); }
        i := i + 1;
      }
      assert receivers[..i] == receivers;
    }

    /** An outgoing protocol event: every listed connection gets its copies, nobody else gets anything. */
    method ProcessEvent(receivers: seq<Peer>, m: Message)
      requires Valid()
      modifies peerList.Values
      ensures Valid()
      ensures forall id | id in peerList :: peerList[id].sent == old(peerList[id].sent) + Copies(receivers, id, m)
      ensures forall id | id in peerList ::
        |peerList[id].sent| == |old(peerList[id].sent)| + if receivers == [] then 1 else multiset(receivers)[Some(id)]
    {
      forall id: PeerId ensures |Copies(receivers, id, m)| == if receivers == [] then 1 else multiset(receivers)[Some(id)] {
        CopiesAreCounted(receivers, id, m);
      }
      if receivers == [] {
        Broadcast(m);
      } else {
        SendToReceivers(receivers, m);
      }
    }
  }

  lemma {:induction false} NamedAdd(receivers: seq<Peer>, r: Peer, p: PeerId, m: Message)
    ensures Named(receivers + [r], p, m) == Named(receivers, p, m) + if r == Some(p) then [m] else []
  {
    if receivers == [] {
      assert [r][1..] == [];
    } else {
      Sequences.SumHead(receivers, [r]);
      NamedAdd(receivers[1..], r, p, m);
    }
  }
}
