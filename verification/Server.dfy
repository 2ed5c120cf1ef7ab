/** The server's chain of event systems, and the queue that feeds it. */
module Server {
  import opened Events
  import opened EventSystems
  import opened ComponentTables
  import SystemModule
  import IntrospectionSystem
  import StorageSystem
  import NetworkSystem
  import EventHandler

  datatype Server = Server(
    queue: seq<QueueItem>, system: SystemModule.State, store: Store, subs: NetworkSystem.Subscriptions)

  datatype Kind = Validator | Introspection | Storage | Network | Tcp

  const CHAIN := [Validator, Introspection, Storage, Network, Tcp]

  /** One system as the event handler sees it; the TCP system ignores command events. */
  function Step(sur: SystemModule.Surroundings, kind: Kind, s: Server, ev: CommandEvent): Outcome<Server> {
    match kind
    case Validator =>
      var o := SystemModule.Process(sur, s.system, ev); Outcome(s.(system := o.state), o.event, o.accepted, o.posted)
    case Introspection =>
      var o := IntrospectionSystem.Process(s.store, ev); Outcome(s, o.event, o.accepted, o.posted)
    case Storage =>
      var o := StorageSystem.Process(s.store, ev); Outcome(s.(store := o.state), o.event, o.accepted, o.posted)
    case Network =>
      var o := NetworkSystem.ProcessCommand(NetworkSystem.Subscribed, s.subs, ev);
      Outcome(s.(subs := o.state), o.event, o.accepted, o.posted)
    case Tcp => Pass(s, ev)
  }

  function Steps(sur: SystemModule.Surroundings): (Kind, Server, CommandEvent) -> Outcome<Server> {
    (kind, s, ev) => Step(sur, kind, s, ev)
  }

  /** The parts of a dispatch put together: everything up to the first system that accepts. */
  function Compose(
    s: Server, v: Outcome<SystemModule.State>, i: Outcome<Store>, st: Outcome<Store>,
    n: Outcome<NetworkSystem.Subscriptions>): Outcome<Server>
  {
    var s1 := s.(system := v.state);
    var s2 := s1.(store := st.state);
    if v.accepted then Outcome(s1, v.event, true, v.posted)
    else if i.accepted then Outcome(s1, i.event, true, v.posted + i.posted)
    else if st.accepted then Outcome(s2, st.event, true, v.posted + i.posted + st.posted)
    else Outcome(s2.(subs := n.state), n.event, n.accepted, v.posted + i.posted + st.posted + n.posted)
  }

  /** What a command event does on its way through validator, introspection, storage and network. */
  function Dispatch(sur: SystemModule.Surroundings, s: Server, ev: CommandEvent): Outcome<Server> {
    var v := SystemModule.Process(sur, s.system, ev);
    var i := IntrospectionSystem.Process(s.store, v.event);
    var st := StorageSystem.Process(s.store, i.event);
    var n := NetworkSystem.ProcessCommand(NetworkSystem.Subscribed, s.subs, st.event);
    Compose(s, v, i, st, n)
  }

  function Next(o: Outcome<Server>, n: Outcome<Server>): Outcome<Server> {
    if o.accepted then o else Outcome(n.state, n.event, n.accepted, o.posted + n.posted)
  }

  lemma ComposeIsNext(
    s: Server, ev: CommandEvent, v: Outcome<SystemModule.State>, i: Outcome<Store>, st: Outcome<Store>,
    n: Outcome<NetworkSystem.Subscriptions>, o1: Outcome<Server>, o2: Outcome<Server>, o3: Outcome<Server>)
    requires o1 == Next(Pass(s, ev), Outcome(s.(system := v.state), v.event, v.accepted, v.posted))
    requires o2 == Next(o1, Outcome(o1.state, i.event, i.accepted, i.posted))
    requires o3 == Next(o2, Outcome(o2.state.(store := st.state), st.event, st.accepted, st.posted))
    ensures Next(o3, Outcome(o3.state.(subs := n.state), n.event, n.accepted, n.posted)) == Compose(s, v, i, st, n)
  {
    assert [] + v.posted == v.posted;
  }

  /** A chain whose systems have these outcomes, each where the one before it left off. */
  lemma ChainIsCompose(
    step: (Kind, Server, CommandEvent) -> Outcome<Server>, s: Server, ev: CommandEvent,
    v: Outcome<SystemModule.State>, i: Outcome<Store>, st: Outcome<Store>, n: Outcome<NetworkSystem.Subscriptions>)
    requires var s1 := s.(system := v.state);
      var s2 := s1.(store := st.state);
      && step(Validator, s, ev) == Outcome(s1, v.event, v.accepted, v.posted)
      && step(Introspection, s1, v.event) == Outcome(s1, i.event, i.accepted, i.posted)
      && step(Storage, s1, i.event) == Outcome(s2, st.event, st.accepted, st.posted)
      && step(Network, s2, st.event) == Outcome(s2.(subs := n.state), n.event, n.accepted, n.posted)
      && step(Tcp, s2.(subs := n.state), n.event) == Pass(s2.(subs := n.state), n.event)
    ensures EventHandler.Chain(CHAIN, step, Pass(s, ev)).outcome == Compose(s, v, i, st, n)
  {
    EventHandler.ChainOfFive(step, Pass(s, ev), Validator, Introspection, Storage, Network, Tcp);
    var o1 := EventHandler.Then(step, Pass(s, ev), Validator);
    var o2 := EventHandler.Then(step, o1, Introspection);
    var o3 := EventHandler.Then(step, o2, Storage);
    var o4 := EventHandler.Then(step, o3, Network);
    ComposeIsNext(s, ev, v, i, st, n, o1, o2, o3);
    assert o4.posted + [] == o4.posted;
  }

  /** `Dispatch` is what the event handler does with this chain. */
  lemma DispatchIsChain(sur: SystemModule.Surroundings, s: Server, ev: CommandEvent)
    ensures EventHandler.Chain(CHAIN, Steps(sur), Pass(s, ev)).outcome == Dispatch(sur, s, ev)
  {
    var v := SystemModule.Process(sur, s.system, ev);
    var i := IntrospectionSystem.Process(s.store, v.event);
    var st := StorageSystem.Process(s.store, i.event);
    var n := NetworkSystem.ProcessCommand(NetworkSystem.Subscribed, s.subs, st.event);
    ChainIsCompose(Steps(sur), s, ev, v, i, st, n);
  }

  /** One turn of the event loop: the oldest item is handled, what it posts goes to the end of the queue. */
  function Handle(sur: SystemModule.Surroundings, s: Server): Server
    requires s.queue != []
  {
    var item, rest := s.queue[0], s.queue[1..];
    if item.Command? then
      var o := Dispatch(sur, s, item.event);
      o.state.(queue := rest + o.posted)
    else
      var (subs, posted) := NetworkSystem.ProcessItem(NetworkSystem.Subscribed, s.subs, item);
      s.(subs := subs, queue := rest + posted)
  }
}
