/** Command events, their payloads and what of them crosses the network. */
module Events {
  import opened Options

  /** Entity ids are never negative once an event exists: every command event asserts it. */
  type EntityId = nat

  /** A peer's uuid. The null uuid of a locally created event is `None`. */
  type PeerId = nat
  type Peer = Option<PeerId>

  /** A QVariant, reduced to identity: one distinguished invalid value, texts, and everything else. */
  datatype Value = Invalid | Text(text: string) | Data(typeId: nat, content: seq<int>)

  datatype Origin = Local | Foreign | UserOrigin
  datatype Target = Irrelevant | LocalOnly | All | UserTarget
  datatype Subtype = Notification | Transaction

  datatype ComponentCommand = NoComponentCommand | ComponentAdd | ComponentRemove | ComponentSet | ComponentFetch
  datatype EntityCommand = NoEntityCommand | EntityAdd | EntityRemove | Subscribe | Unsubscribe
  datatype RpcCommand = NoRpcCommand | RpcCall | RpcRegister | RpcResult | RpcProgress | RpcCancellation

  datatype Reason =
    | EntityExists | EntityUnknown | ComponentExists | ComponentUnknown
    | RpcExists | RpcUnknown | NoIntrospection

  /** An error is about the rejected payload; of an error inside an error nothing is carried. */
  datatype Payload =
    | ComponentData(componentCommand: ComponentCommand, name: string, newValue: Value, oldValue: Value)
    | EntityData(entityCommand: EntityCommand)
    | IntrospectionData(values: map<string, Value>, rpcNames: seq<string>)
    | RpcData(rpcCommand: RpcCommand, procedure: string, invocation: map<string, Value>)
    | ErrorData(original: Payload, reason: Reason)

  datatype CommandEvent = CommandEvent(
    subtype: Subtype, entity: EntityId, payload: Payload, origin: Origin, target: Target, peer: Peer)
  {
    /** Only such events may leave the server in subscription mode. */
    predicate Publishable() { origin == Local && target == All }

    predicate IsComponent(command: ComponentCommand) {
      payload.ComponentData? && payload.componentCommand == command
    }

    predicate IsEntity(command: EntityCommand) {
      payload.EntityData? && payload.entityCommand == command
    }
  }

  /** The part of a command event that is serialized; origin, target and peer id are local. */
  datatype Message = Message(subtype: Subtype, entity: EntityId, payload: Payload)

  function Wire(ev: CommandEvent): Message { Message(ev.subtype, ev.entity, ev.payload) }

  /**
   Received payloads that are not valid are dropped before a command event is made of them. An error about an
   error carries no data, which is not valid; every other error has data and one of the texts of `Reason`.
   */
  predicate Deliverable(m: Message) {
    match m.payload
    case ComponentData(command, _, _, _) => command != NoComponentCommand
    case EntityData(command) => command != NoEntityCommand
    case IntrospectionData(values, _) => values != map[]
    case RpcData(command, procedure, _) => procedure != [] && command != NoRpcCommand
    case ErrorData(original, _) => !original.ErrorData?
  }

  /** What the receiving side makes of a message. */
  function Received(m: Message, peer: Peer): CommandEvent {
    CommandEvent(m.subtype, m.entity, m.payload, Foreign, Irrelevant, peer)
  }

  /** What waits in an event handler's queue. `Inbound` holds a received envelope, which may carry several events. */
  datatype QueueItem =
    | Command(event: CommandEvent)
    | Inbound(sender: Peer, envelope: seq<Message>)
    | Outbound(receivers: seq<Peer>, message: Message)
    | Disconnected(gone: Peer)

  /** ErrorDataSender::errorOut: the one event posted for a rejected one, which is accepted at the same time. */
  function ErrorFor(ev: CommandEvent, reason: Reason): (err: CommandEvent)
    ensures err.subtype == Notification && err.origin == Local && err.payload == ErrorData(ev.payload, reason)
    ensures err.entity == ev.entity && err.target == ev.target && err.peer == ev.peer
  {
    CommandEvent(Notification, ev.entity, ErrorData(ev.payload, reason), Local, ev.target, ev.peer)
  }

  /** The command events NetworkSystem makes of a received envelope. */
  function Decoded(envelope: seq<Message>, sender: Peer): (items: seq<QueueItem>)
    ensures |items| <= |envelope|
    ensures forall i | 0 <= i < |items| :: items[i].Command? && items[i].event.origin == Foreign
  {
    if envelope == [] then []
    else
      (if Deliverable(envelope[0]) then [Command(Received(envelope[0], sender))] else [])
      + Decoded(envelope[1..], sender)
  }
}
