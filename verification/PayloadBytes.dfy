/** The structured payloads of command events as payload objects: what the two views of them agree on. */
module PayloadBytes {
  import opened Options
  import opened Framing
  import opened Events
  import Codec
  import Dispatch

  function ComponentCode(c: ComponentCommand): Codec.Int8 {
    match c
    case NoComponentCommand => -1
    case ComponentAdd => 0
    case ComponentRemove => 1
    case ComponentSet => 2
    case ComponentFetch => 3
  }

  function EntityCode(c: EntityCommand): Codec.Int8 {
    match c
    case NoEntityCommand => -1
    case EntityAdd => 0
    case EntityRemove => 1
    case Subscribe => 2
    case Unsubscribe => 3
  }

  function RpcCode(c: RpcCommand): Codec.Int8 {
    match c
    case NoRpcCommand => -1
    case RpcCall => 0
    case RpcRegister => 1
    case RpcResult => 2
    case RpcProgress => 3
    case RpcCancellation => 4
  }

  type Id = e: nat | e < 0x8000_0000

  /** The error texts, none of which is empty. */
  ghost predicate Texts(text: Reason -> string) { forall r :: text(r) != "" }

  /** Rejected payloads fit into a byte array. */
  ghost predicate Fits(qt: Codec.Qt, text: Reason -> string, e: Id, p: Payload)
    decreases p, 0
  {
    p.ErrorData? ==> Fits(qt, text, e, p.original) && |DataOf(qt, text, e, p.original).Serialize(qt)| < NULL_LENGTH
  }

  function DataOf(qt: Codec.Qt, text: Reason -> string, e: Id, p: Payload): Codec.Data
    requires Fits(qt, text, e, p)
    decreases p, 1
  {
    match p
    case ComponentData(c, name, v, w) => Codec.Component(e, ComponentCode(c), name, v, w)
    case EntityData(c) => Codec.Entity(e, EntityCode(c))
    case IntrospectionData(vs, ns) => Codec.Introspection(e, vs, ns)
    case RpcData(c, procedure, vs) => Codec.Rpc(e, RpcCode(c), procedure, vs)
    case ErrorData(original, reason) => Codec.ErrorAbout(qt, DataOf(qt, text, e, original), text(reason))
  }

  lemma ValidIffDeliverable(qt: Codec.Qt, text: Reason -> string, m: Message, e: Id)
    requires Texts(text) && m.entity == e && Fits(qt, text, e, m.payload)
    ensures Codec.IsValid(DataOf(qt, text, e, m.payload)) <==> Deliverable(m)
    ensures Codec.Reachable(DataOf(qt, text, e, m.payload))
  {
    if m.payload.ErrorData? {
      var original := DataOf(qt, text, e, m.payload.original);
      Codec.SerializedIsNotEmpty(qt, original);
      assert original.Type() == Codec.ERROR <==> m.payload.original.ErrorData?;
    }
  }

  /** The receiving filter lets exactly those payloads through that are deliverable, and hands them on as they were. */
  lemma DeliverableIffArrives(qt: Codec.Qt, text: Reason -> string, m: Message, e: Id)
    requires qt.Faithful() && Texts(text) && m.entity == e && Fits(qt, text, e, m.payload)
    ensures var d := DataOf(qt, text, e, m.payload);
      Codec.Arrives(qt, d.Type(), d.Serialize(qt)) == if Deliverable(m) then Some(d) else None
  {
    ValidIffDeliverable(qt, text, m, e);
    Codec.ArrivesIffValid(qt, DataOf(qt, text, e, m.payload));
  }

  /** Unwrapping an error gives the items what the dispatch says they get; only the id of an empty component differs. */
  lemma UnwrappingAgrees(qt: Codec.Qt, text: Reason -> string, e: Id, p: Payload)
    requires qt.Faithful() && Codec.ReadsNothing(qt) && p.ErrorData? && Fits(qt, text, e, p)
    ensures Codec.Unwrapped(qt, DataOf(qt, text, e, p))
      == Some(DataOf(qt, text, if p.original.ErrorData? then 0 else e, Dispatch.Unwrapped(p.original)))
  {
    var d := DataOf(qt, text, e, p.original);
    if p.original.ErrorData? {
      Codec.LocalErrorAboutErrorIsEmptyComponent(qt, d, text(p.reason));
    } else {
      Codec.UnwrappedIsOriginal(qt, d, DataOf(qt, text, e, p));
    }
  }
}
