/** One entity as a client sees it, and how the messages of one server change that. */
module Mirror {
  import opened Options
  import opened Sequences
  import opened Events
  import opened EventSystems
  import opened ComponentTables
  import opened Protocol
  import ClientStorage

  /** The component values of one entity, if the entity is known. */
  type View = Option<map<string, Value>>

  function ViewOf(s: Store, e: EntityId): View {
    if e in s.tables.stored then Some(s.tables.stored[e]) else None
  }

  /** What a message does to the view of entity e. */
  function ApplyView(v: View, m: Message, e: EntityId): View {
    if m.subtype != Notification || m.entity != e then v
    else
      match m.payload
      case IntrospectionData(values, _) => if v.None? then Some(values) else v
      case EntityData(command) => if command == EntityRemove || command == Unsubscribe then None else v
      case ComponentData(command, c, x, _) =>
        if v.None? then v
        else
          (match command
           case ComponentAdd => if c in v.value then v else Some(v.value[c := x])
           case ComponentRemove => Some(v.value - {c})
           case NoComponentCommand => v
           case _ => if c in v.value then Some(v.value[c := x]) else v)
      case _ => v
  }

  function Fold(v: View, ms: seq<Message>, e: EntityId): View
    decreases |ms|
  {
    if ms == [] then v else Fold(ApplyView(v, ms[0], e), ms[1..], e)
  }

  lemma {:induction false} FoldSum(v: View, a: seq<Message>, b: seq<Message>, e: EntityId)
    ensures Fold(v, a + b, e) == Fold(Fold(v, a, e), b, e)
    decreases |a|
  {
    if a == [] { NothingAdded(b); } else {
      SumHead(a, b);
      FoldSum(ApplyView(v, a[0], e), a[1..], b, e);
    }
  }

  /** A second copy of a message changes nothing. */
  lemma ApplyTwice(v: View, m: Message, e: EntityId)
    ensures ApplyView(ApplyView(v, m, e), m, e) == ApplyView(v, m, e)
  {
    if m.payload.ComponentData? && v.Some? {
      var c, x := m.payload.name, m.payload.newValue;
      assert v.value - {c} - {c} == v.value - {c} && v.value[c := x][c := x] == v.value[c := x];
    }
  }

  /** However often a peer is named, the message has its effect once. */
  lemma {:induction false} NamedOnce(v: View, receivers: seq<Peer>, p: PeerId, m: Message, e: EntityId)
    ensures Fold(v, Good(Named(receivers, p, m)), e)
      == if Some(p) in receivers && Deliverable(m) then ApplyView(v, m, e) else v
    decreases |receivers|
  {
    if receivers != [] {
      var rest := Named(receivers[1..], p, m);
      var v' := if receivers[0] == Some(p) && Deliverable(m) then ApplyView(v, m, e) else v;
      NamedOnce(v', receivers[1..], p, m, e);
      ApplyTwice(v, m, e);
      NothingAdded(rest);
      NothingAdded(Good(rest));
      if receivers[0] == Some(p) {
        GoodSum([m], rest);
        var first := if Deliverable(m) then [m] else [];
        assert [m][1..] == [];
        NothingAdded(first);
        FoldSum(v, first, Good(rest), e);
      }
    }
  }

  /** Local events a client may well post: they leave its view of e alone. */
  predicate Harmless(ev: CommandEvent, e: EntityId) {
    || ev.origin == UserOrigin || ev.subtype == Transaction || ev.entity != e
    || ev.payload.ErrorData? || ev.payload.RpcData?
  }

  /** The client's store follows its messages exactly as the view does. */
  lemma StoreFollowsMessages(s: Store, ev: CommandEvent, e: EntityId)
    requires ev.origin != UserOrigin
    ensures ViewOf(ClientStorage.Process(s, ev).state, e) == ApplyView(ViewOf(s, e), Wire(ev), e)
  {
    if ev.subtype == Notification {
      match ev.payload
      case IntrospectionData(_, _) => if ev.entity !in s.tables.stored { ClientStorage.IntrospectionMirrors(s, ev); }
      case ComponentData(_, c, _, _) => StoreFollowsComponent(s, ev, e);
      case _ =>
    }
  }

  lemma StoreFollowsComponent(s: Store, ev: CommandEvent, e: EntityId)
    requires ev.payload.ComponentData? && ev.subtype == Notification
    ensures ViewOf(ClientStorage.ProcessComponent(s, ev).state, e) == ApplyView(ViewOf(s, e), Wire(ev), e)
  {
    var c := ev.payload.name;
    if ev.payload.componentCommand == ComponentRemove && ev.entity == e && e in s.tables.stored {
      assert c !in s.tables.stored[e] ==> s.tables.stored[e] - {c} == s.tables.stored[e];
    }
  }

  lemma HarmlessKeepsView(s: Store, ev: CommandEvent, e: EntityId)
    requires Harmless(ev, e)
    ensures ViewOf(ClientStorage.Process(s, ev).state, e) == ViewOf(s, e)
  {
    if ev.origin != UserOrigin { StoreFollowsMessages(s, ev, e); }
  }
}
