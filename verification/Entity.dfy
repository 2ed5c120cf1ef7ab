/** A module's entity on the server: it takes the transactions for its components and procedures. */
module Entity {
  import opened Options
  import opened OrderedKeys
  import opened Events
  import opened EventSystems
  import Rpc

  datatype Component = Component(value: Value, readOnly: bool)

  datatype State = State(components: map<string, Component>, procedures: set<string>)

  /** A call handed to a registered procedure, for the peer that asked. */
  datatype Handed = Handed(procedure: string, call: Option<Rpc.CallId>, peer: Peer)

  datatype Reaction = Reaction(state: State, event: CommandEvent, accepted: bool, posted: seq<QueueItem>, handed: Option<Handed>)

  predicate Contains(s: string, part: string) {
    part <= s || (s != [] && Contains(s[1..], part))
  }

  /** Contains is QString::contains: the part stands somewhere in the text. */
  lemma {:induction false} ContainsIff(s: string, part: string)
    ensures Contains(s, part) <==> exists a: string, b: string :: s == a + part + b
  {
    if part <= s {
      assert s == [] + part + s[|part|..];
    } else if s != [] {
      ContainsIff(s[1..], part);
      if Contains(s[1..], part) {
        var a: string, b: string :| s[1..] == a + part + b;
        assert s == ([s[0]] + a) + part + b;
      }
      if exists a: string, b: string :: s == a + part + b {
        var a: string, b: string :| s == a + part + b;
        assert a != [];
        assert s[1..] == a[1..] + part + b;
      }
    }
  }

  /** The first procedure, in the order of names, whose folded name contains the folded wanted name. */
  function FirstMatch(fold: string -> string, names: seq<string>, wanted: string): (r: Option<string>)
    ensures r.Some? ==> r.value in names && Contains(fold(r.value), fold(wanted))
    ensures r.None? ==> forall n | n in names :: !Contains(fold(n), fold(wanted))
  {
    if names == [] then None
    else if Contains(fold(names[0]), fold(wanted)) then Some(names[0])
    else FirstMatch(fold, names[1..], wanted)
  }

  function SetNotification(e: EntityId, name: string, v: Value): QueueItem {
    Command(CommandEvent(Notification, e, ComponentData(ComponentSet, name, v, Invalid), Local, All, None))
  }

  /** setValueFromVein: a new value for a writable component is taken over and published. */
  function SetFromVein(e: EntityId, s: State, name: string, v: Value): (State, seq<QueueItem>)
    requires name in s.components
  {
    var c := s.components[name];
    if v == c.value || c.readOnly then (s, [])
    else (s.(components := s.components[name := c.(value := v)]), [SetNotification(e, name, v)])
  }

  function Process(cv: Rpc.Conversions, fold: string -> string, e: EntityId, s: State, ev: CommandEvent): Reaction {
    if ev.entity != e then Reaction(s, ev, false, [], None)
    else
      match ev.payload
      case ComponentData(command, name, v, _) =>
        if ev.subtype == Transaction && command == ComponentSet && name in s.components then
          var (s', posted) := SetFromVein(e, s, name, v);
          Reaction(s', ev, true, posted, None)
        else Reaction(s, ev, false, [], None)
      case RpcData(command, wanted, invocation) =>
        if command != RpcCall then Reaction(s, ev, false, [], None)
        else
          (match FirstMatch(fold, Keys(s.procedures), wanted)
           case Some(name) => Reaction(s, ev, true, [], Some(Handed(name, Rpc.CallIn(cv, invocation), ev.peer)))
           case None =>
             var rejected := ev.(target := All);
             Reaction(s, rejected, true, ErrorOut(rejected, RpcUnknown), None))
      case _ => Reaction(s, ev, false, [], None)
  }

  class VfCppEntity {
    const conversions: Rpc.Conversions
    const fold: string -> string
    const entityId: EntityId
    var componentList: map<string, Component>
    var rpcList: set<string>

    ghost function Model(): State
      reads this
    { State(componentList, rpcList) }

    constructor (conversions: Rpc.Conversions, fold: string -> string, entityId: EntityId)
      ensures Model() == State(map[], {}) && this.entityId == entityId && this.conversions == conversions && this.fold == fold
    {
      this.conversions, this.fold, this.entityId := conversions, fold, entityId;
      componentList, rpcList := map[], {};
    }

    method HandleComponents(ev: CommandEvent) returns (accepted: bool, posted: seq<QueueItem>)
      requires ev.payload.ComponentData? && ev.entity == entityId
      modifies this`componentList
      ensures Reaction(Model(), ev, accepted, posted, None) == Process(conversions, fold, entityId, old(Model()), ev)
    {
      accepted, posted := false, [];
      if ev.subtype == Transaction && ev.payload.componentCommand == ComponentSet && ev.payload.name in componentList {
        var name, v := ev.payload.name, ev.payload.newValue;
        var c := componentList[name];
        if v != c.value && !c.readOnly {
          componentList := componentList[name := c.(value := v)];
          posted := [SetNotification(entityId, name, v)];
        }
        accepted := true;
      }
    }

    /** The first registered name that matches. */
    method FindProcedure(wanted: string) returns (name: Option<string>)
      ensures name == FirstMatch(fold, Keys(rpcList), wanted)
    {
      var names := Keys(rpcList);
      var i := 0;
      while i < |names| && !Contains(fold(names[i]), fold(wanted))
        invariant 0 <= i <= |names|
        invariant FirstMatch(fold, names, wanted) == FirstMatch(fold, names[i..], wanted)
      {
        assert names[i..][1..] == names[i + 1..];
        i := i + 1;
      }
      name := if i < |names| then Some(names[i]) else None;
    }

    method HandleRpcs(ev: CommandEvent) returns (ev': CommandEvent, accepted: bool, posted: seq<QueueItem>, handed: Option<Handed>)
      requires ev.payload.RpcData? && ev.entity == entityId
      ensures Reaction(Model(), ev', accepted, posted, handed) == Process(conversions, fold, entityId, Model(), ev)
    {
      ev', accepted, posted, handed := ev, false, [], None;
      if ev.payload.rpcCommand == RpcCall {
        var name := FindProcedure(ev.payload.procedure);
        accepted := true;
        if name.Some? {
          handed := Some(Handed(name.value, Rpc.CallIn(conversions, ev.payload.invocation), ev.peer));
        } else {
          ev' := ev.(target := All);
          posted := ErrorOut(ev', RpcUnknown);
        }
      }
    }
  }

  /**
   A call is handed over exactly when some procedure's name contains the wanted one, to the first such procedure in
   the order of names and for the peer that called; otherwise its single error is one that subscribers get to see.
   */
  lemma CallIsHandedOrRejected(cv: Rpc.Conversions, fold: string -> string, e: EntityId, s: State, ev: CommandEvent)
    requires ev.entity == e && ev.payload.RpcData? && ev.payload.rpcCommand == RpcCall
    ensures var r := Process(cv, fold, e, s, ev);
      var known := exists n :: n in s.procedures && Contains(fold(n), fold(ev.payload.procedure));
      && r.accepted && (r.handed.Some? <==> known)
      && (known ==>
            && r.posted == [] && r.handed.value.peer == ev.peer && r.handed.value.procedure in s.procedures
            && r.handed.value.call
               == (if Rpc.CALL_ID in ev.payload.invocation then cv.toCall(ev.payload.invocation[Rpc.CALL_ID]) else None)
            && Contains(fold(r.handed.value.procedure), fold(ev.payload.procedure))
            && forall n | n in s.procedures && Contains(fold(n), fold(ev.payload.procedure)) :: Le(r.handed.value.procedure, n))
      && (!known ==>
            && |r.posted| == 1 && r.posted[0].Command? && r.posted[0].event.Publishable()
            && r.posted[0].event.payload == ErrorData(ev.payload, RpcUnknown) && r.posted[0].event.peer == ev.peer)
  {
    var names := Keys(s.procedures);
    assert forall n :: n in names <==> n in s.procedures;
    KeysAscend(s.procedures);
    if FirstMatch(fold, names, ev.payload.procedure).Some? { FirstIsLeast(fold, names, ev.payload.procedure); }
  }

  lemma {:induction false} FirstIsLeast(fold: string -> string, names: seq<string>, wanted: string)
    requires forall i, j | 0 <= i < j < |names| :: Le(names[i], names[j])
    requires FirstMatch(fold, names, wanted).Some?
    ensures forall n | n in names && Contains(fold(n), fold(wanted)) :: Le(FirstMatch(fold, names, wanted).value, n)
  {
    if Contains(fold(names[0]), fold(wanted)) {
      LeTotal(names[0], names[0]);
    } else {
      FirstIsLeast(fold, names[1..], wanted);
    }
  }

  /**
   A SET is taken over, and a notification of it posted, exactly when it changes a writable component, and is never
   left to the validator. What becomes of the notification is another matter: see `EntityPublishing`.
   */
  lemma SetIsTakenOverIffItChanges(cv: Rpc.Conversions, fold: string -> string, e: EntityId, s: State, ev: CommandEvent)
    requires ev.entity == e && ev.IsComponent(ComponentSet) && ev.subtype == Transaction && ev.payload.name in s.components
    ensures var r, c := Process(cv, fold, e, s, ev), s.components[ev.payload.name];
      && r.accepted
      && (r.posted != [] <==> ev.payload.newValue != c.value && !c.readOnly)
      && (r.posted != [] ==>
            && r.posted[0].Command? && r.posted[0].event.Publishable() && r.posted[0].event.subtype == Notification
            && Wire(r.posted[0].event).payload == ComponentData(ComponentSet, ev.payload.name, ev.payload.newValue, Invalid)
            && r.state.components[ev.payload.name].value == ev.payload.newValue)
      && r.state.components.Keys == s.components.Keys && r.state.procedures == s.procedures
      && (forall n | n in s.components && n != ev.payload.name :: r.state.components[n] == s.components[n])
  {
  }
}
