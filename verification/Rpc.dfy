/** Remote procedure calls: invokers waiting for results, and the server's memory of who called. */
module Rpc {
  import opened Options
  import opened OrderedKeys
  import opened Events
  import opened Dispatch
  import Texts

  /** A call's uuid; the null uuid is no call. */
  type CallId = nat

  const CALL_ID := "RemoteProcedureData::callID"
  const RESULT_CODE := "RemoteProcedureData::resultCode"
  const ERROR_MESSAGE := "RemoteProcedureData::errorMessage"
  const RETURN := "RemoteProcedureData::Return"
  const CALL_PARAMETERS := "RemoteProcedureData::callParameters"
  const EINVAL := -22
  const SUCCESS := 0

  /** How ids and result codes are put into values, and ids read from them. */
  datatype Conversions = Conversions(ofCall: CallId -> Value, ofCode: int -> Value, toCall: Value -> Option<CallId>) {
    ghost predicate Faithful() { forall id: CallId :: toCall(ofCall(id)) == Some(id) }
  }

  function CallIn(cv: Conversions, values: map<string, Value>): Option<CallId> {
    if CALL_ID in values then cv.toCall(values[CALL_ID]) else None
  }

  // ---------------------------------------------------------------------------------------------
  // The calling side
  // ---------------------------------------------------------------------------------------------

  /** Calls waiting for an answer, and the finished ones with their outcome, in order. */
  datatype Invoker = Invoker(pending: set<CallId>, finished: seq<(CallId, bool)>) {
    function Invoke(id: CallId): Invoker { this.(pending := pending + {id}) }

    function Finish(id: Option<CallId>, ok: bool): Invoker {
      if id.Some? && id.value in pending then Invoker(pending - {id.value}, finished + [(id.value, ok)]) else this
    }

    /** Results finish calls well, rejected RPC data finish them badly, everything else is not for the invoker. */
    function Handle(cv: Conversions, d: Delivery): Invoker {
      match d
      case Event(ev) =>
        if ev.payload.RpcData? && ev.payload.rpcCommand == RpcResult then Finish(CallIn(cv, ev.payload.invocation), true) else this
      case Rejected(original) =>
        if original.RpcData? then Finish(CallIn(cv, original.invocation), false) else this
    }
  }

  class VfRPCInvoker {
    const conversions: Conversions
    var pendingRpcs: set<CallId>
    var finished: seq<(CallId, bool)>

    ghost function Model(): Invoker
      reads this
    { Invoker(pendingRpcs, finished) }

    constructor (conversions: Conversions)
      ensures Model() == Invoker({}, []) && this.conversions == conversions
    {
      this.conversions := conversions;
      pendingRpcs, finished := {}, [];
    }

    /** `identifier` is the fresh uuid of the call. */
    method InvokeRpc(entity: EntityId, signature: string, parameters: Value, identifier: CallId) returns (ev: CommandEvent)
      modifies this`pendingRpcs
      ensures Model() == old(Model()).Invoke(identifier)
      ensures ev.payload.RpcData? && ev.payload.rpcCommand == RpcCall && ev.payload.procedure == signature
      ensures ev.subtype == Transaction && ev.entity == entity && ev.Publishable()
      ensures ev.payload.invocation == map[CALL_ID := conversions.ofCall(identifier), CALL_PARAMETERS := parameters]
    {
      pendingRpcs := pendingRpcs + {identifier};
      var data := map[CALL_ID := conversions.ofCall(identifier), CALL_PARAMETERS := parameters];
      ev := CommandEvent(Transaction, entity, RpcData(RpcCall, signature, data), Local, All, None);
    }

    method ProcessCommandEvent(ev: CommandEvent)
      modifies this
      ensures Model() == old(Model()).Handle(conversions, Event(ev))
    {
      if ev.payload.RpcData? && ev.payload.rpcCommand == RpcResult {
        var id := CallIn(conversions, ev.payload.invocation);
        if id.Some? && id.value in pendingRpcs {
          pendingRpcs := pendingRpcs - {id.value};
          finished := finished + [(id.value, true)];
        }
      }
    }

    method ProcessErrorCommandEventData(original: Payload)
      modifies this
      ensures Model() == old(Model()).Handle(conversions, Rejected(original))
    {
      if original.RpcData? {
        var id := CallIn(conversions, original.invocation);
        if id.Some? && id.value in pendingRpcs {
          pendingRpcs := pendingRpcs - {id.value};
          finished := finished + [(id.value, false)];
        }
      }
    }
  }

  /** All invokers of all clients, and which of them made which call. */
  datatype Invokers = Invokers(of: map<nat, Invoker>, caller: map<CallId, nat>)

  datatype InvokerMove = Invoke(i: nat, id: CallId) | Deliver(i: nat, d: Delivery)

  predicate InvokerEnabled(w: Invokers, m: InvokerMove) {
    m.i in w.of && (m.Invoke? ==> m.id !in w.caller)
  }

  function AfterInvokerMove(cv: Conversions, w: Invokers, m: InvokerMove): Invokers
    requires InvokerEnabled(w, m)
  {
    match m
    case Invoke(i, id) => Invokers(w.of[i := w.of[i].Invoke(id)], w.caller[id := i])
    case Deliver(i, d) => w.(of := w.of[i := w.of[i].Handle(cv, d)])
  }

  predicate Finished(inv: Invoker, id: CallId) { exists k :: 0 <= k < |inv.finished| && inv.finished[k].0 == id }

  ghost predicate OnceEach(inv: Invoker) {
    forall j, k | 0 <= j < k < |inv.finished| :: inv.finished[j].0 != inv.finished[k].0
  }

  /** Every call is either pending or finished, never both, once, and only at the invoker that made it. */
  ghost predicate ExactlyOnce(w: Invokers) {
    && (forall id | id in w.caller :: w.caller[id] in w.of)
    && (forall i, id | i in w.of ::
          (id in w.caller && w.caller[id] == i <==> id in w.of[i].pending || Finished(w.of[i], id)))
    && (forall i, id | i in w.of && id in w.of[i].pending :: !Finished(w.of[i], id))
    && (forall i | i in w.of :: OnceEach(w.of[i]))
  }

  lemma FinishEffect(inv: Invoker, id: CallId, ok: bool, x: CallId)
    requires id in inv.pending && OnceEach(inv) && !Finished(inv, id)
    ensures var r := inv.Finish(Some(id), ok);
      OnceEach(r) && (Finished(r, x) <==> Finished(inv, x) || x == id)
  {
    var r := inv.Finish(Some(id), ok);
    var n := |inv.finished|;
    assert r.finished[n] == (id, ok);
    if Finished(inv, x) {
      var k :| 0 <= k < n && inv.finished[k].0 == x;
      assert r.finished[k].0 == x;
    }
  }

  lemma HandleIsFinish(cv: Conversions, inv: Invoker, d: Delivery) returns (id: Option<CallId>, ok: bool)
    ensures inv.Handle(cv, d) == inv.Finish(id, ok)
  {
    id, ok := None, false;
    match d
    case Event(ev) =>
      if ev.payload.RpcData? && ev.payload.rpcCommand == RpcResult { id, ok := CallIn(cv, ev.payload.invocation), true; }
    case Rejected(original) => if original.RpcData? { id := CallIn(cv, original.invocation); }
  }

  lemma DeliveryKeepsExactlyOnce(cv: Conversions, w: Invokers, i: nat, d: Delivery)
    requires ExactlyOnce(w) && i in w.of
    ensures ExactlyOnce(AfterInvokerMove(cv, w, Deliver(i, d)))
  {
    var id, ok := HandleIsFinish(cv, w.of[i], d);
    if id.Some? && id.value in w.of[i].pending {
      forall x ensures Finished(w.of[i].Finish(id, ok), x) <==> Finished(w.of[i], x) || x == id.value {
        FinishEffect(w.of[i], id.value, ok, x);
      }
      FinishEffect(w.of[i], id.value, ok, 0);
    }
  }

  predicate InvokerRuns(cv: Conversions, w: Invokers, moves: seq<InvokerMove>)
    decreases |moves|
  {
    moves == [] || (InvokerEnabled(w, moves[0]) && InvokerRuns(cv, AfterInvokerMove(cv, w, moves[0]), moves[1..]))
  }

  function InvokerRun(cv: Conversions, w: Invokers, moves: seq<InvokerMove>): Invokers
    requires InvokerRuns(cv, w, moves)
    decreases |moves|
  {
    if moves == [] then w else InvokerRun(cv, AfterInvokerMove(cv, w, moves[0]), moves[1..])
  }

  /**
   Over every run in which call ids are fresh, whatever results and errors are delivered to whomever, every call
   finishes at most once and only where it was made.
   */
  lemma {:induction false} CallsFinishOnce(cv: Conversions, w: Invokers, moves: seq<InvokerMove>)
    requires ExactlyOnce(w) && InvokerRuns(cv, w, moves)
    ensures ExactlyOnce(InvokerRun(cv, w, moves))
    decreases |moves|
  {
    if moves != [] {
      if moves[0].Deliver? { DeliveryKeepsExactlyOnce(cv, w, moves[0].i, moves[0].d); }
      CallsFinishOnce(cv, AfterInvokerMove(cv, w, moves[0]), moves[1..]);
    }
  }

  // ---------------------------------------------------------------------------------------------
  // The serving side
  // ---------------------------------------------------------------------------------------------

  /** VfServerRpcResult, addressed to the caller. */
  function ResultEvent(entity: EntityId, signature: string, values: map<string, Value>, peer: Peer): CommandEvent {
    CommandEvent(Notification, entity, RpcData(RpcResult, signature, values), Local, All, peer)
  }

  /** The server's own notification, for all, that the entity has the procedure. */
  predicate IsRegistration(ev: CommandEvent, entity: EntityId, name: string) {
    && ev.subtype == Notification && ev.entity == entity && ev.Publishable() && ev.peer == None
    && ev.payload.RpcData? && ev.payload.rpcCommand == RpcRegister && ev.payload.procedure == name
  }

  /** The values of an answer: id and code always, a message or a returned value when there is one. */
  function AnswerValues(cv: Conversions, id: CallId, code: int, message: string, result: Value): (values: map<string, Value>)
    ensures CALL_ID in values && values[CALL_ID] == cv.ofCall(id)
  {
    map[CALL_ID := cv.ofCall(id), RESULT_CODE := cv.ofCode(code)]
    + (if message == "" then map[] else map[ERROR_MESSAGE := Text(message)])
    + (if result == Invalid then map[] else map[RETURN := result])
  }

  /** Accepted calls that were not answered yet, with their callers, and the answers sent so far. */
  datatype Calls = Calls(table: map<CallId, Peer>, sent: seq<(CallId, CommandEvent)>) {
    function Accept(id: CallId, peer: Peer): Calls { this.(table := table[id := peer]) }

    function Answer(entity: EntityId, signature: string, id: CallId, values: map<string, Value>): Calls {
      if id in table
      then Calls(table - {id}, sent + [(id, ResultEvent(entity, signature, values, table[id]))])
      else this
    }
  }

  /**
   An answer as its caller reads it: id and code always, a message if and only if there is one, a value if and only
   if it is valid, and nothing else.
   */
  ghost predicate Carries(
    cv: Conversions, entity: EntityId, signature: string, ev: CommandEvent, id: CallId, code: int, message: string, result: Value)
  {
    && ev.subtype == Notification && ev.entity == entity && ev.origin == Local && ev.target == All
    && ev.payload.RpcData? && ev.payload.rpcCommand == RpcResult && ev.payload.procedure == signature
    && var values := ev.payload.invocation;
      && values.Keys <= {CALL_ID, RESULT_CODE, ERROR_MESSAGE, RETURN}
      && CALL_ID in values && values[CALL_ID] == cv.ofCall(id)
      && RESULT_CODE in values && values[RESULT_CODE] == cv.ofCode(code)
      && (ERROR_MESSAGE in values <==> message != "") && (ERROR_MESSAGE in values ==> values[ERROR_MESSAGE] == Text(message))
      && (RETURN in values <==> result != Invalid) && (RETURN in values ==> values[RETURN] == result)
  }

  /** Exactly one event is sent for an open call, to its caller, and the call is closed; otherwise nothing happens. */
  ghost predicate AnswerSent(
    cv: Conversions, entity: EntityId, signature: string, before: Calls, after: Calls,
    id: CallId, code: int, message: string, result: Value)
  {
    if id !in before.table then after == before
    else
      && after.table == before.table - {id}
      && |after.sent| == |before.sent| + 1 && before.sent <= after.sent
      && after.sent[|before.sent|].0 == id
      && after.sent[|before.sent|].1.peer == before.table[id]
      && Carries(cv, entity, signature, after.sent[|before.sent|].1, id, code, message, result)
  }

  class VfCppRpcSimplified {
    const conversions: Conversions
    const entityId: EntityId
    const rpcSignature: string
    /** What the constructor posts. */
    const registration: CommandEvent
    var callIdPeerId: map<CallId, Peer>
    var sent: seq<(CallId, CommandEvent)>

    ghost function Model(): Calls
      reads this
    { Calls(callIdPeerId, sent) }

    /** The procedure is registered as soon as the object exists. */
    constructor (conversions: Conversions, entityId: EntityId, rpcSignature: string)
      ensures Model() == Calls(map[], [])
      ensures this.conversions == conversions && this.entityId == entityId && this.rpcSignature == rpcSignature
      ensures IsRegistration(registration, entityId, rpcSignature)
    {
      this.conversions, this.entityId, this.rpcSignature := conversions, entityId, rpcSignature;
      registration := CommandEvent(Notification, entityId, RpcData(RpcRegister, rpcSignature, map[]), Local, All, None);
      callIdPeerId, sent := map[], [];
    }

    method CallFunction(id: CallId, peer: Peer)
      modifies this`callIdPeerId
      ensures Model() == old(Model()).Accept(id, peer)
    { callIdPeerId := callIdPeerId[id := peer]; }

    method SendRpcResult(id: CallId, result: Value)
      modifies this
      ensures Model() == old(Model()).Answer(entityId, rpcSignature, id, AnswerValues(conversions, id, SUCCESS, "", result))
      ensures AnswerSent(conversions, entityId, rpcSignature, old(Model()), Model(), id, SUCCESS, "", result)
    { SendRpcResultEvent(id, AnswerValues(conversions, id, SUCCESS, "", result)); }

    method SendRpcError(id: CallId, message: string)
      modifies this
      ensures Model() == old(Model()).Answer(entityId, rpcSignature, id, AnswerValues(conversions, id, EINVAL, message, Invalid))
      ensures AnswerSent(conversions, entityId, rpcSignature, old(Model()), Model(), id, EINVAL, message, Invalid)
    { SendRpcResultEvent(id, AnswerValues(conversions, id, EINVAL, message, Invalid)); }

    method SendRpcResultEvent(id: CallId, values: map<string, Value>)
      modifies this
      ensures Model() == old(Model()).Answer(entityId, rpcSignature, id, values)
    {
      if id in callIdPeerId {
        var ev := ResultEvent(entityId, rpcSignature, values, callIdPeerId[id]);
        callIdPeerId := callIdPeerId - {id};
        sent := sent + [(id, ev)];
      }
    }
  }

  predicate Answered(c: Calls, id: CallId) { exists k :: 0 <= k < |c.sent| && c.sent[k].0 == id }

  /** One answer at most per accepted call, to the peer that called, and none while the call is open. */
  ghost predicate Accountable(c: Calls, accepted: map<CallId, Peer>) {
    && (forall id :: id in accepted <==> id in c.table || Answered(c, id))
    && (forall id | id in c.table :: c.table[id] == accepted[id] && !Answered(c, id))
    && (forall k | 0 <= k < |c.sent| :: c.sent[k].0 in accepted && c.sent[k].1.peer == accepted[c.sent[k].0])
    && (forall j, k | 0 <= j < k < |c.sent| :: c.sent[j].0 != c.sent[k].0)
  }

  lemma AcceptKeepsAccountable(c: Calls, accepted: map<CallId, Peer>, id: CallId, peer: Peer)
    requires Accountable(c, accepted) && id !in accepted
    ensures Accountable(c.Accept(id, peer), accepted[id := peer])
  {
  }

  lemma AnswerKeepsAccountable(
    c: Calls, accepted: map<CallId, Peer>, entity: EntityId, signature: string, id: CallId, values: map<string, Value>)
    requires Accountable(c, accepted)
    ensures Accountable(c.Answer(entity, signature, id, values), accepted)
    ensures Answered(c.Answer(entity, signature, id, values), id) <==> id in accepted
  {
    if id in c.table {
      var r := c.Answer(entity, signature, id, values);
      assert r.sent[|c.sent|].0 == id;
      forall x ensures Answered(r, x) <==> Answered(c, x) || x == id {
        if Answered(c, x) {
          var k :| 0 <= k < |c.sent| && c.sent[k].0 == x;
          assert r.sent[k].0 == x;
        }
      }
    }
  }

  // ---------------------------------------------------------------------------------------------
  // cVeinModuleRpc: the call and its answer in one go
  // ---------------------------------------------------------------------------------------------

  /** What the called function does: whether it could be invoked, what it returns, and what it answers on the way. */
  datatype Body = Body(invocable: bool, returned: Value, answers: seq<(CallId, int, string, Value)>)

  /** The fixed part of an RPC. `described` is the whole invocation data as one value. */
  datatype Procedure = Procedure(cv: Conversions, entity: EntityId, name: string, required: set<string>, blocks: bool)

  function AnswerOne(p: Procedure, c: Calls, a: (CallId, int, string, Value)): Calls {
    c.Answer(p.entity, p.name, a.0, AnswerValues(p.cv, a.0, a.1, a.2, a.3))
  }

  function AnswerAll(p: Procedure, c: Calls, answers: seq<(CallId, int, string, Value)>): Calls
    decreases |answers|
  {
    if answers == [] then c else AnswerAll(p, AnswerOne(p, c, answers[0]), answers[1..])
  }

  /** All parameters are named, not only the missing ones. */
  function MissingParameters(required: set<string>): string {
    "Missing required parameters: [" + Texts.Join(Keys(required), ',') + "]"
  }

  function FinalAnswer(p: Procedure, id: CallId, given: set<string>, body: Body, invocation: Value)
    : (CallId, int, string, Value)
  {
    if !(p.required <= given) then (id, EINVAL, MissingParameters(p.required), invocation)
    else if body.invocable then (id, SUCCESS, "", body.returned)
    else (id, EINVAL, "Function not implemented", Invalid)
  }

  /** callFunctionPrivate without a thread: the caller is remembered only after the function has run. */
  function Call(
    p: Procedure, c: Calls, id: CallId, peer: Peer, given: set<string>, body: Body, invocation: Value): Calls
  {
    var runs := p.required <= given && body.invocable;
    var accepted := (if runs then AnswerAll(p, c, body.answers) else c).Accept(id, peer);
    if !runs || p.blocks then AnswerOne(p, accepted, FinalAnswer(p, id, given, body, invocation)) else accepted
  }

  /**
   What a call has come to when it returns: it is open for its caller if the function ran and does not block;
   otherwise its caller has been sent the value, or why there is none.
   */
  ghost predicate CallEnds(
    p: Procedure, before: Calls, after: Calls, id: CallId, peer: Peer, given: set<string>, body: Body, invocation: Value)
  {
    && before.sent <= after.sent
    && if p.required <= given && body.invocable && !p.blocks then id in after.table && after.table[id] == peer
      else
        && id !in after.table && |after.sent| > |before.sent|
        && var last := after.sent[|after.sent| - 1];
          && last.0 == id && last.1.peer == peer
          && if !(p.required <= given)
            then
              var text := "Missing required parameters: [" + Texts.Join(Keys(p.required), ',') + "]";
              Carries(p.cv, p.entity, p.name, last.1, id, EINVAL, text, invocation)
            else if !body.invocable
            then Carries(p.cv, p.entity, p.name, last.1, id, EINVAL, "Function not implemented", Invalid)
            else Carries(p.cv, p.entity, p.name, last.1, id, SUCCESS, "", body.returned)
  }

  lemma AnswerOneSends(p: Procedure, c: Calls, a: (CallId, int, string, Value))
    ensures AnswerSent(p.cv, p.entity, p.name, c, AnswerOne(p, c, a), a.0, a.1, a.2, a.3)
  {
  }

  lemma {:induction false} AnswersAreAdded(p: Procedure, c: Calls, answers: seq<(CallId, int, string, Value)>)
    ensures c.sent <= AnswerAll(p, c, answers).sent
    decreases |answers|
  {
    if answers != [] {
      AnswerOneSends(p, c, answers[0]);
      AnswersAreAdded(p, AnswerOne(p, c, answers[0]), answers[1..]);
    }
  }

  /** Every call ends as its caller may expect, whatever the function answered on the way. */
  lemma EveryCallEnds(
    p: Procedure, c: Calls, id: CallId, peer: Peer, given: set<string>, body: Body, invocation: Value)
    ensures CallEnds(p, c, Call(p, c, id, peer, given, body, invocation), id, peer, given, body, invocation)
  {
    var runs := p.required <= given && body.invocable;
    AnswersAreAdded(p, c, body.answers);
    var accepted := (if runs then AnswerAll(p, c, body.answers) else c).Accept(id, peer);
    AnswerOneSends(p, accepted, FinalAnswer(p, id, given, body, invocation));
  }

  class VeinModuleRpc {
    const procedure: Procedure
    /** What the constructor posts. */
    const registration: CommandEvent
    var pendingRpcs: map<CallId, Peer>
    var sent: seq<(CallId, CommandEvent)>

    ghost function Model(): Calls
      reads this
    { Calls(pendingRpcs, sent) }

    constructor (procedure: Procedure)
      ensures Model() == Calls(map[], []) && this.procedure == procedure
      ensures IsRegistration(registration, procedure.entity, procedure.name)
    {
      this.procedure := procedure;
      registration := CommandEvent(
        Notification, procedure.entity, RpcData(RpcRegister, procedure.name, map[]), Local, All, None);
      pendingRpcs, sent := map[], [];
    }

    method SendRpcResult(id: CallId, code: int, message: string, returned: Value)
      modifies this
      ensures Model() == AnswerOne(procedure, old(Model()), (id, code, message, returned))
      ensures AnswerSent(procedure.cv, procedure.entity, procedure.name, old(Model()), Model(), id, code, message, returned)
    {
      if id in pendingRpcs {
        var values := AnswerValues(procedure.cv, id, code, message, returned);
        var ev := ResultEvent(procedure.entity, procedure.name, values, pendingRpcs[id]);
        pendingRpcs := pendingRpcs - {id};
        sent := sent + [(id, ev)];
      }
    }

    /** The invoked function runs now and may answer any call. */
    method Invoke(body: Body)
      modifies this
      ensures Model() == if body.invocable then AnswerAll(procedure, old(Model()), body.answers) else old(Model())
    {
      if body.invocable {
        var i := 0;
        while i < |body.answers|
          invariant 0 <= i <= |body.answers|
          invariant AnswerAll(procedure, Model(), body.answers[i..]) == AnswerAll(procedure, old(Model()), body.answers)
        {
          var a := body.answers[i];
          assert body.answers[i..][1..] == body.answers[i + 1..];
          SendRpcResult(a.0, a.1, a.2, a.3);
          i := i + 1;
        }
      }
    }

    method CallFunctionPrivate(id: CallId, peer: Peer, given: set<string>, body: Body, invocation: Value)
      modifies this
      ensures Model() == Call(procedure, old(Model()), id, peer, given, body, invocation)
      ensures CallEnds(procedure, old(Model()), Model(), id, peer, given, body, invocation)
    {
      EveryCallEnds(procedure, Model(), id, peer, given, body, invocation);
      var callOk, code, message, returned := false, EINVAL, "", Invalid;
      if procedure.required <= given {
        Invoke(body);
        callOk := body.invocable;
        if callOk { code, returned := SUCCESS, body.returned; } else { message := "Function not implemented"; }
      } else {
        returned, message := invocation, MissingParameters(procedure.required);
      }
      pendingRpcs := pendingRpcs[id := peer];
      if !callOk || procedure.blocks { SendRpcResult(id, code, message, returned); }
    }
  }

  lemma {:induction false} AnswersKeepAccountable(
    p: Procedure, c: Calls, accepted: map<CallId, Peer>, answers: seq<(CallId, int, string, Value)>)
    requires Accountable(c, accepted)
    ensures Accountable(AnswerAll(p, c, answers), accepted)
    decreases |answers|
  {
    if answers != [] {
      var a := answers[0];
      AnswerKeepsAccountable(c, accepted, p.entity, p.name, a.0, AnswerValues(p.cv, a.0, a.1, a.2, a.3));
      AnswersKeepAccountable(p, AnswerOne(p, c, a), accepted, answers[1..]);
    }
  }

  /**
   One call of a module RPC: the account stays in order, and the call has its answer when the function returns
   exactly when it blocks or could not be run; otherwise the call is open, whatever the function answered inside.
   */
  lemma CallIsAccountable(
    p: Procedure, c: Calls, accepted: map<CallId, Peer>, id: CallId, peer: Peer, given: set<string>, body: Body,
    invocation: Value)
    requires Accountable(c, accepted) && id !in accepted
    ensures var r := Call(p, c, id, peer, given, body, invocation);
      && Accountable(r, accepted[id := peer])
      && (Answered(r, id) <==> p.blocks || !body.invocable || !(p.required <= given))
  {
    var runs := p.required <= given && body.invocable;
    AnswersKeepAccountable(p, c, accepted, body.answers);
    var before := if runs then AnswerAll(p, c, body.answers) else c;
    AcceptKeepsAccountable(before, accepted, id, peer);
    var a := FinalAnswer(p, id, given, body, invocation);
    AnswerKeepsAccountable(
      before.Accept(id, peer), accepted[id := peer], p.entity, p.name, id, AnswerValues(p.cv, id, a.1, a.2, a.3));
  }

  function AnswersToOthers(answers: seq<(CallId, int, string, Value)>, id: CallId): seq<(CallId, int, string, Value)> {
    if answers == [] then []
    else (if answers[0].0 == id then [] else [answers[0]]) + AnswersToOthers(answers[1..], id)
  }

  lemma {:induction false} OwnAnswersVanish(p: Procedure, c: Calls, answers: seq<(CallId, int, string, Value)>, id: CallId)
    requires id !in c.table
    ensures AnswerAll(p, c, answers) == AnswerAll(p, c, AnswersToOthers(answers, id))
    decreases |answers|
  {
    if answers != [] {
      OwnAnswersVanish(p, AnswerOne(p, c, answers[0]), answers[1..], id);
      var others := AnswersToOthers(answers, id);
      if answers[0].0 != id {
        assert others[1..] == AnswersToOthers(answers[1..], id);
      } else {
        assert others == AnswersToOthers(answers[1..], id);
      }
    }
  }

  /** An answer the function gives to its own call before it returns is lost. */
  lemma AnswerInsideCallIsLost(
    p: Procedure, c: Calls, id: CallId, peer: Peer, given: set<string>, body: Body, invocation: Value)
    requires id !in c.table
    ensures Call(p, c, id, peer, given, body, invocation)
      == Call(p, c, id, peer, given, body.(answers := AnswersToOthers(body.answers, id)), invocation)
  {
    OwnAnswersVanish(p, c, body.answers, id);
  }

  datatype ServedMove =
    | CallMove(id: CallId, peer: Peer, given: set<string>, body: Body, invocation: Value)
    | AnswerMove(answer: (CallId, int, string, Value))

  function AfterServed(p: Procedure, c: Calls, m: ServedMove): Calls {
    match m
    case CallMove(id, peer, given, body, invocation) => Call(p, c, id, peer, given, body, invocation)
    case AnswerMove(a) => AnswerOne(p, c, a)
  }

  function AcceptedBy(accepted: map<CallId, Peer>, m: ServedMove): map<CallId, Peer> {
    if m.CallMove? then accepted[m.id := m.peer] else accepted
  }

  predicate FreshCalls(accepted: map<CallId, Peer>, moves: seq<ServedMove>)
    decreases |moves|
  {
    moves == []
    || ((moves[0].CallMove? ==> moves[0].id !in accepted) && FreshCalls(AcceptedBy(accepted, moves[0]), moves[1..]))
  }

  function ServedRun(p: Procedure, c: Calls, moves: seq<ServedMove>): Calls
    decreases |moves|
  {
    if moves == [] then c else ServedRun(p, AfterServed(p, c, moves[0]), moves[1..])
  }

  function AcceptedIn(accepted: map<CallId, Peer>, moves: seq<ServedMove>): map<CallId, Peer>
    decreases |moves|
  {
    if moves == [] then accepted else AcceptedIn(AcceptedBy(accepted, moves[0]), moves[1..])
  }

  /** Over every run of calls with fresh ids and answers: at most one result per call, to the peer that called. */
  lemma {:induction false} EveryRunIsAccountable(p: Procedure, c: Calls, accepted: map<CallId, Peer>, moves: seq<ServedMove>)
    requires Accountable(c, accepted) && FreshCalls(accepted, moves)
    ensures Accountable(ServedRun(p, c, moves), AcceptedIn(accepted, moves))
    decreases |moves|
  {
    if moves != [] {
      match moves[0]
      case CallMove(id, peer, given, body, invocation) =>
        CallIsAccountable(p, c, accepted, id, peer, given, body, invocation);
        EveryRunIsAccountable(p, AfterServed(p, c, moves[0]), AcceptedBy(accepted, moves[0]), moves[1..]);
      case AnswerMove(a) =>
        AnswerKeepsAccountable(c, accepted, p.entity, p.name, a.0, AnswerValues(p.cv, a.0, a.1, a.2, a.3));
        EveryRunIsAccountable(p, AfterServed(p, c, moves[0]), accepted, moves[1..]);
    }
  }

  /** From one side to the other: a result finishes the call it answers, at the invoker waiting for it and at no other. */
  lemma ResultFinishesItsCall(
    cv: Conversions, w: Invokers, i: nat, entity: EntityId, signature: string, id: CallId, code: int, message: string,
    result: Value, peer: Peer)
    requires ExactlyOnce(w) && cv.Faithful() && i in w.of && id in w.caller
    ensures var ev := ResultEvent(entity, signature, AnswerValues(cv, id, code, message, result), peer);
      var after := w.of[i].Handle(cv, Event(ev));
      if w.caller[id] == i && !Finished(w.of[i], id)
      then after.pending == w.of[i].pending - {id} && after.finished == w.of[i].finished + [(id, true)]
      else after == w.of[i]
  {
  }

  /**
   A call that is rejected on its way comes back as an error: the items of its entity get the call, and the invoker
   that made it finishes it badly, unless it has finished, and no other does.
   */
  lemma RejectionFinishesItsCall(
    cv: Conversions, w: Invokers, i: nat, call: CommandEvent, id: CallId, reason: Reason)
    requires ExactlyOnce(w) && cv.Faithful() && i in w.of && id in w.caller
    requires call.payload.RpcData? && CALL_ID in call.payload.invocation && call.payload.invocation[CALL_ID] == cv.ofCall(id)
    ensures var d := ForItems(Notification, ErrorFor(call, reason));
      && d == Some(Rejected(call.payload))
      && var after := w.of[i].Handle(cv, d.value);
        if w.caller[id] == i && !Finished(w.of[i], id)
        then after.pending == w.of[i].pending - {id} && after.finished == w.of[i].finished + [(id, false)]
        else after == w.of[i]
  {
  }

  // ---------------------------------------------------------------------------------------------
  // What was sent, and why
  // ---------------------------------------------------------------------------------------------

  /** The move gives this answer: itself, from within the called function, or on the call's return. */
  ghost predicate Gives(p: Procedure, m: ServedMove, a: (CallId, int, string, Value)) {
    match m
    case AnswerMove(b) => a == b
    case CallMove(id, _, given, body, invocation) =>
      if !(p.required <= given)
      then a == (id, EINVAL, "Missing required parameters: [" + Texts.Join(Keys(p.required), ',') + "]", invocation)
      else if !body.invocable then a == (id, EINVAL, "Function not implemented", Invalid)
      else a in body.answers || (p.blocks && a == (id, SUCCESS, "", body.returned))
  }

  lemma {:induction false} FunctionAnswers(
    p: Procedure, c: Calls, answers: seq<(CallId, int, string, Value)>, k: nat) returns (a: (CallId, int, string, Value))
    requires |c.sent| <= k < |AnswerAll(p, c, answers).sent|
    ensures a in answers
    ensures var sent := AnswerAll(p, c, answers).sent[k];
      sent.0 == a.0 && Carries(p.cv, p.entity, p.name, sent.1, a.0, a.1, a.2, a.3)
    decreases |answers|
  {
    var next := AnswerOne(p, c, answers[0]);
    AnswerOneSends(p, c, answers[0]);
    AnswersAreAdded(p, next, answers[1..]);
    if k < |next.sent| { a := answers[0]; } else { a := FunctionAnswers(p, next, answers[1..], k); }
  }

  lemma MoveSends(p: Procedure, c: Calls, m: ServedMove, k: nat) returns (a: (CallId, int, string, Value))
    requires |c.sent| <= k < |AfterServed(p, c, m).sent|
    ensures Gives(p, m, a)
    ensures var sent := AfterServed(p, c, m).sent[k];
      sent.0 == a.0 && Carries(p.cv, p.entity, p.name, sent.1, a.0, a.1, a.2, a.3)
  {
    match m
    case AnswerMove(b) =>
      AnswerOneSends(p, c, b);
      a := b;
    case CallMove(id, peer, given, body, invocation) =>
      var runs := p.required <= given && body.invocable;
      var ran := if runs then AnswerAll(p, c, body.answers) else c;
      if k < |ran.sent| {
        a := FunctionAnswers(p, c, body.answers, k);
        EveryCallEnds(p, c, id, peer, given, body, invocation);
        AnswerOneSends(p, ran.Accept(id, peer), FinalAnswer(p, id, given, body, invocation));
      } else {
        a := FinalAnswer(p, id, given, body, invocation);
        AnswerOneSends(p, ran.Accept(id, peer), a);
      }
  }

  lemma {:induction false} SentStays(p: Procedure, c: Calls, moves: seq<ServedMove>)
    ensures c.sent <= ServedRun(p, c, moves).sent
    decreases |moves|
  {
    if moves != [] {
      match moves[0] {
        case AnswerMove(a) => AnswerOneSends(p, c, a);
        case CallMove(id, peer, given, body, invocation) => EveryCallEnds(p, c, id, peer, given, body, invocation);
      }
      SentStays(p, AfterServed(p, c, moves[0]), moves[1..]);
    }
  }

  /** Over every run of calls and answers each event sent carries exactly an answer that some move gave. */
  lemma {:induction false} EverySentAnswerWasGiven(p: Procedure, c: Calls, moves: seq<ServedMove>, k: nat)
    returns (i: nat, a: (CallId, int, string, Value))
    requires |c.sent| <= k < |ServedRun(p, c, moves).sent|
    ensures i < |moves| && Gives(p, moves[i], a)
    ensures var sent := ServedRun(p, c, moves).sent[k];
      sent.0 == a.0 && Carries(p.cv, p.entity, p.name, sent.1, a.0, a.1, a.2, a.3)
    decreases |moves|
  {
    var next := AfterServed(p, c, moves[0]);
    SentStays(p, next, moves[1..]);
    if k < |next.sent| {
      i := 0;
      a := MoveSends(p, c, moves[0], k);
    } else {
      i, a := EverySentAnswerWasGiven(p, next, moves[1..], k);
      i := i + 1;
    }
  }
}
