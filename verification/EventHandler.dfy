/** Event systems in a row: an event goes along until one of them accepts it. */
module EventHandler {
  import opened Events
  import opened EventSystems

  /** The outcome of a whole dispatch, with the accept signals emitted on the way. */
  datatype Dispatched<Sys, S> = Dispatched(outcome: Outcome<S>, signals: seq<Sys>)

  /** One list of systems, handed an event that may be accepted already. */
  function Chain<Sys, S>(systems: seq<Sys>, process: (Sys, S, CommandEvent) -> Outcome<S>, start: Outcome<S>): Dispatched<Sys, S>
    decreases |systems|
  {
    if systems == [] || start.accepted then Dispatched(start, [])
    else
      var o := process(systems[0], start.state, start.event);
      var next := o.(posted := start.posted + o.posted);
      if o.accepted then Dispatched(next, [systems[0]]) else Chain(systems[1..], process, next)
  }

  lemma {:induction false} ChainOfConcatenation<Sys, S>(
    a: seq<Sys>, b: seq<Sys>, process: (Sys, S, CommandEvent) -> Outcome<S>, start: Outcome<S>)
    ensures var first := Chain(a, process, start);
      var second := Chain(b, process, first.outcome);
      Chain(a + b, process, start) == Dispatched(second.outcome, first.signals + second.signals)
    decreases |a|
  {
    if a == [] || start.accepted {
      assert a == [] ==> a + b == b;
    } else {
      var o := process(a[0], start.state, start.event);
      assert (a + b)[1..] == a[1..] + b;
      if !o.accepted { ChainOfConcatenation(a[1..], b, process, o.(posted := start.posted + o.posted)); }
    }
  }

  /** At most one system accepts, and a system accepted exactly when the event came out accepted. */
  lemma {:induction false} OneAcceptSignal<Sys, S>(
    systems: seq<Sys>, process: (Sys, S, CommandEvent) -> Outcome<S>, start: Outcome<S>)
    ensures var r := Chain(systems, process, start);
      |r.signals| == (if r.outcome.accepted && !start.accepted then 1 else 0) && (forall x | x in r.signals :: x in systems)
    decreases |systems|
  {
    if systems != [] && !start.accepted {
      var o := process(systems[0], start.state, start.event);
      if !o.accepted { OneAcceptSignal(systems[1..], process, o.(posted := start.posted + o.posted)); }
    }
  }

  /** `before` handed on to the next system unless it was accepted. */
  function Then<Sys, S>(process: (Sys, S, CommandEvent) -> Outcome<S>, before: Outcome<S>, x: Sys): Outcome<S> {
    if before.accepted then before
    else
      var o := process(x, before.state, before.event);
      o.(posted := before.posted + o.posted)
  }

  lemma ChainIsThen<Sys, S>(process: (Sys, S, CommandEvent) -> Outcome<S>, start: Outcome<S>, x: Sys, rest: seq<Sys>)
    ensures Chain([x] + rest, process, start).outcome == Chain(rest, process, Then(process, start, x)).outcome
  {
    assert ([x] + rest)[1..] == rest;
  }

  /** A chain of five systems, written out. */
  lemma ChainOfFive<Sys, S>(
    process: (Sys, S, CommandEvent) -> Outcome<S>, start: Outcome<S>, a: Sys, b: Sys, c: Sys, d: Sys, e: Sys)
    ensures Chain([a, b, c, d, e], process, start).outcome
      == Then(process, Then(process, Then(process, Then(process, Then(process, start, a), b), c), d), e)
  {
    var o1 := Then(process, start, a);
    var o2 := Then(process, o1, b);
    var o3 := Then(process, o2, c);
    var o4 := Then(process, o3, d);
    ChainIsThen(process, start, a, [b, c, d, e]);
    ChainIsThen(process, o1, b, [c, d, e]);
    ChainIsThen(process, o2, c, [d, e]);
    ChainIsThen(process, o3, d, [e]);
    ChainIsThen(process, o4, e, []);
    assert [a, b, c, d, e] == [a] + [b, c, d, e];
    assert [b, c, d, e] == [b] + [c, d, e] && [c, d, e] == [c] + [d, e] && [d, e] == [d] + [e] && [e] == [e] + [];
  }

  class ModuleEventHandler<Sys, S> {
    const process: (Sys, S, CommandEvent) -> Outcome<S>
    var moduleSystems: seq<Sys>
    var subsystems: seq<Sys>

    constructor (process: (Sys, S, CommandEvent) -> Outcome<S>)
      ensures this.process == process && moduleSystems == [] && subsystems == []
    {
      this.process := process;
      moduleSystems, subsystems := [], [];
    }

    /** EventHandler::customEvent over one list. */
    method DispatchList(systems: seq<Sys>, start: Outcome<S>) returns (now: Outcome<S>, signals: seq<Sys>)
      ensures Dispatched(now, signals) == Chain(systems, process, start)
    {
      now, signals := start, [];
      var i := 0;
      while i < |systems| && !now.accepted
        invariant 0 <= i <= |systems|
        invariant signals != [] ==> now.accepted
        invariant var rest := Chain(systems[i..], process, now);
          Chain(systems, process, start) == Dispatched(rest.outcome, signals + rest.signals)
      {
        var o := process(systems[i], now.state, now.event);
        assert systems[i..][1..] == systems[i + 1..];
        now := o.(posted := now.posted + o.posted);
        if now.accepted { signals := signals + [systems[i]]; }
        i := i + 1;
      }
    }

    /** Module systems first, core systems after them: the same as one list of both. */
    method CustomEvent(state: S, ev: CommandEvent) returns (now: Outcome<S>, signals: seq<Sys>)
      ensures Dispatched(now, signals) == Chain(moduleSystems + subsystems, process, Pass(state, ev))
      ensures |signals| <= 1 && (now.accepted <==> |signals| == 1)
    {
      var coreSignals;
      now, signals := DispatchList(moduleSystems, Pass(state, ev));
      now, coreSignals := DispatchList(subsystems, now);
      signals := signals + coreSignals;
      ChainOfConcatenation(moduleSystems, subsystems, process, Pass(state, ev));
      OneAcceptSignal(moduleSystems + subsystems, process, Pass(state, ev));
    }
  }
}
