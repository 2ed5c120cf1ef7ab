/** What an event system does with one event: its new state, the event as it left it, and what it posted. */
module EventSystems {
  import opened Events

  datatype Outcome<S> = Outcome(state: S, event: CommandEvent, accepted: bool, posted: seq<QueueItem>)

  function Pass<S>(state: S, ev: CommandEvent): Outcome<S> { Outcome(state, ev, false, []) }

  /** ErrorDataSender::errorOut posts one error; its caller's event is accepted at the same time. */
  function ErrorOut(ev: CommandEvent, reason: Reason): seq<QueueItem> { [Command(ErrorFor(ev, reason))] }

  function Reject<S>(state: S, ev: CommandEvent, reason: Reason): Outcome<S> {
    Outcome(state, ev, true, ErrorOut(ev, reason))
  }
}
