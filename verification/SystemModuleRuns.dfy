/** The validator over whole runs: session changes are serialized, and what the X session file says is what was confirmed. */
module SystemModuleRuns {
  import opened Options
  import opened Events
  import opened EventSystems
  import opened SystemModule
  import LxdmConfig

  datatype Move =
    | SetStorage
    | Init(session: string, sessions: seq<string>, all: Inventory)
    | Handle(sur: Surroundings, ev: CommandEvent)

  function After(s: State, m: Move): State {
    match m
    case SetStorage => s.(hasStorage := true)
    case Init(session, sessions, all) => Initialize(s, session, sessions, all).0
    case Handle(sur, ev) => Process(sur, s, ev).state
  }

  /** The state before the k-th move. */
  function StateAt(s: State, moves: seq<Move>, k: nat): State
    requires k <= |moves|
  { if k == 0 then s else After(StateAt(s, moves, k - 1), moves[k - 1]) }

  const NEW := State("", [], false, false, "", false)

  /** A module as constructed, whatever the X session file says. */
  predicate IsNew(s: State) { s == NEW.(xSession := s.xSession) }

  // ---------------------------------------------------------------------------------------------
  // Sessions
  // ---------------------------------------------------------------------------------------------

  /** The move is a request that changes the session. */
  predicate Changes(s: State, m: Move) { m.Handle? && After(s, m).currentSession != s.currentSession }

  predicate Initializes(s: State, m: Move) { m.Init? && s.hasStorage }

  lemma OnlyInitializingReadies(s: State, m: Move)
    ensures After(s, m).ready ==> s.ready || Initializes(s, m)
  {
    if m.Handle? { SessionChangesIff(m.sur, s, m.ev); }
  }

  /** What is loading at i and ready at j was initialized in between. */
  lemma {:induction false} ReadyAgain(s: State, moves: seq<Move>, i: nat, j: nat) returns (k: nat)
    requires i <= j <= |moves| && !StateAt(s, moves, i).ready && StateAt(s, moves, j).ready
    ensures i <= k < j && Initializes(StateAt(s, moves, k), moves[k])
  {
    if Initializes(StateAt(s, moves, j - 1), moves[j - 1]) {
      k := j - 1;
    } else {
      OnlyInitializingReadies(StateAt(s, moves, j - 1), moves[j - 1]);
      k := ReadyAgain(s, moves, i, j - 1);
    }
  }

  lemma ChangeUsesReady(s: State, moves: seq<Move>, i: nat)
    requires i < |moves| && Changes(StateAt(s, moves, i), moves[i])
    ensures StateAt(s, moves, i).ready && !StateAt(s, moves, i + 1).ready
  {
    SessionChangesIff(moves[i].sur, StateAt(s, moves, i), moves[i].ev);
  }

  /** Between any two session changes there is an initialization. */
  lemma ChangesAreSeparated(s: State, moves: seq<Move>, i: nat, j: nat) returns (k: nat)
    requires i < j < |moves| && Changes(StateAt(s, moves, i), moves[i]) && Changes(StateAt(s, moves, j), moves[j])
    ensures i < k < j && Initializes(StateAt(s, moves, k), moves[k])
  {
    ChangeUsesReady(s, moves, i);
    ChangeUsesReady(s, moves, j);
    k := ReadyAgain(s, moves, i + 1, j);
  }

  lemma AvailableKept(s: State, m: Move)
    requires !Initializes(s, m)
    ensures After(s, m).available == s.available
  {
    if m.Handle? { SessionChangesIff(m.sur, s, m.ev); }
  }

  /** The l-th move initializes, and none from there up to the k-th. */
  ghost predicate LastInitialization(s: State, moves: seq<Move>, l: nat, k: nat) {
    && l < k <= |moves| && Initializes(StateAt(s, moves, l), moves[l])
    && forall i | l < i < k :: !Initializes(StateAt(s, moves, i), moves[i])
  }

  lemma StepAvailable(s: State, moves: seq<Move>, k: nat)
    requires k < |moves|
    ensures StateAt(s, moves, k + 1).available
      == if Initializes(StateAt(s, moves, k), moves[k]) then moves[k].sessions else StateAt(s, moves, k).available
  {
    if !Initializes(StateAt(s, moves, k), moves[k]) { AvailableKept(StateAt(s, moves, k), moves[k]); }
  }

  lemma LastInitializationExtends(s: State, moves: seq<Move>, l: nat, k: nat)
    requires LastInitialization(s, moves, l, k) && k < |moves| && !Initializes(StateAt(s, moves, k), moves[k])
    ensures LastInitialization(s, moves, l, k + 1)
  {
  }

  /** Without an initialization there are no sessions to enter; with one, they are those of the last one. */
  lemma {:induction false} AvailableFromLastInitialization(s: State, moves: seq<Move>, k: nat) returns (l: nat)
    requires IsNew(s) && k <= |moves| && StateAt(s, moves, k).available != []
    ensures LastInitialization(s, moves, l, k) && moves[l].sessions == StateAt(s, moves, k).available
  {
    StepAvailable(s, moves, k - 1);
    if Initializes(StateAt(s, moves, k - 1), moves[k - 1]) {
      l := k - 1;
    } else {
      l := AvailableFromLastInitialization(s, moves, k - 1);
      LastInitializationExtends(s, moves, l, k - 1);
    }
  }

  /** Every session entered was offered by the last initialization. */
  lemma EnteredWasOffered(s: State, moves: seq<Move>, k: nat) returns (l: nat)
    requires IsNew(s) && k < |moves| && Changes(StateAt(s, moves, k), moves[k])
    ensures LastInitialization(s, moves, l, k) && StateAt(s, moves, k + 1).currentSession in moves[l].sessions
  {
    SessionChangesIff(moves[k].sur, StateAt(s, moves, k), moves[k].ev);
    l := AvailableFromLastInitialization(s, moves, k);
  }

  predicate IsEmptySession(item: QueueItem) {
    && item.Command? && item.event.IsComponent(ComponentSet) && item.event.entity == SYSTEM_ENTITY
    && item.event.payload.name == SESSION && item.event.payload.newValue == Text("")
  }

  function EmptySessions(items: seq<QueueItem>): nat {
    if items == [] then 0 else (if IsEmptySession(items[0]) then 1 else 0) + EmptySessions(items[1..])
  }

  /** How often clients were told the empty session, the session changed, and it was initialized. */
  function Told(s: State, moves: seq<Move>, k: nat): nat
    requires k <= |moves|
  {
    if k == 0 then 0
    else
      Told(s, moves, k - 1)
      + if moves[k - 1].Handle?
        then EmptySessions(Process(moves[k - 1].sur, StateAt(s, moves, k - 1), moves[k - 1].ev).posted) else 0
  }

  function ChangeCount(s: State, moves: seq<Move>, k: nat): nat
    requires k <= |moves|
  { if k == 0 then 0 else ChangeCount(s, moves, k - 1) + if Changes(StateAt(s, moves, k - 1), moves[k - 1]) then 1 else 0 }

  function InitializationCount(s: State, moves: seq<Move>, k: nat): nat
    requires k <= |moves|
  {
    if k == 0 then 0
    else InitializationCount(s, moves, k - 1) + if Initializes(StateAt(s, moves, k - 1), moves[k - 1]) then 1 else 0
  }

  lemma OneEmptySessionPerChange(sur: Surroundings, s: State, ev: CommandEvent)
    ensures EmptySessions(Process(sur, s, ev).posted) == if Changes(s, Handle(sur, ev)) then 1 else 0
  {
    SessionChangesIff(sur, s, ev);
    var posted := Process(sur, s, ev).posted;
    if posted != [] { assert posted == [posted[0]] && posted[1..] == []; }
  }

  /**
   Over every run from a new module clients are told the empty session once per session change, and there are at
   most as many changes as initializations: exactly as many when the last one is used up, fewer while one is ready.
   */
  lemma {:induction false} SessionChangesAreSerialized(s: State, moves: seq<Move>, k: nat)
    requires IsNew(s) && k <= |moves|
    ensures Told(s, moves, k) == ChangeCount(s, moves, k)
    ensures ChangeCount(s, moves, k) + (if StateAt(s, moves, k).ready then 1 else 0) <= InitializationCount(s, moves, k)
  {
    if k > 0 {
      SessionChangesAreSerialized(s, moves, k - 1);
      var m := moves[k - 1];
      if m.Handle? {
        OneEmptySessionPerChange(m.sur, StateAt(s, moves, k - 1), m.ev);
        SessionChangesIff(m.sur, StateAt(s, moves, k - 1), m.ev);
      }
    }
  }

  // ---------------------------------------------------------------------------------------------
  // Pausing
  // ---------------------------------------------------------------------------------------------

  predicate AsksToPause(m: Move) { m.Handle? && IsSystemSet(m.ev, MODULES_PAUSED) }

  /** The last request before the k-th move asked for the modules to pause. */
  ghost predicate LastAskedToPause(moves: seq<Move>, k: nat)
    requires k <= |moves|
  {
    exists i :: 0 <= i < k && AsksToPause(moves[i]) && moves[i].sur.toFlag(moves[i].ev.payload.newValue)
      && forall j | i < j < k :: !AsksToPause(moves[j])
  }

  lemma PauseStep(s: State, m: Move)
    ensures After(s, m).paused == if AsksToPause(m) then m.sur.toFlag(m.ev.payload.newValue) else s.paused
  {
  }

  /** Over every run from a new module it is paused exactly when the last request said so. */
  lemma {:induction false} PausedIffAskedLast(s: State, moves: seq<Move>, k: nat)
    requires IsNew(s) && k <= |moves|
    ensures StateAt(s, moves, k).paused <==> LastAskedToPause(moves, k)
  {
    if k > 0 {
      PausedIffAskedLast(s, moves, k - 1);
      PauseStep(StateAt(s, moves, k - 1), moves[k - 1]);
      LastAskedStep(moves, k - 1);
    }
  }

  lemma LastAskedStep(moves: seq<Move>, k: nat)
    requires k < |moves|
    ensures LastAskedToPause(moves, k + 1) <==>
      if AsksToPause(moves[k]) then moves[k].sur.toFlag(moves[k].ev.payload.newValue) else LastAskedToPause(moves, k)
  {
    if LastAskedToPause(moves, k + 1) {
      var i :| 0 <= i < k + 1 && AsksToPause(moves[i]) && moves[i].sur.toFlag(moves[i].ev.payload.newValue)
        && forall j | i < j < k + 1 :: !AsksToPause(moves[j]);
    }
    if LastAskedToPause(moves, k) && !AsksToPause(moves[k]) {
      var i :| 0 <= i < k && AsksToPause(moves[i]) && moves[i].sur.toFlag(moves[i].ev.payload.newValue)
        && forall j | i < j < k :: !AsksToPause(moves[j]);
      assert forall j | i < j < k + 1 :: !AsksToPause(moves[j]);
    }
  }

  // ---------------------------------------------------------------------------------------------
  // The X session
  // ---------------------------------------------------------------------------------------------

  predicate Requests(m: Move) { m.Handle? && IsSystemSet(m.ev, XSESSION) }

  function Requested(m: Move): string
    requires Requests(m)
  { m.sur.toText(m.ev.payload.newValue) }

  /** The request is passed on to everybody as the server's own. */
  predicate Confirms(s: State, m: Move) { Requests(m) && !Process(m.sur, s, m.ev).accepted }

  /** The X session confirmed last: what the file said at the start, or the last confirmed request. */
  function LastConfirmed(s: State, moves: seq<Move>, k: nat): string
    requires k <= |moves|
  {
    if k == 0 then s.xSession
    else if Confirms(StateAt(s, moves, k - 1), moves[k - 1]) then Requested(moves[k - 1])
    else LastConfirmed(s, moves, k - 1)
  }

  /**
   The request is written, and afterwards the file does not say what clients are told: the requested session if the
   service restarts, what the file said before if it does not.
   */
  predicate Misleads(s: State, m: Move) {
    && Requests(m) && s.xSession != Requested(m) && m.sur.writesXSession(Requested(m)).Some?
    && m.sur.writesXSession(Requested(m)).value != if m.sur.restarts then Requested(m) else s.xSession
  }

  lemma StepKeepsConfirmed(s: State, moves: seq<Move>, k: nat)
    requires k < |moves| && StateAt(s, moves, k).xSession == LastConfirmed(s, moves, k)
    ensures StateAt(s, moves, k + 1).xSession == LastConfirmed(s, moves, k + 1)
      <==> !Misleads(StateAt(s, moves, k), moves[k])
  {
    var now, m := StateAt(s, moves, k), moves[k];
    if Requests(m) { XSessionIsConfirmedOrPutBack(m.sur, now, m.ev); }
  }

  lemma {:induction false} ConfirmedUpTo(s: State, moves: seq<Move>, k: nat)
    requires k <= |moves| && forall i | 0 <= i < k :: !Misleads(StateAt(s, moves, i), moves[i])
    ensures StateAt(s, moves, k).xSession == LastConfirmed(s, moves, k)
  {
    if k > 0 {
      ConfirmedUpTo(s, moves, k - 1);
      StepKeepsConfirmed(s, moves, k - 1);
    }
  }

  /** The file names the session confirmed last, at every moment of the run. */
  ghost predicate AlwaysConfirmed(s: State, moves: seq<Move>) {
    forall k | 0 <= k <= |moves| :: StateAt(s, moves, k).xSession == LastConfirmed(s, moves, k)
  }

  ghost predicate NeverMisleads(s: State, moves: seq<Move>) {
    forall k | 0 <= k < |moves| :: !Misleads(StateAt(s, moves, k), moves[k])
  }

  lemma ConfirmedNeverMisleads(s: State, moves: seq<Move>, k: nat)
    requires AlwaysConfirmed(s, moves) && k < |moves|
    ensures !Misleads(StateAt(s, moves, k), moves[k])
  {
    assert StateAt(s, moves, k).xSession == LastConfirmed(s, moves, k);
    assert StateAt(s, moves, k + 1).xSession == LastConfirmed(s, moves, k + 1);
    StepKeepsConfirmed(s, moves, k);
  }

  /**
   Over every run of requests, initializations and other events: the file names the session confirmed last at every
   moment if and only if no request was written that misleads.
   */
  lemma ConfiguredIsLastConfirmedIff(s: State, moves: seq<Move>)
    ensures AlwaysConfirmed(s, moves) <==> NeverMisleads(s, moves)
  {
    if NeverMisleads(s, moves) {
      forall k | 0 <= k <= |moves| ensures StateAt(s, moves, k).xSession == LastConfirmed(s, moves, k) {
        ConfirmedUpTo(s, moves, k);
      }
    } else if AlwaysConfirmed(s, moves) {
      forall k | 0 <= k < |moves| ensures !Misleads(StateAt(s, moves, k), moves[k]) { ConfirmedNeverMisleads(s, moves, k); }
    }
  }

  /** The session read back from the real file after a set, if that succeeds. */
  function ReadBack(sessions: seq<LxdmConfig.Session>, disk: LxdmConfig.Disk): string -> Option<string> {
    name =>
      var (done, after) := LxdmConfig.Set(sessions, disk, name);
      if done then Some(LxdmConfig.Get(sessions, after)) else None
  }

  /**
   With the configuration file behind it, for distinct session files without line breaks: a request that can be
   written misleads exactly when the service restarts and the file name has an equals sign, or it does not restart
   and the file really says something else now.
   */
  lemma WrittenRequestMisleadsIff(
    s: State, m: Move, sessions: seq<LxdmConfig.Session>, disk: LxdmConfig.Disk, file: string)
    requires Requests(m) && m.sur.writesXSession == ReadBack(sessions, disk)
    requires s.xSession == LxdmConfig.Get(sessions, disk) && s.xSession != Requested(m) && Requested(m) != ""
    requires LxdmConfig.Set(sessions, disk, Requested(m)).0 && LxdmConfig.DistinctFiles(sessions)
    requires LxdmConfig.FileOf(sessions, Requested(m)) == Some(file) && '\n' !in file && '\r' !in file
    ensures Misleads(s, m) <==> if m.sur.restarts then '=' in file else '=' !in file || s.xSession != ""
  {
    LxdmConfig.SetThenGet(sessions, disk, Requested(m), file);
    LxdmConfig.SetRoundTrip(sessions, disk, Requested(m), file);
  }
}
