/** The sender that writes its frames to the socket in portions, never more than a window ahead of the acknowledgements. */
module FragmentSender {
  import opened Sequences
  import opened Framing
  import opened Division

  /** `backlog` is m_pendingSendData, `outstanding` m_pendingDataOnSocket; `written` and `writes` record the socket's side. */
  datatype Sender = Sender(window: nat, outstanding: nat, backlog: seq<Byte>, written: seq<Byte>, writes: nat) {
    function Write(bytes: seq<Byte>): Sender {
      this.(outstanding := outstanding + |bytes|, written := written + bytes, writes := writes + 1)
    }

    function SendFraction(): Sender {
      var n := if window <= outstanding then 0 else if window - outstanding < |backlog| then window - outstanding else |backlog|;
      if n == 0 then this else Write(backlog[..n]).(backlog := backlog[n..])
    }

    /** A disconnected worker drops the message; a window of zero means no fragmentation. */
    function SendArray(connected: bool, a: Array): Sender {
      if !connected then this
      else if window == 0 then Write(Frame(a))
      else this.(backlog := backlog + Frame(a)).SendFraction()
    }

    /** bytesWritten never reports more than was written. */
    function OnBytesWritten(n: nat): Sender
      requires n <= outstanding
    {
      var s := this.(outstanding := outstanding - n);
      if s.outstanding == 0 && s.backlog != [] then s.SendFraction() else s
    }

    /** No more outstanding than the window allows, and nothing waits while nothing is outstanding. */
    predicate Flowing() {
      && (window > 0 ==> outstanding <= window)
      && (backlog != [] ==> 0 < outstanding && window > 0)
    }
  }

  class TestFragmentedNetPeerWorker {
    const writeSize: nat
    var pendingDataOnSocket: nat
    var pendingSendData: seq<Byte>
    var written: seq<Byte>
    var writes: nat

    ghost function Model(): Sender
      reads this
    { Sender(writeSize, pendingDataOnSocket, pendingSendData, written, writes) }

    constructor (writeSize: nat)
      ensures Model() == Sender(writeSize, 0, [], [], 0)
    {
      this.writeSize := writeSize;
      pendingDataOnSocket, pendingSendData, written, writes := 0, [], [], 0;
    }

    method WriteRaw(bytes: seq<Byte>)
      modifies this`written, this`writes
      ensures written == old(written) + bytes && writes == old(writes) + 1
    { written, writes := written + bytes, writes + 1; }

    method SendFraction()
      modifies this
      ensures Model() == old(Model()).SendFraction()
    {
      var sendable: int := writeSize - pendingDataOnSocket;
      if sendable > 0 {
        var now := if sendable < |pendingSendData| then sendable else |pendingSendData|;
        if now > 0 {
          WriteRaw(pendingSendData[..now]);
          pendingDataOnSocket := pendingDataOnSocket + now;
          pendingSendData := pendingSendData[|pendingSendData| - (|pendingSendData| - now)..];
        }
      }
    }

    method SendArray(connected: bool, a: Array)
      modifies this
      ensures Model() == old(Model()).SendArray(connected, a)
      ensures !connected ==> Model() == old(Model())
    {
      if !connected { return; }
      var raw := Frame(a);
      if writeSize == 0 {
        WriteRaw(raw);
        pendingDataOnSocket := pendingDataOnSocket + |raw|;
      } else {
        pendingSendData := pendingSendData + raw;
        SendFraction();
      }
    }

    method OnBytesWritten(n: nat)
      requires n <= pendingDataOnSocket
      modifies this
      ensures Model() == old(Model()).OnBytesWritten(n)
    {
      pendingDataOnSocket := pendingDataOnSocket - n;
      if pendingDataOnSocket == 0 && |pendingSendData| > 0 { SendFraction(); }
    }
  }

  // ---------------------------------------------------------------------------------------------
  // Every run
  // ---------------------------------------------------------------------------------------------

  datatype Action = Send(a: Array) | Written(n: nat)

  predicate Possible(s: Sender, action: Action) { action.Written? ==> action.n <= s.outstanding }

  function Do(s: Sender, action: Action): Sender
    requires Possible(s, action)
  {
    match action
    case Send(a) => s.SendArray(true, a)
    case Written(n) => s.OnBytesWritten(n)
  }

  predicate Runs(s: Sender, actions: seq<Action>)
    decreases |actions|
  {
    actions == [] || (Possible(s, actions[0]) && Runs(Do(s, actions[0]), actions[1..]))
  }

  function Run(s: Sender, actions: seq<Action>): Sender
    requires Runs(s, actions)
    decreases |actions|
  {
    if actions == [] then s else Run(Do(s, actions[0]), actions[1..])
  }

  function SentBy(actions: seq<Action>): seq<Array> {
    if actions == [] then [] else (if actions[0].Send? then [actions[0].a] else []) + SentBy(actions[1..])
  }

  lemma FractionConserves(s: Sender)
    ensures var r := s.SendFraction();
      && r.written + r.backlog == s.written + s.backlog && r.window == s.window
      && (s.window > 0 && s.outstanding <= s.window ==> r.Flowing())
  {
    var n := |s.backlog| - |s.SendFraction().backlog|;
    if s.SendFraction() != s {
      assert s.backlog == s.backlog[..n] + s.backlog[n..];
      Regroup(s.written, s.backlog[..n], s.backlog[n..]);
    }
  }

  lemma DoConserves(s: Sender, action: Action)
    requires s.Flowing() && Possible(s, action)
    ensures var r := Do(s, action);
      && r.Flowing() && r.window == s.window
      && r.written + r.backlog == s.written + s.backlog + if action.Send? then Frame(action.a) else []
  {
    match action
    case Send(a) =>
      Regroup(s.written, s.backlog, Frame(a));
      if s.window == 0 {
        NothingAdded(s.written);
        NothingAdded(s.written + Frame(a));
      } else {
        FractionConserves(s.(backlog := s.backlog + Frame(a)));
      }
    case Written(n) =>
      NothingAdded(s.written + s.backlog);
      FractionConserves(s.(outstanding := s.outstanding - n));
  }

  /**
   Conservation and flow control over every run: what is written and what waits is, in order, everything sent;
   the window is respected; and while anything waits, an acknowledgement is still to come.
   */
  lemma {:induction false} RunConserves(s: Sender, actions: seq<Action>)
    requires s.Flowing() && Runs(s, actions)
    ensures var r := Run(s, actions);
      r.Flowing() && r.window == s.window && r.written + r.backlog == s.written + s.backlog + Stream(SentBy(actions))
    decreases |actions|
  {
    if actions == [] {
      NothingAdded(s.written + s.backlog);
    } else {
      DoConserves(s, actions[0]);
      RunConserves(Do(s, actions[0]), actions[1..]);
      var first := if actions[0].Send? then Frame(actions[0].a) else [];
      Regroup(s.written + s.backlog, first, Stream(SentBy(actions[1..])));
      NothingAdded(Stream(SentBy(actions[1..])));
      NothingAdded(SentBy(actions[1..]));
    }
  }

  // ---------------------------------------------------------------------------------------------
  // How many writes it takes
  // ---------------------------------------------------------------------------------------------

  /** The socket reports everything outstanding as written, again and again, until nothing is. */
  function Drain(s: Sender): Sender
    requires s.Flowing()
    decreases |s.backlog| + s.outstanding
  {
    if s.outstanding == 0 then s
    else
      FractionConserves(s.(outstanding := 0));
      Drain(s.OnBytesWritten(s.outstanding))
  }

  function CeilingDiv(n: nat, d: nat): nat
    requires d > 0
  { (n + d - 1) / d }

  lemma OneWriteLess(n: nat, d: nat)
    requires d > 0
    ensures CeilingDiv(n, d) == if n == 0 then 0 else if n <= d then 1 else 1 + CeilingDiv(n - d, d)
  {
    QuotientRemainder(0, d - 1, d);
    if n > 0 {
      QuotientSum(n - 1, d);
      if n <= d { QuotientRemainder(0, n - 1, d); }
    }
  }

  /** Everything gets written, in as many further writes as windows fit into the backlog, the last one perhaps smaller. */
  lemma {:induction false} DrainWritesAll(s: Sender)
    requires s.Flowing() && s.window > 0
    ensures var r := Drain(s);
      && r.outstanding == 0 && r.backlog == [] && r.written == s.written + s.backlog
      && r.writes == s.writes + CeilingDiv(|s.backlog|, s.window)
    decreases |s.backlog| + s.outstanding
  {
    OneWriteLess(|s.backlog|, s.window);
    if s.outstanding == 0 {
      NothingAdded(s.written);
    } else {
      FractionConserves(s.(outstanding := 0));
      DrainWritesAll(s.OnBytesWritten(s.outstanding));
      if s.backlog == [] { NothingAdded(s.written); }
    }
  }

  /** One message of T bytes on an idle sender takes ceil(T / window) writes in all. */
  lemma OneMessageTakes(s: Sender, a: Array)
    requires s.window > 0 && s.outstanding == 0 && s.backlog == []
    ensures s.SendArray(true, a).Flowing()
    ensures var r := Drain(s.SendArray(true, a));
      && r.written == s.written + Frame(a) && r.backlog == []
      && r.writes == s.writes + CeilingDiv(|Frame(a)|, s.window)
  {
    var q := s.(backlog := s.backlog + Frame(a));
    NothingAdded(Frame(a));
    FractionConserves(q);
    DrainWritesAll(q.SendFraction());
    OneWriteLess(|Frame(a)|, s.window);
  }

  // ---------------------------------------------------------------------------------------------
  // Sender and receiver
  // ---------------------------------------------------------------------------------------------

  /**
   The sender against the framing reader: whatever was delivered of the written bytes, in whatever chunks, the
   reader has emitted the complete messages among what was sent, in order; all of it once all is delivered.
   */
  lemma SentIsReceived(window: nat, actions: seq<Action>, chunks: seq<seq<Byte>>)
    requires var s := Sender(window, 0, [], [], 0);
      Runs(s, actions) && Join(chunks) <= Run(s, actions).written
    ensures var r := Run(Sender(window, 0, [], [], 0), actions);
      && UpTo(After(chunks), SentBy(actions), Join(chunks))
      && (r.backlog == [] && Join(chunks) == r.written ==> After(chunks) == Reader([], SentBy(actions)))
  {
    var s := Sender(window, 0, [], [], 0);
    RunConserves(s, actions);
    var r, messages := Run(s, actions), SentBy(actions);
    assert r.written + r.backlog == Stream(messages);
    assert Join(chunks) <= Stream(messages);
    AfterChunks(messages, chunks);
    if r.backlog == [] && Join(chunks) == r.written {
      NothingAdded(r.written);
      FragmentationDoesNotMatter(messages, chunks, chunks);
    }
  }
}
