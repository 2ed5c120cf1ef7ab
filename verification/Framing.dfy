/** Length-prefixed messages on a TCP stream, and the worker that reads them however the stream is cut up. */
module Framing {
  import opened Sequences

  type Byte = x: int | 0 <= x < 256

  /** What QDataStream writes before the bytes of an array; a null array is this length and nothing else. */
  const NULL_LENGTH := 0xFFFF_FFFF

  /** A QByteArray that fits into a frame. */
  type Array = a: seq<Byte> | |a| < NULL_LENGTH

  /** quint32, big-endian. */
  function Word(n: nat): (b: seq<Byte>)
    requires n <= NULL_LENGTH
    ensures |b| == 4
  { [n / 0x100_0000, n / 0x1_0000 % 256, n / 256 % 256, n % 256] }

  function Number(b: seq<Byte>): (n: nat)
    requires |b| == 4
    ensures n <= NULL_LENGTH
  {
    var w: int, x: int, y: int, z: int := b[0], b[1], b[2], b[3];
    w * 0x100_0000 + x * 0x1_0000 + y * 256 + z
  }

  lemma NumberOfWord(n: nat)
    requires n <= NULL_LENGTH
    ensures Number(Word(n)) == n
  {
    var high := n / 256;
    assert high / 256 == n / 0x1_0000 && high / 0x1_0000 == n / 0x100_0000;
    assert high == (high / 256) * 256 + high % 256;
  }

  /** The value of four bytes, the most significant first. */
  predicate BigEndian(b: seq<Byte>, n: nat) {
    && |b| == 4
    && var w: int, x: int, y: int, z: int := b[0], b[1], b[2], b[3];
      n == w * 0x100_0000 + x * 0x1_0000 + y * 0x100 + z
  }

  lemma WordIsBigEndian(n: nat)
    requires n <= NULL_LENGTH
    ensures BigEndian(Word(n), n)
  {
    NumberOfWord(n);
  }

  /** `out << array` for an array that is not null. */
  function Frame(a: Array): seq<Byte> { Word(|a|) + a }

  /** On the wire a message is its length in four bytes, the most significant first, and its bytes. */
  lemma FrameIsLengthAndBytes(a: Array)
    ensures |Frame(a)| == 4 + |a| && BigEndian(Frame(a)[..4], |a|) && Frame(a)[4..] == a
    ensures |a| == 3 ==> Frame(a)[..4] == [0, 0, 0, 3]
  {
    WordIsBigEndian(|a|);
    assert Frame(a)[..4] == Word(|a|);
  }

  function Stream(messages: seq<Array>): seq<Byte> {
    if messages == [] then [] else Frame(messages[0]) + Stream(messages[1..])
  }

  datatype Read = NeedMore | Null | Message(content: Array)

  /** One transaction on the unread bytes: what `in >> array` yields, and the bytes left unread. */
  function ReadOne(b: seq<Byte>): (Read, seq<Byte>) {
    if |b| < 4 then (NeedMore, b)
    else
      var n := Number(b[..4]);
      if n == NULL_LENGTH then (Null, b[4..])
      else if |b| < 4 + n then (NeedMore, b)
      else (Message(b[4..4 + n]), b[4 + n..])
  }

  /** readyRead: messages are taken until one is not complete, or null. */
  function Parse(b: seq<Byte>): (seq<Array>, seq<Byte>)
    decreases |b|
  {
    var (r, rest) := ReadOne(b);
    if r.Message? then var (more, left) := Parse(rest); ([r.content] + more, left) else ([], rest)
  }

  /** The worker's socket buffer and everything it has emitted. */
  datatype Reader = Reader(unread: seq<Byte>, emitted: seq<Array>) {
    function Receive(chunk: seq<Byte>): Reader {
      var (messages, rest) := Parse(unread + chunk);
      Reader(rest, emitted + messages)
    }
  }

  class TcpPeerWorker {
    var unread: seq<Byte>
    var emitted: seq<Array>

    ghost function Model(): Reader
      reads this
    { Reader(unread, emitted) }

    constructor ()
      ensures Model() == Reader([], [])
    { unread, emitted := [], []; }

    method ReadArray() returns (r: Read)
      modifies this`unread
      ensures (r, unread) == ReadOne(old(unread))
    {
      r := NeedMore;
      if |unread| >= 4 {
        var n := Number(unread[..4]);
        if n == NULL_LENGTH {
          r := Null;
          unread := unread[4..];
        } else if |unread| >= 4 + n {
          r := Message(unread[4..4 + n]);
          unread := unread[4 + n..];
        }
      }
    }

    method OnReadyRead()
      modifies this
      ensures (unread, emitted) == (Parse(old(unread)).1, old(emitted) + Parse(old(unread)).0)
    {
      ghost var all := Parse(unread);
      var r := ReadArray();
      NothingAdded(emitted);
      while r.Message?
        invariant r.Message? ==> var (more, left) := Parse(unread);
          old(emitted) + all.0 == emitted + ([r.content] + more) && all.1 == left
        invariant !r.Message? ==> old(emitted) + all.0 == emitted && all.1 == unread
        decreases r.Message?, |unread|
      {
        ghost var (more, _) := Parse(unread);
        Regroup(emitted, [r.content], more);
        emitted := emitted + [r.content];
        NothingAdded(emitted);
        r := ReadArray();
      }
    }

    method Receive(chunk: seq<Byte>)
      modifies this
      ensures Model() == old(Model()).Receive(chunk)
    {
      unread := unread + chunk;
      OnReadyRead();
    }
  }

  // ---------------------------------------------------------------------------------------------
  // Whole messages and the start of the next one
  // ---------------------------------------------------------------------------------------------

  lemma ReadFrame(a: Array, rest: seq<Byte>)
    ensures ReadOne(Frame(a) + rest) == (Message(a), rest)
  {
    var b := Frame(a) + rest;
    NumberOfWord(|a|);
    assert b[..4] == Word(|a|) && b[4..4 + |a|] == a && b[4 + |a|..] == rest;
  }

  /** Part of a frame is not enough to read anything. */
  lemma ReadPart(a: Array, part: seq<Byte>)
    requires part <= Frame(a) && part != Frame(a)
    ensures ReadOne(part) == (NeedMore, part)
  {
    NumberOfWord(|a|);
    if |part| >= 4 { assert part[..4] == Word(|a|); }
  }

  lemma {:induction false} StreamSum(a: seq<Array>, b: seq<Array>)
    ensures Stream(a + b) == Stream(a) + Stream(b)
  {
    if a == [] {
      NothingAdded(b);
      NothingAdded(Stream(b));
    } else {
      SumHead(a, b);
      StreamSum(a[1..], b);
      Regroup(Frame(a[0]), Stream(a[1..]), Stream(b));
    }
  }

  /** `part` is what may be left unread while `rest` is still to be received completely. */
  predicate Beginning(part: seq<Byte>, rest: seq<Array>) {
    if rest == [] then part == [] else part <= Frame(rest[0]) && part != Frame(rest[0])
  }

  /** Parsing whole messages and a beginning yields the messages and leaves the beginning. */
  lemma {:induction false} ParseMessages(messages: seq<Array>, part: seq<Byte>, rest: seq<Array>)
    requires Beginning(part, rest)
    ensures Parse(Stream(messages) + part) == (messages, part)
  {
    if messages == [] {
      NothingAdded(part);
      if rest != [] { ReadPart(rest[0], part); }
    } else {
      Regroup(Frame(messages[0]), Stream(messages[1..]), part);
      ReadFrame(messages[0], Stream(messages[1..]) + part);
      ParseMessages(messages[1..], part, rest);
      HeadAndTail(messages);
    }
  }

  /** Any start of a stream consists of some whole messages and the beginning of the next. */
  lemma {:induction false} Split(messages: seq<Array>, received: seq<Byte>) returns (k: nat, part: seq<Byte>)
    requires received <= Stream(messages)
    ensures k <= |messages| && received == Stream(messages[..k]) + part && Beginning(part, messages[k..])
  {
    if messages == [] {
      k, part := 0, [];
    } else if |received| < |Frame(messages[0])| {
      k, part := 0, received;
      NothingAdded(received);
    } else {
      var frame, tail := Frame(messages[0]), Stream(messages[1..]);
      var more := received[|frame|..];
      assert received == frame + more && more <= tail;
      var j;
      j, part := Split(messages[1..], more);
      k := j + 1;
      assert messages[..k] == [messages[0]] + messages[1..][..j];
      StreamSum([messages[0]], messages[1..][..j]);
      NothingAdded(frame);
      Regroup(frame, Stream(messages[1..][..j]), part);
      assert messages[k..] == messages[1..][j..];
    }
  }

  // ---------------------------------------------------------------------------------------------
  // Any fragmentation
  // ---------------------------------------------------------------------------------------------

  function Join(chunks: seq<seq<Byte>>): seq<Byte> {
    if chunks == [] then [] else Join(chunks[..|chunks| - 1]) + chunks[|chunks| - 1]
  }

  /** The reader after the chunks, starting with a new connection. */
  function After(chunks: seq<seq<Byte>>): Reader {
    if chunks == [] then Reader([], []) else After(chunks[..|chunks| - 1]).Receive(chunks[|chunks| - 1])
  }

  /** Exactly the complete messages are emitted and what is unread is less than the next one. */
  ghost predicate UpTo(r: Reader, messages: seq<Array>, received: seq<Byte>) {
    && r.emitted <= messages
    && received == Stream(r.emitted) + r.unread
    && Beginning(r.unread, messages[|r.emitted|..])
  }

  lemma PrefixTail(start: seq<Byte>, a: seq<Byte>, b: seq<Byte>)
    requires start + a <= start + b
    ensures a <= b
  {
    assert b == (start + b)[|start|..];
    assert a == (start + a)[|start|..];
  }

  /** What is unread together with a chunk is a start of what is still to be received. */
  lemma UnreadAndChunk(r: Reader, messages: seq<Array>, received: seq<Byte>, chunk: seq<Byte>)
    requires UpTo(r, messages, received) && received + chunk <= Stream(messages)
    ensures r.unread + chunk <= Stream(messages[|r.emitted|..])
  {
    var done, rest := messages[..|r.emitted|], messages[|r.emitted|..];
    assert messages == done + rest && done == r.emitted;
    StreamSum(done, rest);
    Regroup(Stream(done), r.unread, chunk);
    PrefixTail(Stream(done), r.unread + chunk, Stream(rest));
  }

  lemma EmittedMore(r: Reader, messages: seq<Array>, received: seq<Byte>, chunk: seq<Byte>, k: nat, part: seq<Byte>)
    requires UpTo(r, messages, received) && |r.emitted| + k <= |messages|
    requires var rest := messages[|r.emitted|..]; r.unread + chunk == Stream(rest[..k]) + part && Beginning(part, rest[k..])
    ensures UpTo(Reader(part, messages[..|r.emitted| + k]), messages, received + chunk)
  {
    var n := |r.emitted|;
    var more := messages[n..][..k];
    assert messages[..n + k] == r.emitted + more && messages[n + k..] == messages[n..][k..];
    StreamSum(r.emitted, more);
    Regroup(Stream(r.emitted), r.unread, chunk);
    Regroup(Stream(r.emitted), Stream(more), part);
  }

  /** Parsing a start of a stream. */
  lemma ParseStart(messages: seq<Array>, received: seq<Byte>) returns (k: nat, part: seq<Byte>)
    requires received <= Stream(messages)
    ensures k <= |messages| && received == Stream(messages[..k]) + part && Beginning(part, messages[k..])
    ensures Parse(received) == (messages[..k], part)
  {
    k, part := Split(messages, received);
    ParseMessages(messages[..k], part, messages[k..]);
  }

  lemma ReceiveKeepsUpTo(r: Reader, messages: seq<Array>, received: seq<Byte>, chunk: seq<Byte>)
    requires UpTo(r, messages, received) && received + chunk <= Stream(messages)
    ensures UpTo(r.Receive(chunk), messages, received + chunk)
  {
    UnreadAndChunk(r, messages, received, chunk);
    var k, part := ParseStart(messages[|r.emitted|..], r.unread + chunk);
    EmittedMore(r, messages, received, chunk, k, part);
    TakeMore(r.emitted, messages, k);
    ReceiveParsed(r, chunk, messages[|r.emitted|..][..k], part);
  }

  lemma ReceiveParsed(r: Reader, chunk: seq<Byte>, more: seq<Array>, part: seq<Byte>)
    requires Parse(r.unread + chunk) == (more, part)
    ensures r.Receive(chunk) == Reader(part, r.emitted + more)
  {
  }

  lemma TakeMore(start: seq<Array>, messages: seq<Array>, k: nat)
    requires start <= messages && |start| + k <= |messages|
    ensures start + messages[|start|..][..k] == messages[..|start| + k]
  {
  }

  lemma {:induction false} AfterChunks(messages: seq<Array>, chunks: seq<seq<Byte>>)
    requires Join(chunks) <= Stream(messages)
    ensures UpTo(After(chunks), messages, Join(chunks))
    decreases |chunks|
  {
    if chunks != [] {
      var before, last := chunks[..|chunks| - 1], chunks[|chunks| - 1];
      assert Join(before) <= Stream(messages);
      AfterChunks(messages, before);
      ReceiveKeepsUpTo(After(before), messages, Join(before), last);
    }
  }

  /** The number of complete messages is determined by the bytes. */
  lemma {:induction false} UpToIsUnique(a: Reader, b: Reader, messages: seq<Array>, received: seq<Byte>)
    requires UpTo(a, messages, received) && UpTo(b, messages, received)
    ensures a == b
  {
    ParseMessages(a.emitted, a.unread, messages[|a.emitted|..]);
    ParseMessages(b.emitted, b.unread, messages[|b.emitted|..]);
  }

  /**
   Framing does not depend on fragmentation: however two deliveries cut the same start of the stream, the reader
   has emitted the same messages, all that are complete, and holds the same proper beginning of the next one.
   */
  lemma FragmentationDoesNotMatter(messages: seq<Array>, one: seq<seq<Byte>>, other: seq<seq<Byte>>)
    requires Join(one) == Join(other) <= Stream(messages)
    ensures After(one) == After(other) && UpTo(After(one), messages, Join(one))
    ensures Join(one) == Stream(messages) ==> After(one) == Reader([], messages)
  {
    AfterChunks(messages, one);
    AfterChunks(messages, other);
    UpToIsUnique(After(one), After(other), messages, Join(one));
    if Join(one) == Stream(messages) {
      NothingAdded(Stream(messages));
      UpToIsUnique(After(one), Reader([], messages), messages, Join(one));
    }
  }

  // ---------------------------------------------------------------------------------------------
  // Null arrays
  // ---------------------------------------------------------------------------------------------

  datatype Sent = NullArray | Content(content: Array)

  function Written(arrays: seq<Sent>): seq<Byte> {
    if arrays == [] then []
    else (match arrays[0] case NullArray => Word(NULL_LENGTH) case Content(a) => Frame(a)) + Written(arrays[1..])
  }

  function Contents(arrays: seq<Sent>): seq<Array> {
    if arrays == [] then [] else (if arrays[0].Content? then [arrays[0].content] else []) + Contents(arrays[1..])
  }

  /** The first null array, or the end. */
  function FirstNull(arrays: seq<Sent>): (k: nat)
    ensures k <= |arrays| && forall i | 0 <= i < k :: arrays[i].Content?
    ensures k < |arrays| ==> arrays[k].NullArray?
  {
    if arrays == [] || arrays[0].NullArray? then 0 else 1 + FirstNull(arrays[1..])
  }

  lemma {:induction false} ParseStopsAtNull(arrays: seq<Sent>)
    ensures Parse(Written(arrays)).0 == Contents(arrays[..FirstNull(arrays)])
  {
    if arrays == [] {
    } else if arrays[0].NullArray? {
      var b := Written(arrays);
      NumberOfWord(NULL_LENGTH);
      assert b[..4] == Word(NULL_LENGTH);
    } else {
      ReadFrame(arrays[0].content, Written(arrays[1..]));
      ParseStopsAtNull(arrays[1..]);
      var upto := arrays[..FirstNull(arrays)];
      assert upto[1..] == arrays[1..][..FirstNull(arrays[1..])];
    }
  }

  lemma {:induction false} NoContents(arrays: seq<Sent>)
    ensures Contents(arrays) == [] <==> forall i | 0 <= i < |arrays| :: arrays[i].NullArray?
  {
    if arrays != [] {
      NoContents(arrays[1..]);
      if arrays[0].NullArray? { NothingAdded(Contents(arrays[1..])); }
      assert forall i | 1 <= i < |arrays| :: arrays[i] == arrays[1..][i - 1];
    }
  }

  predicate NullsLast(arrays: seq<Sent>) {
    forall i | FirstNull(arrays) <= i < |arrays| :: arrays[i].NullArray?
  }

  lemma NullsLastTail(arrays: seq<Sent>)
    requires arrays != [] && arrays[0].Content?
    ensures NullsLast(arrays) <==> NullsLast(arrays[1..])
  {
    var k := FirstNull(arrays[1..]);
    assert forall i | k <= i < |arrays| - 1 :: arrays[1..][i] == arrays[i + 1];
    if NullsLast(arrays[1..]) {
      forall i | k + 1 <= i < |arrays| ensures arrays[i].NullArray? { assert arrays[i] == arrays[1..][i - 1]; }
    }
  }

  /** Null arrays break the law: read at once, everything is emitted exactly when no message follows a null array. */
  lemma {:induction false} AllEmittedIffNullsLast(arrays: seq<Sent>)
    ensures Parse(Written(arrays)).0 == Contents(arrays) <==> NullsLast(arrays)
  {
    ParseStopsAtNull(arrays);
    if arrays != [] && arrays[0].NullArray? {
      NoContents(arrays);
    } else if arrays != [] {
      AllEmittedIffNullsLast(arrays[1..]);
      NullsLastTail(arrays);
      ReadFrame(arrays[0].content, Written(arrays[1..]));
      var a, b := Parse(Written(arrays[1..])).0, Contents(arrays[1..]);
      assert a == ([arrays[0].content] + a)[1..] && b == ([arrays[0].content] + b)[1..];
    }
  }

  /** The bytes of null arrays, whole or not. */
  predicate AllOnes(b: seq<Byte>) { forall k | 0 <= k < |b| :: b[k] == 255 }

  lemma OnesAreNull(b: seq<Byte>)
    requires AllOnes(b)
    ensures Parse(b).0 == [] && AllOnes(Parse(b).1)
  {
    if |b| >= 4 { assert Number(b[..4]) == NULL_LENGTH; }
  }

  lemma {:induction false} ParseThenOnes(messages: seq<Array>, ones: seq<Byte>)
    requires AllOnes(ones)
    ensures Parse(Stream(messages) + ones).0 == messages && AllOnes(Parse(Stream(messages) + ones).1)
  {
    if messages == [] {
      NothingAdded(ones);
      OnesAreNull(ones);
    } else {
      Regroup(Frame(messages[0]), Stream(messages[1..]), ones);
      ReadFrame(messages[0], Stream(messages[1..]) + ones);
      ParseThenOnes(messages[1..], ones);
      HeadAndTail(messages);
    }
  }

  /** The chunk that completes the last message may begin with the null arrays already. */
  lemma ReceiveLast(r: Reader, messages: seq<Array>, received: seq<Byte>, chunk: seq<Byte>, ones: seq<Byte>)
    requires UpTo(r, messages, received) && AllOnes(ones) && received + chunk == Stream(messages) + ones
    ensures r.Receive(chunk).emitted == messages && AllOnes(r.Receive(chunk).unread)
  {
    var done, rest := messages[..|r.emitted|], messages[|r.emitted|..];
    assert messages == done + rest && done == r.emitted;
    StreamSum(done, rest);
    Regroup(Stream(done), r.unread, chunk);
    Regroup(Stream(done), Stream(rest), ones);
    SameTail(Stream(done), r.unread + chunk, Stream(rest) + ones);
    ParseThenOnes(rest, ones);
  }

  lemma SameTail(start: seq<Byte>, a: seq<Byte>, b: seq<Byte>)
    requires start + a == start + b
    ensures a == b
  {
    assert a == (start + a)[|start|..] && b == (start + b)[|start|..];
  }

  lemma OnesReceived(r: Reader, chunk: seq<Byte>)
    requires AllOnes(r.unread) && AllOnes(chunk)
    ensures r.Receive(chunk).emitted == r.emitted && AllOnes(r.Receive(chunk).unread)
  {
    OnesAreNull(r.unread + chunk);
    NothingAdded(r.emitted);
  }

  /** However the stream is cut, null arrays at its end keep no message back. */
  lemma {:induction false} AfterNullsLast(messages: seq<Array>, ones: seq<Byte>, chunks: seq<seq<Byte>>)
    requires AllOnes(ones) && Join(chunks) <= Stream(messages) + ones
    ensures if |Join(chunks)| < |Stream(messages)| then UpTo(After(chunks), messages, Join(chunks))
      else After(chunks).emitted == messages && AllOnes(After(chunks).unread)
    decreases |chunks|
  {
    var all := Stream(messages);
    if chunks == [] {
      NothingAdded(all);
      if all == [] { NoMessages(messages); }
    } else {
      var before, last := chunks[..|chunks| - 1], chunks[|chunks| - 1];
      var received, now := Join(before), Join(chunks);
      assert received <= all + ones;
      AfterNullsLast(messages, ones, before);
      if |received| >= |all| {
        forall k | 0 <= k < |last| ensures last[k] == 255 {
          assert last[k] == now[|received| + k] == ones[|received| + k - |all|];
        }
        OnesReceived(After(before), last);
      } else if |now| < |all| {
        assert now <= all by { assert now == (all + ones)[..|now|]; }
        ReceiveKeepsUpTo(After(before), messages, received, last);
      } else {
        var some := ones[..|now| - |all|];
        assert now == all + some;
        ReceiveLast(After(before), messages, received, last, some);
      }
    }
  }

  lemma NoMessages(messages: seq<Array>)
    requires Stream(messages) == []
    ensures messages == []
  {
  }

  lemma {:induction false} WrittenNullsLast(arrays: seq<Sent>) returns (ones: seq<Byte>)
    requires NullsLast(arrays)
    ensures AllOnes(ones) && Written(arrays) == Stream(Contents(arrays)) + ones
  {
    if arrays == [] {
      ones := [];
    } else if arrays[0].NullArray? {
      ones := WrittenNulls(arrays);
      NoContents(arrays);
      NothingAdded(ones);
    } else {
      NullsLastTail(arrays);
      ones := WrittenNullsLast(arrays[1..]);
      ContentsHead(arrays);
      Regroup(Frame(arrays[0].content), Stream(Contents(arrays[1..])), ones);
    }
  }

  lemma {:induction false} WrittenNulls(arrays: seq<Sent>) returns (ones: seq<Byte>)
    requires NullsLast(arrays) && (arrays != [] ==> arrays[0].NullArray?)
    ensures AllOnes(ones) && Written(arrays) == ones
  {
    ones := [];
    if arrays != [] {
      NullsTail(arrays);
      var more := WrittenNulls(arrays[1..]);
      ones := Word(NULL_LENGTH) + more;
    }
  }

  lemma ContentsHead(arrays: seq<Sent>)
    requires arrays != [] && !arrays[0].NullArray?
    ensures Stream(Contents(arrays)) == Frame(arrays[0].content) + Stream(Contents(arrays[1..]))
  {
    assert Contents(arrays)[1..] == Contents(arrays[1..]);
  }

  lemma NullsTail(arrays: seq<Sent>)
    requires arrays != [] && arrays[0].NullArray? && NullsLast(arrays)
    ensures NullsLast(arrays[1..]) && (arrays[1..] != [] ==> arrays[1..][0].NullArray?)
  {
    forall i | 0 <= i < |arrays| - 1 ensures arrays[1..][i].NullArray? { assert arrays[1..][i] == arrays[i + 1]; }
  }

  /** Every array in a chunk of its own. */
  function Singly(arrays: seq<Sent>): seq<seq<Byte>> {
    seq(|arrays|, i requires 0 <= i < |arrays| => Written([arrays[i]]))
  }

  lemma {:induction false} WrittenAdd(arrays: seq<Sent>, a: Sent)
    ensures Written(arrays + [a]) == Written(arrays) + Written([a])
  {
    if arrays == [] {
      NothingAdded([a]);
      NothingAdded(Written([a]));
    } else {
      SumHead(arrays, [a]);
      WrittenAdd(arrays[1..], a);
      Regroup(Written([arrays[0]]), Written(arrays[1..]), Written([a]));
      OneWritten(arrays);
      OneWritten(arrays + [a]);
    }
  }

  lemma {:induction false} ContentsAdd(arrays: seq<Sent>, a: Sent)
    ensures Contents(arrays + [a]) == Contents(arrays) + Contents([a])
  {
    if arrays == [] {
      NothingAdded([a]);
      NothingAdded(Contents([a]));
    } else {
      SumHead(arrays, [a]);
      ContentsAdd(arrays[1..], a);
      Regroup(if arrays[0].Content? then [arrays[0].content] else [], Contents(arrays[1..]), Contents([a]));
    }
  }

  lemma OneWritten(arrays: seq<Sent>)
    requires arrays != []
    ensures Written(arrays) == Written([arrays[0]]) + Written(arrays[1..])
  {
    assert [arrays[0]][1..] == [];
    NothingAdded(match arrays[0] case NullArray => Word(NULL_LENGTH) case Content(a) => Frame(a));
  }

  lemma OneReceived(a: Sent, emitted: seq<Array>)
    ensures Reader([], emitted).Receive(Written([a])) == Reader([], emitted + Contents([a]))
  {
    var b := match a case NullArray => Word(NULL_LENGTH) case Content(c) => Frame(c);
    assert [a][0] == a && [a][1..] == [];
    NothingAdded(b);
    assert Written([a]) == b;
    match a
    case Content(c) =>
      ReadFrame(c, []);
      NothingAdded([c]);
      assert Parse(b) == ([c], []);
      ReceiveParsed(Reader([], emitted), b, [c], []);
    case NullArray =>
      NumberOfWord(NULL_LENGTH);
      assert b[..4] == b && b[4..] == [];
      NothingAdded(emitted);
  }

  /** Array by array everything is emitted, null arrays or not. */
  lemma {:induction false} SinglyEmitsAll(arrays: seq<Sent>)
    ensures Join(Singly(arrays)) == Written(arrays) && After(Singly(arrays)) == Reader([], Contents(arrays))
    decreases |arrays|
  {
    if arrays != [] {
      var before, last := arrays[..|arrays| - 1], arrays[|arrays| - 1];
      assert arrays == before + [last];
      SinglyEmitsAll(before);
      WrittenAdd(before, last);
      ContentsAdd(before, last);
      assert Singly(arrays)[..|arrays| - 1] == Singly(before);
      OneReceived(last, Contents(before));
    }
  }

  /** Any two ways to cut the stream of these arrays emit the same messages. */
  ghost predicate FragmentationIndependent(arrays: seq<Sent>) {
    forall one, other | Join(one) == Written(arrays) && Join(other) == Written(arrays) ::
      After(one).emitted == After(other).emitted
  }

  /** What is emitted does not depend on fragmentation exactly when no message follows a null array. */
  lemma IndependentIffNullsLast(arrays: seq<Sent>)
    ensures FragmentationIndependent(arrays) <==> NullsLast(arrays)
  {
    SinglyEmitsAll(arrays);
    if NullsLast(arrays) {
      var ones := WrittenNullsLast(arrays);
      forall chunks | Join(chunks) == Written(arrays) ensures After(chunks).emitted == Contents(arrays) {
        AfterNullsLast(Contents(arrays), ones, chunks);
      }
    }
    if FragmentationIndependent(arrays) {
      InOneChunk(Written(arrays));
      assert After([Written(arrays)]).emitted == After(Singly(arrays)).emitted;
      AllEmittedIffNullsLast(arrays);
    }
  }

  lemma InOneChunk(b: seq<Byte>)
    ensures Join([b]) == b && After([b]).emitted == Parse(b).0
  {
    assert [b][..0] == [];
    NothingAdded(b);
    NothingAdded(Parse(b).0);
  }
}
