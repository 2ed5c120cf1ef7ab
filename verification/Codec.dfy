/** Event payloads as byte arrays: what goes into an envelope and comes out of it. */
module Codec {
  import opened Options
  import opened Sequences
  import opened Framing
  import opened Events

  // ---------------------------------------------------------------------------------------------
  // Stream operators
  // ---------------------------------------------------------------------------------------------

  type Int32 = n: int | -0x8000_0000 <= n < 0x8000_0000

  type Int8 = n: int | -128 <= n < 128

  function PutInt(n: Int32): seq<Byte> { Word(if n < 0 then n + 0x1_0000_0000 else n) }

  /** Reading past the end yields zero and leaves nothing to read. */
  function GetInt(b: seq<Byte>): (Int32, seq<Byte>) {
    if |b| < 4 then (0, [])
    else
      var w := Number(b[..4]);
      (if w < 0x8000_0000 then w else w - 0x1_0000_0000, b[4..])
  }

  function PutInt8(n: Int8): seq<Byte> { [if n < 0 then n + 256 else n] }

  function GetInt8(b: seq<Byte>): (Int8, seq<Byte>) {
    if b == [] then (0, [])
    else
      var n: int := b[0];
      (if n < 128 then n else n - 256, b[1..])
  }

  /** A byte array, possibly null. */
  function PutBytes(a: Option<Array>): seq<Byte> { if a.Some? then Frame(a.value) else Word(NULL_LENGTH) }

  function GetBytes(b: seq<Byte>): (Option<Array>, seq<Byte>) {
    match ReadOne(b)
    case (Message(a), rest) => (Some(a), rest)
    case (Null, rest) => (None, rest)
    case (NeedMore, _) => (None, [])
  }

  lemma IntBack(n: Int32, rest: seq<Byte>)
    ensures GetInt(PutInt(n) + rest) == (n, rest)
  {
    var w: nat := if n < 0 then n + 0x1_0000_0000 else n;
    NumberOfWord(w);
    assert (Word(w) + rest)[..4] == Word(w) && (Word(w) + rest)[4..] == rest;
  }

  lemma Int8Back(n: Int8, rest: seq<Byte>)
    ensures GetInt8(PutInt8(n) + rest) == (n, rest)
  {
  }

  /** An integer is written in two's complement, the most significant byte first. */
  lemma IntIsBigEndian(n: Int32)
    ensures BigEndian(PutInt(n), if n >= 0 then n else n + 0x1_0000_0000)
  {
    WordIsBigEndian(if n < 0 then n + 0x1_0000_0000 else n);
  }

  lemma BytesBack(a: Option<Array>, rest: seq<Byte>)
    ensures GetBytes(PutBytes(a) + rest) == (a, rest)
  {
    if a.Some? {
      ReadFrame(a.value, rest);
    } else {
      var w := Word(NULL_LENGTH);
      NumberOfWord(NULL_LENGTH);
      assert (w + rest)[..4] == w && (w + rest)[4..] == rest;
    }
  }

  /** The operators of a Qt type: writing it, and reading one off the front of a stream. */
  datatype Operators<!T(!new)> = Operators(put: T -> seq<Byte>, get: seq<Byte> -> (T, seq<Byte>)) {
    ghost predicate Faithful() { forall t, rest :: get(put(t) + rest) == (t, rest) }
  }

  /** QString, QVariant, QVariantMap and QStringList. */
  datatype Qt = Qt(
    text: Operators<string>, value: Operators<Value>, values: Operators<map<string, Value>>, names: Operators<seq<string>>)
  {
    ghost predicate Faithful() { text.Faithful() && value.Faithful() && values.Faithful() && names.Faithful() }
  }

  // ---------------------------------------------------------------------------------------------
  // Payload objects
  // ---------------------------------------------------------------------------------------------

  const COMPONENT := 0
  const ENTITY := 1
  const INTROSPECTION := 2
  const ERROR := 3
  const RPC := 4

  /** The serialized fields of a payload object. The entity is -1 until one is set. */
  datatype Data =
    | Component(entity: Int32, command: Int8, name: string, newValue: Value, oldValue: Value)
    | Entity(entity: Int32, command: Int8)
    | Introspection(entity: Int32, values: map<string, Value>, rpcNames: seq<string>)
    | Error(entity: Int32, originalType: Int32, original: Option<Array>, description: string)
    | Rpc(entity: Int32, command: Int8, procedure: string, invocation: map<string, Value>)
  {
    function Type(): Int32 {
      match this
      case Component(_, _, _, _, _) => COMPONENT
      case Entity(_, _) => ENTITY
      case Introspection(_, _, _) => INTROSPECTION
      case Error(_, _, _, _) => ERROR
      case Rpc(_, _, _, _) => RPC
    }

    /** Negative ids are ignored. */
    function WithEntity(e: Int32): Data { if e >= 0 then this.(entity := e) else this }

    function Serialize(qt: Qt): seq<Byte> {
      match this
      case Component(e, c, name, v, w) => PutInt8(c) + (qt.text.put(name) + (PutInt(e) + (qt.value.put(v) + qt.value.put(w))))
      case Entity(e, c) => PutInt8(c) + PutInt(e)
      case Introspection(e, vs, ns) => PutInt(e) + (qt.values.put(vs) + qt.names.put(ns))
      case Error(e, t, original, description) => PutInt(t) + (PutBytes(original) + (qt.text.put(description) + PutInt(e)))
      case Rpc(e, c, procedure, vs) => PutInt8(c) + (qt.text.put(procedure) + (PutInt(e) + qt.values.put(vs)))
    }

    /** Reads every serialized field over what the object held; a negative entity leaves the old one. */
    function Deserialize(qt: Qt, b: seq<Byte>): Data {
      match this
      case Component(_, _, _, _, _) =>
        var (c, b1) := GetInt8(b);
        var (name, b2) := qt.text.get(b1);
        var (e, b3) := GetInt(b2);
        var (v, b4) := qt.value.get(b3);
        var (w, _) := qt.value.get(b4);
        Component(entity, c, name, v, w).WithEntity(e)
      case Entity(_, _) =>
        var (c, b1) := GetInt8(b);
        var (e, _) := GetInt(b1);
        Entity(entity, c).WithEntity(e)
      case Introspection(_, _, _) =>
        var (e, b1) := GetInt(b);
        var (vs, b2) := qt.values.get(b1);
        var (ns, _) := qt.names.get(b2);
        Introspection(entity, vs, ns).WithEntity(e)
      case Error(_, _, _, _) =>
        var (t, b1) := GetInt(b);
        var (original, b2) := GetBytes(b1);
        var (description, b3) := qt.text.get(b2);
        var (e, _) := GetInt(b3);
        Error(entity, t, original, description).WithEntity(e)
      case Rpc(_, _, _, _) =>
        var (c, b1) := GetInt8(b);
        var (procedure, b2) := qt.text.get(b1);
        var (e, b3) := GetInt(b2);
        var (vs, _) := qt.values.get(b3);
        Rpc(entity, c, procedure, vs).WithEntity(e)
    }
  }

  predicate IntAt(b: seq<Byte>, i: nat, n: Int32) {
    i + 4 <= |b| && BigEndian(b[i..i + 4], if n >= 0 then n else n + 0x1_0000_0000)
  }

  predicate BytesAt(b: seq<Byte>, i: nat, part: seq<Byte>) { i + |part| <= |b| && b[i..i + |part|] == part }

  /** Where the fields of a serialized payload lie. */
  ghost predicate LaidOut(qt: Qt, d: Data, b: seq<Byte>) {
    match d
    case Component(e, c, name, v, w) =>
      var i := 1 + |qt.text.put(name)|;
      && BytesAt(b, 0, [if c < 0 then c + 256 else c]) && BytesAt(b, 1, qt.text.put(name)) && IntAt(b, i, e)
      && BytesAt(b, i + 4, qt.value.put(v)) && BytesAt(b, i + 4 + |qt.value.put(v)|, qt.value.put(w))
      && |b| == i + 4 + |qt.value.put(v)| + |qt.value.put(w)|
    case Entity(e, c) => |b| == 5 && b[0] == (if c < 0 then c + 256 else c) && IntAt(b, 1, e)
    case Introspection(e, vs, ns) =>
      && IntAt(b, 0, e) && BytesAt(b, 4, qt.values.put(vs)) && BytesAt(b, 4 + |qt.values.put(vs)|, qt.names.put(ns))
      && |b| == 4 + |qt.values.put(vs)| + |qt.names.put(ns)|
    case Error(e, t, original, description) =>
      var a := if original.Some? then original.value else [];
      && IntAt(b, 0, t) && 8 + |a| <= |b| && BytesAt(b, 8, a)
      && BigEndian(b[4..8], if original.Some? then |a| else NULL_LENGTH)
      && BytesAt(b, 8 + |a|, qt.text.put(description)) && IntAt(b, 8 + |a| + |qt.text.put(description)|, e)
      && |b| == 12 + |a| + |qt.text.put(description)|
    case Rpc(e, c, procedure, vs) =>
      var i := 1 + |qt.text.put(procedure)|;
      && BytesAt(b, 0, [if c < 0 then c + 256 else c]) && BytesAt(b, 1, qt.text.put(procedure)) && IntAt(b, i, e)
      && BytesAt(b, i + 4, qt.values.put(vs)) && |b| == i + 4 + |qt.values.put(vs)|
  }

  lemma PartAt(before: seq<Byte>, part: seq<Byte>, rest: seq<Byte>)
    ensures BytesAt(before + (part + rest), |before|, part)
  {
  }

  lemma PartInside(before: seq<Byte>, b: seq<Byte>, i: nat, part: seq<Byte>)
    requires BytesAt(b, i, part)
    ensures BytesAt(before + b, |before| + i, part)
  {
    assert (before + b)[|before| + i..|before| + i + |part|] == b[i..i + |part|];
  }

  lemma ThreePartsLie(q: seq<Byte>, r: seq<Byte>, s: seq<Byte>)
    ensures var b := q + (r + s); BytesAt(b, 0, q) && BytesAt(b, |q|, r) && BytesAt(b, |q| + |r|, s)
  {
    NothingAdded(s);
    PartAt(r, s, []);
    PartInside(q, r + s, |r|, s);
    PartAt(q, r, s);
    PartAt([], q, r + s);
    NothingAdded(q + (r + s));
  }

  lemma FourPartsLie(q: seq<Byte>, r: seq<Byte>, s: seq<Byte>, t: seq<Byte>)
    ensures var b := q + (r + (s + t));
      BytesAt(b, 0, q) && BytesAt(b, |q|, r) && BytesAt(b, |q| + |r|, s) && BytesAt(b, |q| + |r| + |s|, t)
  {
    var rest := r + (s + t);
    ThreePartsLie(r, s, t);
    FirstPartLies(q, rest);
    PartInside(q, rest, 0, r);
    PartInside(q, rest, |r|, s);
    PartInside(q, rest, |r| + |s|, t);
  }

  lemma FirstPartLies(p: seq<Byte>, rest: seq<Byte>)
    ensures BytesAt(p + rest, 0, p)
  {
    PartAt([], p, rest);
    NothingAdded(p + rest);
  }

  /** Parts written one after the other lie one after the other. */
  lemma PartsLie(p: seq<Byte>, q: seq<Byte>, r: seq<Byte>, s: seq<Byte>, t: seq<Byte>)
    ensures var b := p + (q + (r + (s + t)));
      && BytesAt(b, 0, p) && BytesAt(b, |p|, q) && BytesAt(b, |p| + |q|, r) && BytesAt(b, |p| + |q| + |r|, s)
      && BytesAt(b, |p| + |q| + |r| + |s|, t)
  {
    var rest := q + (r + (s + t));
    FourPartsLie(q, r, s, t);
    FirstPartLies(p, rest);
    PartInside(p, rest, 0, q);
    PartInside(p, rest, |q|, r);
    PartInside(p, rest, |q| + |r|, s);
    PartInside(p, rest, |q| + |r| + |s|, t);
  }

  lemma ComponentIsLaidOut(qt: Qt, e: Int32, c: Int8, name: string, v: Value, w: Value)
    ensures var d := Data.Component(e, c, name, v, w); LaidOut(qt, d, d.Serialize(qt))
  {
    IntIsBigEndian(e);
    PartsLie(PutInt8(c), qt.text.put(name), PutInt(e), qt.value.put(v), qt.value.put(w));
  }

  lemma RpcIsLaidOut(qt: Qt, e: Int32, c: Int8, procedure: string, vs: map<string, Value>)
    ensures var d := Data.Rpc(e, c, procedure, vs); LaidOut(qt, d, d.Serialize(qt))
  {
    IntIsBigEndian(e);
    NothingAdded(qt.values.put(vs));
    PartsLie(PutInt8(c), qt.text.put(procedure), PutInt(e), qt.values.put(vs), []);
  }

  /** The bytes of a byte array, none for a null one, and what is written for its length. */
  function Content(a: Option<Array>): seq<Byte> { if a.Some? then a.value else [] }

  function LengthOf(a: Option<Array>): (n: nat)
    ensures n <= NULL_LENGTH
  { if a.Some? then |a.value| else NULL_LENGTH }

  lemma BytesAreParts(a: Option<Array>, rest: seq<Byte>)
    ensures PutBytes(a) + rest == Word(LengthOf(a)) + (Content(a) + rest)
  {
    NothingAdded(Word(LengthOf(a)));
    NothingAdded(rest);
    Regroup(Word(LengthOf(a)), Content(a), rest);
  }

  lemma ErrorIsLaidOut(qt: Qt, e: Int32, t: Int32, original: Option<Array>, description: string)
    ensures var d := Data.Error(e, t, original, description); LaidOut(qt, d, d.Serialize(qt))
  {
    var d := Data.Error(e, t, original, description);
    BytesAreParts(original, qt.text.put(description) + PutInt(e));
    PartsLie(PutInt(t), Word(LengthOf(original)), Content(original), qt.text.put(description), PutInt(e));
    ErrorFromParts(qt, d, d.Serialize(qt));
  }

  lemma ErrorFromParts(qt: Qt, d: Data, b: seq<Byte>)
    requires d.Error?
    requires var a, n := Content(d.original), |qt.text.put(d.description)|;
      && |b| == 12 + |a| + n && BytesAt(b, 0, PutInt(d.originalType)) && BytesAt(b, 4, Word(LengthOf(d.original)))
      && BytesAt(b, 8, a) && BytesAt(b, 8 + |a|, qt.text.put(d.description)) && BytesAt(b, 8 + |a| + n, PutInt(d.entity))
    ensures LaidOut(qt, d, b)
  {
    IntIsBigEndian(d.originalType);
    IntIsBigEndian(d.entity);
    WordIsBigEndian(LengthOf(d.original));
  }

  lemma ShortIsLaidOut(qt: Qt, d: Data)
    requires d.Entity? || d.Introspection?
    ensures LaidOut(qt, d, d.Serialize(qt))
  {
    IntIsBigEndian(d.entity);
    match d
    case Entity(e, c) =>
      PartAt(PutInt8(c), PutInt(e), []);
      NothingAdded(PutInt(e));
    case Introspection(e, vs, ns) =>
      NothingAdded(qt.names.put(ns));
      NothingAdded(qt.values.put(vs) + qt.names.put(ns));
      ThreePartsLie(PutInt(e), qt.values.put(vs), qt.names.put(ns));
  }

  /** Every payload is written in the layout of its type. */
  lemma SerializedIsLaidOut(qt: Qt, d: Data)
    ensures LaidOut(qt, d, d.Serialize(qt))
  {
    match d
    case Component(e, c, name, v, w) => ComponentIsLaidOut(qt, e, c, name, v, w);
    case Error(e, t, original, description) => ErrorIsLaidOut(qt, e, t, original, description);
    case Rpc(e, c, procedure, vs) => RpcIsLaidOut(qt, e, c, procedure, vs);
    case _ => ShortIsLaidOut(qt, d);
  }

  /** A new object of a type; there is none for an unknown type. */
  function New(t: Int32): Option<Data> {
    if t == COMPONENT then Some(Component(-1, -1, "", Invalid, Invalid))
    else if t == ENTITY then Some(Entity(-1, -1))
    else if t == INTROSPECTION then Some(Introspection(-1, map[], []))
    else if t == ERROR then Some(Error(-1, 0, None, ""))
    else if t == RPC then Some(Rpc(-1, -1, "", map[]))
    else None
  }

  /** What the setters allow. */
  predicate Reachable(d: Data) { d.entity >= -1 }

  lemma GetBack<T(!new)>(ops: Operators<T>, t: T, rest: seq<Byte>)
    requires ops.Faithful()
    ensures ops.get(ops.put(t) + rest) == (t, rest)
  {
  }

  lemma GetLast<T(!new)>(ops: Operators<T>, t: T)
    requires ops.Faithful()
    ensures ops.get(ops.put(t)).0 == t
  {
    GetBack(ops, t, []);
    NothingAdded(ops.put(t));
  }

  lemma IntLast(n: Int32)
    ensures GetInt(PutInt(n)).0 == n
  {
    IntBack(n, []);
    NothingAdded(PutInt(n));
  }

  /**
   Deserializing what was serialized restores every field into an object of the same type, except that an id that
   was never set cannot replace one that was.
   */
  lemma RoundTripInto(qt: Qt, d: Data, into: Data)
    requires qt.Faithful() && d.Type() == into.Type()
    ensures into.Deserialize(qt, d.Serialize(qt)) == if d.entity >= 0 then d else d.(entity := into.entity)
  {
    match d
    case Component(e, c, name, v, w) =>
      Int8Back(c, qt.text.put(name) + (PutInt(e) + (qt.value.put(v) + qt.value.put(w))));
      GetBack(qt.text, name, PutInt(e) + (qt.value.put(v) + qt.value.put(w)));
      IntBack(e, qt.value.put(v) + qt.value.put(w));
      GetBack(qt.value, v, qt.value.put(w));
      GetLast(qt.value, w);
    case Entity(e, c) =>
      Int8Back(c, PutInt(e));
      IntLast(e);
    case Introspection(e, vs, ns) =>
      IntBack(e, qt.values.put(vs) + qt.names.put(ns));
      GetBack(qt.values, vs, qt.names.put(ns));
      GetLast(qt.names, ns);
    case Error(e, t, original, description) =>
      IntBack(t, PutBytes(original) + (qt.text.put(description) + PutInt(e)));
      BytesBack(original, qt.text.put(description) + PutInt(e));
      GetBack(qt.text, description, PutInt(e));
      IntLast(e);
    case Rpc(e, c, procedure, vs) =>
      Int8Back(c, qt.text.put(procedure) + (PutInt(e) + qt.values.put(vs)));
      GetBack(qt.text, procedure, PutInt(e) + qt.values.put(vs));
      IntBack(e, qt.values.put(vs));
      GetLast(qt.values, vs);
  }

  /** The receiving side makes a new object by the type in the envelope; there the round trip is exact. */
  lemma RoundTrip(qt: Qt, d: Data)
    requires qt.Faithful() && Reachable(d)
    ensures New(d.Type()).Some? && New(d.Type()).value.Deserialize(qt, d.Serialize(qt)) == d
  {
    RoundTripInto(qt, d, New(d.Type()).value);
  }

  // ---------------------------------------------------------------------------------------------
  // Errors around payloads
  // ---------------------------------------------------------------------------------------------

  /** ErrorDataSender: a new error about d; an error about an error carries nothing. */
  function ErrorAbout(qt: Qt, d: Data, description: string): Data
    requires |d.Serialize(qt)| < NULL_LENGTH
  {
    var blank := Error(-1, 0, None, description).WithEntity(d.entity);
    if d.Type() == ERROR then blank else blank.(originalType := d.Type(), original := Some(d.Serialize(qt)))
  }

  /** handleErrorData: the items of the entity get the original payload, unless it was an error. */
  function Unwrapped(qt: Qt, error: Data): Option<Data>
    requires error.Error?
  {
    if error.originalType == ERROR || New(error.originalType).None? then None
    else
      var bytes := if error.original.Some? then error.original.value else [];
      Some(New(error.originalType).value.Deserialize(qt, bytes))
  }

  /** isValid of the five payload classes. */
  predicate IsValid(d: Data) {
    match d
    case Component(_, c, _, _, _) => 0 <= c <= 3
    case Entity(_, c) => 0 <= c <= 3
    case Introspection(e, vs, _) => vs != map[] && e >= 0
    case Error(_, _, original, description) => original.Some? && original.value != [] && description != ""
    case Rpc(e, c, procedure, _) => procedure != "" && e >= 0 && c != -1
  }

  /** The payload the network system makes of received bytes, if it makes an event of them. */
  function Arrives(qt: Qt, t: Int32, bytes: seq<Byte>): Option<Data> {
    var d := New(t);
    if d.Some? && IsValid(d.value.Deserialize(qt, bytes)) then Some(d.value.Deserialize(qt, bytes)) else None
  }

  /** Sending and receiving is the identity on valid payloads and drops the others. */
  lemma ArrivesIffValid(qt: Qt, d: Data)
    requires qt.Faithful() && Reachable(d)
    ensures Arrives(qt, d.Type(), d.Serialize(qt)) == if IsValid(d) then Some(d) else None
  {
    RoundTrip(qt, d);
  }

  lemma SerializedIsNotEmpty(qt: Qt, d: Data)
    ensures d.Serialize(qt) != []
  {
    match d
    case Component(_, c, _, _, _) => assert d.Serialize(qt)[0] == PutInt8(c)[0];
    case Entity(_, c) => assert d.Serialize(qt)[0] == PutInt8(c)[0];
    case Introspection(e, _, _) => assert d.Serialize(qt)[0] == PutInt(e)[0];
    case Error(_, t, _, _) => assert d.Serialize(qt)[0] == PutInt(t)[0];
    case Rpc(_, c, _, _) => assert d.Serialize(qt)[0] == PutInt8(c)[0];
  }

  lemma UnwrappedIsOriginal(qt: Qt, d: Data, error: Data)
    requires qt.Faithful() && Reachable(d) && |d.Serialize(qt)| < NULL_LENGTH && d.Type() != ERROR
    requires error.Error? && error.originalType == d.Type() && error.original == Some(d.Serialize(qt))
    ensures Unwrapped(qt, error) == Some(d)
  {
    RoundTrip(qt, d);
  }

  /**
   A rejected payload wrapped in an error that crosses the wire: the receiver makes an event of the error if and
   only if the payload is no error itself and the error has a description, and then the items get the payload as
   it was.
   */
  lemma RejectedPayloadArrivesIff(qt: Qt, d: Data, description: string)
    requires qt.Faithful() && Reachable(d) && |d.Serialize(qt)| < NULL_LENGTH
    ensures var arrived := Arrives(qt, ERROR, ErrorAbout(qt, d, description).Serialize(qt));
      && (arrived.Some? <==> d.Type() != ERROR && description != "")
      && (arrived.Some? ==>
            && arrived.value.Error? && arrived.value.entity == d.entity && arrived.value.description == description
            && Unwrapped(qt, arrived.value) == Some(d))
  {
    var error := ErrorAbout(qt, d, description);
    ArrivesIffValid(qt, error);
    SerializedIsNotEmpty(qt, d);
    if d.Type() != ERROR { UnwrappedIsOriginal(qt, d, error); }
  }

  /** Reading from nothing leaves the defaults. */
  ghost predicate ReadsNothing(qt: Qt) { qt.text.get([]) == ("", []) && qt.value.get([]) == (Invalid, []) }

  /**
   An error about an error that never crosses the wire: local items get a component of the first entity with no
   name and no values, a command for which nobody ever sent.
   */
  lemma LocalErrorAboutErrorIsEmptyComponent(qt: Qt, d: Data, description: string)
    requires ReadsNothing(qt) && d.Type() == ERROR && |d.Serialize(qt)| < NULL_LENGTH
    ensures Unwrapped(qt, ErrorAbout(qt, d, description)) == Some(Component(0, 0, "", Invalid, Invalid))
  {
    var fresh' := New(COMPONENT).value;
    assert GetInt8([]) == (0, []) && GetInt([]) == (0, []);
    assert fresh'.Deserialize(qt, []) == Component(-1, 0, "", Invalid, Invalid).WithEntity(0);
  }
}
