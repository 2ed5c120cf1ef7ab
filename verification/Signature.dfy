/** RPC signatures, printed in two places and parsed in one: `Name(Type1 name1,Type2 name2)`. */
module Signature {
  import opened Options
  import opened OrderedKeys
  import opened Sequences
  import opened Texts

  /** Parameter names with their types. */
  type Parameters = map<string, string>

  // ---------------------------------------------------------------------------------------------
  // Printing
  // ---------------------------------------------------------------------------------------------

  /** One parameter, the type before the name. */
  function Declared(t: string, n: string): string { t + " " + n }

  function Described(m: Parameters, names: seq<string>): (parts: seq<string>)
    requires forall n | n in names :: n in m
    ensures |parts| == |names| && forall k | 0 <= k < |names| :: parts[k] == Declared(m[names[k]], names[k])
  {
    seq(|names|, k requires 0 <= k < |names| => Declared(m[names[k]], names[k]))
  }

  /** What a signature is: the described parameters in the order of their names, separated by commas. */
  function Print(name: string, m: Parameters): string {
    name + "(" + Join(Described(m, Keys(m.Keys)), ',') + ")"
  }

  /** Every part followed by a comma. */
  function WithCommas(parts: seq<string>): string {
    if parts == [] then "" else parts[0] + "," + WithCommas(parts[1..])
  }

  lemma {:induction false} WithCommasAdd(parts: seq<string>, part: string)
    ensures WithCommas(parts + [part]) == WithCommas(parts) + (part + ",")
  {
    if parts == [] {
      assert WithCommas([part]) == part + ",";
      NothingAdded(part + ",");
    } else {
      SumHead(parts, [part]);
      WithCommasAdd(parts[1..], part);
      Regroup(parts[0] + ",", WithCommas(parts[1..]), part + ",");
    }
  }

  lemma {:induction false} JoinIsWithoutLast(parts: seq<string>)
    requires parts != []
    ensures WithCommas(parts) == Join(parts, ',') + ","
  {
    if |parts| == 1 {
      NothingAdded(parts[0] + ",");
    } else {
      JoinIsWithoutLast(parts[1..]);
      Regroup(parts[0] + ",", Join(parts[1..], ','), ",");
    }
  }

  lemma AppendDeclared(s: string, t: string, n: string)
    ensures s + t + " " + n + "," == s + (Declared(t, n) + ",")
  {
    Regroup(s, t, " ");
    Regroup(s, t + " ", n);
    Regroup(s, t + " " + n, ",");
  }

  /** The loop of VfCppRpcSignature: a comma after every parameter. */
  method AppendParameters(start: string, m: Parameters, names: seq<string>) returns (signature: string)
    requires forall n | n in names :: n in m
    ensures signature == start + WithCommas(Described(m, names))
  {
    ghost var parts := Described(m, names);
    signature := start;
    NothingAdded(start);
    var i := 0;
    while i < |names|
      invariant 0 <= i <= |names|
      invariant signature == start + WithCommas(parts[..i])
    {
      var n := names[i];
      assert n in names && parts[i] == Declared(m[n], n);
      assert parts[..i + 1] == parts[..i] + [parts[i]];
      WithCommasAdd(parts[..i], parts[i]);
      Regroup(start, WithCommas(parts[..i]), parts[i] + ",");
      AppendDeclared(signature, m[n], n);
      signature := signature + m[n] + " " + n + ",";
      i := i + 1;
    }
    assert parts[..i] == parts;
  }

  /** The last comma is taken away again. */
  function WithoutLastComma(s: string): string
    requires s != ""
  { if s[|s| - 1] == ',' then s[..|s| - 1] else s }

  lemma LastComma(start: string, parts: seq<string>)
    requires start != "" && start[|start| - 1] == '('
    ensures WithoutLastComma(start + WithCommas(parts)) == start + Join(parts, ',')
  {
    if parts == [] {
      NothingAdded(start);
    } else {
      JoinIsWithoutLast(parts);
      var s := start + Join(parts, ',');
      Regroup(start, Join(parts, ','), ",");
      assert (s + ",")[..|s + ","| - 1] == s;
    }
  }

  /** VfCppRpcSignature. */
  method CreateRpcSignature(name: string, m: Parameters) returns (signature: string)
    ensures signature == Print(name, m)
  {
    var start, names := name + "(", Keys(m.Keys);
    signature := AppendParameters(start, m, names);
    LastComma(start, Described(m, names));
    signature := WithoutLastComma(signature) + ")";
  }

  /** The loop of VfRpcParamsParser: the parameters as a list. */
  method ListParameters(m: Parameters, names: seq<string>) returns (strings: seq<string>)
    requires forall n | n in names :: n in m
    ensures strings == Described(m, names)
  {
    ghost var parts := Described(m, names);
    strings := [];
    var i := 0;
    while i < |names|
      invariant 0 <= i <= |names| && strings == parts[..i]
    {
      assert names[i] in names;
      strings := strings + [Declared(m[names[i]], names[i])];
      i := i + 1;
    }
  }

  method ParseRpcParams(name: string, m: Parameters) returns (signature: string)
    ensures signature == Print(name, m)
  {
    var strings := ListParameters(m, Keys(m.Keys));
    signature := name + "(" + Join(strings, ',') + ")";
  }

  // ---------------------------------------------------------------------------------------------
  // Parsing
  // ---------------------------------------------------------------------------------------------

  predicate IsWordChar(c: char) { 'a' <= c <= 'z' || 'A' <= c <= 'Z' || '0' <= c <= '9' || c == '_' }

  predicate IsSpace(c: char) { c == ' ' || 9 as char <= c <= 13 as char }

  ghost predicate IsWord(s: string) { s != "" && forall k | 0 <= k < |s| :: IsWordChar(s[k]) }

  /** How many characters at the end are word characters, or spaces. */
  function TrailingWord(s: string): (n: nat)
    ensures n <= |s|
  { if s == "" || !IsWordChar(s[|s| - 1]) then 0 else 1 + TrailingWord(s[..|s| - 1]) }

  function TrailingSpace(s: string): (n: nat)
    ensures n <= |s|
  { if s == "" || !IsSpace(s[|s| - 1]) then 0 else 1 + TrailingSpace(s[..|s| - 1]) }

  function TrimStart(s: string): string { if s != "" && IsSpace(s[0]) then TrimStart(s[1..]) else s }

  function Trimmed(s: string): string { TrimStart(s[..|s| - TrailingSpace(s)]) }

  /** remove of the pattern: one or more spaces and then a word at the very end. */
  function WithoutLastWord(s: string): string {
    var rest := s[..|s| - TrailingWord(s)];
    if TrailingWord(s) == 0 || TrailingSpace(rest) == 0 then s else rest[..|rest| - TrailingSpace(rest)]
  }

  function LineOf(s: string): string { if s == "" || s[0] == '\n' then "" else [s[0]] + LineOf(s[1..]) }

  /** What stands before the last closing parenthesis. */
  function BeforeLast(s: string): Option<string> {
    if s == "" then None
    else if s[|s| - 1] == ')' then Some(s[..|s| - 1])
    else BeforeLast(s[..|s| - 1])
  }

  /** The group of the pattern `\((.*)\)`: leftmost, greedy, on one line. */
  function Captured(s: string): Option<string> {
    if s == "" then None
    else if s[0] == '(' && BeforeLast(LineOf(s[1..])).Some? then BeforeLast(LineOf(s[1..]))
    else Captured(s[1..])
  }

  function NonEmpty(parts: seq<string>): seq<string> {
    if parts == [] then [] else (if parts[0] == "" then [] else [parts[0]]) + NonEmpty(parts[1..])
  }

  /** section('(', 0, 0) */
  function RpcName(s: string): string { Split(s, '(')[0] }

  function ParamParts(s: string): seq<string> {
    match Captured(s)
    case None => []
    case Some(params) => NonEmpty(Split(Trimmed(params), ','))
  }

  function SecondWords(parts: seq<string>): seq<string> {
    if parts == [] then []
    else (if |Split(parts[0], ' ')| == 2 then [Split(parts[0], ' ')[1]] else []) + SecondWords(parts[1..])
  }

  function TypesOf(parts: seq<string>): (types: seq<string>)
    ensures |types| == |parts| && forall k | 0 <= k < |parts| :: types[k] == WithoutLastWord(Trimmed(parts[k]))
  {
    seq(|parts|, k requires 0 <= k < |parts| => WithoutLastWord(Trimmed(parts[k])))
  }

  method GetRpcParamNamesList(rpc: string) returns (names: seq<string>)
    ensures names == SecondWords(ParamParts(rpc))
  {
    names := [];
    var parts := ParamParts(rpc);
    NothingAdded(SecondWords(parts));
    var i := 0;
    while i < |parts|
      invariant 0 <= i <= |parts| && names + SecondWords(parts[i..]) == SecondWords(parts)
    {
      var typeAndName := Split(parts[i], ' ');
      assert parts[i..][1..] == parts[i + 1..];
      NothingAdded(SecondWords(parts[i + 1..]));
      if |typeAndName| == 2 {
        Regroup(names, [typeAndName[1]], SecondWords(parts[i + 1..]));
        names := names + [typeAndName[1]];
      }
      i := i + 1;
    }
    NothingAdded(names);
  }

  method GetRpcTypesListFromSignature(rpc: string) returns (types: seq<string>)
    ensures types == NonEmpty(Split(Join(TypesOf(ParamParts(rpc)), ','), ','))
  {
    var parts := ParamParts(rpc);
    ghost var before := parts;
    var i := 0;
    while i < |parts|
      invariant 0 <= i <= |parts| == |before|
      invariant forall k | 0 <= k < |parts| :: parts[k] == if k < i then TypesOf(before)[k] else before[k]
    {
      parts := parts[i := WithoutLastWord(Trimmed(parts[i]))];
      i := i + 1;
    }
    assert parts == TypesOf(before);
    types := NonEmpty(Split(Join(parts, ','), ','));
  }

  // ---------------------------------------------------------------------------------------------
  // The round trip
  // ---------------------------------------------------------------------------------------------

  ghost predicate Wordy(m: Parameters) { forall n | n in m :: IsWord(n) && IsWord(m[n]) }

  lemma {:induction false} LineWithoutBreak(s: string)
    requires '\n' !in s
    ensures LineOf(s) == s
  {
    if s != "" { LineWithoutBreak(s[1..]); }
  }

  lemma {:induction false} CapturedFrom(name: string, params: string)
    requires '(' !in name && '\n' !in params
    ensures Captured(name + "(" + params + ")") == Some(params)
  {
    var s := name + "(" + params + ")";
    if name == "" {
      assert s[1..] == params + ")";
      LineWithoutBreak(params + ")");
      assert (params + ")")[..|params|] == params;
    } else {
      assert s[1..] == name[1..] + "(" + params + ")" && s[0] == name[0] != '(';
      CapturedFrom(name[1..], params);
    }
  }

  lemma {:induction false} WordTail(before: string, w: string)
    requires forall k | 0 <= k < |w| :: IsWordChar(w[k])
    requires before != "" && !IsWordChar(before[|before| - 1])
    ensures TrailingWord(before + w) == |w|
  {
    if w == "" {
      NothingAdded(before);
    } else {
      assert (before + w)[..|before + w| - 1] == before + w[..|w| - 1];
      WordTail(before, w[..|w| - 1]);
    }
  }

  /** A described parameter: its last word is the name, what is before it the type. */
  lemma DescribedParts(t: string, n: string)
    requires IsWord(t) && IsWord(n)
    ensures var p := Declared(t, n);
      && Trimmed(p) == p && WithoutLastWord(p) == t && Split(p, ' ') == [t, n]
      && ',' !in p && '\n' !in p && p != ""
  {
    var p := Declared(t, n);
    assert TrailingSpace(p) == 0 && p[..|p|] == p;
    WordTail(t + " ", n);
    assert p[..|p| - |n|] == t + " ";
    assert (t + " ")[..|t|] == t;
    assert TrailingSpace(t) == 0;
    SplitPart(t, n, ' ');
    SplitWhole(n, ' ');
  }

  lemma {:induction false} AllNonEmpty(parts: seq<string>)
    requires forall k | 0 <= k < |parts| :: parts[k] != ""
    ensures NonEmpty(parts) == parts
  {
    if parts != [] {
      AllNonEmpty(parts[1..]);
      HeadAndTail(parts);
    }
  }

  lemma {:induction false} JoinedIsTrim(parts: seq<string>)
    requires parts != [] && forall k | 0 <= k < |parts| :: Clean(parts[k])
    ensures var j := Join(parts, ',');
      && j != "" && '\n' !in j && !IsSpace(j[0]) && !IsSpace(j[|j| - 1])
      && Trimmed(j) == j
  {
    if |parts| > 1 { JoinedIsTrim(parts[1..]); }
    var j := Join(parts, ',');
    assert j[..|j|] == j;
  }

  lemma {:induction false} SecondWordsOf(m: Parameters, names: seq<string>)
    requires Wordy(m) && forall n | n in names :: n in m
    ensures SecondWords(Described(m, names)) == names
  {
    if names != [] {
      assert names[0] in names;
      DescribedParts(m[names[0]], names[0]);
      assert Described(m, names)[1..] == Described(m, names[1..]);
      SecondWordsOf(m, names[1..]);
      HeadAndTail(names);
    }
  }

  /** The types of the parameters, in the order of their names. */
  function Types(m: Parameters, names: seq<string>): (types: seq<string>)
    requires forall n | n in names :: n in m
    ensures |types| == |names| && forall k | 0 <= k < |names| :: types[k] == m[names[k]]
  { seq(|names|, k requires 0 <= k < |names| => m[names[k]]) }

  /** A part that trimming and splitting leave alone. */
  ghost predicate Clean(p: string) {
    p != "" && '\n' !in p && ',' !in p && !IsSpace(p[0]) && !IsSpace(p[|p| - 1])
  }

  lemma CleanParts(m: Parameters, names: seq<string>, k: nat)
    requires Wordy(m) && (forall n | n in names :: n in m) && k < |names|
    ensures Clean(Described(m, names)[k])
  {
    assert names[k] in names;
    DescribedParts(m[names[k]], names[k]);
  }

  lemma PartsRecovered(name: string, parts: seq<string>)
    requires '(' !in name && forall k | 0 <= k < |parts| :: Clean(parts[k])
    ensures ParamParts(name + "(" + Join(parts, ',') + ")") == parts
  {
    if parts == [] {
      CapturedFrom(name, "");
      assert Split("", ',') == [""];
      assert NonEmpty([""]) == [];
    } else {
      JoinedIsTrim(parts);
      CapturedFrom(name, Join(parts, ','));
      SplitOfJoin(parts, ',');
      AllNonEmpty(parts);
    }
  }

  lemma ParamPartsOf(name: string, m: Parameters)
    requires '(' !in name && Wordy(m)
    ensures ParamParts(Print(name, m)) == Described(m, Keys(m.Keys))
  {
    var names := Keys(m.Keys);
    forall k | 0 <= k < |names| ensures Clean(Described(m, names)[k]) { CleanParts(m, names, k); }
    PartsRecovered(name, Described(m, names));
  }

  lemma TypeRecovered(m: Parameters, names: seq<string>, k: nat)
    requires Wordy(m) && (forall n | n in names :: n in m) && k < |names|
    ensures var t := TypesOf(Described(m, names))[k];
      t == m[names[k]] && t != "" && ',' !in t
  {
    assert names[k] in names;
    DescribedParts(m[names[k]], names[k]);
  }

  /** Joining the types with commas and splitting them again, as the list of types does. */
  lemma TypesSplitAgain(types: seq<string>)
    requires forall k | 0 <= k < |types| :: types[k] != "" && ',' !in types[k]
    ensures NonEmpty(Split(Join(types, ','), ',')) == types
  {
    if types == [] {
      assert Split("", ',') == [""];
      assert NonEmpty([""]) == [];
    } else {
      SplitOfJoin(types, ',');
      AllNonEmpty(types);
    }
  }

  lemma TypesRecovered(m: Parameters, names: seq<string>)
    requires Wordy(m) && forall n | n in names :: n in m
    ensures NonEmpty(Split(Join(TypesOf(Described(m, names)), ','), ',')) == Types(m, names)
  {
    var types := TypesOf(Described(m, names));
    forall k | 0 <= k < |names| ensures types[k] == m[names[k]] && types[k] != "" && ',' !in types[k] {
      TypeRecovered(m, names, k);
    }
    assert types == Types(m, names);
    TypesSplitAgain(types);
  }

  /**
   From a printed signature the parser recovers the name, the parameter names and the types, in the ascending
   order of the names.
   */
  lemma SignatureRoundTrip(name: string, m: Parameters)
    requires '(' !in name && Wordy(m)
    ensures var s, names := Print(name, m), Keys(m.Keys);
      && RpcName(s) == name
      && SecondWords(ParamParts(s)) == names
      && NonEmpty(Split(Join(TypesOf(ParamParts(s)), ','), ',')) == Types(m, names)
      && forall i, j | 0 <= i < j < |names| :: Le(names[i], names[j])
  {
    var names := Keys(m.Keys);
    KeysAscend(m.Keys);
    NameRecovered(name, Join(Described(m, names), ','));
    ParamPartsOf(name, m);
    SecondWordsOf(m, names);
    TypesRecovered(m, names);
  }

  lemma NameRecovered(name: string, params: string)
    requires '(' !in name
    ensures RpcName(name + "(" + params + ")") == name
  {
    Regroup(name + "(", params, ")");
    SplitPart(name, params + ")", '(');
  }
}
