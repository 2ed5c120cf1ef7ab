/** The display manager's configuration file, of which one line says which X session is started. */
module LxdmConfig {
  import opened Options
  import opened Sequences
  import opened Texts

  const LEAD := "last_session="

  datatype Session = Session(name: string, file: string)

  /** The file system as far as it matters: the configuration if it can be read, the existing files, write access. */
  datatype Disk = Disk(config: Option<string>, files: set<string>, writable: bool)

  /** The sessions offered: those whose file exists. */
  function Existing(all: seq<Session>, files: set<string>): seq<Session> {
    if all == [] then [] else (if all[0].file in files then [all[0]] else []) + Existing(all[1..], files)
  }

  /** Offered are the sessions whose files exist, in their order. */
  lemma {:induction false} ExistingAreOffered(all: seq<Session>, files: set<string>)
    ensures forall x :: x in Existing(all, files) <==> x in all && x.file in files
    ensures (forall x | x in all :: x.file in files) ==> Existing(all, files) == all
  {
    if all != [] {
      ExistingAreOffered(all[1..], files);
      HeadAndTail(all);
      assert forall x :: x in all <==> x == all[0] || x in all[1..];
    }
  }

  predicate IsSessionLine(line: string) { LEAD <= line }

  function Lines(content: string): seq<string> { Split(Without(content, '\r'), '\n') }

  function ReadLines(disk: Disk): seq<string> { if disk.config.Some? then Lines(disk.config.value) else [] }

  /** Every line with a line feed after it. */
  function Content(lines: seq<string>): string {
    if lines == [] then "" else lines[0] + "\n" + Content(lines[1..])
  }

  function NameOf(sessions: seq<Session>, file: string): string {
    if sessions == [] then "" else if sessions[0].file == file then sessions[0].name else NameOf(sessions[1..], file)
  }

  /** The first session line that has one equals sign decides. */
  function Configured(sessions: seq<Session>, lines: seq<string>): string {
    if lines == [] then ""
    else if IsSessionLine(lines[0]) && |Split(lines[0], '=')| == 2 then NameOf(sessions, Split(lines[0], '=')[1])
    else Configured(sessions, lines[1..])
  }

  /** The first session line is replaced, further ones and empty lines are dropped, the line is added if there was none. */
  function Rewritten(lines: seq<string>, line: string, found: bool): seq<string> {
    if lines == [] then (if found then [] else [line])
    else if IsSessionLine(lines[0]) then (if found then [] else [line]) + Rewritten(lines[1..], line, true)
    else (if lines[0] == "" then [] else [lines[0]]) + Rewritten(lines[1..], line, found)
  }

  function FileOf(sessions: seq<Session>, name: string): Option<string> {
    if sessions == [] then None
    else if sessions[0].name == name then Some(sessions[0].file)
    else FileOf(sessions[1..], name)
  }

  /** setCurrentXSession: success, and the disk after it. */
  function Set(sessions: seq<Session>, disk: Disk, name: string): (bool, Disk) {
    match FileOf(sessions, name)
    case None => (false, disk)
    case Some(file) =>
      if file !in disk.files || !disk.writable then (false, disk)
      else (true, disk.(config := Some(Content(Rewritten(ReadLines(disk), LEAD + file, false)))))
  }

  /** The i-th session is the first of its name. */
  predicate IsFirstNamed(sessions: seq<Session>, i: nat, name: string) {
    i < |sessions| && sessions[i].name == name && forall j | 0 <= j < i :: sessions[j].name != name
  }

  lemma {:induction false} FileIsOfFirst(sessions: seq<Session>, i: nat, name: string)
    requires IsFirstNamed(sessions, i, name)
    ensures FileOf(sessions, name) == Some(sessions[i].file)
  {
    if i > 0 { FileIsOfFirst(sessions[1..], i - 1, name); }
  }

  lemma {:induction false} NoneNamedHasNoFile(sessions: seq<Session>, name: string)
    requires forall x | x in sessions :: x.name != name
    ensures FileOf(sessions, name) == None
  {
    if sessions != [] { NoneNamedHasNoFile(sessions[1..], name); }
  }

  /**
   A set succeeds if and only if there is a session of that name, the file of the first one exists, and the
   configuration can be written; otherwise nothing changes, and never anything but the configuration.
   */
  lemma SetSucceedsIff(sessions: seq<Session>, disk: Disk, name: string)
    ensures var (done, after) := Set(sessions, disk, name);
      && (done <==> disk.writable && exists i: nat :: IsFirstNamed(sessions, i, name) && sessions[i].file in disk.files)
      && (!done ==> after == disk)
      && after.files == disk.files && after.writable == disk.writable
      && (forall i: nat | done && IsFirstNamed(sessions, i, name) :: FileOf(sessions, name) == Some(sessions[i].file))
  {
    if x :| x in sessions && x.name == name {
      var k := FirstNamed(sessions, name);
      FileIsOfFirst(sessions, k, name);
      forall i: nat | IsFirstNamed(sessions, i, name) ensures i == k { }
    } else {
      NoneNamedHasNoFile(sessions, name);
      forall i: nat | i < |sessions| ensures sessions[i].name != name { assert sessions[i] in sessions; }
    }
  }

  lemma {:induction false} FirstNamed(sessions: seq<Session>, name: string) returns (k: nat)
    requires exists x :: x in sessions && x.name == name
    ensures IsFirstNamed(sessions, k, name)
  {
    if sessions[0].name == name {
      k := 0;
    } else {
      var x :| x in sessions && x.name == name;
      assert x in sessions[1..];
      k := FirstNamed(sessions[1..], name);
      k := k + 1;
    }
  }

  function Get(sessions: seq<Session>, disk: Disk): string { Configured(sessions, ReadLines(disk)) }

  class LxdmConfigFile {
    const sessions: seq<Session>
    var disk: Disk

    /** Without a configuration file there are no sessions to choose from. */
    constructor (configFile: string, all: seq<Session>, disk: Disk)
      ensures this.sessions == (if configFile in disk.files then Existing(all, disk.files) else []) && this.disk == disk
    {
      var available := [];
      if configFile in disk.files {
        NothingAdded(Existing(all, disk.files));
        var i := 0;
        while i < |all|
          invariant 0 <= i <= |all| && available + Existing(all[i..], disk.files) == Existing(all, disk.files)
        {
          assert all[i..][1..] == all[i + 1..];
          Regroup(available, [all[i]], Existing(all[i + 1..], disk.files));
          NothingAdded(Existing(all[i + 1..], disk.files));
          if all[i].file in disk.files { available := available + [all[i]]; }
          i := i + 1;
        }
        NothingAdded(available);
      }
      this.sessions := available;
      this.disk := disk;
    }

    method SessionNameFromFile(file: string) returns (name: string)
      ensures name == NameOf(sessions, file)
    {
      var i := 0;
      while i < |sessions|
        invariant 0 <= i <= |sessions| && NameOf(sessions[i..], file) == NameOf(sessions, file)
      {
        if sessions[i].file == file { return sessions[i].name; }
        assert sessions[i..][1..] == sessions[i + 1..];
        i := i + 1;
      }
      return "";
    }

    method GetConfiguredXSessionName() returns (name: string)
      ensures name == Get(sessions, disk)
    {
      var lines := ReadLines(disk);
      var i := 0;
      while i < |lines|
        invariant 0 <= i <= |lines| && Configured(sessions, lines[i..]) == Configured(sessions, lines)
      {
        if IsSessionLine(lines[i]) {
          var labelValue := Split(lines[i], '=');
          if |labelValue| == 2 {
            name := SessionNameFromFile(labelValue[1]);
            return;
          }
        }
        assert lines[i..][1..] == lines[i + 1..];
        i := i + 1;
      }
      return "";
    }

    method LinesToWrite(lines: seq<string>, line: string) returns (out: seq<string>)
      ensures out == Rewritten(lines, line, false)
    {
      var found := false;
      out := [];
      NothingAdded(Rewritten(lines, line, false));
      var i := 0;
      while i < |lines|
        invariant 0 <= i <= |lines|
        invariant out + Rewritten(lines[i..], line, found) == Rewritten(lines, line, false)
      {
        ghost var rest := Rewritten(lines[i + 1..], line, true);
        assert lines[i..][1..] == lines[i + 1..];
        if IsSessionLine(lines[i]) {
          if !found {
            Regroup(out, [line], rest);
            out := out + [line];
            found := true;
          } else {
            NothingAdded(rest);
          }
        } else if lines[i] != "" {
          Regroup(out, [lines[i]], Rewritten(lines[i + 1..], line, found));
          out := out + [lines[i]];
        } else {
          NothingAdded(Rewritten(lines[i + 1..], line, found));
        }
        i := i + 1;
      }
      NothingAdded(out);
      if !found { out := out + [line]; }
    }

    method WriteConfig(file: string) returns (done: bool)
      modifies this`disk
      ensures done == (file in old(disk).files && old(disk).writable)
      ensures disk ==
        if done then old(disk).(config := Some(Content(Rewritten(ReadLines(old(disk)), LEAD + file, false)))) else old(disk)
    {
      if file !in disk.files { return false; }
      var lines := LinesToWrite(ReadLines(disk), LEAD + file);
      if !disk.writable { return false; }
      var content := "";
      NothingAdded(Content(lines));
      var i := 0;
      while i < |lines|
        invariant 0 <= i <= |lines| && content + Content(lines[i..]) == Content(lines) && disk == old(disk)
      {
        assert lines[i..][1..] == lines[i + 1..];
        Regroup(content, lines[i] + "\n", Content(lines[i + 1..]));
        content := content + (lines[i] + "\n");
        i := i + 1;
      }
      NothingAdded(content);
      disk := disk.(config := Some(content));
      return true;
    }

    method SetCurrentXSession(name: string) returns (done: bool)
      modifies this`disk
      ensures (done, disk) == Set(sessions, old(disk), name)
    {
      var i := 0;
      while i < |sessions|
        invariant 0 <= i <= |sessions| && FileOf(sessions[i..], name) == FileOf(sessions, name) && disk == old(disk)
      {
        if sessions[i].name == name {
          done := WriteConfig(sessions[i].file);
          return;
        }
        assert sessions[i..][1..] == sessions[i + 1..];
        i := i + 1;
      }
      return false;
    }
  }

  // ---------------------------------------------------------------------------------------------
  // Reading back
  // ---------------------------------------------------------------------------------------------

  /** Lines that survive being written and read. */
  ghost predicate Plain(lines: seq<string>) {
    forall k | 0 <= k < |lines| :: '\n' !in lines[k] && '\r' !in lines[k]
  }

  lemma LinesArePlain(content: string)
    ensures Plain(Lines(content))
  {
    PartsOf(Without(content, '\r'), '\n', '\r');
  }

  lemma {:induction false} RewrittenIsPlain(lines: seq<string>, line: string, found: bool)
    requires Plain(lines) && '\n' !in line && '\r' !in line
    ensures Plain(Rewritten(lines, line, found))
  {
    if lines != [] {
      assert Plain(lines[1..]);
      RewrittenIsPlain(lines[1..], line, true);
      RewrittenIsPlain(lines[1..], line, found);
    }
  }

  lemma {:induction false} ContentHasNoReturn(lines: seq<string>)
    requires Plain(lines)
    ensures '\r' !in Content(lines)
  {
    if lines != [] {
      assert Plain(lines[1..]);
      ContentHasNoReturn(lines[1..]);
    }
  }

  lemma {:induction false} SplitContent(lines: seq<string>)
    requires Plain(lines)
    ensures Split(Content(lines), '\n') == lines + [""]
  {
    if lines != [] {
      assert Plain(lines[1..]);
      SplitContent(lines[1..]);
      SplitPart(lines[0], Content(lines[1..]), '\n');
      HeadAndTail(lines);
      Regroup([lines[0]], lines[1..], [""]);
    }
  }

  /** What is written is read back, with one empty line after the last line feed. */
  lemma ReadBack(lines: seq<string>)
    requires Plain(lines)
    ensures Lines(Content(lines)) == lines + [""]
  {
    ContentHasNoReturn(lines);
    NothingToRemove(Content(lines), '\r');
    SplitContent(lines);
  }

  lemma AfterSet(sessions: seq<Session>, disk: Disk, name: string, file: string)
    requires Set(sessions, disk, name).0 && FileOf(sessions, name) == Some(file) && '\n' !in file && '\r' !in file
    ensures ReadLines(Set(sessions, disk, name).1) == Rewritten(ReadLines(disk), LEAD + file, false) + [""]
    ensures Plain(Rewritten(ReadLines(disk), LEAD + file, false))
  {
    if disk.config.Some? { LinesArePlain(disk.config.value); }
    RewrittenIsPlain(ReadLines(disk), LEAD + file, false);
    ReadBack(Rewritten(ReadLines(disk), LEAD + file, false));
  }

  // ---------------------------------------------------------------------------------------------
  // What a rewrite keeps
  // ---------------------------------------------------------------------------------------------

  function SessionLines(lines: seq<string>): seq<string> {
    if lines == [] then [] else (if IsSessionLine(lines[0]) then [lines[0]] else []) + SessionLines(lines[1..])
  }

  function OtherLines(lines: seq<string>): seq<string> {
    if lines == [] then []
    else (if IsSessionLine(lines[0]) || lines[0] == "" then [] else [lines[0]]) + OtherLines(lines[1..])
  }

  /** After a rewrite the new line is the only session line, and all other non-empty lines are there in their order. */
  lemma {:induction false} OneSessionLine(lines: seq<string>, line: string, found: bool)
    requires IsSessionLine(line)
    ensures var r := Rewritten(lines, line, found);
      && SessionLines(r) == (if found then [] else [line]) && OtherLines(r) == OtherLines(lines)
      && (forall k | 0 <= k < |r| :: r[k] != "")
  {
    if lines != [] {
      OneSessionLine(lines[1..], line, true);
      OneSessionLine(lines[1..], line, found);
      var r, rest := Rewritten(lines, line, found), Rewritten(lines[1..], line, found || IsSessionLine(lines[0]));
      assert r == rest || r[1..] == rest;
    }
  }

  /** The first session line keeps its place: what was before it stays before it. */
  lemma {:induction false} LineKeepsItsPlace(before: seq<string>, old': string, after: seq<string>, line: string)
    requires IsSessionLine(old') && SessionLines(before) == []
    ensures Rewritten(before + [old'] + after, line, false) == OtherLines(before) + [line] + Rewritten(after, line, true)
  {
    var all := before + [old'] + after;
    if before == [] {
      assert all == [old'] + after && all[1..] == after;
    } else {
      assert all[1..] == before[1..] + [old'] + after && all[0] == before[0];
      LineKeepsItsPlace(before[1..], old', after, line);
      var first := if before[0] == "" then [] else [before[0]];
      Regroup(first, OtherLines(before[1..]), [line]);
      Regroup(first, OtherLines(before[1..]) + [line], Rewritten(after, line, true));
    }
  }

  lemma {:induction false} RewriteTwice(lines: seq<string>, a: string, b: string, found: bool)
    requires IsSessionLine(a) && IsSessionLine(b)
    ensures Rewritten(Rewritten(lines, a, found) + [""], b, found) == Rewritten(lines, b, found)
  {
    if lines == [] {
      if found {
        assert Rewritten([""], b, true) == [];
      } else {
        assert ([a] + [""])[1..] == [""];
        assert Rewritten([""], b, true) == [];
      }
    } else {
      var now := found || IsSessionLine(lines[0]);
      var first := if IsSessionLine(lines[0]) then (if found then [] else [a]) else if lines[0] == "" then [] else [lines[0]];
      RewriteTwice(lines[1..], a, b, now);
      Regroup(first, Rewritten(lines[1..], a, now), [""]);
      NothingAdded(Rewritten(lines[1..], a, now) + [""]);
      if first != [] { SumHead(first, Rewritten(lines[1..], a, now) + [""]); }
    }
  }

  /** Setting a and then b leaves the same file as setting b. */
  lemma SetTwice(sessions: seq<Session>, disk: Disk, a: string, b: string, fileA: string)
    requires Set(sessions, disk, a).0 && Set(sessions, disk, b).0
    requires FileOf(sessions, a) == Some(fileA) && '\n' !in fileA && '\r' !in fileA
    ensures Set(sessions, Set(sessions, disk, a).1, b) == Set(sessions, disk, b)
  {
    AfterSet(sessions, disk, a, fileA);
    RewriteTwice(ReadLines(disk), LEAD + fileA, LEAD + FileOf(sessions, b).value, false);
  }

  lemma SplitSessionLine(file: string)
    ensures |Split(LEAD + file, '=')| == 2 <==> '=' !in file
    ensures '=' !in file ==> Split(LEAD + file, '=')[1] == file
  {
    var key := "last_session";
    assert LEAD + file == key + ['='] + file;
    SplitPart(key, file, '=');
    if '=' !in file { SplitWhole(file, '='); } else { SplitsMore(file, '='); }
  }

  lemma {:induction false} SplitsMore(s: string, sep: char)
    requires sep in s
    ensures |Split(s, sep)| >= 2
  {
    if s[0] != sep { SplitsMore(s[1..], sep); }
  }

  /** With one session line, that line alone decides. */
  lemma {:induction false} ConfiguredByOne(sessions: seq<Session>, lines: seq<string>, file: string)
    requires SessionLines(lines) == [LEAD + file]
    ensures Configured(sessions, lines) == if '=' in file then "" else NameOf(sessions, file)
  {
    if IsSessionLine(lines[0]) {
      assert SessionLines(lines)[0] == lines[0] && SessionLines(lines)[1..] == SessionLines(lines[1..]);
      SplitSessionLine(file);
      NoSessionLine(sessions, lines[1..]);
    } else {
      ConfiguredByOne(sessions, lines[1..], file);
    }
  }

  lemma {:induction false} NoSessionLine(sessions: seq<Session>, lines: seq<string>)
    requires SessionLines(lines) == []
    ensures Configured(sessions, lines) == ""
  {
    if lines != [] { NoSessionLine(sessions, lines[1..]); }
  }

  lemma {:induction false} EmptyLineAtEnd(lines: seq<string>)
    ensures SessionLines(lines + [""]) == SessionLines(lines) && OtherLines(lines + [""]) == OtherLines(lines)
  {
    if lines != [] {
      SumHead(lines, [""]);
      EmptyLineAtEnd(lines[1..]);
    }
  }

  /**
   A successful set, for a session file without line breaks: the file then has exactly one session line and all
   other non-empty lines in order, and get yields the name of the first session with that file, unless the file
   name contains an equals sign, in which case it yields nothing.
   */
  lemma SetThenGet(sessions: seq<Session>, disk: Disk, name: string, file: string)
    requires Set(sessions, disk, name).0 && FileOf(sessions, name) == Some(file) && '\n' !in file && '\r' !in file
    ensures var after := Set(sessions, disk, name).1;
      && SessionLines(ReadLines(after)) == [LEAD + file]
      && OtherLines(ReadLines(after)) == OtherLines(ReadLines(disk))
      && Get(sessions, after) == (if '=' in file then "" else NameOf(sessions, file))
  {
    AfterSet(sessions, disk, name, file);
    OneSessionLine(ReadLines(disk), LEAD + file, false);
    EmptyLineAtEnd(Rewritten(ReadLines(disk), LEAD + file, false));
    ConfiguredByOne(sessions, ReadLines(Set(sessions, disk, name).1), file);
  }

  predicate DistinctFiles(sessions: seq<Session>) {
    forall j, k | 0 <= j < k < |sessions| :: sessions[j].file != sessions[k].file
  }

  lemma {:induction false} NameOfFile(sessions: seq<Session>, name: string)
    requires DistinctFiles(sessions) && FileOf(sessions, name).Some?
    ensures NameOf(sessions, FileOf(sessions, name).value) == name
  {
    if sessions[0].name != name {
      NameOfFile(sessions[1..], name);
      FileIsListed(sessions[1..], name);
    }
  }

  lemma {:induction false} FileIsListed(sessions: seq<Session>, name: string)
    requires FileOf(sessions, name).Some?
    ensures exists k :: 0 <= k < |sessions| && sessions[k].file == FileOf(sessions, name).value
  {
    if sessions[0].name == name {
      assert sessions[0].file == FileOf(sessions, name).value;
    } else {
      FileIsListed(sessions[1..], name);
      var k :| 0 <= k < |sessions| - 1 && sessions[1..][k].file == FileOf(sessions[1..], name).value;
      assert sessions[k + 1].file == FileOf(sessions, name).value;
    }
  }

  /** The round trip: with distinct session files, get returns the name that was set exactly when no equals sign is in the way. */
  lemma SetRoundTrip(sessions: seq<Session>, disk: Disk, name: string, file: string)
    requires Set(sessions, disk, name).0 && FileOf(sessions, name) == Some(file) && '\n' !in file && '\r' !in file
    requires DistinctFiles(sessions) && name != ""
    ensures Get(sessions, Set(sessions, disk, name).1) == name <==> '=' !in file
  {
    SetThenGet(sessions, disk, name, file);
    NameOfFile(sessions, name);
  }
}
