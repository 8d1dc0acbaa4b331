/** The text of a holder file (read_lock and write_lock in crates/wanax-core/src/lock.rs). */
module LockFile {
  import opened Types
  import opened Text

  datatype LockInfo = LockInfo(runId: string, pid: U32, startedAt: string, exclusive: bool, paths: seq<string>)

  /** One line of the file. */
  datatype Field = Field(key: string, value: string)
  {
    function Line(): string { key + "=" + value }
  }

  // ---- writing ----

  function BoolText(b: bool): string { if b then "true" else "false" }

  function HeadFields(info: LockInfo): seq<Field> {
    [Field("run_id", info.runId), Field("pid", Digits(info.pid)), Field("started_at", info.startedAt),
     Field("exclusive", BoolText(info.exclusive))]
  }

  function PathFields(paths: seq<string>): (fs: seq<Field>)
    ensures |fs| == |paths| && forall i :: 0 <= i < |fs| ==> fs[i] == Field("path", paths[i])
  {
    if paths == [] then [] else [Field("path", paths[0])] + PathFields(paths[1..])
  }

  function FieldLines(fs: seq<Field>): (ls: seq<string>)
    ensures |ls| == |fs| && forall i :: 0 <= i < |ls| ==> ls[i] == fs[i].Line()
  {
    if fs == [] then [] else [fs[0].Line()] + FieldLines(fs[1..])
  }

  function Written(info: LockInfo): string { Unlines(FieldLines(HeadFields(info) + PathFields(info.paths))) }

  method WriteLock(info: LockInfo) returns (body: string)
    ensures body == Written(info)
  {
    hide HeadFields, Unlines, FieldLines, HeadText;
    var head := HeadFields(info);
    body := HeadText(head);
    for i := 0 to |info.paths|
      invariant body == Unlines(FieldLines(head + PathFields(info.paths)[..i]))
    {
      var fs := PathFields(info.paths);
      body := body + Field("path", info.paths[i]).Line() + "\n";
      OneMoreField(head + fs[..i], fs[i]);
      assert (head + fs[..i]) + [fs[i]] == head + fs[..i + 1];
    }
    assert PathFields(info.paths)[..|info.paths|] == PathFields(info.paths);
  }

  /** Each of a few fields on a line of its own. */
  function HeadText(fs: seq<Field>): (s: string)
    ensures s == Unlines(FieldLines(fs))
    ensures s == Unlines(FieldLines(fs + []))
  {
    assert fs + [] == fs;
    if fs == [] then "" else fs[0].Line() + "\n" + HeadText(fs[1..])
  }

  lemma {:induction false} OneMoreField(fs: seq<Field>, f: Field)
    ensures Unlines(FieldLines(fs + [f])) == Unlines(FieldLines(fs)) + f.Line() + "\n"
  {
    hide Unlines, Field.Line;
    assert FieldLines(fs + [f]) == FieldLines(fs) + [f.Line()];
    UnlinesConcat(FieldLines(fs), [f.Line()]);
    OneLine(f.Line());
  }

  lemma OneLine(l: string)
    ensures Unlines([l]) == l + "\n"
  {}

  // ---- reading ----

  function PidOf(s: string): U32 { if ParseU32(s).Some? then ParseU32(s).value else 0 }

  datatype Reading = Reading(info: LockInfo, sawExclusive: bool)

  const NOTHING_READ := Reading(LockInfo("", 0, "", true, []), false)

  function Applied(r: Reading, f: Field): Reading {
    if f.key == "run_id" then r.(info := r.info.(runId := f.value))
    else if f.key == "pid" then r.(info := r.info.(pid := PidOf(f.value)))
    else if f.key == "started_at" then r.(info := r.info.(startedAt := f.value))
    else if f.key == "exclusive" then r.(info := r.info.(exclusive := f.value == "true"), sawExclusive := true)
    else if f.key == "path" && f.value != "" then r.(info := r.info.(paths := r.info.paths + [f.value]))
    else r
  }

  /** Key and value of a line, both trimmed; none without an equals sign. */
  function FieldOf(line: string): Option<Field> {
    var k := Find(line, '=');
    if k == |line| then None else Some(Field(Trim(line[..k]), Trim(line[k + 1..])))
  }

  function ReadLine(r: Reading, line: string): Reading {
    var f := FieldOf(line);
    if f.None? then r else Applied(r, f.value)
  }

  function ReadLines(lines: seq<string>): Reading {
    if lines == [] then NOTHING_READ else ReadLine(ReadLines(lines[..|lines| - 1]), lines[|lines| - 1])
  }

  function Read(body: string): Result<LockInfo, ErrorCode> {
    var r := ReadLines(Lines(body));
    if r.info.runId == "" then Err(EDb)
    else Ok(r.info.(exclusive := r.info.exclusive && (r.sawExclusive || r.info.paths == [])))
  }

  method ReadLock(body: string) returns (r: Result<LockInfo, ErrorCode>)
    ensures r == Read(body)
  {
    hide Lines, FieldOf;
    var runId, pid: U32, startedAt, exclusive := "", 0, "", true;
    var paths: seq<string> := [];
    var sawExclusive := false;
    var lines := Lines(body);
    for i := 0 to |lines|
      invariant ReadLines(lines[..i]) == Reading(LockInfo(runId, pid, startedAt, exclusive, paths), sawExclusive)
    {
      ghost var before := Reading(LockInfo(runId, pid, startedAt, exclusive, paths), sawExclusive);
      NextLine(lines, i);
      var line := FieldOf(lines[i]);
      if line.Some? {
        var f := line.value;
        if f.key == "run_id" {
          runId := f.value;
        } else if f.key == "pid" {
          pid := PidOf(f.value);
        } else if f.key == "started_at" {
          startedAt := f.value;
        } else if f.key == "exclusive" {
          sawExclusive := true;
          exclusive := f.value == "true";
        } else if f.key == "path" {
          if f.value != "" { paths := paths + [f.value]; }
        }
        assert Applied(before, f) == Reading(LockInfo(runId, pid, startedAt, exclusive, paths), sawExclusive);
      }
    }
    assert lines[..|lines|] == lines;
    if runId == "" { return Err(EDb); }
    if !sawExclusive && paths != [] { exclusive := false; }
    r := Ok(LockInfo(runId, pid, startedAt, exclusive, paths));
  }

  lemma NextLine(lines: seq<string>, i: nat)
    requires i < |lines|
    ensures ReadLines(lines[..i + 1]) == ReadLine(ReadLines(lines[..i]), lines[i])
  {
    hide ReadLine;
    assert lines[..i + 1][..i] == lines[..i];
  }

  // ---- the round trip ----

  /** A value that survives being written on a line and trimmed. */
  predicate Clean(s: string) { Trimmed(s) && '\n' !in s }

  predicate Sound(info: LockInfo) {
    && info.runId != "" && Clean(info.runId) && Clean(info.startedAt)
    && forall p :: p in info.paths ==> p != "" && Clean(p)
  }

  predicate CleanField(f: Field) {
    '=' !in f.key && '\n' !in f.key && Trimmed(f.key) && Clean(f.value)
  }

  lemma LineSplits(f: Field)
    requires '=' !in f.key
    ensures var line := f.Line(); Find(line, '=') == |f.key| && line[..|f.key|] == f.key
                                  && line[|f.key| + 1..] == f.value
  {
    var line := f.Line();
    assert forall i :: 0 <= i < |f.key| ==> line[i] == f.key[i] && f.key[i] in f.key;
    FindAt(line, '=', |f.key|);
  }

  lemma LineIsPlain(f: Field)
    requires '\n' !in f.key && Clean(f.value)
    ensures PlainLine(f.Line())
  {
    hide IsSpace;
    var line, n := f.Line(), |f.key|;
    assert forall i :: 0 <= i < |line|
                       ==> line[i] == (if i < n then f.key[i] else if i == n then '=' else f.value[i - n - 1]);
    if f.value != "" {
      assert line[|line| - 1] == f.value[|f.value| - 1];
      CrIsSpace();
    }
  }

  lemma CrIsSpace()
    ensures IsSpace('\r')
  {}

  lemma CleanLine(f: Field)
    requires CleanField(f)
    ensures FieldOf(f.Line()) == Some(f) && PlainLine(f.Line())
  {
    hide Find, Trim, IsSpace, Field.Line, PlainLine;
    LineSplits(f);
    LineIsPlain(f);
    LineLonger(f);
    TrimOfTrimmed(f.key);
    TrimOfTrimmed(f.value);
  }

  lemma LineLonger(f: Field)
    ensures |f.Line()| > |f.key|
  {}

  function ReadFields(fs: seq<Field>): Reading {
    if fs == [] then NOTHING_READ else Applied(ReadFields(fs[..|fs| - 1]), fs[|fs| - 1])
  }

  lemma {:induction false} LinesReadAsFields(fs: seq<Field>)
    requires forall f :: f in fs ==> CleanField(f)
    ensures ReadLines(FieldLines(fs)) == ReadFields(fs)
  {
    hide Applied, FieldOf, Field.Line, CleanField;
    if fs != [] {
      var init, last := fs[..|fs| - 1], fs[|fs| - 1];
      assert last in fs;
      LinesReadAsFields(init);
      CleanLine(last);
      var ls := FieldLines(fs);
      assert ls[..|ls| - 1] == FieldLines(init);
    }
  }

  lemma BoolTextClean(b: bool)
    ensures Clean(BoolText(b)) && (BoolText(b) == "true" <==> b)
  {
    assert "false"[0] == 'f' && "true"[0] == 't';
  }

  lemma {:induction false} PidComesBack(pid: U32)
    ensures PidOf(Digits(pid)) == pid && Clean(Digits(pid))
  {
    ParseOfDigits(pid);
  }

  lemma KeysDiffer()
    ensures "run_id"[0] == 'r' && "pid"[1] == 'i' && "started_at"[0] == 's' && "exclusive"[0] == 'e' && "path"[1] == 'a'
    ensures "pid"[0] == 'p' && "path"[0] == 'p'
  {}

  lemma HeadReads(info: LockInfo)
    ensures ReadFields(HeadFields(info)) == Reading(info.(paths := []), true)
  {
    hide PidOf, Digits, ReadFields;
    PidComesBack(info.pid);
    BoolTextClean(info.exclusive);
    KeysDiffer();
    var f := HeadFields(info);
    NoFields();
    OneFieldMore([], f[0]);
    OneFieldMore([f[0]], f[1]);
    OneFieldMore([f[0], f[1]], f[2]);
    OneFieldMore([f[0], f[1], f[2]], f[3]);
    assert [] + [f[0]] == [f[0]] && [f[0]] + [f[1]] == [f[0], f[1]] && [f[0], f[1]] + [f[2]] == [f[0], f[1], f[2]];
    assert [f[0], f[1], f[2]] + [f[3]] == f;
  }

  lemma NoFields()
    ensures ReadFields([]) == NOTHING_READ
  {}

  lemma {:induction false} OneFieldMore(fs: seq<Field>, f: Field)
    ensures ReadFields(fs + [f]) == Applied(ReadFields(fs), f)
  {
    assert (fs + [f])[..|fs|] == fs;
  }

  lemma PathApplied(r: Reading, p: string)
    requires p != ""
    ensures Applied(r, Field("path", p)) == r.(info := r.info.(paths := r.info.paths + [p]))
  {
    KeysDiffer();
  }

  lemma {:induction false} PathsRead(info: LockInfo, n: nat)
    requires n <= |info.paths| && forall p :: p in info.paths ==> p != ""
    ensures ReadFields(HeadFields(info) + PathFields(info.paths)[..n]) == Reading(info.(paths := info.paths[..n]), true)
    decreases n
  {
    hide HeadFields, ReadFields, Applied;
    var head, fs := HeadFields(info), PathFields(info.paths);
    if n == 0 {
      HeadReads(info);
      assert head + fs[..0] == head;
    } else {
      PathsRead(info, n - 1);
      assert info.paths[n - 1] in info.paths;
      PathApplied(Reading(info.(paths := info.paths[..n - 1]), true), info.paths[n - 1]);
      OneFieldMore(head + fs[..n - 1], fs[n - 1]);
      assert (head + fs[..n - 1]) + [fs[n - 1]] == head + fs[..n];
      assert info.paths[..n] == info.paths[..n - 1] + [info.paths[n - 1]];
    }
  }

  lemma HeadClean(info: LockInfo)
    requires Sound(info)
    ensures forall f :: f in HeadFields(info) ==> CleanField(f)
    ensures forall p :: p in info.paths ==> CleanField(Field("path", p))
  {
    hide Digits, IsSpace;
    PidComesBack(info.pid);
    BoolTextClean(info.exclusive);
    KeysClean();
  }

  lemma KeysClean()
    ensures forall key :: key in ["run_id", "pid", "started_at", "exclusive", "path"] ==>
                            '=' !in key && '\n' !in key && Trimmed(key)
    ensures "path" in ["run_id", "pid", "started_at", "exclusive", "path"]
  {}

  lemma AllClean(info: LockInfo)
    requires Sound(info)
    ensures forall f :: f in HeadFields(info) + PathFields(info.paths) ==> CleanField(f)
  {
    hide CleanField, HeadFields, Sound;
    HeadClean(info);
    forall f | f in PathFields(info.paths) ensures CleanField(f) {
      var i :| 0 <= i < |info.paths| && PathFields(info.paths)[i] == f;
      assert info.paths[i] in info.paths;
    }
  }

  lemma {:induction false} CleanLinesArePlain(fs: seq<Field>)
    requires forall f :: f in fs ==> CleanField(f)
    ensures forall l :: l in FieldLines(fs) ==> PlainLine(l)
  {
    hide CleanField, PlainLine, Field.Line, FieldOf;
    forall l | l in FieldLines(fs) ensures PlainLine(l) {
      var i :| 0 <= i < |fs| && FieldLines(fs)[i] == l;
      assert fs[i] in fs;
      CleanLine(fs[i]);
    }
  }

  lemma SoundReadsBack(info: LockInfo)
    requires Sound(info)
    ensures Read(Written(info)) == Ok(info)
  {
    hide HeadFields, FieldLines, ReadLines, ReadFields, Lines, Unlines, PlainLine, CleanField, Clean;
    var fs := HeadFields(info) + PathFields(info.paths);
    AllClean(info);
    CleanLinesArePlain(fs);
    LinesOfUnlines(FieldLines(fs));
    LinesReadAsFields(fs);
    PathsRead(info, |info.paths|);
    assert PathFields(info.paths)[..|info.paths|] == PathFields(info.paths);
    assert info.paths[..|info.paths|] == info.paths;
  }

  /** Whatever is read is clean, so nothing else can come back. */
  predicate CleanReading(r: Reading) {
    Clean(r.info.runId) && Clean(r.info.startedAt) && forall p :: p in r.info.paths ==> p != "" && Clean(p)
  }

  lemma LineReadsClean(r: Reading, line: string)
    requires CleanReading(r) && '\n' !in line
    ensures CleanReading(ReadLine(r, line))
  {
    hide Trim, Trimmed, PidOf;
    var k := Find(line, '=');
    if k < |line| {
      var rest := line[k + 1..];
      TrimTrims(rest);
      assert forall i :: 0 <= i < |rest| ==> rest[i] in line;
    }
  }

  lemma {:induction false} LinesReadClean(lines: seq<string>)
    requires forall l :: l in lines ==> '\n' !in l
    ensures CleanReading(ReadLines(lines))
  {
    hide ReadLine, CleanReading;
    if lines == [] {
      NothingIsClean();
    } else {
      assert lines[|lines| - 1] in lines;
      assert forall l :: l in lines[..|lines| - 1] ==> l in lines;
      LinesReadClean(lines[..|lines| - 1]);
      LineReadsClean(ReadLines(lines[..|lines| - 1]), lines[|lines| - 1]);
    }
  }

  lemma NothingIsClean()
    ensures CleanReading(NOTHING_READ)
  {}

  /** A holder file gives back what was written exactly for a non-empty run id and
      values that are trimmed, on one line and, for paths, non-empty. */
  lemma LockFileRoundTrip(info: LockInfo)
    ensures Read(Written(info)) == Ok(info) <==> Sound(info)
  {
    hide ReadLines, Written, Lines, Clean;
    if Sound(info) {
      SoundReadsBack(info);
    } else {
      LinesArePlain(Written(info));
      LinesReadClean(Lines(Written(info)));
    }
  }

  // ---- older files ----

  predicate SaysExclusive(line: string) { FieldOf(line).Some? && FieldOf(line).value.key == "exclusive" }

  lemma {:induction false} UnsaidIsExclusive(lines: seq<string>)
    requires forall i :: 0 <= i < |lines| ==> !SaysExclusive(lines[i])
    ensures ReadLines(lines).info.exclusive && !ReadLines(lines).sawExclusive
  {
    hide FieldOf;
    if lines != [] { UnsaidIsExclusive(lines[..|lines| - 1]); }
  }

  /** A file without an exclusive line holds the whole repository exactly if it names no
      path. */
  lemma {:induction false} OldFileIsRead(body: string)
    requires forall i :: 0 <= i < |Lines(body)| ==> !SaysExclusive(Lines(body)[i])
    ensures Read(body).Ok? ==> (Read(body).value.exclusive <==> Read(body).value.paths == [])
  {
    hide Lines, ReadLines;
    UnsaidIsExclusive(Lines(body));
  }
}
