/** Scanning the added lines of a unified diff (scan_diff_added in
    crates/wanax-verify/src/lib.rs). What counts as a secret is a parameter. */
module DiffScan {
  import opened Types
  import opened Text

  datatype Finding = Finding(path: string, line: nat, kind: string)

  /** The label of the first rule that matches a text. */
  type Rules = string -> Option<string>

  // ---- the scanner ----

  datatype Position = Position(path: string, newLine: nat, inHunk: bool, found: seq<Finding>)

  const START := Position("", 0, false, [])

  const FILE_MARK := ['+', '+', '+', ' ']
  const HUNK_MARK := ['@', '@', ' ']
  const NEW_SIDE := ['b', '/']

  function PathOf(rest: string): string {
    var t := Trim(rest);
    if StartsWith(t, NEW_SIDE) then t[2..] else t
  }

  /** Up to the first comma or space. */
  function UpToSeparator(s: string): string {
    if s == "" || s[0] == ',' || s[0] == ' ' then "" else [s[0]] + UpToSeparator(s[1..])
  }

  /** The first line on the new side, from the rest of a hunk header; none without a plus. */
  function HunkStart(h: string): Option<nat> {
    var k := Find(h, '+');
    if k == |h| then None
    else
      var rest := h[k + 1..];
      var n := ParseU32(UpToSeparator(rest[..Find(rest, '+')]));
      Some(if n.Some? then n.value else 0)
  }

  function Added(rules: Rules, s: Position, text: string): Position {
    s.(newLine := s.newLine + 1,
       found := if rules(text).Some? then s.found + [Finding(s.path, s.newLine, rules(text).value)] else s.found)
  }

  function ReadLine(rules: Rules, s: Position, line: string): Position {
    if StartsWith(line, FILE_MARK) then s.(path := PathOf(line[4..]), inHunk := false)
    else if StartsWith(line, HUNK_MARK) then
      s.(newLine := if HunkStart(line[3..]).Some? then HunkStart(line[3..]).value else s.newLine, inHunk := true)
    else if !s.inHunk then s
    else if StartsWith(line, ['+']) then Added(rules, s, line[1..])
    else if StartsWith(line, ['-']) || StartsWith(line, ['\\']) then s
    else s.(newLine := s.newLine + 1)
  }

  function ReadLines(rules: Rules, s: Position, lines: seq<string>): Position
    decreases |lines|
  {
    if lines == [] then s else ReadLines(rules, ReadLine(rules, s, lines[0]), lines[1..])
  }

  method ScanDiffAdded(rules: Rules, diff: string) returns (found: seq<Finding>)
    ensures found == ReadLines(rules, START, Lines(diff)).found
  {
    hide Lines, PathOf, HunkStart;
    found := [];
    var path := "";
    var newLine := 0;
    var inHunk := false;
    var lines := Lines(diff);
    for i := 0 to |lines|
      invariant ReadLines(rules, Position(path, newLine, inHunk, found), lines[i..]) == ReadLines(rules, START, lines)
    {
      var line := lines[i];
      ghost var s := Position(path, newLine, inHunk, found);
      assert lines[i..][0] == line && lines[i..][1..] == lines[i + 1..];
      if StartsWith(line, FILE_MARK) {
        path := PathOf(line[4..]);
        inHunk := false;
      } else if StartsWith(line, HUNK_MARK) {
        var start := HunkStart(line[3..]);
        if start.Some? { newLine := start.value; }
        inHunk := true;
      } else if inHunk {
        if StartsWith(line, ['+']) {
          var kind := rules(line[1..]);
          if kind.Some? { found := found + [Finding(path, newLine, kind.value)]; }
          newLine := newLine + 1;
        } else if StartsWith(line, ['-']) || StartsWith(line, ['\\']) {
        } else {
          newLine := newLine + 1;
        }
      }
      assert Position(path, newLine, inHunk, found) == ReadLine(rules, s, line);
    }
  }

  // ---- diffs ----

  datatype DiffLine =
    | Context(text: string)
    | Add(text: string)
    | Remove(text: string)
    | Note(text: string) // "No newline at end of file"

  /** `tail` is what follows the first new line's number: an optional count, the
      closing mark and a heading. */
  datatype Hunk = Hunk(before: string, start: U32, tail: string, lines: seq<DiffLine>)

  /** `preamble` holds the lines before the new side is named; the new side is a path
      or, for a deletion, /dev/null. */
  datatype FileDiff = FileDiff(preamble: seq<string>, path: Option<string>, hunks: seq<Hunk>)

  const NULL_PATH := "/dev/null"

  function LineText(l: DiffLine): string {
    match l
    case Context(t) => [' '] + t
    case Add(t) => ['+'] + t
    case Remove(t) => ['-'] + t
    case Note(t) => ['\\'] + t
  }

  function LineTexts(ls: seq<DiffLine>): (r: seq<string>)
    ensures |r| == |ls| && forall i :: 0 <= i < |r| ==> r[i] == LineText(ls[i])
  {
    if ls == [] then [] else [LineText(ls[0])] + LineTexts(ls[1..])
  }

  function HunkHeader(h: Hunk): string {
    HUNK_MARK + (['-'] + h.before + [' ', '+'] + Digits(h.start) + h.tail)
  }

  function HunkTexts(hs: seq<Hunk>): seq<string> {
    if hs == [] then [] else [HunkHeader(hs[0])] + LineTexts(hs[0].lines) + HunkTexts(hs[1..])
  }

  function FileHeader(f: FileDiff): string {
    FILE_MARK + if f.path.Some? then NEW_SIDE + f.path.value else NULL_PATH
  }

  function FileTexts(fs: seq<FileDiff>): seq<string> {
    if fs == [] then []
    else fs[0].preamble + [FileHeader(fs[0])] + HunkTexts(fs[0].hunks) + FileTexts(fs[1..])
  }

  function Rendered(fs: seq<FileDiff>): string { Unlines(FileTexts(fs)) }

  // ---- what ought to be found ----

  /** The added lines with a secret among these, the first being line n of the file. */
  function InLines(rules: Rules, path: string, n: nat, ls: seq<DiffLine>): seq<Finding>
    decreases |ls|
  {
    if ls == [] then []
    else match ls[0]
      case Add(t) =>
        (if rules(DropCr(t)).Some? then [Finding(path, n, rules(DropCr(t)).value)] else [])
        + InLines(rules, path, n + 1, ls[1..])
      case Context(_) => InLines(rules, path, n + 1, ls[1..])
      case _ => InLines(rules, path, n, ls[1..])
  }

  function InHunks(rules: Rules, path: string, hs: seq<Hunk>): seq<Finding> {
    if hs == [] then [] else InLines(rules, path, hs[0].start, hs[0].lines) + InHunks(rules, path, hs[1..])
  }

  function NewPath(f: FileDiff): string { if f.path.Some? then f.path.value else NULL_PATH }

  function InFiles(rules: Rules, fs: seq<FileDiff>): seq<Finding> {
    if fs == [] then [] else InHunks(rules, NewPath(fs[0]), fs[0].hunks) + InFiles(rules, fs[1..])
  }

  // ---- well-formed diffs ----

  predicate SafeHunk(h: Hunk) {
    && '+' !in h.before && '\n' !in h.before
    && h.tail != "" && (h.tail[0] == ',' || h.tail[0] == ' ') && PlainLine(h.tail)
    && forall l :: l in h.lines ==> '\n' !in l.text
  }

  predicate SafeFile(f: FileDiff) {
    && (forall p :: p in f.preamble ==> PlainLine(p) && !StartsWith(p, ['+']) && !StartsWith(p, HUNK_MARK))
    && (f.path.Some? ==> f.path.value != "" && Trimmed(f.path.value) && '\n' !in f.path.value)
    && forall h :: h in f.hunks ==> SafeHunk(h)
  }

  predicate SafeDiff(fs: seq<FileDiff>) { forall f :: f in fs ==> SafeFile(f) }

  const TWO_PLUSES := ['+', '+', ' ']

  /** An added line that looks like a file header. */
  predicate Plused(l: DiffLine) { l.Add? && StartsWith(l.text, TWO_PLUSES) }

  /** No added text looks like the rest of a file header. */
  predicate Unplused(fs: seq<FileDiff>) { forall f, h, l :: f in fs && h in f.hunks && l in h.lines ==> !Plused(l) }

  // ---- what the scanner makes of it ----

  /** The path a line that looks like a file header is taken to name. */
  function PlusPath(l: DiffLine): string
    requires Plused(l)
  {
    DropCrStart(l.text);
    PathOf(DropCr(l.text)[3..])
  }

  /** The lines before the first one that looks like a file header. */
  function Until(ls: seq<DiffLine>): seq<DiffLine> {
    if ls == [] || Plused(ls[0]) then [] else [ls[0]] + Until(ls[1..])
  }

  /** The path in force after these lines. */
  function PathAfter(path: string, ls: seq<DiffLine>): string
    decreases |ls|
  {
    if ls == [] then path else PathAfter(if Plused(ls[0]) then PlusPath(ls[0]) else path, ls[1..])
  }

  /** What is found in the hunks of a file, from the path in force before them. */
  function ScannedHunks(rules: Rules, path: string, hs: seq<Hunk>): seq<Finding>
    decreases |hs|
  {
    if hs == [] then []
    else InLines(rules, path, hs[0].start, Until(hs[0].lines))
         + ScannedHunks(rules, PathAfter(path, hs[0].lines), hs[1..])
  }

  function ScannedFiles(rules: Rules, fs: seq<FileDiff>): seq<Finding> {
    if fs == [] then [] else ScannedHunks(rules, NewPath(fs[0]), fs[0].hunks) + ScannedFiles(rules, fs[1..])
  }

  // ---- reading a rendered diff ----

  lemma {:induction false} ReadOn(rules: Rules, s: Position, a: seq<string>, b: seq<string>)
    ensures ReadLines(rules, s, a + b) == ReadLines(rules, ReadLines(rules, s, a), b)
    decreases |a|
  {
    hide ReadLine;
    if a == [] {
      assert a + b == b;
    } else {
      assert (a + b)[0] == a[0] && (a + b)[1..] == a[1..] + b;
      ReadOn(rules, ReadLine(rules, s, a[0]), a[1..], b);
    }
  }

  lemma {:induction false} DropCrsOn(a: seq<string>, b: seq<string>)
    ensures DropCrs(a + b) == DropCrs(a) + DropCrs(b)
  {}

  /** How far a line moves the new side. */
  function Advance(l: DiffLine): nat { if l.Add? || l.Context? then 1 else 0 }

  lemma MarkedLine(c: char, t: string)
    ensures var l := DropCr([c] + t);
            c != '\r' ==> |l| > 0 && l[0] == c && l[1..] == DropCr(t)
  {}

  lemma NotMarked(line: string, c: char, t: string)
    requires line == [c] + t
    ensures StartsWith(line, ['+']) == (c == '+') && StartsWith(line, ['-']) == (c == '-')
            && StartsWith(line, ['\\']) == (c == '\\')
    ensures StartsWith(line, HUNK_MARK) ==> c == '@'
    ensures StartsWith(line, FILE_MARK) <==> c == '+' && StartsWith(t, ['+', '+', ' '])
  {
    if |line| >= 4 && c == '+' {
      assert line[..4] == ['+'] + t[..3];
      assert line[..4][1..] == t[..3];
    }
    if StartsWith(line, HUNK_MARK) { assert line[..3][0] == '@'; }
    if StartsWith(line, FILE_MARK) { assert line[..4][0] == '+'; }
  }

  /** One line of a hunk: one that looks like a file header is read as such; any other
      counts while the scanner is in the hunk. */
  lemma HunkLine(rules: Rules, s: Position, l: DiffLine)
    ensures ReadLine(rules, s, DropCr(LineText(l)))
            == if Plused(l) then s.(path := PlusPath(l), inHunk := false)
               else if !s.inHunk then s
               else s.(newLine := s.newLine + Advance(l), found := s.found + InLines(rules, s.path, s.newLine, [l]))
  {
    hide FILE_MARK, HUNK_MARK, DropCr, StartsWith, PathOf, HunkStart;
    var c := LineText(l)[0];
    var t := LineText(l)[1..];
    assert LineText(l) == [c] + t;
    MarkedLine(c, t);
    var line := DropCr(LineText(l));
    assert line == [c] + DropCr(t);
    NotMarked(line, c, DropCr(t));
    DropCrStart(t);
    if Plused(l) { assert line[4..] == DropCr(t)[3..]; }
    OneInLines(rules, s.path, s.newLine, l);
  }

  lemma DropCrStart(t: string)
    ensures StartsWith(DropCr(t), TWO_PLUSES) <==> StartsWith(t, TWO_PLUSES)
    ensures StartsWith(t, TWO_PLUSES) ==> |DropCr(t)| >= 3
  {
    var d := DropCr(t);
    if StartsWith(d, TWO_PLUSES) { assert d[..3] == t[..3]; }
    if StartsWith(t, TWO_PLUSES) { assert t[..3][2] == ' ' && |d| >= 3 && d[..3] == t[..3]; }
  }

  lemma {:induction false} OneInLines(rules: Rules, path: string, n: nat, l: DiffLine)
    ensures InLines(rules, path, n, [l]) ==
            if l.Add? && rules(DropCr(l.text)).Some? then [Finding(path, n, rules(DropCr(l.text)).value)] else []
  {
    assert [l][1..] == [];
  }

  /** The lines of a hunk, read inside it. */
  lemma {:induction false} HunkBody(rules: Rules, s: Position, ls: seq<DiffLine>) returns (n: nat, b: bool)
    requires s.inHunk
    ensures ReadLines(rules, s, DropCrs(LineTexts(ls)))
            == s.(path := PathAfter(s.path, ls), newLine := n, inHunk := b,
                  found := s.found + InLines(rules, s.path, s.newLine, Until(ls)))
    decreases |ls|
  {
    hide ReadLine, DropCr, LineText, PlusPath, Plused;
    if ls == [] {
      n, b := s.newLine, s.inHunk;
      assert s.found + [] == s.found;
    } else {
      HunkLine(rules, s, ls[0]);
      OneInLines(rules, s.path, s.newLine, ls[0]);
      FirstText(rules, s, ls);
      if Plused(ls[0]) {
        var t := s.(path := PlusPath(ls[0]), inHunk := false);
        n, b := t.newLine, false;
        SkippedBody(rules, t, ls[1..]);
        assert s.found + [] == s.found;
      } else {
        var one := InLines(rules, s.path, s.newLine, [ls[0]]);
        var t := s.(newLine := s.newLine + Advance(ls[0]), found := s.found + one);
        n, b := HunkBody(rules, t, ls[1..]);
        var rest := InLines(rules, s.path, t.newLine, Until(ls[1..]));
        assert ([ls[0]] + Until(ls[1..]))[1..] == Until(ls[1..]);
        assert (s.found + one) + rest == s.found + (one + rest);
      }
    }
  }

  lemma {:induction false} FirstText(rules: Rules, s: Position, ls: seq<DiffLine>)
    requires ls != []
    ensures ReadLines(rules, s, DropCrs(LineTexts(ls)))
            == ReadLines(rules, ReadLine(rules, s, DropCr(LineText(ls[0]))), DropCrs(LineTexts(ls[1..])))
  {
    hide ReadLine, DropCr, LineText;
    var texts := DropCrs(LineTexts(ls));
    assert texts[0] == DropCr(LineText(ls[0])) && texts[1..] == DropCrs(LineTexts(ls[1..]));
  }

  /** The lines after one that looks like a file header, up to the next hunk. */
  lemma {:induction false} SkippedBody(rules: Rules, s: Position, ls: seq<DiffLine>)
    requires !s.inHunk
    ensures ReadLines(rules, s, DropCrs(LineTexts(ls))) == s.(path := PathAfter(s.path, ls))
    decreases |ls|
  {
    hide ReadLine, DropCr, LineText, PlusPath, Plused;
    if ls != [] {
      HunkLine(rules, s, ls[0]);
      FirstText(rules, s, ls);
      SkippedBody(rules, if Plused(ls[0]) then s.(path := PlusPath(ls[0])) else s, ls[1..]);
    }
  }

  lemma {:induction false} DigitsBeforeSeparator(d: string, tail: string)
    requires AllDigits(d) && tail != "" && (tail[0] == ',' || tail[0] == ' ')
    ensures UpToSeparator(d + tail) == d
  {
    if d == "" {
      assert d + tail == tail;
    } else {
      assert (d + tail)[1..] == d[1..] + tail;
      DigitsBeforeSeparator(d[1..], tail);
      assert [d[0]] + d[1..] == d;
    }
  }

  lemma {:induction false} NotIn(s: string, c: char)
    requires c !in s
    ensures Find(s, c) == |s|
  {}

  /** A hunk header without a plus leaves the line number as it was; one whose plus no
      number follows starts at zero. */
  lemma {:induction false} StartUnread(head: string, rest: string)
    requires '+' !in head && '+' !in rest && (rest == "" || !IsDigit(rest[0]))
    ensures HunkStart(head) == None && HunkStart(head + ['+'] + rest) == Some(0)
  {
    hide UpToSeparator;
    var text := head + ['+'] + rest;
    NotIn(head, '+');
    NotIn(rest, '+');
    forall i | 0 <= i < |head| ensures text[i] != '+' { assert text[i] == head[i] && head[i] in head; }
    FindAt(text, '+', |head|);
    assert text[|head| + 1..] == rest && rest[..|rest|] == rest;
    UpToStarts(rest);
  }

  lemma {:induction false} UpToStarts(s: string)
    requires '+' !in s && (s == "" || !IsDigit(s[0]))
    ensures ParseU32(UpToSeparator(s)) == None
  {
    hide NumeralValue;
  }

  lemma HunkStarts(h: Hunk)
    requires SafeHunk(h)
    ensures HunkStart(['-'] + h.before + [' ', '+'] + Digits(h.start) + h.tail) == Some(h.start)
  {
    hide UpToSeparator, ParseU32, Digits;
    var head, d := ['-'] + h.before + [' '], Digits(h.start);
    var text := ['-'] + h.before + [' ', '+'] + d + h.tail;
    var rest := d + h.tail;
    assert text == head + ['+'] + rest;
    forall i | 0 <= i < |head| ensures text[i] != '+' {
      if 0 < i < |head| - 1 { assert text[i] == h.before[i - 1] && h.before[i - 1] in h.before; }
    }
    FindAt(text, '+', |head|);
    assert text[|head| + 1..] == rest;
    PlusAfterTail(d, h.tail);
    var cut := Find(rest, '+');
    assert rest[..cut] == d + h.tail[..cut - |d|];
    DigitsBeforeSeparator(d, h.tail[..cut - |d|]);
    ParseOfDigits(h.start);
  }

  lemma {:induction false} PlusAfterTail(d: string, tail: string)
    requires AllDigits(d) && tail != "" && (tail[0] == ',' || tail[0] == ' ')
    ensures |d| < Find(d + tail, '+')
  {
    var rest := d + tail;
    forall i | 0 <= i <= |d| ensures rest[i] != '+' {
      if i == |d| { assert rest[i] == tail[0]; } else { assert rest[i] == d[i]; }
    }
  }

  lemma FileMarkIsPlus(p: string)
    ensures StartsWith(p, FILE_MARK) ==> StartsWith(p, ['+']) && p[0] == '+'
  {
    if StartsWith(p, FILE_MARK) { assert p[..4][..1] == p[..1] && p[..4][..1] == ['+']; }
  }

  lemma HeaderLine(rules: Rules, s: Position, h: Hunk)
    requires SafeHunk(h)
    ensures DropCr(HunkHeader(h)) == HunkHeader(h) && '\n' !in HunkHeader(h)
    ensures ReadLine(rules, s, HunkHeader(h)) == s.(newLine := h.start, inHunk := true)
  {
    hide HunkStart, Digits;
    HunkStarts(h);
    var rest := ['-'] + h.before + [' ', '+'] + Digits(h.start) + h.tail;
    var line := HUNK_MARK + rest;
    assert line[..3] == HUNK_MARK && line[3..] == rest && line[0] == '@';
    HeaderPlain(h, rest);
    assert line[|line| - 1] == rest[|rest| - 1];
    FileMarkIsPlus(line);
  }

  lemma HeaderPlain(h: Hunk, rest: string)
    requires SafeHunk(h) && rest == ['-'] + h.before + [' ', '+'] + Digits(h.start) + h.tail
    ensures '\n' !in rest && rest[|rest| - 1] != '\r'
  {
    hide Digits;
    var d := Digits(h.start);
    assert '\n' !in d by { assert forall i :: 0 <= i < |d| ==> d[i] != '\n'; }
    assert rest[|rest| - 1] == h.tail[|h.tail| - 1];
  }

  lemma {:induction false} HunksRead(rules: Rules, s: Position, hs: seq<Hunk>) returns (path: string, n: nat, b: bool)
    requires forall h :: h in hs ==> SafeHunk(h)
    ensures ReadLines(rules, s, DropCrs(HunkTexts(hs)))
            == s.(path := path, newLine := n, inHunk := b, found := s.found + ScannedHunks(rules, s.path, hs))
    decreases |hs|
  {
    hide ReadLine, SafeHunk, DropCr, HunkHeader, InLines, LineTexts, PathAfter, Until;
    if hs == [] {
      path, n, b := s.path, s.newLine, s.inHunk;
      assert s.found + [] == s.found;
    } else {
      var h := hs[0];
      assert h in hs;
      assert forall x :: x in hs[1..] ==> x in hs;
      HeaderLine(rules, s, h);
      var s1 := s.(newLine := h.start, inHunk := true);
      var k, c := HunkBody(rules, s1, h.lines);
      var here := InLines(rules, s.path, h.start, Until(h.lines));
      var s2 := s1.(path := PathAfter(s.path, h.lines), newLine := k, inHunk := c, found := s.found + here);
      path, n, b := HunksRead(rules, s2, hs[1..]);
      var head, body, rest := [HunkHeader(h)], LineTexts(h.lines), HunkTexts(hs[1..]);
      OneLineRead(rules, s, HunkHeader(h));
      ThreeParts(rules, s, head, body, rest);
      var later := ScannedHunks(rules, s2.path, hs[1..]);
      assert (s.found + here) + later == s.found + (here + later);
    }
  }

  lemma {:induction false} OneLineRead(rules: Rules, s: Position, line: string)
    requires DropCr(line) == line
    ensures ReadLines(rules, s, DropCrs([line])) == ReadLine(rules, s, line)
  {
    hide ReadLine, DropCr;
    assert DropCrs([line]) == [line] && [line][1..] == [];
  }

  lemma {:induction false} ThreeParts(rules: Rules, s: Position, a: seq<string>, b: seq<string>, c: seq<string>)
    ensures ReadLines(rules, s, DropCrs(a + b + c))
            == ReadLines(rules, ReadLines(rules, ReadLines(rules, s, DropCrs(a)), DropCrs(b)), DropCrs(c))
  {
    hide ReadLines, DropCrs;
    DropCrsOn(a + b, c);
    DropCrsOn(a, b);
    ReadOn(rules, s, DropCrs(a) + DropCrs(b), DropCrs(c));
    ReadOn(rules, s, DropCrs(a), DropCrs(b));
  }

  lemma FileHeaderLine(rules: Rules, s: Position, f: FileDiff)
    requires SafeFile(f)
    ensures DropCr(FileHeader(f)) == FileHeader(f) && '\n' !in FileHeader(f)
    ensures ReadLine(rules, s, FileHeader(f)) == s.(path := NewPath(f), inHunk := false)
  {
    hide TrimStart, TrimEnd, IsSpace, Trim;
    var target := if f.path.Some? then NEW_SIDE + f.path.value else NULL_PATH;
    var line := FILE_MARK + target;
    assert line[..4] == FILE_MARK && line[4..] == target;
    TargetTrimmed(f, target);
    TrimOfTrimmed(target);
    if f.path.Some? {
      assert target[..2] == NEW_SIDE && target[2..] == f.path.value;
    } else {
      assert target[0] == '/';
      NewSideStart(target);
    }
    assert line[|line| - 1] == target[|target| - 1];
  }

  lemma NewSideStart(t: string)
    ensures StartsWith(t, NEW_SIDE) ==> t != "" && t[0] == 'b'
  {
    if StartsWith(t, NEW_SIDE) { assert t[..2][0] == t[0]; }
  }

  lemma TargetTrimmed(f: FileDiff, target: string)
    requires SafeFile(f) && target == if f.path.Some? then NEW_SIDE + f.path.value else NULL_PATH
    ensures target != "" && Trimmed(target) && '\n' !in target && target[|target| - 1] != '\r'
  {
    if f.path.Some? {
      var p := f.path.value;
      assert target[0] == 'b' && target[|target| - 1] == p[|p| - 1];
    } else {
      assert target[0] == '/' && target[|target| - 1] == 'l';
    }
  }

  /** The lines before a file's new side is named find nothing. */
  lemma {:induction false} PreambleRead(rules: Rules, s: Position, ps: seq<string>) returns (n: nat)
    requires forall p :: p in ps ==> PlainLine(p) && !StartsWith(p, ['+']) && !StartsWith(p, HUNK_MARK)
    ensures ReadLines(rules, s, DropCrs(ps)) == s.(newLine := n)
    decreases |ps|
  {
    if ps == [] {
      n := s.newLine;
    } else {
      assert ps[0] in ps;
      assert forall p :: p in ps[1..] ==> p in ps;
      FileMarkIsPlus(ps[0]);
      var t := ReadLine(rules, s, ps[0]);
      assert DropCrs(ps)[0] == ps[0] && DropCrs(ps)[1..] == DropCrs(ps[1..]);
      n := PreambleRead(rules, t, ps[1..]);
    }
  }

  lemma FileRead(rules: Rules, s: Position, f: FileDiff) returns (path: string, n: nat, b: bool)
    requires SafeFile(f)
    ensures ReadLines(rules, s, DropCrs(f.preamble + [FileHeader(f)] + HunkTexts(f.hunks)))
            == Position(path, n, b, s.found + ScannedHunks(rules, NewPath(f), f.hunks))
  {
    hide ReadLine, SafeFile, DropCr, FileHeader, ScannedHunks, HunkTexts, PlainLine, SafeHunk, ReadLines, DropCrs;
    FileParts(f);
    var k := PreambleRead(rules, s, f.preamble);
    var s1 := s.(newLine := k);
    FileHeaderLine(rules, s1, f);
    OneLineRead(rules, s1, FileHeader(f));
    var s2 := s1.(path := NewPath(f), inHunk := false);
    path, n, b := HunksRead(rules, s2, f.hunks);
    ThreeParts(rules, s, f.preamble, [FileHeader(f)], HunkTexts(f.hunks));
  }

  lemma {:induction false} FilesRead(rules: Rules, s: Position, fs: seq<FileDiff>)
    requires SafeDiff(fs)
    ensures ReadLines(rules, s, DropCrs(FileTexts(fs))).found == s.found + ScannedFiles(rules, fs)
    decreases |fs|
  {
    hide ReadLine, SafeFile, DropCr, FileHeader, ScannedHunks, HunkTexts, ReadLines;
    if fs == [] {
      NoFiles(rules, s);
    } else {
      var f := fs[0];
      assert f in fs;
      assert forall x :: x in fs[1..] ==> x in fs;
      var path, n, b := FileRead(rules, s, f);
      var first := ScannedHunks(rules, NewPath(f), f.hunks);
      FilesRead(rules, Position(path, n, b, s.found + first), fs[1..]);
      var head, rest := f.preamble + [FileHeader(f)] + HunkTexts(f.hunks), FileTexts(fs[1..]);
      DropCrsOn(head, rest);
      ReadOn(rules, s, DropCrs(head), DropCrs(rest));
      assert (s.found + first) + ScannedFiles(rules, fs[1..]) == s.found + (first + ScannedFiles(rules, fs[1..]));
    }
  }

  lemma {:induction false} NoFiles(rules: Rules, s: Position)
    ensures ReadLines(rules, s, DropCrs(FileTexts([]))).found == s.found + ScannedFiles(rules, [])
  {
    assert s.found + [] == s.found;
  }

  lemma FileParts(f: FileDiff)
    requires SafeFile(f)
    ensures forall p :: p in f.preamble ==> PlainLine(p) && !StartsWith(p, ['+']) && !StartsWith(p, HUNK_MARK)
    ensures forall h :: h in f.hunks ==> SafeHunk(h)
  {}

  // ---- no line break inside a line ----

  lemma {:induction false} HunksOnLines(hs: seq<Hunk>)
    requires forall h :: h in hs ==> SafeHunk(h)
    ensures forall l :: l in HunkTexts(hs) ==> '\n' !in l
  {
    hide HunkHeader, SafeHunk;
    if hs != [] {
      var h := hs[0];
      assert h in hs;
      assert forall x :: x in hs[1..] ==> x in hs;
      HeaderLine(_ => None, START, h);
      SafeLines(h);
      BodyOnLines(h.lines);
      HunksOnLines(hs[1..]);
    }
  }

  lemma SafeLines(h: Hunk)
    requires SafeHunk(h)
    ensures forall l :: l in h.lines ==> '\n' !in l.text
  {}

  lemma LineOnLine(l: DiffLine)
    requires '\n' !in l.text
    ensures '\n' !in LineText(l)
  {
    var t := LineText(l);
    assert forall i :: 1 <= i < |t| ==> t[i] == l.text[i - 1];
  }

  lemma {:induction false} BodyOnLines(ls: seq<DiffLine>)
    requires forall l :: l in ls ==> '\n' !in l.text
    ensures forall t :: t in LineTexts(ls) ==> '\n' !in t
  {
    hide LineText;
    forall t | t in LineTexts(ls) ensures '\n' !in t {
      var i :| 0 <= i < |ls| && LineTexts(ls)[i] == t;
      assert ls[i] in ls;
      LineOnLine(ls[i]);
    }
  }

  lemma {:induction false} FilesOnLines(fs: seq<FileDiff>)
    requires SafeDiff(fs)
    ensures forall l :: l in FileTexts(fs) ==> '\n' !in l
  {
    hide FileHeader, SafeFile;
    if fs != [] {
      assert fs[0] in fs;
      assert forall x :: x in fs[1..] ==> x in fs;
      FileParts(fs[0]);
      FileHeaderLine(_ => None, START, fs[0]);
      HunksOnLines(fs[0].hunks);
      FilesOnLines(fs[1..]);
    }
  }

  /** What the scanner finds in any diff rendered from files and hunks. */
  lemma {:induction false} ScanReads(rules: Rules, fs: seq<FileDiff>)
    requires SafeDiff(fs)
    ensures ReadLines(rules, START, Lines(Rendered(fs))).found == ScannedFiles(rules, fs)
  {
    hide ReadLines, DropCrs, FileTexts, Lines, Unlines;
    FilesOnLines(fs);
    LinesDropCrs(FileTexts(fs));
    FilesRead(rules, START, fs);
    assert START.found + ScannedFiles(rules, fs) == ScannedFiles(rules, fs);
  }
}
