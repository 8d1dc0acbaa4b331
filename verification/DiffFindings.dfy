/** When the secret scan over a diff finds what it ought to, and what it does
    otherwise (scan_diff_added in crates/wanax-verify/src/lib.rs). */
module DiffFindings {
  import opened Types
  import opened Text
  import opened DiffScan

  predicate Secret(rules: Rules, l: DiffLine) { l.Add? && rules(DropCr(l.text)).Some? }

  predicate HasSecret(rules: Rules, ls: seq<DiffLine>) { exists l :: l in ls && Secret(rules, l) }

  /** No secret stands on or below an added line that looks like a file header. */
  predicate NothingLost(rules: Rules, h: Hunk) {
    forall i, j :: 0 <= i <= j < |h.lines| && Plused(h.lines[i]) ==> !Secret(rules, h.lines[j])
  }

  /** The path in force at hunk k: the last one an added line seemed to name before it,
      or the path the file had. */
  function PathAt(path: string, hs: seq<Hunk>, k: nat): string
    requires k <= |hs|
    decreases k
  {
    if k == 0 then path else PathAt(PathAfter(path, hs[0].lines), hs[1..], k - 1)
  }

  /** Every hunk with a secret in it is read under the path of its file. */
  predicate NothingMisfiled(rules: Rules, path: string, target: string, hs: seq<Hunk>) {
    forall k :: 0 <= k < |hs| && HasSecret(rules, hs[k].lines) ==> PathAt(path, hs, k) == target
  }

  /** The rest of the lines, from the first one that looks like a file header. */
  function Since(ls: seq<DiffLine>): (r: seq<DiffLine>)
    ensures Until(ls) + r == ls
  {
    if ls == [] || Plused(ls[0]) then ls else Since(ls[1..])
  }

  lemma {:induction false} SecretsFound(rules: Rules, path: string, n: nat, ls: seq<DiffLine>)
    ensures InLines(rules, path, n, ls) == [] <==> !HasSecret(rules, ls)
    decreases |ls|
  {
    if ls != [] {
      SecretsFound(rules, path, n + Advance(ls[0]), ls[1..]);
      if HasSecret(rules, ls[1..]) {
        var l :| l in ls[1..] && Secret(rules, l);
        assert l in ls;
      }
      if Secret(rules, ls[0]) { assert ls[0] in ls; }
    }
  }

  lemma {:induction false} InBoth(rules: Rules, path: string, n: nat, a: seq<DiffLine>, b: seq<DiffLine>)
    returns (m: nat)
    ensures InLines(rules, path, n, a + b) == InLines(rules, path, n, a) + InLines(rules, path, m, b)
    decreases |a|
  {
    if a == [] {
      m := n;
      assert a + b == b;
    } else {
      assert (a + b)[0] == a[0] && (a + b)[1..] == a[1..] + b;
      m := InBoth(rules, path, n + Advance(a[0]), a[1..], b);
    }
  }

  /** Under another path the same lines are found, but reported differently. */
  lemma {:induction false} OtherPath(rules: Rules, p: string, q: string, n: nat, ls: seq<DiffLine>)
    ensures |InLines(rules, p, n, ls)| == |InLines(rules, q, n, ls)|
    ensures InLines(rules, p, n, ls) == InLines(rules, q, n, ls) <==> p == q || InLines(rules, p, n, ls) == []
    decreases |ls|
  {
    if ls != [] {
      OtherPath(rules, p, q, n + Advance(ls[0]), ls[1..]);
      UnderPath(rules, p, n, ls);
      UnderPath(rules, q, n, ls);
    }
  }

  lemma {:induction false} UnderPath(rules: Rules, path: string, n: nat, ls: seq<DiffLine>)
    ensures InLines(rules, path, n, ls) != [] ==> InLines(rules, path, n, ls)[0].path == path
    decreases |ls|
  {
    if ls != [] { UnderPath(rules, path, n + Advance(ls[0]), ls[1..]); }
  }

  lemma {:induction false} LostExactly(rules: Rules, h: Hunk)
    ensures NothingLost(rules, h) <==> !HasSecret(rules, Since(h.lines))
  {
    hide Plused, Secret;
    var k := |Until(h.lines)|;
    UntilPlus(h.lines);
    assert forall j :: k <= j < |h.lines|
                       ==> h.lines[j] == Since(h.lines)[j - k] && Since(h.lines)[j - k] in Since(h.lines);
    if HasSecret(rules, Since(h.lines)) {
      var l :| l in Since(h.lines) && Secret(rules, l);
      var i :| 0 <= i < |Since(h.lines)| && Since(h.lines)[i] == l;
      assert Plused(h.lines[k]) && Secret(rules, h.lines[k + i]);
    }
  }

  lemma {:induction false} UntilPlus(ls: seq<DiffLine>)
    ensures |Until(ls)| <= |ls| && (|Until(ls)| < |ls| ==> Plused(ls[|Until(ls)|]))
    ensures forall i :: 0 <= i < |Until(ls)| ==> !Plused(ls[i])
    decreases |ls|
  {
    if ls != [] && !Plused(ls[0]) { UntilPlus(ls[1..]); }
  }

  lemma ConcatParts<T>(a: seq<T>, b: seq<T>, c: seq<T>, d: seq<T>)
    requires |a| <= |c| && |b| <= |d|
    ensures a + b == c + d <==> a == c && b == d
  {
    if a + b == c + d {
      assert |a + b| == |c + d|;
      assert a == (a + b)[..|a|] == c && b == (a + b)[|a|..] == d;
    }
  }

  /** One hunk: the findings are as they should be exactly when none is lost and none
      is reported under another path. */
  lemma {:induction false} HunkExactly(rules: Rules, path: string, target: string, h: Hunk)
    ensures var scanned, due := InLines(rules, path, h.start, Until(h.lines)), InLines(rules, target, h.start, h.lines);
            && |scanned| <= |due|
            && (scanned == due <==> NothingLost(rules, h) && (HasSecret(rules, h.lines) ==> path == target))
  {
    hide NothingLost, HasSecret, InLines;
    var a, b := Until(h.lines), Since(h.lines);
    var m := InBoth(rules, target, h.start, a, b);
    var lost := InLines(rules, target, m, b);
    OtherPath(rules, path, target, h.start, a);
    SecretsFound(rules, target, m, b);
    SecretsFound(rules, target, h.start, h.lines);
    LostExactly(rules, h);
    ConcatParts(InLines(rules, path, h.start, a), [], InLines(rules, target, h.start, a), lost);
    assert InLines(rules, path, h.start, a) + [] == InLines(rules, path, h.start, a);
  }

  ghost predicate HunksOk(rules: Rules, path: string, target: string, hs: seq<Hunk>) {
    (forall h :: h in hs ==> NothingLost(rules, h)) && NothingMisfiled(rules, path, target, hs)
  }

  lemma {:induction false} FirstHunkOk(rules: Rules, path: string, target: string, hs: seq<Hunk>)
    requires hs != []
    ensures HunksOk(rules, path, target, hs) <==>
            && NothingLost(rules, hs[0]) && (HasSecret(rules, hs[0].lines) ==> path == target)
            && HunksOk(rules, PathAfter(path, hs[0].lines), target, hs[1..])
  {
    hide NothingLost, HasSecret, PathAfter;
    var next, rest := PathAfter(path, hs[0].lines), hs[1..];
    assert forall h :: h in hs <==> h == hs[0] || h in rest;
    forall k | 1 <= k < |hs| ensures PathAt(path, hs, k) == PathAt(next, rest, k - 1) && rest[k - 1] == hs[k] {}
    assert PathAt(path, hs, 0) == path;
    if NothingMisfiled(rules, path, target, hs) {
      forall k | 0 <= k < |rest| && HasSecret(rules, rest[k].lines) ensures PathAt(next, rest, k) == target {
        assert rest[k] == hs[k + 1] && PathAt(path, hs, k + 1) == target;
      }
    }
  }

  lemma {:induction false} HunksExactly(rules: Rules, path: string, target: string, hs: seq<Hunk>)
    ensures |ScannedHunks(rules, path, hs)| <= |InHunks(rules, target, hs)|
    ensures ScannedHunks(rules, path, hs) == InHunks(rules, target, hs) <==> HunksOk(rules, path, target, hs)
    decreases |hs|
  {
    hide NothingLost, HasSecret, InLines, PathAfter, Until;
    if hs != [] {
      hide HunksOk;
      HunkExactly(rules, path, target, hs[0]);
      FirstHunkOk(rules, path, target, hs);
      var next, rest := PathAfter(path, hs[0].lines), hs[1..];
      HunksExactly(rules, next, target, rest);
      ConcatParts(InLines(rules, path, hs[0].start, Until(hs[0].lines)), ScannedHunks(rules, next, rest),
                  InLines(rules, target, hs[0].start, hs[0].lines), InHunks(rules, target, rest));
    }
  }

  lemma {:induction false} FilesExactly(rules: Rules, fs: seq<FileDiff>)
    ensures |ScannedFiles(rules, fs)| <= |InFiles(rules, fs)|
    ensures ScannedFiles(rules, fs) == InFiles(rules, fs) <==>
            forall f :: f in fs ==> HunksOk(rules, NewPath(f), NewPath(f), f.hunks)
  {
    hide HunksOk, ScannedHunks, InHunks;
    if fs != [] {
      FilesExactly(rules, fs[1..]);
      HunksExactly(rules, NewPath(fs[0]), NewPath(fs[0]), fs[0].hunks);
      ConcatParts(ScannedHunks(rules, NewPath(fs[0]), fs[0].hunks), ScannedFiles(rules, fs[1..]),
                  InHunks(rules, NewPath(fs[0]), fs[0].hunks), InFiles(rules, fs[1..]));
      assert forall f :: f in fs <==> f == fs[0] || f in fs[1..];
    }
  }

  /** The scanner finds exactly the added lines with a secret, each with its file and
      its line on the new side, if and only if none stands on or below an added line
      that looks like a file header, in its hunk, or in a later hunk of the file while
      the path such a line seemed to name is another than the file's. */
  lemma {:induction false} ScanExactly(rules: Rules, fs: seq<FileDiff>)
    requires SafeDiff(fs)
    ensures ReadLines(rules, START, Lines(Rendered(fs))).found == InFiles(rules, fs) <==>
            forall f :: f in fs ==>
              && (forall h :: h in f.hunks ==> NothingLost(rules, h))
              && NothingMisfiled(rules, NewPath(f), NewPath(f), f.hunks)
  {
    hide ReadLines, ScannedFiles, InFiles, Lines, Rendered, NothingLost, NothingMisfiled, SafeFile;
    ScanReads(rules, fs);
    FilesExactly(rules, fs);
  }

  lemma {:induction false} UnplusedPath(path: string, ls: seq<DiffLine>)
    requires forall l :: l in ls ==> !Plused(l)
    ensures PathAfter(path, ls) == path
    decreases |ls|
  {
    if ls != [] {
      assert ls[0] in ls && forall l :: l in ls[1..] ==> l in ls;
      UnplusedPath(path, ls[1..]);
    }
  }

  lemma {:induction false} UnplusedPathAt(path: string, hs: seq<Hunk>, k: nat)
    requires k <= |hs| && forall h, l :: h in hs && l in h.lines ==> !Plused(l)
    ensures PathAt(path, hs, k) == path
    decreases k
  {
    hide Plused, PathAfter;
    if k > 0 {
      assert hs[0] in hs && forall h :: h in hs[1..] ==> h in hs;
      UnplusedPath(path, hs[0].lines);
      UnplusedPathAt(path, hs[1..], k - 1);
    }
  }

  /** In particular in every diff without such a line. */
  lemma {:induction false} ScanFindsExactly(rules: Rules, fs: seq<FileDiff>)
    requires SafeDiff(fs) && Unplused(fs)
    ensures ReadLines(rules, START, Lines(Rendered(fs))).found == InFiles(rules, fs)
  {
    hide ReadLines, InFiles, Lines, Rendered, Plused, PathAt, SafeFile;
    ScanExactly(rules, fs);
    forall f | f in fs
      ensures (forall h :: h in f.hunks ==> NothingLost(rules, h))
              && NothingMisfiled(rules, NewPath(f), NewPath(f), f.hunks)
    {
      forall h | h in f.hunks ensures NothingLost(rules, h) {
        assert forall i :: 0 <= i < |h.lines| ==> h.lines[i] in h.lines;
      }
      forall k | 0 <= k < |f.hunks| ensures PathAt(NewPath(f), f.hunks, k) == NewPath(f) {
        UnplusedPathAt(NewPath(f), f.hunks, k);
      }
    }
  }

  // ---- the two ways to fail, on concrete diffs ----

  const PLUSES := Add(['+', '+', ' ', 'x'])

  function OneFile(hs: seq<Hunk>): seq<FileDiff> { [FileDiff([], Some("f"), hs)] }

  lemma {:induction false} OneFileScanned(rules: Rules, hs: seq<Hunk>)
    ensures ScannedFiles(rules, OneFile(hs)) == ScannedHunks(rules, "f", hs)
    ensures InFiles(rules, OneFile(hs)) == InHunks(rules, "f", hs)
    ensures (forall h :: h in hs ==> SafeHunk(h)) ==> SafeDiff(OneFile(hs))
  {
    hide ScannedHunks, InHunks, SafeHunk;
    assert OneFile(hs)[1..] == [];
  }

  lemma PlusesSeen()
    ensures Plused(PLUSES) && Until([PLUSES]) == [] && PathAfter("f", [PLUSES]) == "x"
  {
    hide Trim;
    assert PLUSES.text[..3] == TWO_PLUSES && DropCr(PLUSES.text)[3..] == ['x'];
    TrimOfTrimmed(['x']);
    assert [PLUSES][1..] == [];
  }

  /** A secret added right below such a line is missed. */
  lemma {:induction false} SecretBelowPlusesMissed(rules: Rules, secret: string)
    requires rules(DropCr(secret)).Some? && '\n' !in secret
    ensures var fs := OneFile([Hunk("0,0", 1, ",2 @@", [PLUSES, Add(secret)])]);
            && SafeDiff(fs) && ReadLines(rules, START, Lines(Rendered(fs))).found == []
            && Finding("f", 2, rules(DropCr(secret)).value) in InFiles(rules, fs)
  {
    hide ReadLines, Lines, Rendered, DropCr, ScannedFiles, InFiles;
    var h := Hunk("0,0", 1, ",2 @@", [PLUSES, Add(secret)]);
    OneFileScanned(rules, [h]);
    ScanReads(rules, OneFile([h]));
    MissedHunk(rules, secret, h);
  }

  lemma {:induction false} MissedHunk(rules: Rules, secret: string, h: Hunk)
    requires h.lines == [PLUSES, Add(secret)] && h.start == 1 && rules(DropCr(secret)).Some?
    ensures ScannedHunks(rules, "f", [h]) == []
    ensures Finding("f", 2, rules(DropCr(secret)).value) in InHunks(rules, "f", [h])
  {
    hide PathAfter, Plused, DropCr;
    PlusesSeen();
    assert [h][1..] == [] && h.lines[1..] == [Add(secret)];
    OneInLines(rules, "f", 2, Add(secret));
    var due := InLines(rules, "f", 2, h.lines[1..]);
    assert due[0] in due;
  }

  /** And one in the next hunk of the file is reported under another path. */
  lemma {:induction false} SecretBelowPlusesMisfiled(rules: Rules, secret: string)
    requires rules(DropCr(secret)).Some? && '\n' !in secret && !StartsWith(secret, TWO_PLUSES)
    ensures var fs := OneFile([Hunk("0,0", 1, ",1 @@", [PLUSES]), Hunk("4,0", 5, ",1 @@", [Add(secret)])]);
            && SafeDiff(fs)
            && ReadLines(rules, START, Lines(Rendered(fs))).found == [Finding("x", 5, rules(DropCr(secret)).value)]
            && Finding("f", 5, rules(DropCr(secret)).value) in InFiles(rules, fs)
  {
    hide ReadLines, Lines, Rendered, DropCr, PathAfter;
    var g, h := Hunk("0,0", 1, ",1 @@", [PLUSES]), Hunk("4,0", 5, ",1 @@", [Add(secret)]);
    PlusesSeen();
    OneFileScanned(rules, [g, h]);
    ScanReads(rules, OneFile([g, h]));
    assert [g, h][1..] == [h] && [h][1..] == [];
    assert Until(h.lines) == h.lines by { assert h.lines[1..] == []; }
    OneInLines(rules, "x", 5, Add(secret));
    OneInLines(rules, "f", 5, Add(secret));
    MisfiledHunks(rules, g, h);
    var due := InLines(rules, "f", 5, h.lines);
    assert due[0] in due;
  }

  lemma {:induction false} MisfiledHunks(rules: Rules, g: Hunk, h: Hunk)
    requires g.lines == [PLUSES] && Until(h.lines) == h.lines
    ensures ScannedHunks(rules, "f", [g, h]) == InLines(rules, "x", h.start, h.lines)
    ensures forall d :: d in InLines(rules, "f", h.start, h.lines) ==> d in InHunks(rules, "f", [g, h])
  {
    hide PathAfter, Plused, InLines;
    PlusesSeen();
    assert [g, h][1..] == [h] && [h][1..] == [];
    assert ScannedHunks(rules, "x", [h]) == InLines(rules, "x", h.start, h.lines) + [];
    assert InLines(rules, "f", g.start, []) == [] by { NoLines(rules, "f", g.start); }
  }

  lemma {:induction false} NoLines(rules: Rules, path: string, n: nat)
    ensures InLines(rules, path, n, []) == []
  {}
}
