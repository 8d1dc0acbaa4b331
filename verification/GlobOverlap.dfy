/** The probe test for "could these two glob sets match the same path?"
    (crates/wanax-core/src/glob_overlap.rs). */
module GlobOverlap {
  import opened Types
  import opened Text

  /** The glob engine: which patterns compile, and what a pattern matches. */
  datatype Matcher = Matcher(compiles: string -> bool, matches: (string, string) -> bool)
  {
    predicate AllCompile(globs: seq<string>) { forall p :: p in globs ==> compiles(p) }

    predicate SetMatches(globs: seq<string>, path: string) {
      exists p :: p in globs && matches(p, path)
    }
  }

  function TrimSlashes(s: string): (r: string)
    ensures r <= s
    ensures r != [] ==> r[|r| - 1] != '/'
    ensures s != [] && s[|s| - 1] != '/' ==> r == s
  {
    if s != [] && s[|s| - 1] == '/' then TrimSlashes(s[..|s| - 1]) else s
  }

  function PatternProbes(pattern: string): seq<string> {
    if '*' !in pattern then [pattern]
    else
      var prefix := TrimSlashes(pattern[..Find(pattern, '*')]);
      if prefix == "" then ["file.rs", "src/file.rs", "a/b/c.rs"]
      else [prefix, prefix + "/file.rs", prefix + "/nested/x.rs"]
  }

  /** Some pattern of `globs` proposes this probe. */
  predicate Probes(globs: seq<string>, probe: string) {
    exists p :: p in globs && probe in PatternProbes(p)
  }

  /** The answer of the test. */
  ghost predicate Overlap(m: Matcher, a: seq<string>, b: seq<string>) {
    && a != [] && b != []
    && (|| (exists p :: p in a && p in b)
        || !m.AllCompile(a)
        || !m.AllCompile(b)
        || exists probe :: Probes(a + b, probe) && m.SetMatches(a, probe) && m.SetMatches(b, probe))
  }

  method ProbePaths(a: seq<string>, b: seq<string>) returns (out: seq<string>)
    ensures forall probe :: probe in out <==> Probes(a + b, probe)
  {
    out := [];
    var all := a + b;
    for i := 0 to |all|
      invariant forall probe :: probe in out <==> Probes(all[..i], probe)
    {
      assert forall p :: p in all[..i + 1] <==> p in all[..i] || p == all[i];
      out := out + PatternProbes(all[i]);
    }
    assert all[..|all|] == all;
  }

  method PeerGlobSetsOverlap(m: Matcher, a: seq<string>, b: seq<string>) returns (r: bool)
    ensures r <==> Overlap(m, a, b)
  {
    if a == [] || b == [] { return false; }
    for i := 0 to |a|
      invariant forall k :: 0 <= k < i ==> a[k] !in b
    {
      if a[i] in b { return true; }
    }
    if !m.AllCompile(a) || !m.AllCompile(b) { return true; }
    var probes := ProbePaths(a, b);
    for i := 0 to |probes|
      invariant forall k :: 0 <= k < i ==> !(m.SetMatches(a, probes[k]) && m.SetMatches(b, probes[k]))
    {
      assert probes[i] in probes;
      if m.SetMatches(a, probes[i]) && m.SetMatches(b, probes[i]) { return true; }
    }
    return false;
  }

  /** The first pair of sets, in lexicographic order, that may share a path. */
  method FindPeerOverlap(m: Matcher, sets: seq<seq<string>>) returns (r: Option<(nat, nat)>)
    ensures r.None? <==> PairwiseDisjoint(m, sets)
    ensures r.Some? ==>
              var (i, j) := r.value;
              && i < j < |sets| && Overlap(m, sets[i], sets[j])
              && forall i', j' :: 0 <= i' < j' < |sets| && (i' < i || (i' == i && j' < j)) ==>
                                    !Overlap(m, sets[i'], sets[j'])
  {
    for i := 0 to |sets|
      invariant forall i', j' :: 0 <= i' < i && i' < j' < |sets| ==> !Overlap(m, sets[i'], sets[j'])
    {
      for j := i + 1 to |sets|
        invariant forall j' :: i < j' < j ==> !Overlap(m, sets[i], sets[j'])
      {
        var o := PeerGlobSetsOverlap(m, sets[i], sets[j]);
        if o { return Some((i, j)); }
      }
    }
    return None;
  }

  ghost predicate PairwiseDisjoint(m: Matcher, sets: seq<seq<string>>) {
    forall i, j :: 0 <= i < j < |sets| ==> !Overlap(m, sets[i], sets[j])
  }

  /** The test never depends on which set is asked about first. */
  lemma OverlapSymmetric(m: Matcher, a: seq<string>, b: seq<string>)
    ensures Overlap(m, a, b) == Overlap(m, b, a)
  {
    forall probe ensures Probes(a + b, probe) == Probes(b + a, probe) {
      assert forall p :: p in a + b <==> p in b + a;
    }
  }

  // ---- exactness on literal paths, `P/**` and `**` ----

  predicate Plain(s: string) {
    forall c :: c in s ==> c !in "*?[]{}\\"
  }

  predicate IsSubtree(p: string) {
    && |p| > 3 && p[|p| - 3..] == "/**"
    && Plain(p[..|p| - 3]) && p[|p| - 4] != '/'
  }

  predicate Simple(p: string) { p == "**" || IsSubtree(p) || Plain(p) }

  /** The directory prefix of a subtree pattern, slash included. */
  function DirOf(p: string): string
    requires IsSubtree(p)
  {
    p[..|p| - 2]
  }

  predicate SimpleMatches(p: string, path: string)
    requires Simple(p)
  {
    if p == "**" then true
    else if IsSubtree(p) then StartsWith(path, DirOf(p))
    else path == p
  }

  /** The glob engine reads the simple patterns as `literal_separator(false)` does. */
  ghost predicate ReadsSimple(m: Matcher) {
    && (forall p | Simple(p) :: m.compiles(p))
    && (forall p, path | Simple(p) :: m.matches(p, path) == SimpleMatches(p, path))
  }

  predicate AllSimple(globs: seq<string>) { forall p :: p in globs ==> Simple(p) }

  lemma {:induction false} FirstStar(p: string)
    requires IsSubtree(p)
    ensures Find(p, '*') == |p| - 2
  {
    var base := p[..|p| - 3];
    assert p[|p| - 3] == "/**"[0] && p[|p| - 2] == "/**"[1];
    forall i | 0 <= i < |p| - 2 ensures p[i] != '*' {
      if i < |base| { assert p[i] == base[i] && base[i] in base; }
    }
    FindAt(p, '*', |p| - 2);
  }

  lemma SubtreeProbe(p: string)
    requires IsSubtree(p)
    ensures DirOf(p) + "file.rs" in PatternProbes(p)
  {
    FirstStar(p);
    var base, cut := p[..|p| - 3], p[..|p| - 2];
    assert p[|p| - 3] == "/**"[0];
    assert cut == base + "/" && cut[..|cut| - 1] == base;
    assert base[|base| - 1] == p[|p| - 4];
    assert TrimSlashes(cut) == base;
    assert p[|p| - 2] == "/**"[1] && '*' in p;
    assert base + "/file.rs" == cut + "file.rs";
  }

  lemma PlainProbe(p: string)
    requires Plain(p)
    ensures PatternProbes(p) == [p]
  {}

  /** Two patterns that share a path also share a probe, or are the same. */
  lemma SharedProbe(p: string, q: string, path: string) returns (probe: string)
    requires Simple(p) && Simple(q) && p != q
    requires SimpleMatches(p, path) && SimpleMatches(q, path)
    ensures probe in PatternProbes(p) || probe in PatternProbes(q)
    ensures SimpleMatches(p, probe) && SimpleMatches(q, probe)
  {
    if p != "**" && !IsSubtree(p) {
      PlainProbe(p);
      probe := p;
    } else if q != "**" && !IsSubtree(q) {
      PlainProbe(q);
      probe := q;
    } else {
      var deep := if p == "**" then q else if q == "**" then p
                  else if |DirOf(p)| <= |DirOf(q)| then q else p;
      SubtreeProbe(deep);
      probe := DirOf(deep) + "file.rs";
      var other := if deep == q then p else q;
      assert StartsWith(probe, DirOf(deep));
      if other != "**" {
        assert DirOf(other) == path[..|DirOf(other)|] == DirOf(deep)[..|DirOf(other)|];
        assert probe[..|DirOf(other)|] == DirOf(other);
      }
    }
  }

  /** On simple patterns the finite probe test is exact. */
  lemma OverlapExact(m: Matcher, a: seq<string>, b: seq<string>)
    requires ReadsSimple(m) && AllSimple(a) && AllSimple(b)
    ensures Overlap(m, a, b) <==> exists path :: m.SetMatches(a, path) && m.SetMatches(b, path)
  {
    if Overlap(m, a, b) && exists p :: p in a && p in b {
      var p :| p in a && p in b;
      var path := MatchedBy(p);
      assert m.matches(p, path);
      assert m.SetMatches(a, path) && m.SetMatches(b, path);
    }
    if path :| m.SetMatches(a, path) && m.SetMatches(b, path) {
      var p :| p in a && m.matches(p, path);
      var q :| q in b && m.matches(q, path);
      if p != q {
        var probe := SharedProbe(p, q, path);
        assert p in a + b && q in a + b;
        assert Probes(a + b, probe);
        assert m.matches(p, probe) && m.matches(q, probe);
        assert m.SetMatches(a, probe) && m.SetMatches(b, probe);
      }
    }
  }

  lemma MatchedBy(p: string) returns (path: string)
    requires Simple(p)
    ensures SimpleMatches(p, path)
  {
    if IsSubtree(p) { path := DirOf(p); } else { path := p; }
  }

  // ---- which paths are tried ----

  lemma {:induction false} SlashesTrimmed(base: string, slashes: string)
    requires (base != "" ==> base[|base| - 1] != '/') && forall i :: 0 <= i < |slashes| ==> slashes[i] == '/'
    ensures TrimSlashes(base + slashes) == base
    decreases |slashes|
  {
    if slashes == "" {
      assert base + slashes == base;
    } else {
      var s := base + slashes;
      assert s[|s| - 1] == slashes[|slashes| - 1];
      assert s[..|s| - 1] == base + slashes[..|slashes| - 1];
      SlashesTrimmed(base, slashes[..|slashes| - 1]);
    }
  }

  /** For a pattern with a star, the directory in front of it and two paths below that are
      tried, one of them nested; where there is none, three paths of different depth. */
  lemma {:induction false} StarIsTried(base: string, slashes: string, rest: string)
    requires base != "" ==> base[|base| - 1] != '/'
    requires '*' !in base
    requires forall i :: 0 <= i < |slashes| ==> slashes[i] == '/'
    ensures PatternProbes(base + slashes + "*" + rest)
            == if base == "" then ["file.rs", "src/file.rs", "a/b/c.rs"]
               else [base, base + "/file.rs", base + "/nested/x.rs"]
  {
    var p, k := base + slashes + "*" + rest, |base + slashes|;
    assert p[k] == '*' && p[..k] == base + slashes;
    forall i | 0 <= i < k ensures p[i] != '*' {
      if i < |base| {
        assert p[i] == base[i] && base[i] in base;
      } else {
        assert p[i] == slashes[i - |base|];
      }
    }
    FindAt(p, '*', k);
    SlashesTrimmed(base, slashes);
    assert '*' in p;
  }

  /** Two sets overlap when both match a path that a pattern of theirs has tried, share a
      pattern, or hold one that is no pattern; and in no other case. */
  lemma OverlapTries(m: Matcher, a: seq<string>, b: seq<string>)
    ensures Overlap(m, a, b) <==>
            && a != [] && b != []
            && (|| (exists p :: p in a + b && !m.compiles(p))
                || (exists p :: p in a && p in b)
                || (exists p, path :: (p in a || p in b) && path in PatternProbes(p)
                                      && m.SetMatches(a, path) && m.SetMatches(b, path)))
  {
    hide PatternProbes, Matcher.SetMatches;
    if p, path :| (p in a || p in b) && path in PatternProbes(p) && m.SetMatches(a, path) && m.SetMatches(b, path) {
      assert p in a + b && Probes(a + b, path);
    }
    if probe :| Probes(a + b, probe) && m.SetMatches(a, probe) && m.SetMatches(b, probe) {
      var p :| p in a + b && probe in PatternProbes(p);
    }
    if p :| p in a + b && !m.compiles(p) { assert p in a || p in b; }
    if p :| p in a && !m.compiles(p) { assert p in a + b; }
    if p :| p in b && !m.compiles(p) { assert p in a + b; }
  }
}
