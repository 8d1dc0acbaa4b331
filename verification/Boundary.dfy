/** Checking the changed files of a commit against its globs (check_boundaries and
    is_factory_meta in crates/wanax-verify/src/lib.rs), and what a peer's passed
    check means for merging its wave (collect_peer_receipt in
    crates/wanax-cli/src/engine.rs). */
module Boundary {
  import opened Types
  import opened Text
  import opened GlobOverlap
  import opened WaveMerge

  datatype Report = Report(ok: bool, considered: seq<string>, violating: seq<string>)

  predicate IsFactoryMeta(path: string) {
    StartsWith(path, ".wanax/runs/") || StartsWith(path, ".wanax/worktrees/")
  }

  /** The factory's own files are those below its runs and its worktrees. */
  lemma MetaExactly(path: string)
    ensures IsFactoryMeta(path) <==>
            exists rest: string :: path == ".wanax/runs/" + rest || path == ".wanax/worktrees/" + rest
  {
    var runs, trees := ".wanax/runs/", ".wanax/worktrees/";
    if StartsWith(path, runs) { assert path == runs + path[|runs|..]; }
    if StartsWith(path, trees) { assert path == trees + path[|trees|..]; }
    if rest: string :| path == runs + rest || path == trees + rest {
      if path == runs + rest { assert path[..|runs|] == runs; } else { assert path[..|trees|] == trees; }
    }
  }

  predicate Allowed(m: Matcher, allowed: seq<string>, forbidden: seq<string>, path: string) {
    m.SetMatches(allowed, path) && !m.SetMatches(forbidden, path)
  }

  /** The files that count. */
  function Considered(files: seq<string>): seq<string> {
    if files == [] then []
    else (if IsFactoryMeta(files[0]) then [] else [files[0]]) + Considered(files[1..])
  }

  lemma {:induction false} ConsideredMembers(files: seq<string>, p: string)
    ensures p in Considered(files) <==> p in files && !IsFactoryMeta(p)
  {
    hide IsFactoryMeta;
    if files != [] { ConsideredMembers(files[1..], p); }
  }

  /** Passed exactly when every changed file that is not the factory's own is allowed
      and not forbidden; the violating files are exactly the others. */
  method CheckBoundaries(m: Matcher, changed: seq<string>, allowed: seq<string>, forbidden: seq<string>)
    returns (r: Result<Report, ErrorCode>)
    ensures r.Err? <==> !m.AllCompile(allowed) || !m.AllCompile(forbidden)
    ensures r.Ok? ==> (r.value.ok
                       <==> forall p :: p in changed && !IsFactoryMeta(p) ==> Allowed(m, allowed, forbidden, p))
    ensures r.Ok? ==> forall p :: p in r.value.violating
                                  <==> p in changed && !IsFactoryMeta(p) && !Allowed(m, allowed, forbidden, p)
    ensures r.Ok? ==> r.value.considered == Considered(changed)
  {
    hide IsFactoryMeta, Considered;
    if !m.AllCompile(allowed) { return Err(EBoundary); }
    if forbidden != [] && !m.AllCompile(forbidden) { return Err(EBoundary); }
    var violating: seq<string> := [];
    var considered := Considered(changed);
    forall p ensures p in considered <==> p in changed && !IsFactoryMeta(p) { ConsideredMembers(changed, p); }
    for i := 0 to |considered|
      invariant forall p :: p in violating <==> p in considered[..i] && !Allowed(m, allowed, forbidden, p)
    {
      var path := considered[i];
      assert forall p :: p in considered[..i + 1] <==> p in considered[..i] || p == path;
      var forbiddenHit := forbidden != [] && m.SetMatches(forbidden, path);
      var allowedHit := m.SetMatches(allowed, path);
      if forbiddenHit || !allowedHit { violating := violating + [path]; }
    }
    assert considered[..|considered|] == considered;
    if violating != [] { assert violating[0] in violating; }
    r := Ok(Report(violating == [], considered, violating));
  }

  // ---- what a peer hands in ----

  /** The worktree of a peer when its worker is done: the tree of the commit it stands
      on, the tree of that commit's parent, and the files themselves. */
  datatype PeerTree = PeerTree(parent: Tree, head: Tree, files: Tree)

  function With(t: Tree, files: Tree, paths: seq<Path>): Tree {
    map p | p in t.Keys + files.Keys && At(if p in paths then files else t, p).Some? ::
      At(if p in paths then files else t, p).value
  }

  lemma WithAt(t: Tree, files: Tree, paths: seq<Path>, p: Path)
    ensures At(With(t, files, paths), p) == At(if p in paths then files else t, p)
  {}

  /** The checked files are committed on top of the commit the peer stands on; with
      none to commit, that commit itself is handed in. */
  function Submitted(w: PeerTree, files: seq<Path>): Commit {
    if files == [] then Commit(w.parent, w.head) else Commit(w.head, With(w.head, w.files, files))
  }

  /** The check has seen everything the handed-in commit changes. */
  ghost predicate Stages(c: Commit, files: seq<string>) {
    forall p :: Touches(c, p) ==> p in files && !IsFactoryMeta(p)
  }

  /** It has, if and only if there was something to commit, or the commit the peer stood
      on changes nothing. A worker that commits by itself and leaves a clean tree hands
      in what nobody checked. */
  lemma StagesExactly(w: PeerTree, files: seq<Path>)
    requires forall p :: p in files ==> !IsFactoryMeta(p)
    ensures Stages(Submitted(w, files), files) <==> files != [] || forall p :: !Touches(Commit(w.parent, w.head), p)
  {
    hide IsFactoryMeta;
    if files != [] {
      forall p ensures At(With(w.head, w.files, files), p) == At(if p in files then w.files else w.head, p) {
        WithAt(w.head, w.files, files, p);
      }
    }
  }

  /** Peers whose checks all passed, in a wave that passed the overlap check, can be
      merged in any order. */
  lemma {:induction false} CheckedPeersMergeInAnyOrder(m: Matcher, m3: Merger, head: Tree, globs: seq<seq<string>>,
                                                       forbidden: seq<string>, files: seq<seq<string>>,
                                                       cs: seq<Commit>, ds: seq<Commit>)
    requires ReadsSimple(m) && |globs| == |cs| == |files| && PairwiseDisjoint(m, globs)
    requires forall i :: 0 <= i < |cs| ==>
               && AllSimple(globs[i]) && Stages(cs[i], files[i])
               && forall p :: p in files[i] && !IsFactoryMeta(p) ==> Allowed(m, globs[i], forbidden, p)
    requires Reordered(cs, ds)
    ensures Apart(cs) && PickedAll(m3, head, cs) == PickedAll(m3, head, ds)
  {
    hide IsFactoryMeta, Touches, ReadsSimple, AllSimple, PairwiseDisjoint, Matcher.SetMatches, Apart, PickedAll;
    forall i | 0 <= i < |cs| ensures AllSimple(globs[i]) && InsideGlobs(m, cs[i], globs[i]) {
      forall p | Touches(cs[i], p) ensures m.SetMatches(globs[i], p) {
        assert p in files[i] && !IsFactoryMeta(p) && Allowed(m, globs[i], forbidden, p);
      }
    }
    WaveIsApart(m, globs, cs);
    MergeOrderFree(m3, head, cs, ds);
  }

  // ---- a worker that commits by itself ----

  /** One worker changed the file and its change was checked; the other committed that
      same content and then the old one again, and left nothing to check. Whatever merges
      changes to one file, one order of them merges and undoes the checked work, the
      other is refused. */
  lemma {:induction false} UncheckedPeersOrderMatters(m3: Merger, parent: Tree)
    ensures var a := Submitted(PeerTree(parent, One("0"), One("1")), ["f"]);
            var b := Submitted(PeerTree(One("1"), One("0"), One("0")), []);
            PickedAll(m3, One("0"), [a, b]) == Some(One("0")) && PickedAll(m3, One("0"), [b, a]).None?
  {
    hide Picked;
    var a, b := Flip("0", "1"), Flip("1", "0");
    assert With(One("0"), One("1"), ["f"]) == One("1");
    FlipPicks(m3, "0", "1");
    FlipPicks(m3, "1", "0");
    OnePick(m3, One("1"), b);
    assert [a, b][1..] == [b];
  }
}
