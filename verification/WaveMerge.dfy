/** Merging the commits of a wave into the inner tree, and rolling a rejected merge
    back (run_peer_batch and the rework branch in crates/wanax-cli/src/engine.rs,
    cherry_pick and reset_hard in crates/wanax-git/src/lib.rs).

    A tree maps paths to contents. Picking a commit is git's three-way merge of every
    path; how two different changes to one file are combined is a parameter. */
module WaveMerge {
  import opened Types
  import opened GlobOverlap

  type Path = string
  type Content = string
  type Tree = map<Path, Content>

  /** A commit with the tree of its parent. */
  datatype Commit = Commit(base: Tree, tree: Tree)

  /** Combine two changes to one file: base, ours, theirs; None is a conflict. */
  type Merger = (Option<Content>, Option<Content>, Option<Content>) -> Option<Option<Content>>

  function At(t: Tree, p: Path): Option<Content> { if p in t then Some(t[p]) else None }

  predicate Touches(c: Commit, p: Path) { At(c.tree, p) != At(c.base, p) }

  /** One path of a three-way merge. */
  function MergedAt(m3: Merger, head: Tree, c: Commit, p: Path): Option<Option<Content>> {
    var base, ours, theirs := At(c.base, p), At(head, p), At(c.tree, p);
    if theirs == base then Some(ours)
    else if ours == base || ours == theirs then Some(theirs)
    else m3(base, ours, theirs)
  }

  function AllPaths(head: Tree, c: Commit): set<Path> { head.Keys + c.base.Keys + c.tree.Keys }

  predicate Conflicted(m3: Merger, head: Tree, c: Commit) {
    exists p :: p in AllPaths(head, c) && MergedAt(m3, head, c, p).None?
  }

  function MergedTree(m3: Merger, head: Tree, c: Commit): Tree
    requires !Conflicted(m3, head, c)
  {
    map p | p in AllPaths(head, c) && MergedAt(m3, head, c, p).value.Some? :: MergedAt(m3, head, c, p).value.value
  }

  /** `git cherry-pick`: fails on a conflict, and when it would change nothing. */
  function Picked(m3: Merger, head: Tree, c: Commit): Option<Tree> {
    if Conflicted(m3, head, c) then None
    else if MergedTree(m3, head, c) == head then None
    else Some(MergedTree(m3, head, c))
  }

  /** All peers in turn; the first failure blocks the batch. */
  function PickedAll(m3: Merger, head: Tree, cs: seq<Commit>): Option<Tree>
    decreases |cs|
  {
    if cs == [] then Some(head)
    else
      var next := Picked(m3, head, cs[0]);
      if next.None? then None else PickedAll(m3, next.value, cs[1..])
  }

  class Worktree {
    var head: Tree

    constructor (head: Tree)
      ensures this.head == head
    {
      this.head := head;
    }

    method CherryPick(m3: Merger, c: Commit) returns (ok: bool)
      modifies this
      ensures ok <==> Picked(m3, old(head), c).Some?
      ensures head == if ok then Picked(m3, old(head), c).value else old(head)
    {
      var next := Picked(m3, head, c);
      ok := next.Some?;
      if ok { head := next.value; }
    }

    /** A failure leaves the picks before it in the tree. */
    method MergePeers(m3: Merger, commits: seq<Commit>) returns (ok: bool)
      modifies this
      ensures ok <==> PickedAll(m3, old(head), commits).Some?
      ensures ok ==> head == PickedAll(m3, old(head), commits).value
    {
      for i := 0 to |commits|
        invariant PickedAll(m3, head, commits[i..]) == PickedAll(m3, old(head), commits)
      {
        assert commits[i..][0] == commits[i] && commits[i..][1..] == commits[i + 1..];
        var picked := CherryPick(m3, commits[i]);
        if !picked { return false; }
      }
      ok := true;
    }

    method ResetHard(tree: Tree)
      modifies this
      ensures head == tree
    {
      head := tree;
    }

    /** One attempt at a wave that is sent back: the tree is as it was. */
    method ReworkedAttempt(m3: Merger, commits: seq<Commit>) returns (ok: bool)
      modifies this
      ensures ok <==> PickedAll(m3, old(head), commits).Some?
      ensures ok ==> head == old(head)
    {
      hide PickedAll;
      var preSha := head;
      ok := MergePeers(m3, commits);
      if ok { ResetHard(preSha); }
    }

    /** Attempts that are all sent back: every one starts from the tree the first one
        started from, and so merges exactly as it would have there. */
    method ReworkedAttempts(m3: Merger, attempts: seq<seq<Commit>>) returns (ghost starts: seq<Tree>, merged: bool)
      modifies this
      ensures merged ==> |starts| == |attempts| && head == old(head)
      ensures forall i :: 0 <= i < |starts| ==> starts[i] == old(head)
      ensures merged <==> forall i :: 0 <= i < |attempts| ==> PickedAll(m3, old(head), attempts[i]).Some?
    {
      hide PickedAll;
      starts := [];
      for k := 0 to |attempts|
        invariant head == old(head) && |starts| == k
        invariant forall i :: 0 <= i < k ==> starts[i] == old(head)
        invariant forall i :: 0 <= i < k ==> PickedAll(m3, old(head), attempts[i]).Some?
      {
        starts := starts + [head];
        merged := ReworkedAttempt(m3, attempts[k]);
        if !merged { return; }
      }
      merged := true;
    }
  }

  // ---- merging is independent of the order ----

  lemma TreesAgree(a: Tree, b: Tree)
    requires forall p :: At(a, p) == At(b, p)
    ensures a == b
  {
    forall p ensures p in a <==> p in b { assert At(a, p) == At(b, p); }
    forall p | p in a ensures a[p] == b[p] { assert At(a, p) == At(b, p); }
  }

  lemma UntouchedStays(m3: Merger, head: Tree, c: Commit, p: Path)
    requires !Touches(c, p)
    ensures MergedAt(m3, head, c, p) == Some(At(head, p))
  {}

  lemma MergedTreeAt(m3: Merger, head: Tree, c: Commit, p: Path)
    requires !Conflicted(m3, head, c)
    ensures MergedAt(m3, head, c, p) == Some(At(MergedTree(m3, head, c), p))
  {
    if p !in AllPaths(head, c) { assert At(c.base, p) == At(c.tree, p) == At(head, p) == None; }
  }

  /** What a pick does depends only on the paths its commit touches. */
  lemma PickIsLocal(m3: Merger, a: Tree, b: Tree, c: Commit)
    requires forall p :: Touches(c, p) ==> At(a, p) == At(b, p)
    ensures Picked(m3, a, c).Some? == Picked(m3, b, c).Some?
    ensures Picked(m3, a, c).Some? ==>
              forall p :: Touches(c, p) ==> At(Picked(m3, a, c).value, p) == At(Picked(m3, b, c).value, p)
  {
    hide MergedTree, AllPaths, MergedAt;
    ConflictIsLocal(m3, a, b, c);
    ConflictIsLocal(m3, b, a, c);
    if !Conflicted(m3, a, c) && !Conflicted(m3, b, c) {
      forall p | Touches(c, p) ensures At(MergedTree(m3, a, c), p) == At(MergedTree(m3, b, c), p) {
        MergedTreeAt(m3, a, c, p);
        MergedTreeAt(m3, b, c, p);
        SameMerge(m3, a, b, c, p);
      }
      NothingIsLocal(m3, a, b, c);
      NothingIsLocal(m3, b, a, c);
    }
  }

  lemma SameMerge(m3: Merger, a: Tree, b: Tree, c: Commit, p: Path)
    requires At(a, p) == At(b, p)
    ensures MergedAt(m3, a, c, p) == MergedAt(m3, b, c, p)
  {}

  lemma ConflictIsLocal(m3: Merger, a: Tree, b: Tree, c: Commit)
    requires forall p :: Touches(c, p) ==> At(a, p) == At(b, p)
    ensures Conflicted(m3, a, c) ==> Conflicted(m3, b, c)
  {
    if Conflicted(m3, a, c) { ConflictStays(m3, a, b, c); }
  }

  lemma ConflictStays(m3: Merger, a: Tree, b: Tree, c: Commit)
    requires Conflicted(m3, a, c) && forall p :: Touches(c, p) ==> At(a, p) == At(b, p)
    ensures Conflicted(m3, b, c)
  {
    var p :| p in AllPaths(a, c) && MergedAt(m3, a, c, p).None?;
    assert Touches(c, p);
    assert p in AllPaths(b, c) && MergedAt(m3, b, c, p).None?;
  }

  lemma NothingIsLocal(m3: Merger, a: Tree, b: Tree, c: Commit)
    requires forall p :: Touches(c, p) ==> At(a, p) == At(b, p)
    requires !Conflicted(m3, a, c) && !Conflicted(m3, b, c)
    ensures MergedTree(m3, a, c) == a ==> MergedTree(m3, b, c) == b
  {
    if MergedTree(m3, a, c) == a { NothingStays(m3, a, b, c); }
  }

  lemma NothingStays(m3: Merger, a: Tree, b: Tree, c: Commit)
    requires forall p :: Touches(c, p) ==> At(a, p) == At(b, p)
    requires !Conflicted(m3, a, c) && !Conflicted(m3, b, c) && MergedTree(m3, a, c) == a
    ensures MergedTree(m3, b, c) == b
  {
    hide MergedTree, Conflicted, MergedAt, AllPaths;
    forall p ensures At(MergedTree(m3, b, c), p) == At(b, p) {
      MergedTreeAt(m3, a, c, p);
      MergedTreeAt(m3, b, c, p);
      if Touches(c, p) { SameMerge(m3, a, b, c, p); } else { UntouchedStays(m3, b, c, p); }
    }
    TreesAgree(MergedTree(m3, b, c), b);
  }

  /** No two commits touch the same path. */
  ghost predicate Apart(cs: seq<Commit>) {
    forall i, j, p :: 0 <= i < j < |cs| ==> !(Touches(cs[i], p) && Touches(cs[j], p))
  }

  /** What a merge of commits that are apart leaves at a path: the one commit that
      touches it decides, working on the tree before the wave. */
  ghost predicate OverlaidAt(m3: Merger, head: Tree, cs: seq<Commit>, t: Tree, p: Path) {
    && (forall i :: 0 <= i < |cs| && Touches(cs[i], p) ==>
          Picked(m3, head, cs[i]).Some? && At(t, p) == At(Picked(m3, head, cs[i]).value, p))
    && ((forall i :: 0 <= i < |cs| ==> !Touches(cs[i], p)) ==> At(t, p) == At(head, p))
  }

  ghost predicate AllPick(m3: Merger, head: Tree, cs: seq<Commit>) {
    forall i :: 0 <= i < |cs| ==> Picked(m3, head, cs[i]).Some?
  }

  lemma PickedAt(m3: Merger, head: Tree, c: Commit, p: Path)
    requires Picked(m3, head, c).Some? && !Touches(c, p)
    ensures At(Picked(m3, head, c).value, p) == At(head, p)
  {
    hide MergedTree, Conflicted, MergedAt;
    MergedTreeAt(m3, head, c, p);
    UntouchedStays(m3, head, c, p);
  }

  lemma ApartTail(cs: seq<Commit>)
    requires Apart(cs) && cs != []
    ensures Apart(cs[1..])
    ensures forall i, p :: 0 <= i < |cs[1..]| && Touches(cs[1..][i], p) ==> !Touches(cs[0], p)
  {
    hide Touches;
    forall i, j, p | 0 <= i < j < |cs[1..]| ensures !(Touches(cs[1..][i], p) && Touches(cs[1..][j], p)) {
      assert cs[1..][i] == cs[i + 1] && cs[1..][j] == cs[j + 1];
    }
    forall i, p | 0 <= i < |cs[1..]| && Touches(cs[1..][i], p) ensures !Touches(cs[0], p) {
      assert cs[1..][i] == cs[i + 1];
    }
  }

  /** A pick by a commit that is apart changes nothing for the others. */
  lemma OthersUnaffected(m3: Merger, head: Tree, c: Commit, d: Commit)
    requires Picked(m3, head, c).Some? && forall p :: Touches(d, p) ==> !Touches(c, p)
    ensures var next := Picked(m3, head, c).value;
            Picked(m3, next, d).Some? == Picked(m3, head, d).Some?
            && (Picked(m3, head, d).Some? ==>
                  forall p :: Touches(d, p) ==> At(Picked(m3, next, d).value, p) == At(Picked(m3, head, d).value, p))
  {
    hide Picked, Touches;
    var next := Picked(m3, head, c).value;
    forall p | Touches(d, p) ensures At(next, p) == At(head, p) { PickedAt(m3, head, c, p); }
    PickIsLocal(m3, next, head, d);
  }

  lemma {:induction false} MergeIsOverlay(m3: Merger, head: Tree, cs: seq<Commit>)
    requires Apart(cs)
    ensures PickedAll(m3, head, cs).Some? <==> AllPick(m3, head, cs)
    ensures PickedAll(m3, head, cs).Some? ==> forall p :: OverlaidAt(m3, head, cs, PickedAll(m3, head, cs).value, p)
    decreases |cs|
  {
    hide Picked, Touches, OverlaidAt, AllPick, Apart;
    if cs == [] {
      NothingToMerge(m3, head);
    } else if Picked(m3, head, cs[0]).None? {
      FirstFails(m3, head, cs);
    } else {
      var next := Picked(m3, head, cs[0]).value;
      ApartTail(cs);
      MergeIsOverlay(m3, next, cs[1..]);
      TailPicks(m3, head, cs);
      if PickedAll(m3, head, cs).Some? {
        var t := PickedAll(m3, head, cs).value;
        forall p ensures OverlaidAt(m3, head, cs, t, p) { OverlayStep(m3, head, cs, t, p); }
      }
    }
  }

  lemma NothingToMerge(m3: Merger, head: Tree)
    ensures AllPick(m3, head, []) && forall p :: OverlaidAt(m3, head, [], head, p)
  {}

  lemma FirstFails(m3: Merger, head: Tree, cs: seq<Commit>)
    requires cs != [] && Picked(m3, head, cs[0]).None?
    ensures !AllPick(m3, head, cs)
  {
    hide Picked;
  }

  lemma TailPicks(m3: Merger, head: Tree, cs: seq<Commit>)
    requires cs != [] && Apart(cs) && Picked(m3, head, cs[0]).Some?
    ensures AllPick(m3, Picked(m3, head, cs[0]).value, cs[1..]) <==> AllPick(m3, head, cs)
  {
    hide Picked, Touches, Apart;
    ApartTail(cs);
    var next, tail := Picked(m3, head, cs[0]).value, cs[1..];
    forall i | 0 <= i < |tail| ensures Picked(m3, next, tail[i]).Some? == Picked(m3, head, tail[i]).Some?
        && tail[i] == cs[i + 1] {
      OthersUnaffected(m3, head, cs[0], tail[i]);
    }
    if AllPick(m3, head, cs) {
      forall i | 0 <= i < |tail| ensures Picked(m3, next, tail[i]).Some? { assert Picked(m3, head, cs[i + 1]).Some?; }
    }
    if AllPick(m3, next, tail) {
      forall i | 0 <= i < |cs| ensures Picked(m3, head, cs[i]).Some? {
        if i > 0 { assert Picked(m3, next, tail[i - 1]).Some?; }
      }
    }
  }

  lemma OverlayStep(m3: Merger, head: Tree, cs: seq<Commit>, t: Tree, p: Path)
    requires cs != [] && Apart(cs) && AllPick(m3, head, cs) && Picked(m3, head, cs[0]).Some?
    requires OverlaidAt(m3, Picked(m3, head, cs[0]).value, cs[1..], t, p)
    ensures OverlaidAt(m3, head, cs, t, p)
  {
    hide Picked, Touches, Apart;
    ApartTail(cs);
    var next, tail := Picked(m3, head, cs[0]).value, cs[1..];
    forall i | 0 <= i < |cs| && Touches(cs[i], p) ensures At(t, p) == At(Picked(m3, head, cs[i]).value, p) {
      if i == 0 {
        assert forall j :: 0 <= j < |tail| ==> !Touches(tail[j], p);
      } else {
        assert tail[i - 1] == cs[i];
        OthersUnaffected(m3, head, cs[0], cs[i]);
      }
    }
    if forall i :: 0 <= i < |cs| ==> !Touches(cs[i], p) {
      assert forall j :: 0 <= j < |tail| ==> tail[j] == cs[j + 1];
      PickedAt(m3, head, cs[0], p);
    }
  }

  /** The same commits in another order. */
  ghost predicate Reordered(cs: seq<Commit>, ds: seq<Commit>) { multiset(cs) == multiset(ds) }

  lemma SameMembers(cs: seq<Commit>, ds: seq<Commit>)
    requires Reordered(cs, ds)
    ensures forall c :: c in cs <==> c in ds
  {
    forall c ensures c in cs <==> c in ds { assert c in cs <==> c in multiset(cs); }
  }

  lemma CountedTwice(cs: seq<Commit>, i: nat, j: nat)
    requires i < j < |cs| && cs[i] == cs[j]
    ensures multiset(cs)[cs[i]] >= 2
  {
    assert cs == cs[..j] + [cs[j]] + cs[j + 1..];
    assert multiset(cs) == multiset(cs[..j]) + multiset{cs[j]} + multiset(cs[j + 1..]);
    assert cs[..j][i] in multiset(cs[..j]);
  }

  lemma {:induction false} TwicePlaced(cs: seq<Commit>, c: Commit) returns (i: nat, j: nat)
    requires multiset(cs)[c] >= 2
    ensures i < j < |cs| && cs[i] == cs[j] == c
    decreases |cs|
  {
    assert cs == [cs[0]] + cs[1..];
    if cs[0] == c {
      assert c in multiset(cs[1..]);
      i := 0;
      j :| 0 < j < |cs| && cs[j] == c;
    } else {
      i, j := TwicePlaced(cs[1..], c);
      i, j := i + 1, j + 1;
    }
  }

  lemma ApartPair(cs: seq<Commit>, ds: seq<Commit>, i: nat, j: nat, p: Path)
    requires Apart(cs) && Reordered(cs, ds) && i < j < |ds|
    ensures !(Touches(ds[i], p) && Touches(ds[j], p))
  {
    hide Touches;
    if ds[i] == ds[j] {
      CountedTwice(ds, i, j);
      var a, b := TwicePlaced(cs, ds[i]);
      var x, y := cs[a], cs[b];
      assert !(Touches(x, p) && Touches(y, p));
    } else {
      SameMembers(cs, ds);
      assert ds[i] in ds && ds[j] in ds;
      var a :| 0 <= a < |cs| && cs[a] == ds[i];
      var b :| 0 <= b < |cs| && cs[b] == ds[j];
      if a < b {
        assert !(Touches(cs[a], p) && Touches(cs[b], p));
      } else {
        assert !(Touches(cs[b], p) && Touches(cs[a], p));
      }
    }
  }

  lemma ApartReordered(cs: seq<Commit>, ds: seq<Commit>)
    requires Apart(cs) && Reordered(cs, ds)
    ensures Apart(ds)
  {
    hide Touches;
    forall i, j, p | 0 <= i < j < |ds| ensures !(Touches(ds[i], p) && Touches(ds[j], p)) { ApartPair(cs, ds, i, j, p); }
  }

  lemma OverlaysAgree(m3: Merger, head: Tree, cs: seq<Commit>, ds: seq<Commit>, t: Tree, u: Tree, p: Path)
    requires Reordered(cs, ds) && OverlaidAt(m3, head, cs, t, p) && OverlaidAt(m3, head, ds, u, p)
    ensures At(t, p) == At(u, p)
  {
    hide Picked, Touches;
    SameMembers(cs, ds);
    if exists i :: 0 <= i < |cs| && Touches(cs[i], p) {
      var i :| 0 <= i < |cs| && Touches(cs[i], p);
      assert cs[i] in cs;
      var j :| 0 <= j < |ds| && ds[j] == cs[i];
    } else {
      forall j | 0 <= j < |ds| ensures !Touches(ds[j], p) {
        assert ds[j] in ds;
        var i :| 0 <= i < |cs| && cs[i] == ds[j];
      }
    }
  }

  /** Peers may be merged in any order: the merge succeeds or fails alike, and gives
      the same tree. */
  lemma {:induction false} MergeOrderFree(m3: Merger, head: Tree, cs: seq<Commit>, ds: seq<Commit>)
    requires Apart(cs) && Reordered(cs, ds)
    ensures PickedAll(m3, head, cs) == PickedAll(m3, head, ds)
  {
    hide Picked, PickedAll, OverlaidAt, Apart;
    ApartReordered(cs, ds);
    MergeIsOverlay(m3, head, cs);
    MergeIsOverlay(m3, head, ds);
    SamePicks(m3, head, cs, ds);
    if PickedAll(m3, head, cs).Some? {
      var t, u := PickedAll(m3, head, cs).value, PickedAll(m3, head, ds).value;
      forall p ensures At(t, p) == At(u, p) { OverlaysAgree(m3, head, cs, ds, t, u, p); }
      TreesAgree(t, u);
    }
  }

  lemma SamePicks(m3: Merger, head: Tree, cs: seq<Commit>, ds: seq<Commit>)
    requires Reordered(cs, ds)
    ensures AllPick(m3, head, cs) == AllPick(m3, head, ds)
  {
    hide Picked;
    SameMembers(cs, ds);
    if AllPick(m3, head, cs) {
      forall j | 0 <= j < |ds| ensures Picked(m3, head, ds[j]).Some? {
        assert ds[j] in ds;
        var i :| 0 <= i < |cs| && cs[i] == ds[j];
      }
    }
    if AllPick(m3, head, ds) {
      forall i | 0 <= i < |cs| ensures Picked(m3, head, cs[i]).Some? {
        assert cs[i] in cs;
        var j :| 0 <= j < |ds| && ds[j] == cs[i];
      }
    }
  }

  // ---- a wave ----

  /** The commit of a peer changes only files its globs match. */
  ghost predicate InsideGlobs(m: Matcher, c: Commit, globs: seq<string>) {
    forall p :: Touches(c, p) ==> m.SetMatches(globs, p)
  }

  /** Peers that passed the overlap check and kept inside their globs are apart. */
  lemma WaveIsApart(m: Matcher, globs: seq<seq<string>>, cs: seq<Commit>)
    requires ReadsSimple(m) && |globs| == |cs| && PairwiseDisjoint(m, globs)
    requires forall i :: 0 <= i < |cs| ==> AllSimple(globs[i]) && InsideGlobs(m, cs[i], globs[i])
    ensures Apart(cs)
  {
    hide Touches, ReadsSimple, AllSimple, Overlap, Matcher.SetMatches;
    forall i, j, p | 0 <= i < j < |cs| ensures !(Touches(cs[i], p) && Touches(cs[j], p)) {
      OverlapExact(m, globs[i], globs[j]);
    }
  }

  /** The merged tree is the tree before the wave overlaid with all the peers' writes,
      where nobody else changed those files since the peers branched off. */
  lemma {:induction false} MergeIsPlainOverlay(m3: Merger, head: Tree, cs: seq<Commit>, i: nat, p: Path)
    requires Apart(cs) && PickedAll(m3, head, cs).Some? && i < |cs| && Touches(cs[i], p)
             && At(head, p) == At(cs[i].base, p)
    ensures At(PickedAll(m3, head, cs).value, p) == At(cs[i].tree, p)
  {
    hide PickedAll, Touches, Apart, MergedTree;
    MergeIsOverlay(m3, head, cs);
    assert OverlaidAt(m3, head, cs, PickedAll(m3, head, cs).value, p);
    MergedTreeAt(m3, head, cs[i], p);
  }

  // ---- when a merge goes through ----

  /** A pick goes through exactly when every file its commit touches combines, and one
      of them to something else than the tree has. */
  lemma {:induction false} PickExactly(m3: Merger, head: Tree, c: Commit)
    ensures Picked(m3, head, c).Some? <==>
            && (forall p :: Touches(c, p) ==> MergedAt(m3, head, c, p).Some?)
            && (exists p :: Touches(c, p) && MergedAt(m3, head, c, p) != Some(At(head, p)))
    ensures Picked(m3, head, c).Some? ==>
              forall p :: MergedAt(m3, head, c, p) == Some(At(Picked(m3, head, c).value, p))
  {
    hide MergedAt, MergedTree;
    ConflictExactly(m3, head, c);
    if !Conflicted(m3, head, c) {
      var t := MergedTree(m3, head, c);
      forall p ensures MergedAt(m3, head, c, p) == Some(At(t, p)) { MergedTreeAt(m3, head, c, p); }
      forall p | !Touches(c, p) ensures MergedAt(m3, head, c, p) == Some(At(head, p)) {
        UntouchedStays(m3, head, c, p);
      }
      if forall p :: Touches(c, p) ==> MergedAt(m3, head, c, p) == Some(At(head, p)) {
        forall p ensures At(t, p) == At(head, p) { assert MergedAt(m3, head, c, p) == Some(At(t, p)); }
        TreesAgree(t, head);
      }
    }
  }

  lemma {:induction false} ConflictExactly(m3: Merger, head: Tree, c: Commit)
    ensures Conflicted(m3, head, c) <==> exists p :: Touches(c, p) && MergedAt(m3, head, c, p).None?
  {
    if exists p :: Touches(c, p) && MergedAt(m3, head, c, p).None? {
      var p :| Touches(c, p) && MergedAt(m3, head, c, p).None?;
      assert p in AllPaths(head, c);
    }
    if Conflicted(m3, head, c) {
      var p :| p in AllPaths(head, c) && MergedAt(m3, head, c, p).None?;
      assert Touches(c, p);
    }
  }

  ghost predicate Changes(c: Commit) { exists p :: Touches(c, p) }

  /** Nobody changed what these commits change since they branched off. */
  ghost predicate BranchedHere(head: Tree, cs: seq<Commit>) {
    forall i, p :: 0 <= i < |cs| && Touches(cs[i], p) ==> At(head, p) == At(cs[i].base, p)
  }

  lemma {:induction false} CleanPick(m3: Merger, head: Tree, c: Commit)
    requires forall p :: Touches(c, p) ==> At(head, p) == At(c.base, p)
    ensures Picked(m3, head, c).Some? <==> Changes(c)
  {
    hide Picked;
    PickExactly(m3, head, c);
    if Changes(c) {
      var p :| Touches(c, p);
      assert MergedAt(m3, head, c, p) != Some(At(head, p));
    }
  }

  /** Commits on different files that nobody else changed merge if and only if every
      one of them changes something. */
  lemma {:induction false} MergeExactly(m3: Merger, head: Tree, cs: seq<Commit>)
    requires Apart(cs) && BranchedHere(head, cs)
    ensures PickedAll(m3, head, cs).Some? <==> forall i :: 0 <= i < |cs| ==> Changes(cs[i])
  {
    hide PickedAll, Picked, Apart, Touches, Changes;
    MergeIsOverlay(m3, head, cs);
    forall i | 0 <= i < |cs| ensures Picked(m3, head, cs[i]).Some? <==> Changes(cs[i]) {
      assert forall p :: Touches(cs[i], p) ==> At(head, p) == At(cs[i].base, p);
      CleanPick(m3, head, cs[i]);
    }
  }

  // ---- a peer that changed nothing ----
  //
  // It hands in the commit that all peers branched off, `start` below, with the tree
  // of that commit's own parent as its base.

  lemma {:induction false} InTurn(m3: Merger, head: Tree, before: seq<Commit>, after: seq<Commit>)
    ensures PickedAll(m3, head, before + after) ==
            var t := PickedAll(m3, head, before);
            if t.None? then None else PickedAll(m3, t.value, after)
    decreases |before|
  {
    hide Picked;
    if before == [] {
      assert before + after == after;
    } else {
      assert (before + after)[0] == before[0] && (before + after)[1..] == before[1..] + after;
      var next := Picked(m3, head, before[0]);
      if next.Some? { InTurn(m3, next.value, before[1..], after); }
    }
  }

  /** Some file of the commit was changed since, every one that was combines with it,
      and one of them to something else than the tree has now. */
  ghost predicate Revives(m3: Merger, t: Tree, start: Commit) {
    && (forall p :: Touches(start, p) && At(t, p) != At(start.tree, p) ==> MergedAt(m3, t, start, p).Some?)
    && (exists p :: Touches(start, p) && At(t, p) != At(start.tree, p) && MergedAt(m3, t, start, p) != Some(At(t, p)))
  }

  lemma {:induction false} StartPick(m3: Merger, t: Tree, start: Commit)
    ensures Picked(m3, t, start).Some? <==> Revives(m3, t, start)
  {
    hide Picked;
    PickExactly(m3, t, start);
  }

  /** A wave with an idle peer in it, wherever that stands: it merges exactly when the
      peers before it merge, then the commit they all branched off brings something
      back that was changed since, and the others merge on top of that. */
  lemma {:induction false} IdlePeerExactly(m3: Merger, head: Tree, before: seq<Commit>, start: Commit,
                                           after: seq<Commit>)
    ensures PickedAll(m3, head, before + [start] + after).Some? <==>
            && PickedAll(m3, head, before).Some?
            && Revives(m3, PickedAll(m3, head, before).value, start)
            && PickedAll(m3, Picked(m3, PickedAll(m3, head, before).value, start).value, after).Some?
  {
    hide PickedAll, Picked, Revives;
    InTurn(m3, head, before + [start], after);
    InTurn(m3, head, before, [start]);
    if PickedAll(m3, head, before).Some? {
      var t := PickedAll(m3, head, before).value;
      StartPick(m3, t, start);
      OnePick(m3, t, start);
    }
  }

  lemma {:induction false} OnePick(m3: Merger, t: Tree, c: Commit)
    ensures PickedAll(m3, t, [c]) == Picked(m3, t, c)
  {
    hide Picked;
    assert [c][1..] == [];
  }

  /** So it blocks the wave whenever nobody changed a file of that commit since: not an
      accepted unit before the wave, and not a peer before it. */
  lemma {:induction false} IdlePeerBlocks(m3: Merger, head: Tree, before: seq<Commit>, start: Commit,
                                          after: seq<Commit>)
    requires forall p :: Touches(start, p) ==> At(head, p) == At(start.tree, p)
    requires forall i, p :: 0 <= i < |before| && Touches(start, p) ==> !Touches(before[i], p)
    ensures PickedAll(m3, head, before + [start] + after).None?
  {
    hide PickedAll, Picked, Touches;
    IdlePeerExactly(m3, head, before, start, after);
    if PickedAll(m3, head, before).Some? {
      forall p | Touches(start, p) ensures At(PickedAll(m3, head, before).value, p) == At(start.tree, p) {
        UntouchedByAll(m3, head, before, p);
      }
    }
  }

  lemma {:induction false} UntouchedByAll(m3: Merger, head: Tree, cs: seq<Commit>, p: Path)
    requires PickedAll(m3, head, cs).Some? && forall i :: 0 <= i < |cs| ==> !Touches(cs[i], p)
    ensures At(PickedAll(m3, head, cs).value, p) == At(head, p)
    decreases |cs|
  {
    hide Picked, Touches;
    if cs != [] {
      PickedAt(m3, head, cs[0], p);
      UntouchedByAll(m3, Picked(m3, head, cs[0]).value, cs[1..], p);
    }
  }

  /** And where an accepted unit had put files back as they were before that commit, an
      idle peer undoes it: without a merger at work, it goes through exactly when there
      is such a file, and takes them all back. */
  lemma {:induction false} IdlePeerUndoes(m3: Merger, t: Tree, start: Commit)
    requires forall p :: Touches(start, p) ==> At(t, p) == At(start.tree, p) || At(t, p) == At(start.base, p)
    ensures Picked(m3, t, start).Some? <==> exists p :: Touches(start, p) && At(t, p) == At(start.base, p)
    ensures Picked(m3, t, start).Some? ==>
              forall p :: Touches(start, p) ==> At(Picked(m3, t, start).value, p) == At(start.tree, p)
  {
    hide Picked;
    PickExactly(m3, t, start);
    if exists p :: Touches(start, p) && At(t, p) == At(start.base, p) {
      var p :| Touches(start, p) && At(t, p) == At(start.base, p);
      assert MergedAt(m3, t, start, p) != Some(At(t, p));
    }
  }

  // ---- a file and two contents ----

  function One(text: Content): Tree { map["f" := text] }

  /** The file is changed from x to y. */
  function Flip(x: Content, y: Content): Commit { Commit(One(x), One(y)) }

  /** Picked where the file still is x, and refused where it is y already. */
  lemma {:induction false} FlipPicks(m3: Merger, x: Content, y: Content)
    requires x != y
    ensures Picked(m3, One(x), Flip(x, y)) == Some(One(y)) && Picked(m3, One(y), Flip(x, y)).None?
  {
    hide Picked;
    var c := Flip(x, y);
    PickExactly(m3, One(x), c);
    PickExactly(m3, One(y), c);
    assert Touches(c, "f") && MergedAt(m3, One(x), c, "f") == Some(Some(y));
    assert Picked(m3, One(x), c).Some?;
    var t := Picked(m3, One(x), c).value;
    forall p ensures At(t, p) == At(One(y), p) { assert MergedAt(m3, One(x), c, p) == Some(At(t, p)); }
    TreesAgree(t, One(y));
  }

  /** An idle peer alone blocks its wave; after a peer that puts the file back it goes
      through, and nothing of that peer's work is left. */
  lemma {:induction false} IdlePeerAlone(m3: Merger)
    ensures var start, back := Flip("0", "1"), Flip("1", "0");
            PickedAll(m3, One("1"), [start]).None? && PickedAll(m3, One("1"), [back, start]) == Some(One("1"))
  {
    hide Picked;
    var start, back := Flip("0", "1"), Flip("1", "0");
    FlipPicks(m3, "0", "1");
    FlipPicks(m3, "1", "0");
    OnePick(m3, One("1"), start);
    OnePick(m3, One("0"), start);
    assert [back, start][1..] == [start];
  }
}
