/** In which order the topological sort lists the nodes (topo_sort in
    crates/wanax-core/src/dag.rs). */
module DagOrder {
  import opened Types
  import opened Order
  import opened Dag

  /** The first i nodes of r are what x had to wait for: all its dependencies are among
      them, and not all among fewer. A node without dependencies waits for none. */
  ghost predicate Released(g: Graph, r: seq<string>, x: string, i: nat) {
    && i <= |r| && x in g.deps
    && (forall d :: d in g.deps[x] ==> d in r[..i])
    && (i > 0 ==> exists d :: d in g.deps[x] && d !in r[..i - 1])
  }

  /** The node at p was released before it was listed, by the first n nodes. */
  ghost predicate ReleasedIn(g: Graph, r: seq<string>, p: nat, n: nat)
    requires p < |r|
  {
    exists i: nat :: i <= n && i <= p && Released(g, r, r[p], i)
  }

  /** Nodes are listed as they are released, and those released together in code-point
      order: first of all the nodes without dependencies. */
  ghost predicate InReleaseOrder(g: Graph, r: seq<string>) {
    && (forall p: nat :: p < |r| ==> ReleasedIn(g, r, p, |r|))
    && (forall p: nat, q: nat, i: nat, j: nat :: p < q < |r| && Released(g, r, r[p], i) && Released(g, r, r[q], j) ==>
          i < j || (i == j && r[p] != r[q] && CodePointLe(r[p], r[q])))
  }

  lemma ReleasedOnce(g: Graph, r: seq<string>, x: string, i: nat, j: nat)
    requires Released(g, r, x, i) && Released(g, r, x, j)
    ensures i == j
  {
    hide Released;
    if i < j { NotLater(g, r, x, i, j); }
    if j < i { NotLater(g, r, x, j, i); }
  }

  lemma NotLater(g: Graph, r: seq<string>, x: string, i: nat, j: nat)
    requires Released(g, r, x, i) && i < j
    ensures !Released(g, r, x, j)
  {
    assert j <= |r| ==> forall d :: d in r[..i] ==> d in r[..j - 1];
  }

  lemma ReleasedBefore(g: Graph, w: seq<string>, v: seq<string>, x: string, i: nat)
    requires w <= v && i <= |w|
    ensures Released(g, w, x, i) <==> Released(g, v, x, i)
  {
    assert v[..i] == w[..i];
    if i > 0 { assert v[..i - 1] == w[..i - 1]; }
  }

  // ---- what the queue keeps ----

  /** The nodes listed and queued, of which the first n have released all. */
  ghost predicate Layered(g: Graph, w: seq<string>, n: nat) {
    && (forall p: nat :: p < |w| ==> ReleasedIn(g, w, p, n))
    && (forall p: nat, q: nat, i: nat, j: nat :: p < q < |w| && Released(g, w, w[p], i) && Released(g, w, w[q], j) ==>
          i < j || (i == j && w[p] != w[q] && StrLe(w[p], w[q])))
  }

  lemma FreedIsReleased(g: Graph, out: seq<string>, q: seq<string>, w: seq<string>, x: string)
    requires Frontier(g, out, q) && q != [] && out + q <= w && x in FreedBy(g, out + [q[0]], q[0])
    ensures Released(g, w, x, |out| + 1)
  {
    PoppedIsNew(g, out, q);
    assert w[..|out| + 1] == out + [q[0]] by {
      assert w[..|out + q|] == out + q && (out + q)[..|out| + 1] == out + [q[0]];
    }
    assert w[..|out|] == out by { assert (out + q)[..|out|] == out; }
    assert q[0] in g.deps[x] && q[0] !in out;
  }

  /** Where the nodes of w, and those freed after it, were released. */
  ghost predicate ReleasedHere(g: Graph, w: seq<string>, v: seq<string>, n: nat, p: nat, i: nat) {
    p < |v| && Released(g, v, v[p], i) && i <= p && if p < |w| then i <= n else i == n + 1
  }

  lemma {:induction false} Where(g: Graph, out: seq<string>, q: seq<string>, p: nat) returns (i: nat)
    requires Frontier(g, out, q) && q != [] && Layered(g, out + q, |out|)
    requires p < |out + q + SortedSet(FreedBy(g, out + [q[0]], q[0]))|
    ensures ReleasedHere(g, out + q, out + q + SortedSet(FreedBy(g, out + [q[0]], q[0])), |out|, p, i)
  {
    hide FreedBy, SortedSet, Released;
    var w, freed := out + q, SortedSet(FreedBy(g, out + [q[0]], q[0]));
    var v := w + freed;
    if p < |w| {
      assert ReleasedIn(g, w, p, |out|);
      i :| i <= |out| && i <= p && Released(g, w, w[p], i);
      ReleasedBefore(g, w, v, w[p], i);
    } else {
      i := |out| + 1;
      assert v[p] == freed[p - |w|] && freed[p - |w|] in freed;
      FreedIsReleased(g, out, q, v, v[p]);
    }
  }

  lemma {:induction false} PopKeepsLayers(g: Graph, out: seq<string>, q: seq<string>)
    requires Frontier(g, out, q) && q != [] && Layered(g, out + q, |out|)
    ensures Layered(g, out + q + SortedSet(FreedBy(g, out + [q[0]], q[0])), |out| + 1)
  {
    hide FreedBy, SortedSet, Released;
    var w, freed := out + q, SortedSet(FreedBy(g, out + [q[0]], q[0]));
    var v, n := w + freed, |out|;
    SortedSetIncreasing(FreedBy(g, out + [q[0]], q[0]));
    forall p: nat, k: nat, i: nat, j: nat | p < k < |v| && Released(g, v, v[p], i) && Released(g, v, v[k], j)
      ensures i < j || (i == j && v[p] != v[k] && StrLe(v[p], v[k]))
    {
      var a := Where(g, out, q, p);
      var b := Where(g, out, q, k);
      ReleasedOnce(g, v, v[p], i, a);
      ReleasedOnce(g, v, v[k], j, b);
      if k < |w| {
        ReleasedBefore(g, w, v, w[p], i);
        ReleasedBefore(g, w, v, w[k], j);
      } else if p >= |w| {
        assert v[p] == freed[p - |w|] && v[k] == freed[k - |w|];
      }
    }
    var next := n + 1;
    forall p: nat | p < |v| ensures ReleasedIn(g, v, p, next) {
      var i := Where(g, out, q, p);
    }
  }

  lemma {:induction false} KahnLayers(g: Graph, out: seq<string>, q: seq<string>)
    requires Frontier(g, out, q) && Layered(g, out + q, |out|)
    ensures var r := Kahn(g, out, q); Layered(g, r, |r|)
    decreases |g.ids| - |out|
  {
    hide Layered, FreedBy, SortedSet;
    if q == [] {
      assert out + q == out;
    } else {
      PopKeepsFrontier(g, out, q);
      OutputBound(g, out, q);
      PopKeepsLayers(g, out, q);
      var freed := SortedSet(FreedBy(g, out + [q[0]], q[0]));
      assert (out + [q[0]]) + (q[1..] + freed) == out + q + freed;
      KahnLayers(g, out + [q[0]], q[1..] + freed);
    }
  }

  lemma {:induction false} StartLayers(g: Graph)
    requires WellFormed(g)
    ensures Layered(g, SortedSet(Available(g, [])), 0)
  {
    hide SortedSet;
    var w := SortedSet(Available(g, []));
    SortedSetIncreasing(Available(g, []));
    forall p: nat | p < |w| ensures Released(g, w, w[p], 0) && ReleasedIn(g, w, p, 0) { assert w[p] in w; }
    forall p: nat, q: nat, i: nat, j: nat | p < q < |w| && Released(g, w, w[p], i) && Released(g, w, w[q], j)
      ensures i == j && w[p] != w[q] && StrLe(w[p], w[q])
    {
      ReleasedOnce(g, w, w[p], i, 0);
      ReleasedOnce(g, w, w[q], j, 0);
    }
  }

  lemma LayersInOrder(g: Graph, r: seq<string>)
    requires Layered(g, r, |r|)
    ensures InReleaseOrder(g, r)
  {
    hide Released, StrLe, CodePointLe;
    forall p: nat, k: nat | p < k < |r| ensures StrLe(r[p], r[k]) <==> CodePointLe(r[p], r[k]) {
      StrLeExactly(r[p], r[k]);
    }
  }

  /** The sorted list of any nodes. */
  lemma {:induction false} SortedInReleaseOrder(nodes: seq<Node>)
    requires Sorted(nodes).Ok?
    ensures InReleaseOrder(GraphOf(nodes), Sorted(nodes).value)
  {
    hide Layered, InReleaseOrder, SortedSet, Available, Frontier;
    var g := GraphOf(nodes);
    var q := SortedSet(Available(g, []));
    StartFrontier(g);
    StartLayers(g);
    assert [] + q == q;
    KahnLayers(g, [], q);
    LayersInOrder(g, Sorted(nodes).value);
  }

  // ---- and no other list ----

  lemma {:induction false} AgreeFurther(g: Graph, r: seq<string>, s: seq<string>, k: nat)
    requires TopologicalOrder(g, r) && TopologicalOrder(g, s) && InReleaseOrder(g, r) && InReleaseOrder(g, s)
    requires k < |r| && k < |s| && r[..k] == s[..k]
    ensures r[k] == s[k]
  {
    hide Released, CodePointLe, DepsEarlier;
    var i := ReleaseOf(g, r, k);
    var j := ReleaseOf(g, s, k);
    SharedRelease(g, r, s, k, r[k], i);
    SharedRelease(g, s, r, k, s[k], j);
    if r[k] != s[k] {
      var p := Later(g, r, s, k);
      var q := Later(g, s, r, k);
      assert s[p] == r[k] && r[q] == s[k];
      StrLeExactly(r[k], s[k]);
      StrLeExactly(s[k], r[k]);
      StrLeAntisymmetric(r[k], s[k]);
    }
  }

  lemma ReleaseOf(g: Graph, r: seq<string>, p: nat) returns (i: nat)
    requires InReleaseOrder(g, r) && p < |r|
    ensures i <= p && Released(g, r, r[p], i)
  {
    assert ReleasedIn(g, r, p, |r|);
    i :| i <= |r| && i <= p && Released(g, r, r[p], i);
  }

  lemma SharedRelease(g: Graph, r: seq<string>, s: seq<string>, k: nat, x: string, i: nat)
    requires k <= |r| && k <= |s| && r[..k] == s[..k] && i <= k && Released(g, r, x, i)
    ensures Released(g, s, x, i)
  {
    assert r[..i] == r[..k][..i] && s[..i] == s[..k][..i];
    if i > 0 { assert r[..i - 1] == r[..k][..i - 1] && s[..i - 1] == s[..k][..i - 1]; }
  }

  /** What r lists at k, where the two part, s lists later. */
  lemma Later(g: Graph, r: seq<string>, s: seq<string>, k: nat) returns (p: nat)
    requires TopologicalOrder(g, r) && TopologicalOrder(g, s)
    requires k < |r| && k < |s| && r[..k] == s[..k] && r[k] != s[k]
    ensures k < p < |s| && s[p] == r[k]
  {
    assert r[k] in r;
    p :| 0 <= p < |s| && s[p] == r[k];
    assert forall i :: 0 <= i < k ==> r[i] == r[..k][i] == s[..k][i] == s[i];
  }

  lemma {:induction false} Agree(g: Graph, r: seq<string>, s: seq<string>, k: nat)
    requires TopologicalOrder(g, r) && TopologicalOrder(g, s) && InReleaseOrder(g, r) && InReleaseOrder(g, s)
    requires k <= |r| && k <= |s|
    ensures r[..k] == s[..k]
    decreases k
  {
    hide TopologicalOrder, InReleaseOrder;
    if k > 0 {
      Agree(g, r, s, k - 1);
      AgreeFurther(g, r, s, k - 1);
      assert r[..k] == r[..k - 1] + [r[k - 1]] && s[..k] == s[..k - 1] + [s[k - 1]];
    }
  }

  /** A list is what the sort returns if and only if it holds every node once, after its
      dependencies, and in the order of release. */
  lemma {:induction false} SortedIsTheOrder(nodes: seq<Node>, r: seq<string>)
    requires Sorted(nodes).Ok?
    ensures r == Sorted(nodes).value <==> TopologicalOrder(GraphOf(nodes), r) && InReleaseOrder(GraphOf(nodes), r)
  {
    hide InReleaseOrder, Sorted;
    var g, s := GraphOf(nodes), Sorted(nodes).value;
    SortedInReleaseOrder(nodes);
    SortedExactly(nodes);
    if TopologicalOrder(g, r) && InReleaseOrder(g, r) {
      SameLength(g, r, s);
      Agree(g, r, s, |r|);
      assert r[..|r|] == r && s[..|s|] == s;
    }
  }

  lemma SameLength(g: Graph, r: seq<string>, s: seq<string>)
    requires TopologicalOrder(g, r) && TopologicalOrder(g, s)
    ensures |r| == |s|
  {
    hide DepsEarlier;
    NoRepeatsCount(r);
    NoRepeatsCount(s);
    assert Elements(r) == Elements(s);
  }
}
