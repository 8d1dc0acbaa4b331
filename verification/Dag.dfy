/** Topological sorting of work units by Kahn's algorithm with a sorted frontier
    (crates/wanax-core/src/dag.rs). */
module Dag {
  import opened Types
  import opened Order

  datatype Node = Node(id: string, deps: seq<string>)

  /** The dependency relation, without order or repetition. */
  datatype Graph = Graph(ids: set<string>, deps: map<string, set<string>>)

  function IdsOf(nodes: seq<Node>): set<string> { set n | n in nodes :: n.id }

  function DepsOf(nodes: seq<Node>, id: string): set<string> {
    set n, d | n in nodes && n.id == id && d in n.deps :: d
  }

  function GraphOf(nodes: seq<Node>): Graph {
    Graph(IdsOf(nodes), map id | id in IdsOf(nodes) :: DepsOf(nodes, id))
  }

  predicate WellFormed(g: Graph) { g.deps.Keys == g.ids }

  /** Every dependency is a node. */
  predicate Known(g: Graph)
    requires WellFormed(g)
  {
    forall id :: id in g.ids ==> g.deps[id] <= g.ids
  }

  function Elements(s: seq<string>): set<string> { set x | x in s }

  predicate NoRepeats(s: seq<string>) { forall i, j :: 0 <= i < j < |s| ==> s[i] != s[j] }

  // ---- the algorithm as a function of the graph ----

  function Available(g: Graph, out: seq<string>): set<string>
    requires WellFormed(g)
  {
    set id | id in g.ids && g.deps[id] <= Elements(out)
  }

  /** Nodes that became available when `id` was appended last to `out`. */
  function FreedBy(g: Graph, out: seq<string>, id: string): set<string>
    requires WellFormed(g)
  {
    set x | x in g.ids && id in g.deps[x] && g.deps[x] <= Elements(out)
  }

  /** What has been output and what is queued are exactly the available nodes. */
  ghost predicate Frontier(g: Graph, out: seq<string>, q: seq<string>) {
    && WellFormed(g)
    && NoRepeats(out + q)
    && (forall x :: x in out + q <==> x in Available(g, out))
  }

  lemma PoppedIsNew(g: Graph, out: seq<string>, q: seq<string>)
    requires Frontier(g, out, q) && q != []
    ensures q[0] !in out && Elements(out + [q[0]]) == Elements(out) + {q[0]}
    ensures out + q == (out + [q[0]]) + q[1..]
  {
    assert (out + q)[|out|] == q[0];
    forall k | 0 <= k < |out| ensures out[k] != q[0] { assert (out + q)[k] == out[k]; }
  }

  lemma FreedIsNew(g: Graph, out: seq<string>, q: seq<string>, x: string)
    requires Frontier(g, out, q) && q != [] && x in FreedBy(g, out + [q[0]], q[0])
    ensures x !in out + q
  {
    PoppedIsNew(g, out, q);
    assert q[0] in g.deps[x] && q[0] !in Elements(out);
  }

  lemma AvailableAfterPop(g: Graph, out: seq<string>, q: seq<string>, x: string)
    requires Frontier(g, out, q) && q != []
    ensures x in Available(g, out + [q[0]]) <==> x in out + q || x in FreedBy(g, out + [q[0]], q[0])
  {
    PoppedIsNew(g, out, q);
    if x in g.ids && q[0] !in g.deps[x] {
      assert g.deps[x] <= Elements(out) + {q[0]} <==> g.deps[x] <= Elements(out);
    }
  }

  lemma NoRepeatsAppend(a: seq<string>, b: seq<string>)
    requires NoRepeats(a) && NoRepeats(b) && forall x :: x in b ==> x !in a
    ensures NoRepeats(a + b)
  {
    forall i, j | 0 <= i < j < |a + b| ensures (a + b)[i] != (a + b)[j] {
      if i < |a| && j >= |a| { assert b[j - |a|] in b && a[i] in a; }
    }
  }

  lemma PopKeepsFrontier(g: Graph, out: seq<string>, q: seq<string>)
    requires Frontier(g, out, q) && q != []
    ensures var out' := out + [q[0]]; Frontier(g, out', q[1..] + SortedSet(FreedBy(g, out', q[0])))
  {
    hide SortedSet, FreedBy, Available;
    var out' := out + [q[0]];
    var freed := SortedSet(FreedBy(g, out', q[0]));
    SortedSetIncreasing(FreedBy(g, out', q[0]));
    PoppedIsNew(g, out, q);
    forall x | x in freed ensures x !in out + q {
      FreedIsNew(g, out, q, x);
    }
    NoRepeatsAppend(out + q, freed);
    assert out' + (q[1..] + freed) == (out + q) + freed;
    forall x ensures x in (out + q) + freed <==> x in Available(g, out') {
      AvailableAfterPop(g, out, q, x);
    }
  }

  lemma OutputBound(g: Graph, out: seq<string>, q: seq<string>)
    requires Frontier(g, out, q)
    ensures |out| + |q| <= |g.ids|
  {
    var all := out + q;
    NoRepeatsCount(all);
    SubsetCount(Elements(all), g.ids);
  }

  lemma {:induction false} NoRepeatsCount(s: seq<string>)
    requires NoRepeats(s)
    ensures |Elements(s)| == |s|
  {
    if s != [] {
      NoRepeatsCount(s[1..]);
      assert Elements(s) == {s[0]} + Elements(s[1..]);
      assert s[0] !in s[1..];
    }
  }

  lemma SubsetCount(a: set<string>, b: set<string>)
    requires a <= b
    ensures |a| <= |b|
    ensures |a| == |b| ==> a == b
  {
    assert b == a + (b - a);
    assert |b| == |a| + |b - a|;
  }

  ghost function Kahn(g: Graph, out: seq<string>, q: seq<string>): (r: seq<string>)
    requires Frontier(g, out, q)
    ensures Frontier(g, r, [])
    decreases |g.ids| - |out|
  {
    if q == [] then out
    else
      PopKeepsFrontier(g, out, q);
      OutputBound(g, out, q);
      var out' := out + [q[0]];
      Kahn(g, out', q[1..] + SortedSet(FreedBy(g, out', q[0])))
  }

  lemma StartFrontier(g: Graph)
    requires WellFormed(g)
    ensures Frontier(g, [], SortedSet(Available(g, [])))
  {
    SortedSetIncreasing(Available(g, []));
    assert [] + SortedSet(Available(g, [])) == SortedSet(Available(g, []));
  }

  ghost function KahnOrder(g: Graph): (r: seq<string>)
    requires WellFormed(g)
    ensures Frontier(g, r, [])
  {
    StartFrontier(g);
    Kahn(g, [], SortedSet(Available(g, [])))
  }

  /** The result of the sort. */
  ghost function Sorted(nodes: seq<Node>): Result<seq<string>, ErrorCode> {
    var g := GraphOf(nodes);
    if |g.ids| != |nodes| then Err(EDagCycle)
    else if !Known(g) then Err(ECommanderSchema)
    else if |KahnOrder(g)| != |nodes| then Err(EDagCycle)
    else Ok(KahnOrder(g))
  }

  // ---- what it computes ----

  ghost predicate DepsEarlier(g: Graph, r: seq<string>) {
    forall i, d :: 0 <= i < |r| && r[i] in g.deps && d in g.deps[r[i]] ==> d in r[..i]
  }

  /** A permutation of the nodes in which dependencies come first. */
  ghost predicate TopologicalOrder(g: Graph, r: seq<string>) {
    && NoRepeats(r)
    && (forall x :: x in r <==> x in g.ids)
    && DepsEarlier(g, r)
  }

  lemma {:induction false} KahnDepsEarlier(g: Graph, out: seq<string>, q: seq<string>)
    requires Frontier(g, out, q) && DepsEarlier(g, out)
    ensures DepsEarlier(g, Kahn(g, out, q))
    decreases |g.ids| - |out|
  {
    if q != [] {
      PopKeepsFrontier(g, out, q);
      OutputBound(g, out, q);
      var out' := out + [q[0]];
      assert (out + q)[|out|] == q[0] && q[0] in Available(g, out);
      forall i, d | 0 <= i < |out'| && out'[i] in g.deps && d in g.deps[out'[i]] ensures d in out'[..i] {
        if i < |out| { assert out'[..i] == out[..i]; } else { assert out'[..i] == out; }
      }
      KahnDepsEarlier(g, out', q[1..] + SortedSet(FreedBy(g, out', q[0])));
    }
  }

  /** A closed walk along dependencies. */
  ghost predicate IsCycle(g: Graph, p: seq<string>) {
    && |p| >= 2 && p[0] == p[|p| - 1]
    && IsWalk(g, p)
  }

  ghost predicate IsWalk(g: Graph, p: seq<string>) {
    forall i :: 0 <= i < |p| - 1 ==> p[i] in g.deps && p[i + 1] in g.deps[p[i]]
  }

  ghost predicate Acyclic(g: Graph) { !exists p :: IsCycle(g, p) }

  /** Walking along dependencies only goes backwards in a topological order. */
  lemma {:induction false} WalkGoesBack(g: Graph, r: seq<string>, p: seq<string>, i: nat, k: nat) returns (j: nat)
    requires TopologicalOrder(g, r) && IsWalk(g, p)
    requires k < |p| && i < |r| && r[i] == p[0]
    ensures j < |r| && r[j] == p[k] && j + k <= i
    decreases k
  {
    if k == 0 {
      j := i;
    } else {
      var j0 := WalkGoesBack(g, r, p, i, k - 1);
      assert p[(k - 1) + 1] in g.deps[p[k - 1]];
      assert p[k] in r[..j0];
      j :| 0 <= j < j0 && r[j] == p[k];
    }
  }

  lemma NoClosedWalk(g: Graph, r: seq<string>, p: seq<string>)
    requires TopologicalOrder(g, r) && WellFormed(g) && IsWalk(g, p) && |p| >= 2
    ensures p[0] != p[|p| - 1]
  {
    assert p[0] in g.deps;
    assert p[0] in r;
    var i :| 0 <= i < |r| && r[i] == p[0];
    var j := WalkGoesBack(g, r, p, i, |p| - 1);
    assert j < i && r[j] != r[i];
  }

  lemma TopologicalMeansAcyclic(g: Graph, r: seq<string>)
    requires TopologicalOrder(g, r) && WellFormed(g)
    ensures Acyclic(g)
  {
    forall p | |p| >= 2 && IsWalk(g, p) ensures p[0] != p[|p| - 1] { NoClosedWalk(g, r, p); }
  }

  /** A nonempty set in which every node still has a dependency holds a cycle. */
  lemma StuckMeansCycle(g: Graph, stuck: set<string>)
    requires WellFormed(g) && stuck <= g.ids && stuck != {}
    requires forall x :: x in stuck ==> g.deps[x] * stuck != {}
    ensures !Acyclic(g)
  {
    var x :| x in stuck;
    var p := LongWalk(g, stuck, x, |stuck|);
    var i, j := Repeats(p, stuck);
    var c := p[i..j + 1];
    forall k | 0 <= k < |c| - 1 ensures c[k] in g.deps && c[k + 1] in g.deps[c[k]] {
      assert c[k] == p[i + k] && c[k + 1] == p[(i + k) + 1];
    }
    assert IsCycle(g, c);
  }

  lemma {:induction false} LongWalk(g: Graph, stuck: set<string>, x: string, n: nat) returns (p: seq<string>)
    requires WellFormed(g) && stuck <= g.ids && x in stuck
    requires forall y :: y in stuck ==> g.deps[y] * stuck != {}
    ensures |p| == n + 1 && p[0] == x && IsWalk(g, p) && forall i :: 0 <= i < |p| ==> p[i] in stuck
    decreases n
  {
    if n == 0 {
      p := [x];
    } else {
      var y :| y in g.deps[x] * stuck;
      var rest := LongWalk(g, stuck, y, n - 1);
      p := [x] + rest;
      forall i | 0 <= i < |p| - 1 ensures p[i] in g.deps && p[i + 1] in g.deps[p[i]] {
        if i > 0 { assert p[i] == rest[i - 1] && p[i + 1] == rest[(i - 1) + 1]; }
      }
    }
  }

  lemma Repeats(p: seq<string>, s: set<string>) returns (i: nat, j: nat)
    requires |p| > |s| && forall k :: 0 <= k < |p| ==> p[k] in s
    ensures i < j < |p| && p[i] == p[j]
  {
    if NoRepeats(p) {
      NoRepeatsCount(p);
      SubsetCount(Elements(p), s);
      assert false;
    }
    i, j :| 0 <= i < j < |p| && p[i] == p[j];
  }

  lemma OrderIsComplete(g: Graph)
    requires WellFormed(g)
    ensures var r := KahnOrder(g); Available(g, r) <= Elements(r) <= g.ids && NoRepeats(r)
  {
    hide KahnOrder;
    assert KahnOrder(g) + [] == KahnOrder(g);
  }

  lemma ShortOrderMeansCycle(g: Graph)
    requires WellFormed(g) && Known(g) && |KahnOrder(g)| != |g.ids|
    ensures !Acyclic(g)
  {
    hide KahnOrder, Available, Acyclic;
    var r := KahnOrder(g);
    OrderIsComplete(g);
    NoRepeatsCount(r);
    SubsetCount(Elements(r), g.ids);
    var stuck := g.ids - Elements(r);
    SubsetCount(g.ids, Elements(r) + stuck);
    forall x | x in stuck ensures g.deps[x] * stuck != {} { StillWaits(g, r, x); }
    StuckMeansCycle(g, stuck);
  }

  lemma StillWaits(g: Graph, r: seq<string>, x: string)
    requires WellFormed(g) && Known(g) && Available(g, r) <= Elements(r) && x in g.ids - Elements(r)
    ensures g.deps[x] * (g.ids - Elements(r)) != {}
  {
    assert x !in Available(g, r);
    var d :| d in g.deps[x] && d !in Elements(r);
    assert d in g.deps[x] * (g.ids - Elements(r));
  }

  lemma FullOrderIsTopological(g: Graph)
    requires WellFormed(g) && |KahnOrder(g)| == |g.ids|
    ensures TopologicalOrder(g, KahnOrder(g))
  {
    var r := KahnOrder(g);
    assert r + [] == r;
    StartFrontier(g);
    KahnDepsEarlier(g, [], SortedSet(Available(g, [])));
    NoRepeatsCount(r);
    SubsetCount(Elements(r), g.ids);
    assert forall x :: x in r <==> x in Elements(r);
  }

  predicate UniqueIds(nodes: seq<Node>) {
    forall i, j :: 0 <= i < j < |nodes| ==> nodes[i].id != nodes[j].id
  }

  lemma {:induction false} IdsOfConcat(nodes: seq<Node>)
    requires nodes != []
    ensures IdsOf(nodes) == {nodes[0].id} + IdsOf(nodes[1..])
  {
    forall x ensures x in IdsOf(nodes) <==> x in {nodes[0].id} + IdsOf(nodes[1..]) {
      if x in IdsOf(nodes) {
        var n :| n in nodes && n.id == x;
        if n != nodes[0] { assert n in nodes[1..]; }
      }
      if x in IdsOf(nodes[1..]) {
        var n :| n in nodes[1..] && n.id == x;
        assert n in nodes;
      }
    }
  }

  lemma {:induction false} UniqueByCount(nodes: seq<Node>)
    ensures |IdsOf(nodes)| <= |nodes|
    ensures |IdsOf(nodes)| == |nodes| <==> UniqueIds(nodes)
  {
    if nodes != [] {
      UniqueByCount(nodes[1..]);
      IdsOfConcat(nodes);
      if nodes[0].id in IdsOf(nodes[1..]) {
        var n :| n in nodes[1..] && n.id == nodes[0].id;
        var k :| 0 <= k < |nodes[1..]| && nodes[1..][k] == n;
        assert nodes[0].id == nodes[k + 1].id;
        assert {nodes[0].id} + IdsOf(nodes[1..]) == IdsOf(nodes[1..]);
      } else {
        forall j | 1 <= j < |nodes| ensures nodes[j].id != nodes[0].id {
          assert nodes[1..][j - 1] == nodes[j] && nodes[j] in nodes[1..];
        }
        assert UniqueIds(nodes[1..]) ==> UniqueIds(nodes) by {
          if UniqueIds(nodes[1..]) {
            forall i, j | 0 <= i < j < |nodes| ensures nodes[i].id != nodes[j].id {
              if i > 0 { assert nodes[1..][i - 1].id != nodes[1..][j - 1].id; }
            }
          }
        }
        assert UniqueIds(nodes) ==> UniqueIds(nodes[1..]);
      }
    }
  }

  /** The sort succeeds exactly on unique ids, known dependencies and an acyclic
      graph, and then yields a topological order of all nodes. */
  lemma SortedExactly(nodes: seq<Node>)
    ensures Sorted(nodes).Ok? <==> UniqueIds(nodes) && Known(GraphOf(nodes)) && Acyclic(GraphOf(nodes))
    ensures Sorted(nodes).Ok? ==> TopologicalOrder(GraphOf(nodes), Sorted(nodes).value)
                                  && |Sorted(nodes).value| == |nodes|
    ensures Sorted(nodes) == Err(ECommanderSchema) <==> UniqueIds(nodes) && !Known(GraphOf(nodes))
  {
    var g := GraphOf(nodes);
    UniqueByCount(nodes);
    if UniqueIds(nodes) && Known(g) {
      if |KahnOrder(g)| == |nodes| {
        FullOrderIsTopological(g);
        TopologicalMeansAcyclic(g, KahnOrder(g));
      } else {
        ShortOrderMeansCycle(g);
      }
    }
  }

  /** The result depends on the relation only: not on the order of the nodes, nor
      on repeated dependencies or their order. */
  lemma SortedIgnoresPresentation(a: seq<Node>, b: seq<Node>)
    requires |a| == |b| && IdsOf(a) == IdsOf(b)
    requires forall id :: id in IdsOf(a) ==> DepsOf(a, id) == DepsOf(b, id)
    ensures Sorted(a) == Sorted(b)
  {
    assert GraphOf(a).deps == GraphOf(b).deps;
  }

  /** Permuting the nodes changes nothing. */
  lemma SortedIgnoresNodeOrder(a: seq<Node>, b: seq<Node>)
    requires multiset(a) == multiset(b)
    ensures Sorted(a) == Sorted(b)
  {
    forall n ensures n in a <==> n in b {
      assert n in multiset(a) <==> n in multiset(b);
    }
    assert |multiset(a)| == |a| && |multiset(b)| == |b|;
    SortedIgnoresPresentation(a, b);
  }

  // ---- the algorithm itself ----

  /** How many dependencies of x are not output yet. */
  function Missing(g: Graph, out: seq<string>, x: string): nat
    requires WellFormed(g) && x in g.ids
  {
    |g.deps[x] - Elements(out)|
  }

  /** The dependants of d among the first n nodes, as the program lists them. */
  ghost predicate ListsKids(nodes: seq<Node>, n: nat, kids: map<string, seq<string>>, d: string)
    requires n <= |nodes|
  {
    && d in kids && NoRepeats(kids[d])
    && forall x :: x in kids[d] <==> exists i :: 0 <= i < n && nodes[i].id == x && d in nodes[i].deps
  }

  ghost predicate AllKids(nodes: seq<Node>, n: nat, ids: set<string>, kids: map<string, seq<string>>)
    requires n <= |nodes|
  {
    kids.Keys == ids && forall d :: d in ids ==> ListsKids(nodes, n, kids, d)
  }

  /** In-degrees after the first n nodes are counted. */
  ghost predicate Counted(nodes: seq<Node>, n: nat, ids: set<string>, indeg: map<string, nat>)
    requires n <= |nodes|
  {
    && ids == IdsOf(nodes) && indeg.Keys == ids
    && (forall j :: 0 <= j < n ==> nodes[j].id in ids && indeg[nodes[j].id] == |Elements(nodes[j].deps)|)
    && (forall j :: n <= j < |nodes| ==> nodes[j].id in ids && indeg[nodes[j].id] == 0)
  }

  /** Only the count of `id` changed, to n. */
  ghost predicate Recounted(indeg0: map<string, nat>, indeg: map<string, nat>, id: string, n: nat) {
    && indeg.Keys == indeg0.Keys && id in indeg0
    && forall x :: x in indeg0 ==> indeg[x] == if x == id then n else indeg0[x]
  }

  lemma CountsOne(nodes: seq<Node>, n: nat, ids: set<string>, indeg0: map<string, nat>, indeg: map<string, nat>)
    requires UniqueIds(nodes) && n < |nodes| && Counted(nodes, n, ids, indeg0)
    requires Recounted(indeg0, indeg, nodes[n].id, |Elements(nodes[n].deps)|)
    ensures Counted(nodes, n + 1, ids, indeg)
  {}

  lemma CountedIsMissing(nodes: seq<Node>, ids: set<string>, indeg: map<string, nat>)
    requires UniqueIds(nodes) && Counted(nodes, |nodes|, ids, indeg)
    ensures forall x :: x in ids ==> indeg[x] == Missing(GraphOf(nodes), [], x)
  {
    forall x | x in ids ensures indeg[x] == Missing(GraphOf(nodes), [], x) {
      var n :| n in nodes && n.id == x;
      var j :| 0 <= j < |nodes| && nodes[j] == n;
      NodeDeps(nodes, j);
      assert GraphOf(nodes).deps[x] - Elements([]) == Elements(nodes[j].deps);
    }
  }

  lemma KnownByNode(nodes: seq<Node>)
    requires UniqueIds(nodes)
    ensures Known(GraphOf(nodes)) <==> forall j :: 0 <= j < |nodes| ==> Elements(nodes[j].deps) <= IdsOf(nodes)
  {
    forall j | 0 <= j < |nodes| ensures nodes[j].id in IdsOf(nodes)
        && DepsOf(nodes, nodes[j].id) == Elements(nodes[j].deps) {
      NodeDeps(nodes, j);
    }
    forall x | x in IdsOf(nodes) ensures exists j :: 0 <= j < |nodes| && nodes[j].id == x {
      var n :| n in nodes && n.id == x;
      var j :| 0 <= j < |nodes| && nodes[j] == n;
    }
    if forall j :: 0 <= j < |nodes| ==> Elements(nodes[j].deps) <= IdsOf(nodes) {
      forall x | x in IdsOf(nodes) ensures DepsOf(nodes, x) <= IdsOf(nodes) {
        var j :| 0 <= j < |nodes| && nodes[j].id == x;
      }
    }
    if Known(GraphOf(nodes)) {
      forall j | 0 <= j < |nodes| ensures Elements(nodes[j].deps) <= IdsOf(nodes) {
        assert GraphOf(nodes).deps[nodes[j].id] == Elements(nodes[j].deps);
      }
    }
  }

  lemma NothingCounted(nodes: seq<Node>, ids: set<string>, indeg: map<string, nat>, kids: map<string, seq<string>>)
    requires ids == IdsOf(nodes) && indeg == (map id | id in ids :: 0) && kids == (map id | id in ids :: [])
    ensures Counted(nodes, 0, ids, indeg) && AllKids(nodes, 0, ids, kids)
  {
    assert forall j :: 0 <= j < |nodes| ==> nodes[j] in nodes;
  }

  method CountEdges(nodes: seq<Node>, ids: set<string>)
    returns (ok: bool, indeg: map<string, nat>, kids: map<string, seq<string>>)
    requires ids == IdsOf(nodes) && UniqueIds(nodes)
    ensures ok <==> Known(GraphOf(nodes))
    ensures ok ==> Counted(nodes, |nodes|, ids, indeg) && AllKids(nodes, |nodes|, ids, kids)
  {
    hide Counted, AllKids, GraphOf, Known, UniqueIds, IdsOf;
    KnownByNode(nodes);
    indeg := map id | id in ids :: 0;
    kids := map id | id in ids :: [];
    NothingCounted(nodes, ids, indeg, kids);
    for i := 0 to |nodes|
      invariant Counted(nodes, i, ids, indeg) && AllKids(nodes, i, ids, kids)
      invariant forall j :: 0 <= j < i ==> Elements(nodes[j].deps) <= ids
    {
      var known;
      known, indeg, kids := CountNode(nodes, i, ids, indeg, kids);
      if !known { return false, indeg, kids; }
    }
    ok := true;
  }

  lemma NodeDeps(nodes: seq<Node>, i: nat)
    requires UniqueIds(nodes) && i < |nodes|
    ensures nodes[i].id in IdsOf(nodes) && DepsOf(nodes, nodes[i].id) == Elements(nodes[i].deps)
  {
    assert nodes[i] in nodes;
    forall n | n in nodes && n.id == nodes[i].id ensures n == nodes[i] {
      var j :| 0 <= j < |nodes| && nodes[j] == n;
    }
  }

  /** `id` was added to the lists of the dependencies in `seen`. */
  ghost predicate Added(kids0: map<string, seq<string>>, kids: map<string, seq<string>>, seen: set<string>,
                        id: string) {
    kids.Keys == kids0.Keys && forall d :: d in kids0 ==> kids[d] == if d in seen then kids0[d] + [id] else kids0[d]
  }

  lemma AddsOne(kids0: map<string, seq<string>>, kids: map<string, seq<string>>, seen: set<string>, id: string,
                dep: string)
    requires Added(kids0, kids, seen, id) && dep in kids && dep !in seen
    ensures Added(kids0, kids[dep := kids[dep] + [id]], seen + {dep}, id)
  {}

  lemma ElementsSnoc(s: seq<string>, k: nat)
    requires k < |s|
    ensures Elements(s[..k + 1]) == Elements(s[..k]) + {s[k]}
  {
    assert s[..k + 1] == s[..k] + [s[k]];
  }

  /** The edges of one node, repeated dependencies counted once. */
  method CountNode(nodes: seq<Node>, i: nat, ids: set<string>, indeg0: map<string, nat>,
                   kids0: map<string, seq<string>>)
    returns (known: bool, indeg: map<string, nat>, kids: map<string, seq<string>>)
    requires i < |nodes| && UniqueIds(nodes)
    requires Counted(nodes, i, ids, indeg0) && AllKids(nodes, i, ids, kids0)
    ensures known <==> Elements(nodes[i].deps) <= ids
    ensures known ==> Counted(nodes, i + 1, ids, indeg) && AllKids(nodes, i + 1, ids, kids)
  {
    hide AllKids, Counted, Added, Recounted, UniqueIds;
    var id, deps := nodes[i].id, nodes[i].deps;
    indeg, kids := indeg0, kids0;
    var seen: set<string> := {};
    KeysOfKids(nodes, i, ids, indeg0, kids0);
    for k := 0 to |deps|
      invariant seen == Elements(deps[..k]) && seen <= ids
      invariant Recounted(indeg0, indeg, id, |seen|)
      invariant Added(kids0, kids, seen, id)
    {
      var dep := deps[k];
      ElementsSnoc(deps, k);
      if dep !in ids {
        assert dep in Elements(deps);
        return false, indeg, kids;
      }
      if dep !in seen {
        indeg, kids := CountEdge(indeg0, indeg, kids0, kids, seen, id, dep);
        seen := seen + {dep};
      }
    }
    assert deps[..|deps|] == deps;
    CountsOne(nodes, i, ids, indeg0, indeg);
    AllKidsGrow(nodes, i, ids, kids0, kids);
    known := true;
  }

  method CountEdge(ghost indeg00: map<string, nat>, indeg0: map<string, nat>, ghost kids00: map<string, seq<string>>,
                   kids0: map<string, seq<string>>, ghost seen: set<string>, id: string, dep: string)
    returns (indeg: map<string, nat>, kids: map<string, seq<string>>)
    requires dep in kids00 && dep !in seen
    requires Recounted(indeg00, indeg0, id, |seen|) && Added(kids00, kids0, seen, id)
    ensures Recounted(indeg00, indeg, id, |seen + {dep}|) && Added(kids00, kids, seen + {dep}, id)
  {
    indeg := indeg0[id := indeg0[id] + 1];
    kids := kids0[dep := kids0[dep] + [id]];
    AddsOne(kids00, kids0, seen, id, dep);
  }

  lemma KeysOfKids(nodes: seq<Node>, i: nat, ids: set<string>, indeg: map<string, nat>, kids: map<string, seq<string>>)
    requires i < |nodes| && Counted(nodes, i, ids, indeg) && AllKids(nodes, i, ids, kids)
    ensures kids.Keys == ids && Added(kids, kids, {}, nodes[i].id) && Recounted(indeg, indeg, nodes[i].id, 0)
  {}

  lemma AllKidsGrow(nodes: seq<Node>, i: nat, ids: set<string>, kids0: map<string, seq<string>>,
                    kids: map<string, seq<string>>)
    requires i < |nodes| && UniqueIds(nodes) && AllKids(nodes, i, ids, kids0)
    requires Added(kids0, kids, Elements(nodes[i].deps), nodes[i].id)
    ensures AllKids(nodes, i + 1, ids, kids)
  {
    forall d | d in ids ensures ListsKids(nodes, i + 1, kids, d) {
      KidsGrow(nodes, i, kids0, kids, d);
    }
  }

  lemma KidsGrow(nodes: seq<Node>, i: nat, kids0: map<string, seq<string>>, kids: map<string, seq<string>>, d: string)
    requires i < |nodes| && UniqueIds(nodes) && ListsKids(nodes, i, kids0, d)
    requires d in kids && kids[d] == if d in nodes[i].deps then kids0[d] + [nodes[i].id] else kids0[d]
    ensures ListsKids(nodes, i + 1, kids, d)
  {
    assert nodes[i].id !in kids0[d];
  }

  lemma KidsAreDependants(nodes: seq<Node>, kids: map<string, seq<string>>, d: string, x: string)
    requires UniqueIds(nodes) && ListsKids(nodes, |nodes|, kids, d)
    ensures x in kids[d] <==> x in IdsOf(nodes) && d in DepsOf(nodes, x)
  {
    if x in kids[d] {
      var i :| 0 <= i < |nodes| && nodes[i].id == x && d in nodes[i].deps;
      NodeDeps(nodes, i);
    }
    if x in IdsOf(nodes) && d in DepsOf(nodes, x) {
      var n :| n in nodes && n.id == x && d in n.deps;
      var i :| 0 <= i < |nodes| && nodes[i] == n;
    }
  }

  /** In-degrees count what is not output yet. */
  ghost predicate CountsMissing(g: Graph, out: seq<string>, indeg: map<string, nat>) {
    WellFormed(g) && indeg.Keys == g.ids && forall x :: x in g.ids ==> indeg[x] == Missing(g, out, x)
  }

  /** `kids` lists the dependants of d. */
  ghost predicate ListsDependants(g: Graph, kids: seq<string>, d: string) {
    WellFormed(g) && NoRepeats(kids) && forall x :: x in kids <==> x in g.ids && d in g.deps[x]
  }

  lemma KidsListDependants(nodes: seq<Node>, ids: set<string>, kids: map<string, seq<string>>, d: string)
    requires UniqueIds(nodes) && AllKids(nodes, |nodes|, ids, kids) && d in ids && ids == IdsOf(nodes)
    ensures d in kids && ListsDependants(GraphOf(nodes), kids[d], d)
  {
    assert ListsKids(nodes, |nodes|, kids, d);
    forall x ensures x in kids[d] <==> x in ids && d in DepsOf(nodes, x) {
      KidsAreDependants(nodes, kids, d, x);
    }
  }

  method Roots(ghost g: Graph, ids: set<string>, indeg: map<string, nat>) returns (q: seq<string>)
    requires CountsMissing(g, [], indeg) && ids == g.ids
    ensures q == SortedSet(Available(g, []))
  {
    var roots := ListOf(set id | id in ids && indeg[id] == 0);
    q := Sort(roots);
    forall x | x in ids ensures indeg[x] == 0 <==> x in Available(g, []) {
      MissingNone(g, [], x);
    }
    assert (set x | x in roots) == Available(g, []);
  }

  method TopoSort(nodes: seq<Node>) returns (r: Result<seq<string>, ErrorCode>)
    ensures r == Sorted(nodes)
  {
    var ids := IdsOf(nodes);
    if |ids| != |nodes| { return Err(EDagCycle); }
    UniqueByCount(nodes);
    var ok, indeg, kids := CountEdges(nodes, ids);
    if !ok { return Err(ECommanderSchema); }
    ghost var g := GraphOf(nodes);
    CountedIsMissing(nodes, ids, indeg);
    StartFrontier(g);
    var q := Roots(g, ids, indeg);
    var out: seq<string> := [];
    while q != []
      invariant Frontier(g, out, q) && Kahn(g, out, q) == KahnOrder(g)
      invariant CountsMissing(g, out, indeg)
      decreases |ids| - |out|
    {
      hide CountsMissing, ListsDependants, AllKids, UniqueIds, Counted, KahnOrder, SortedSet;
      var id := q[0];
      PopKeepsFrontier(g, out, q);
      OutputBound(g, out, q);
      PoppedIsNew(g, out, q);
      assert (out + q)[|out|] == id && id in Available(g, out);
      KidsListDependants(nodes, ids, kids, id);
      var freed;
      freed, indeg := Release(g, out, id, kids[id], indeg);
      q := q[1..] + freed;
      out := out + [id];
    }
    if |out| != |nodes| { return Err(EDagCycle); }
    return Ok(out);
  }

  method ListOf(s: set<string>) returns (r: seq<string>)
    ensures NoRepeats(r) && forall x :: x in r <==> x in s
  {
    r := [];
    var left := s;
    while left != {}
      invariant left <= s && NoRepeats(r) && forall x :: x in r <==> x in s - left
      decreases |left|
    {
      var x :| x in left;
      assert x !in r;
      r := r + [x];
      left := left - {x};
      assert forall y :: y in s - left <==> y in s - (left + {x}) || y == x;
    }
  }

  /** `id` is released for the dependants in `seen` only. */
  ghost predicate Releasing(g: Graph, out: seq<string>, id: string, seen: seq<string>, indeg: map<string, nat>) {
    && WellFormed(g) && indeg.Keys == g.ids
    && forall x :: x in g.ids ==> indeg[x] == if x in seen then Missing(g, out + [id], x) else Missing(g, out, x)
  }

  lemma ReleasesOne(g: Graph, out: seq<string>, id: string, seen: seq<string>, x: string, indeg: map<string, nat>)
    requires Releasing(g, out, id, seen, indeg) && x !in seen
    requires x in g.ids && id in g.deps[x] && id !in out
    ensures indeg[x] == Missing(g, out + [id], x) + 1
    ensures Releasing(g, out, id, seen + [x], indeg[x := Missing(g, out + [id], x)])
  {
    OneLess(g, out, id, x);
  }

  lemma ReleasedAll(g: Graph, out: seq<string>, id: string, kids: seq<string>, seen: seq<string>,
                    indeg: map<string, nat>)
    requires ListsDependants(g, kids, id) && Releasing(g, out, id, seen, indeg)
    requires forall x :: x in seen <==> x in kids
    ensures CountsMissing(g, out + [id], indeg)
  {
    forall x | x in g.ids && x !in kids ensures Missing(g, out + [id], x) == Missing(g, out, x) {
      assert g.deps[x] - Elements(out + [id]) == g.deps[x] - Elements(out);
    }
  }

  lemma FreedAreFreed(g: Graph, out: seq<string>, id: string, kids: seq<string>, nxt: seq<string>, freed: seq<string>)
    requires ListsDependants(g, kids, id) && FreedSoFar(g, out + [id], nxt, freed)
    requires forall x :: x in nxt <==> x in kids
    ensures freed == SortedSet(FreedBy(g, out + [id], id))
  {
    forall x ensures x in freed <==> x in FreedBy(g, out + [id], id) {
      if x in kids { MissingNone(g, out + [id], x); }
    }
    IncreasingIsSorted(freed, FreedBy(g, out + [id], id));
  }

  ghost predicate FreedSoFar(g: Graph, out: seq<string>, seen: seq<string>, freed: seq<string>) {
    && WellFormed(g) && (forall x :: x in seen ==> x in g.ids)
    && Increasing(freed) && forall x :: x in freed <==> x in seen && Missing(g, out, x) == 0
  }

  lemma FreesOne(g: Graph, out: seq<string>, seen: seq<string>, x: string, freed: seq<string>)
    requires FreedSoFar(g, out, seen, freed) && x in g.ids && Increasing(seen + [x])
    ensures FreedSoFar(g, out, seen + [x], if Missing(g, out, x) == 0 then freed + [x] else freed)
  {
    AppendIncreasing(freed, seen, x);
    assert forall y :: y in seen + [x] <==> y in seen || y == x;
    forall k | 0 <= k < |seen| ensures seen[k] != x {
      assert (seen + [x])[k] == seen[k] && (seen + [x])[|seen|] == x;
    }
  }

  lemma StartRelease(g: Graph, out: seq<string>, id: string, indeg: map<string, nat>)
    requires CountsMissing(g, out, indeg)
    ensures Releasing(g, out, id, [], indeg) && FreedSoFar(g, out + [id], [], [])
  {}

  lemma KidsAreDistinct(g: Graph, kids: seq<string>, id: string)
    requires ListsDependants(g, kids, id)
    ensures forall i, j :: 0 <= i < j < |kids| ==> kids[i] != kids[j]
  {}

  lemma NextChild(g: Graph, out: seq<string>, id: string, kids: seq<string>, nxt: seq<string>, k: nat,
                  indeg: map<string, nat>)
    requires ListsDependants(g, kids, id) && Increasing(nxt) && k < |nxt| && forall x :: x in nxt <==> x in kids
    requires Releasing(g, out, id, nxt[..k], indeg)
    ensures var x := nxt[k]; x in g.ids && id in g.deps[x] && x !in nxt[..k] && x in indeg
    ensures Increasing(nxt[..k] + [nxt[k]])
  {
    assert nxt[k] in nxt;
    assert nxt[..k] + [nxt[k]] == nxt[..k + 1];
  }

  /** Remove the popped node from its dependants' counts; those that reach zero
      are freed, in increasing order. */
  method Release(ghost g: Graph, ghost out: seq<string>, id: string, kids: seq<string>, indeg0: map<string, nat>)
    returns (freed: seq<string>, indeg: map<string, nat>)
    requires id !in out && ListsDependants(g, kids, id) && CountsMissing(g, out, indeg0)
    ensures freed == SortedSet(FreedBy(g, out + [id], id))
    ensures CountsMissing(g, out + [id], indeg)
  {
    hide Missing, CountsMissing, SortedSet, Releasing, FreedSoFar, Increasing, ListsDependants, FreedBy;
    KidsAreDistinct(g, kids, id);
    var nxt := Sort(kids);
    SortedSetIncreasing(set x | x in kids);
    indeg, freed := indeg0, [];
    StartRelease(g, out, id, indeg0);
    for k := 0 to |nxt|
      invariant Releasing(g, out, id, nxt[..k], indeg)
      invariant FreedSoFar(g, out + [id], nxt[..k], freed)
    {
      var child := nxt[k];
      NextChild(g, out, id, kids, nxt, k, indeg);
      assert nxt[..k + 1] == nxt[..k] + [child];
      ReleasesOne(g, out, id, nxt[..k], child, indeg);
      var d := if indeg[child] == 0 then 0 else indeg[child] - 1;
      indeg := indeg[child := d];
      FreesOne(g, out + [id], nxt[..k], child, freed);
      if d == 0 { freed := freed + [child]; }
    }
    assert nxt[..|nxt|] == nxt;
    ReleasedAll(g, out, id, kids, nxt, indeg);
    FreedAreFreed(g, out, id, kids, nxt, freed);
  }

  lemma OneLess(g: Graph, out: seq<string>, id: string, x: string)
    requires WellFormed(g) && x in g.ids && id in g.deps[x] && id !in out
    ensures Missing(g, out + [id], x) == Missing(g, out, x) - 1
  {
    assert g.deps[x] - Elements(out) == (g.deps[x] - Elements(out + [id])) + {id};
  }

  lemma MissingNone(g: Graph, out: seq<string>, x: string)
    requires WellFormed(g) && x in g.ids
    ensures Missing(g, out, x) == 0 <==> g.deps[x] <= Elements(out)
  {
    var left := g.deps[x] - Elements(out);
    assert left == {} <==> forall d :: d in g.deps[x] ==> d !in left;
  }

  lemma AppendIncreasing(r: seq<string>, pre: seq<string>, x: string)
    requires Increasing(r) && Increasing(pre + [x]) && forall y :: y in r ==> y in pre
    ensures Increasing(r + [x])
  {
    forall i | 0 <= i < |r| ensures r[i] != x && StrLe(r[i], x) {
      assert r[i] in pre;
      var k :| 0 <= k < |pre| && pre[k] == r[i];
      assert (pre + [x])[k] == r[i] && (pre + [x])[|pre|] == x;
    }
  }
}
