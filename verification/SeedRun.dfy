/** What seeding a DAG creates and logs (seed_dag_units in crates/wanax-cli/src/engine.rs),
    said of the plan's drafts. */
module SeedRun {
  import opened Types
  import opened Events
  import opened Drive
  import opened Dag
  import opened DagOrder

  /** The unit carries the draft's task, and waits for exactly the units of the keys the
      draft depends on. */
  ghost predicate Carries(u: WorkUnit, d: DagDraft, units: seq<WorkUnit>) {
    && u.localKey == Some(d.key) && u.title == d.title && u.instruction == d.instruction
    && u.globs == d.globs && u.testCommand == d.testCommand && u.parent == None && u.role == RGoal
    && u.state == UQueued && u.rework == 0 && u.commit == None && u.receiptId == None && u.verdictId == None
    && forall id :: id in u.dependsOn <==> exists w :: w in units && w.id == id && Keyed(w, d.dependsOn)
  }

  predicate Keyed(w: WorkUnit, keys: seq<string>) { w.localKey.Some? && w.localKey.value in keys }

  /** The seeding event of a unit tells all of that. */
  predicate AnnouncesSeed(e: Event, u: WorkUnit) {
    && e.UnitSeeded? && e.p.workUnitId == Some(u.id) && e.p.title == Some(u.title)
    && e.p.instruction == Some(u.instruction) && e.p.globs == u.globs && e.p.testCommand == u.testCommand
    && e.p.localKey == u.localKey && e.p.dependsOn == Some(u.dependsOn) && e.p.role == Some(u.role)
    && e.p.parent == u.parent && e.p.seqNo == Some(u.seqNo) && e.p.covers == None
  }

  /** One unit for every draft, with ids in a row, in the order of the sort. */
  ghost predicate SeededFrom(units: seq<WorkUnit>, drafts: seq<DagDraft>, first: Id) {
    && |units| == |drafts| && TopologicalOrder(GraphOf(NodesOf(drafts)), KeysOf(units))
    && InReleaseOrder(GraphOf(NodesOf(drafts)), KeysOf(units))
    && forall k :: 0 <= k < |units| ==>
         && units[k].id == first + k && units[k].seqNo == SeqNo(k)
         && exists d :: d in drafts && Carries(units[k], d, units)
  }

  function KeysOf(units: seq<WorkUnit>): (ks: seq<string>)
    ensures |ks| == |units|
    ensures forall i :: 0 <= i < |ks| ==> units[i].localKey.Some? ==> ks[i] == units[i].localKey.value
  {
    if units == [] then []
    else [if units[0].localKey.Some? then units[0].localKey.value else ""] + KeysOf(units[1..])
  }

  lemma {:induction false} IdsOfKeys(order: seq<string>, first: Id, deps: seq<string>, id: Id)
    ensures id in DepIds(order, first, deps)
            <==> exists key :: key in deps && key in order && first + IndexIn(order, key) == id
  {
    if deps != [] {
      IdsOfKeys(order, first, deps[1..], id);
      assert forall key :: key in deps <==> key == deps[0] || key in deps[1..];
    }
  }

  lemma {:induction false} OnlyIndex(order: seq<string>, key: string, k: nat)
    requires NoRepeats(order) && k < |order| && order[k] == key
    ensures IndexIn(order, key) == k
  {
    assert order[IndexIn(order, key)] == order[k];
  }

  lemma {:induction false} UnitCarries(drafts: seq<DagDraft>, order: seq<string>, first: Id, units: seq<WorkUnit>,
                                       k: nat)
    requires AllDrafted(drafts, order) && units == SeededUnits(drafts, order, first) && NoRepeats(order) && k < |order|
    ensures var d := DraftOf(drafts, order[k]); d in drafts && Carries(units[k], d, units)
  {
    var d, u := DraftOf(drafts, order[k]), units[k];
    forall id ensures id in u.dependsOn <==> exists w :: w in units && w.id == id && Keyed(w, d.dependsOn) {
      IdsOfKeys(order, first, d.dependsOn, id);
      if key :| key in d.dependsOn && key in order && first + IndexIn(order, key) == id {
        var w := units[IndexIn(order, key)];
        assert w in units && w.id == id && Keyed(w, d.dependsOn);
      }
      if w :| w in units && w.id == id && Keyed(w, d.dependsOn) {
        var j :| 0 <= j < |units| && units[j] == w;
        OnlyIndex(order, order[j], j);
        assert w.localKey == Some(order[j]) && first + IndexIn(order, order[j]) == id;
      }
    }
  }

  lemma UnitAnnounced(u: WorkUnit)
    ensures AnnouncesSeed(UnitSeeded(UnitPayload(u)), u)
  {}

  /** Every key of a sorted DAG has a draft. */
  lemma {:induction false} SortedAreDrafted(drafts: seq<DagDraft>)
    requires Sorted(NodesOf(drafts)).Ok?
    ensures AllDrafted(drafts, Sorted(NodesOf(drafts)).value)
  {
    hide Sorted, DepsEarlier;
    var nodes, order := NodesOf(drafts), Sorted(NodesOf(drafts)).value;
    SortedExactly(nodes);
    forall k | 0 <= k < |order| ensures Drafted(drafts, order[k]) {
      assert order[k] in GraphOf(nodes).ids;
      var n :| n in nodes && n.id == order[k];
      var i :| 0 <= i < |nodes| && nodes[i] == n;
      assert drafts[i] in drafts && drafts[i].key == order[k];
    }
  }

  /** For any drafts, from any state: where the keys cannot be sorted, the phase fails with
      that error and nothing is logged; else there is one unit for every draft, carrying
      it, and one event for every unit. */
  lemma {:induction false} SeedExactly(s: Loop, drafts: seq<DagDraft>)
    ensures var g, sorted := SeedDag(s, drafts), Sorted(NodesOf(drafts));
            if sorted.Err? then g == FailedWith(s, sorted.error)
            else
              && g.Again? && g.s.dag.Some?
              && var units, log := g.s.dag.value, g.s.ledger.log;
                 && SeededFrom(units, drafts, s.nextId)
                 && |log| == |s.ledger.log| + |units| && log[..|s.ledger.log|] == s.ledger.log
                 && (forall k :: 0 <= k < |units| ==> AnnouncesSeed(log[|s.ledger.log| + k], units[k]))
                 && g.s == s.(dag := g.s.dag, ledger := s.ledger.(log := log), nextId := s.nextId + |units|)
  {
    hide Sorted, SeedEvents, UnitPayload, Carries, AnnouncesSeed, SeededUnits, TopologicalOrder, InReleaseOrder;
    var nodes := NodesOf(drafts);
    if Sorted(nodes).Ok? {
      var order := Sorted(nodes).value;
      SortedAreDrafted(drafts);
      SortedIsTheOrder(nodes, order);
      SortedExactly(nodes);
      OrderHasNoRepeats(GraphOf(nodes), order);
      var units := SeededUnits(drafts, order, s.nextId);
      forall k | 0 <= k < |units| ensures AnnouncesSeed(UnitSeeded(UnitPayload(units[k])), units[k])
        ensures exists d :: d in drafts && Carries(units[k], d, units)
      {
        UnitAnnounced(units[k]);
        UnitCarries(drafts, order, s.nextId, units, k);
      }
      KeysAreOrder(drafts, order, s.nextId);
    }
  }

  lemma OrderHasNoRepeats(g: Graph, r: seq<string>)
    requires TopologicalOrder(g, r)
    ensures NoRepeats(r)
  {}

  lemma KeysAreOrder(drafts: seq<DagDraft>, order: seq<string>, first: Id)
    requires AllDrafted(drafts, order)
    ensures KeysOf(SeededUnits(drafts, order, first)) == order
  {
    var units := SeededUnits(drafts, order, first);
    forall k | 0 <= k < |units| ensures units[k].localKey == Some(order[k]) {
      assert units[k] == SeededUnit(drafts, order, first, k);
    }
  }
}
