/** The turns of a fresh run that seed or work through a DAG keep the invariants. */
module DagRun {
  import opened Types
  import opened Accept
  import opened Budget
  import opened Events
  import opened GlobOverlap
  import opened Scheduler
  import opened Drive
  import opened Replay
  import opened Accounting
  import opened Chronicle
  import opened Passes
  import opened FreshRun
  import Dag

  // ---- seeding ----

  lemma {:induction false} DepIdsMember(order: seq<string>, first: Id, deps: seq<string>, id: Id)
    requires id in DepIds(order, first, deps)
    ensures exists key :: key in deps && key in order && id == first + IndexIn(order, key)
  {
    if deps[0] in order && id == first + IndexIn(order, deps[0]) {
      assert deps[0] in deps;
    } else {
      DepIdsMember(order, first, deps[1..], id);
      var key :| key in deps[1..] && key in order && id == first + IndexIn(order, key);
      assert key in deps;
    }
  }

  lemma {:induction false} DraftDeps(drafts: seq<DagDraft>, order: seq<string>, i: nat, key: string)
    requires i < |order| && Drafted(drafts, order[i]) && key in DraftOf(drafts, order[i]).dependsOn
    ensures var g := Dag.GraphOf(NodesOf(drafts)); order[i] in g.deps && key in g.deps[order[i]]
  {
    var d := DraftOf(drafts, order[i]);
    var k :| 0 <= k < |drafts| && drafts[k] == d;
    var nodes := NodesOf(drafts);
    assert nodes[k] == Dag.Node(d.key, d.dependsOn) && nodes[k] in nodes;
  }

  lemma {:induction false} SeedDepsFirst(drafts: seq<DagDraft>, order: seq<string>, first: Id)
    requires AllDrafted(drafts, order) && Dag.TopologicalOrder(Dag.GraphOf(NodesOf(drafts)), order)
    ensures DepsFirst(SeededUnits(drafts, order, first))
  {
    hide Dag.GraphOf, DraftOf, IndexIn;
    var units := SeededUnits(drafts, order, first);
    forall i, id | 0 <= i < |units| && id in units[i].dependsOn ensures ListedBefore(units, i, id) {
      DepIdsMember(order, first, DraftOf(drafts, order[i]).dependsOn, id);
      var key :| key in DraftOf(drafts, order[i]).dependsOn && key in order && id == first + IndexIn(order, key);
      DraftDeps(drafts, order, i, key);
      assert key in order[..i];
      var j :| 0 <= j < i && order[j] == key;
      assert IndexIn(order, key) == j;
      assert units[j].id == id;
    }
  }

  lemma {:induction false} SeedShape(drafts: seq<DagDraft>, order: seq<string>, first: Id)
    requires AllDrafted(drafts, order) && Dag.TopologicalOrder(Dag.GraphOf(NodesOf(drafts)), order)
    ensures Shape(SeededUnits(drafts, order, first), first + |order|)
  {
    hide DepsFirst, Dag.TopologicalOrder, DepIds, DraftOf;
    SeedDepsFirst(drafts, order, first);
    var units := SeededUnits(drafts, order, first);
    forall d | d in units ensures DagUnit(d, first + |order|) && d.state == UQueued {
      var k :| 0 <= k < |units| && units[k] == d;
    }
  }

  /** The first i seeding events. */
  function SeededLog(log: seq<Event>, units: seq<WorkUnit>, i: nat): seq<Event>
    requires i <= |units|
  {
    log + SeedEvents(units)[..i]
  }

  function SeedView(u: WorkUnit): WorkUnit { ApplyUnitFields(BlankUnit(u.id), UnitPayload(u)).(state := UQueued) }

  lemma {:induction false} SeedStep(log: seq<Event>, u: WorkUnit, id: Id)
    ensures View(log + [UnitSeeded(UnitPayload(u))], id) ==
            if id == u.id
            then Some(ApplyUnitFields(Or(View(log, id), BlankUnit(id)), UnitPayload(u)).(state := UQueued))
            else View(log, id)
  {
    hide View, ApplyUnitFields, UnitPayload, ContextOf;
    PayloadId(u);
    ViewSnoc(log, UnitSeeded(UnitPayload(u)), id);
  }

  lemma OneMoreSeed(log: seq<Event>, units: seq<WorkUnit>, i: nat)
    requires i < |units|
    ensures SeededLog(log, units, i + 1) == SeededLog(log, units, i) + [UnitSeeded(UnitPayload(units[i]))]
  {
    hide UnitPayload;
    assert SeedEvents(units)[..i + 1] == SeedEvents(units)[..i] + [SeedEvents(units)[i]];
  }

  lemma {:induction false} SeedViews(log: seq<Event>, units: seq<WorkUnit>, n: Id, i: nat, k: nat)
    requires Below(log, n) && (forall j :: 0 <= j < |units| ==> units[j].id == n + j)
    requires k < |units| && i <= |units|
    ensures View(SeededLog(log, units, i), n + k) == if k < i then Some(SeedView(units[k])) else None
    decreases i
  {
    hide ApplyUnitFields, UnitPayload, View, SeededLog, BlankUnit;
    if i == 0 {
      NoSeedYet(log, units);
      NothingAbove(log, n, n + k);
    } else {
      SeedViews(log, units, n, i - 1, k);
      OneMoreSeed(log, units, i - 1);
      SeedStep(SeededLog(log, units, i - 1), units[i - 1], n + k);
    }
  }

  lemma NoSeedYet(log: seq<Event>, units: seq<WorkUnit>)
    ensures SeededLog(log, units, 0) == log
  {
    assert log + [] == log;
  }

  lemma {:induction false} SeedsQuietly(log: seq<Event>, units: seq<WorkUnit>, n: Id)
    requires forall j :: 0 <= j < |units| ==> units[j].id == n + j
    ensures QuietlyExtends(log, log + SeedEvents(units), n, n + |units|)
  {
    hide UnitPayload;
    var b := log + SeedEvents(units);
    forall i | |log| <= i < |b| ensures Quiet(b[i], n, n + |units|) {
      PayloadId(units[i - |log|]);
    }
  }

  lemma {:induction false} SeedTracked(log: seq<Event>, units: seq<WorkUnit>, n: Id, k: nat)
    requires Below(log, n) && (forall j :: 0 <= j < |units| ==> units[j].id == n + j) && k < |units|
    requires DagUnit(units[k], n + |units|) && units[k].state == UQueued && units[k].rework == 0
    requires units[k] == units[k].(commit := None, receiptId := None, verdictId := None)
    ensures var b := log + SeedEvents(units);
            Tracked(b, units[k]) && !Serial(b, units[k].id) && !InWave(b, units[k].id)
  {
    hide View, ContextOf, Serial, InWave, Quiet, QuietlyExtends, OrderedLog, Below;
    var b := log + SeedEvents(units);
    assert SeedEvents(units)[..|units|] == SeedEvents(units);
    SeedViews(log, units, n, |units|, k);
    SeedsQuietly(log, units, n);
    NothingAbove(log, n, n + k);
    QuietDispatches(log, b, n, n + |units|);
    QuietViews(log, b, n, n + |units|, n + |units|);
    SeedViewIsStatic(units[k]);
  }

  lemma SeedViewIsStatic(u: WorkUnit)
    requires u.role.RGoal? && u.seqNo <= U32_MAX && u.parent.None?
    requires u == u.(commit := None, receiptId := None, verdictId := None) && u.rework == 0
    ensures SameStatic(SeedView(u), u) && SeedView(u).state == UQueued && SeedView(u).rework == 0
  {}

  lemma SeedHead(c: Config, t: Loop, units: seq<WorkUnit>)
    requires Shape(units, t.nextId) && units != [] && t.waveKey == {} && t.waveRework == 0
    requires NoWaves(t.reviews) && forall d :: d in units ==> d.state == UQueued && d.rework == 0
    requires forall d :: d in units
                         ==> Tracked(t.ledger.log, d) && !Serial(t.ledger.log, d.id) && !InWave(t.ledger.log, d.id)
    ensures DagHead(c, t, units)
  {
    hide Tracked, Serial, InWave, Shape, SerialTarget, WaveTarget, NoWaves;
    assert units[0] in units;
    forall d | d in units ensures WaveReworks(t.reviews, d.id) == 0 { NoWavesNoReworks(t.reviews, d.id); }
  }

  /** What seeding adds to the envelope. */
  lemma {:induction false} SeedLogs(s: Loop, asked: Loop, units: seq<WorkUnit>)
    requires Below(s.ledger.log, s.nextId) && OrderedLog(s.ledger.log)
    requires QuietlyExtends(s.ledger.log, asked.ledger.log, s.nextId, s.nextId)
    requires SeedFacts(units, s.nextId)
    ensures var b := asked.ledger.log + SeedEvents(units);
            Below(asked.ledger.log, s.nextId) && Below(b, s.nextId + |units|) && OrderedLog(b)
  {
    hide Quiet, QuietlyExtends, OrderedLog, Below, UnitPayload, SeedEvents;
    var n, b := s.nextId, asked.ledger.log + SeedEvents(units);
    QuietKeeps(s.ledger.log, asked.ledger.log, n, n);
    SeedsQuietly(asked.ledger.log, units, n);
    BelowGrows(asked.ledger.log, n, n + |units|);
    QuietKeeps(asked.ledger.log, b, n, n + |units|);
  }

  lemma {:induction false} SeedsTracked(log: seq<Event>, units: seq<WorkUnit>, n: Id)
    requires Below(log, n) && Shape(units, n + |units|) && SeedFacts(units, n)
    ensures var b := log + SeedEvents(units);
            forall d :: d in units ==> Tracked(b, d) && !Serial(b, d.id) && !InWave(b, d.id)
  {
    hide Serial, InWave, Below, Tracked, Shape, UnitPayload, SeedEvents;
    var b := log + SeedEvents(units);
    forall d | d in units ensures Tracked(b, d) && !Serial(b, d.id) && !InWave(b, d.id) {
      var k :| 0 <= k < |units| && units[k] == d;
      ShapeUnits(units, n + |units|, d);
      SeedTracked(log, units, n, k);
    }
  }

  ghost predicate SeedFacts(units: seq<WorkUnit>, n: Id) {
    forall k :: 0 <= k < |units| ==>
                  units[k].id == n + k && units[k].state == UQueued && units[k].rework == 0
                  && units[k] == units[k].(commit := None, receiptId := None, verdictId := None)
  }

  /** Seeding reaches a DAG head. */
  lemma SeedTurn(c: Config, s: Loop, asked: Loop, drafts: seq<DagDraft>)
    requires FreshHead(c, s) && s.dag.None? && drafts != [] && asked == s.(ledger := asked.ledger)
    requires QuietlyExtends(s.ledger.log, asked.ledger.log, s.nextId, s.nextId)
    requires asked.ledger.run.state == Dispatched
    requires SeedDag(asked, drafts).Again?
    ensures FreshHead(c, SeedDag(asked, drafts).s)
  {
    hide QuietlyExtends, OrderedLog, Below, Tracked, Dag.Sorted, Shape, SingleHead, DagHead, Serial, InWave,
         Dag.TopologicalOrder, SeededUnit, Honest, SeedFacts, NodesOf, NoWaves, Dag.UniqueIds, Dag.Known, Dag.Acyclic,
         Dag.GraphOf;
    Dag.SortedExactly(NodesOf(drafts));
    var order := Dag.Sorted(NodesOf(drafts)).value;
    var units := SeededUnits(drafts, order, s.nextId);
    SeedShape(drafts, order, s.nextId);
    SeededFacts(drafts, order, s.nextId);
    SeedLogs(s, asked, units);
    SeedsTracked(asked.ledger.log, units, s.nextId);
    SingleCounters(c, s);
    QueuedFacts(units, s.nextId);
    SeedHead(c, SeedDag(asked, drafts).s, units);
  }

  lemma QueuedFacts(units: seq<WorkUnit>, n: Id)
    requires SeedFacts(units, n)
    ensures forall d :: d in units ==> d.state == UQueued && d.rework == 0
  {}

  lemma SingleCounters(c: Config, s: Loop)
    requires FreshHead(c, s) && s.dag.None?
    ensures s.waveRework == 0 && s.waveKey == {} && NoWaves(s.reviews)
  {}

  lemma ShapeUnits(ds: seq<WorkUnit>, n: Id, d: WorkUnit)
    requires Shape(ds, n) && d in ds
    ensures DagUnit(d, n)
  {}

  lemma SeededFacts(drafts: seq<DagDraft>, order: seq<string>, n: Id)
    requires AllDrafted(drafts, order)
    ensures SeedFacts(SeededUnits(drafts, order, n), n)
  {
    hide DepIds, DraftOf;
  }

  // ---- accepting members of a DAG ----

  /** `after` is `before` with exactly the units in `ids` accepted. */
  ghost predicate Accepts(before: seq<WorkUnit>, after: seq<WorkUnit>, ids: set<Id>) {
    && |after| == |before|
    && forall i :: 0 <= i < |before| ==>
         if before[i].id in ids
         then after[i].state == UAccepted && after[i].rework == before[i].rework && SameStatic(after[i], before[i])
         else after[i] == before[i]
  }

  ghost predicate ReadyIds(ds: seq<WorkUnit>, ids: set<Id>) {
    forall d :: d in ds && d.id in ids ==> Ready(d, ds)
  }

  lemma StillAccepted(ds: seq<WorkUnit>, es: seq<WorkUnit>, ids: set<Id>, id: Id)
    requires Accepts(ds, es, ids) && HasAccepted(ds, id)
    ensures HasAccepted(es, id)
  {
    var u :| u in ds && u.id == id && u.state == UAccepted;
    var i :| 0 <= i < |ds| && ds[i] == u;
    assert es[i] in es;
  }

  lemma AcceptClosed(ds: seq<WorkUnit>, es: seq<WorkUnit>, ids: set<Id>, n: Id)
    requires Shape(ds, n) && Accepts(ds, es, ids) && ReadyIds(ds, ids)
    ensures forall u, d :: u in es && u.state == UAccepted && d in u.dependsOn ==> HasAccepted(es, d)
  {
    hide HasAccepted;
    forall u, d | u in es && u.state == UAccepted && d in u.dependsOn ensures HasAccepted(es, d) {
      var i :| 0 <= i < |es| && es[i] == u;
      assert ds[i] in ds && HasAccepted(ds, d);
      StillAccepted(ds, es, ids, d);
    }
  }

  lemma AcceptShape(ds: seq<WorkUnit>, es: seq<WorkUnit>, ids: set<Id>, n: Id, m: Id)
    requires Shape(ds, n) && Accepts(ds, es, ids) && ReadyIds(ds, ids) && n <= m
    ensures Shape(es, m)
  {
    forall i | 0 <= i < |es| ensures es[i].id == ds[i].id && es[i].dependsOn == ds[i].dependsOn && ds[i] in ds {}
    forall i, d | 0 <= i < |es| && d in es[i].dependsOn ensures ListedBefore(es, i, d) {
      assert ListedBefore(ds, i, d);
      var j :| 0 <= j < i && ds[j].id == d;
      assert es[j].id == d;
    }
    AcceptClosed(ds, es, ids, n);
    forall u | u in es ensures DagUnit(u, m) && (u.state == UQueued || u.state == UAccepted) {
      var i :| 0 <= i < |es| && es[i] == u;
      assert DagUnit(ds[i], n);
    }
  }

  /** After an accept nothing that was dispatched is left open. */
  lemma AcceptStable(c: Config, log: seq<Event>, ds: seq<WorkUnit>, es: seq<WorkUnit>, ids: set<Id>)
    requires Accepts(ds, es, ids)
    requires forall d :: d in ds && d.state != UAccepted && (Serial(log, d.id) || InWave(log, d.id)) ==> d.id in ids
    requires forall d :: d in ds ==> !(Serial(log, d.id) && InWave(log, d.id))
    ensures Stable(c, log, es)
  {
    hide Serial, InWave, SerialTarget, WaveTarget;
    forall d | d in es
      ensures d.state != UAccepted ==> !Serial(log, d.id) && !InWave(log, d.id)
      ensures !(Serial(log, d.id) && InWave(log, d.id))
    {
      var i :| 0 <= i < |es| && es[i] == d;
      assert ds[i] in ds;
    }
  }

  lemma AcceptCounted(c: Config, key: set<Id>, count: nat, ds: seq<WorkUnit>, es: seq<WorkUnit>, ids: set<Id>,
                      count': nat)
    requires Accepts(ds, es, ids) && count' <= MAX_REWORK
    requires forall d :: d in ds && d.state != UAccepted && d.id !in ids ==> d.id !in key && d.rework == 0
    ensures WaveCounted(c, key, count', es)
  {
    forall d | d in es && d.state != UAccepted ensures d.id !in key && d.rework == 0 {
      var i :| 0 <= i < |es| && es[i] == d;
      assert ds[i] in ds;
    }
  }

  lemma AcceptCredited(reviews: seq<Reviewed>, r: Reviewed, ds: seq<WorkUnit>, es: seq<WorkUnit>, ids: set<Id>)
    requires Accepts(ds, es, ids) && Credited(reviews, ds)
    requires forall d :: d in ds && d.id in ids ==> CreditedBy(r, d.id)
    ensures Credited(reviews + [r], es)
  {
    var all := reviews + [r];
    assert r in all;
    forall d | d in es && d.state == UAccepted ensures exists x :: x in all && CreditedBy(x, d.id) {
      var i :| 0 <= i < |es| && es[i] == d;
      assert ds[i] in ds;
      if ds[i].id !in ids {
        var x :| x in reviews && CreditedBy(x, d.id);
        assert x in all;
      }
    }
  }

  lemma AcceptRecounted(reviews: seq<Reviewed>, r: Reviewed, ds: seq<WorkUnit>, es: seq<WorkUnit>, ids: set<Id>)
    requires Accepts(ds, es, ids) && Recounted(reviews, ds) && r.decision.DAccept?
    ensures Recounted(reviews + [r], es)
  {
    hide WaveReworks;
    forall e | e in es ensures WaveReworks(reviews + [r], e.id) == e.rework {
      var i :| 0 <= i < |es| && es[i] == e;
      assert ds[i] in ds;
      OneMoreReview(reviews, r, e.id);
    }
  }

  // ---- what a pass does to the units of a DAG ----

  /** A unit the pass does not touch stays tracked. */
  lemma TrackOther(x: Pass, d: WorkUnit)
    requires x.Ok() && Tracked(x.start, d) && d.id < x.n && d.id != x.u && d.id !in x.CoveredUnits()
    ensures Tracked(x.Log(), d)
  {
    hide View, ContextOf, Pass.Ok, Pass.Log, Serial, InWave, SameStatic, Pass.CoveredUnits;
    PassViews(x, d.id);
    PassDispatches(x, d.id);
    PassCovers(x);
    SlotId(x.start, d.id);
    JudgedNone(View(x.start, d.id).value, [x.u] + x.CoveredUnits(), Some(x.decision));
  }

  lemma {:induction false} SlotId(log: seq<Event>, id: Id)
    ensures View(log, id).Some? ==> View(log, id).value.id == id
  {
    ViewHasItsId(log, id);
  }

  /** A member of the wave the pass dispatched is judged once. */
  lemma TrackMember(x: Pass, d: WorkUnit, e: WorkUnit)
    requires x.Ok() && Tracked(x.start, d) && d.id < x.n && d.id != x.u
    requires x.p.covers.Some? && Distinct(x.p.covers.value) && d.id in x.p.covers.value
    requires x.decision.DAccept? || x.decision.DRework?
    requires e.id == d.id && SameStatic(e, d) && e.state == Judged(d, Some(x.decision)).state
             && e.rework == Judged(d, Some(x.decision)).rework
    ensures Tracked(x.Log(), e)
  {
    hide View, ContextOf, Pass.Ok, Pass.Log, Serial, InWave;
    PassViews(x, d.id);
    PassDispatches(x, d.id);
    PassCovers(x);
    SlotId(x.start, d.id);
    var v := View(x.start, d.id).value;
    var ids := x.p.covers.value;
    assert JudgedTimes(v, [x.u] + ids, Some(x.decision)) == JudgedTimes(v, ids, Some(x.decision)) by {
      assert ([x.u] + ids)[1..] == ids;
    }
    JudgedOnce(v, ids, Some(x.decision));
  }

  /** A unit dispatched by itself shows the verdict it got. */
  lemma TrackSelf(x: Pass, d: WorkUnit, e: WorkUnit, u: WorkUnit, r: Receipt, n: Id)
    requires x.Ok() && Tracked(x.start, d) && DagUnit(d, n) && x.u == d.id && u.id == d.id && x.p == UnitPayload(u)
    requires d.id < x.n && SameStatic(u, d) && x.receipt == ReceiptPayload(r, u.id)
    requires x.decision.DAccept? || x.decision.DRework?
    requires e.id == d.id && SameStatic(e, d) && e.state == (if x.decision.DAccept? then UAccepted else UQueued)
    ensures Tracked(x.Log(), e)
  {
    hide View, ContextOf, Pass.Ok, Pass.Log, InWave, Serial;
    PassViews(x, d.id);
    PassDispatches(x, d.id);
    PassCovers(x);
    SlotId(x.start, d.id);
    var v := View(x.start, d.id).value;
    var v2 := Received(ApplyUnitFields(v, x.p).(state := UImplementing), x.receipt);
    assert x.CoveredUnits() == [] && [x.u] + [] == [d.id];
    JudgedOnce(v2, [d.id], Some(x.decision));
  }

  /** Dependencies of ready units are shown as accepted. */
  lemma {:induction false} ReadyDepsShown(log: seq<Event>, ds: seq<WorkUnit>, id: Id, dep: Id)
    requires (forall d :: d in ds ==> Tracked(log, d)) && View(log, id).Some?
    requires exists d :: d in ds && d.id == id && Ready(d, ds)
    requires dep in View(log, id).value.dependsOn
    ensures ShownAccepted(log, dep)
  {
    hide View, ContextOf, Serial;
    var d :| d in ds && d.id == id && Ready(d, ds);
    assert Tracked(log, d);
    var a :| a in ds && a.id == dep && a.state == UAccepted;
    assert Tracked(log, a);
  }

  // ---- a wave ----

  /** Who is in a wave, and that it may be dispatched. */
  lemma WaveFacts(c: Config, ds: seq<WorkUnit>, n: Id)
    requires Shape(ds, n)
    ensures var ids := Ids(Wave(c.matcher, ReadyUnits(ds)));
            && Distinct(ids) && (forall id :: id in ids ==> id < n)
            && (forall id :: id in ids ==> exists d :: d in ds && d.id == id && Ready(d, ds))
            && ReadyIds(ds, IdSet(ids))
  {
    hide Wave, ReadyAmong, Overlap;
    var wave := Wave(c.matcher, ReadyUnits(ds));
    var ids := Ids(wave);
    WaveDistinct(c.matcher, ds);
    WaveIsMaximalAndDisjoint(c.matcher, ReadyUnits(ds));
    forall id | id in ids ensures id < n && exists d :: d in ds && d.id == id && Ready(d, ds) {
      var i :| 0 <= i < |ids| && ids[i] == id;
      assert wave[i] in wave;
      assert DagUnit(wave[i], n);
    }
    forall d | d in ds && d.id in IdSet(ids) ensures Ready(d, ds) {
      var i :| 0 <= i < |ids| && ids[i] == d.id;
      assert wave[i] in wave;
      SameId(ds, d, wave[i]);
    }
  }

  lemma SameId(ds: seq<WorkUnit>, d: WorkUnit, e: WorkUnit)
    requires DistinctIds(ds) && d in ds && e in ds && d.id == e.id
    ensures d == e
  {}

  /** Everything a wave accepts. */
  lemma {:induction false} WaveAccepts(ds: seq<WorkUnit>, cur: WorkUnit, ids: seq<Id>, r: Receipt, n: Id)
    requires Shape(ds, n) && cur.id >= n
    ensures Accepts(ds, AcceptMembers(ds, cur, ids, r), IdSet(ids))
  {
    forall i | 0 <= i < |ds| ensures ds[i].id != cur.id {
      assert ds[i] in ds && DagUnit(ds[i], n);
    }
  }

  lemma {:induction false} ReworkSame(ds: seq<WorkUnit>, ids: seq<Id>)
    ensures SameButRework(ds, ReworkMembers(ds, ids))
  {}

  /** Which open units had been dispatched before this wave: only its members. */
  lemma DispatchedInWave(c: Config, log: seq<Event>, ds: seq<WorkUnit>, ids: seq<Id>, d: WorkUnit)
    requires Stable(c, log, ds) && d in ds && d.state != UAccepted
    requires |Wave(c.matcher, ReadyUnits(ds))| >= 2 && ids == Ids(Wave(c.matcher, ReadyUnits(ds)))
    ensures !Serial(log, d.id) && (InWave(log, d.id) ==> d.id in ids)
  {
    hide Serial, InWave, Wave;
  }

  /** The counter agrees with every member when the wave starts. */
  lemma WaveStarts(c: Config, s: Loop, ds: seq<WorkUnit>, ids: seq<Id>)
    requires WaveCounted(c, s.waveKey, s.waveRework, ds)
    requires |Wave(c.matcher, ReadyUnits(ds))| >= 2 && ids == Ids(Wave(c.matcher, ReadyUnits(ds)))
    ensures var w := Waved(s, ids);
            w == s.(waveKey := IdSet(ids), waveRework := w.waveRework)
            && w.waveRework <= MAX_REWORK
            && forall d :: d in ds && d.state != UAccepted ==> d.rework == if d.id in ids then w.waveRework else 0
  {
    hide Wave, ReadyUnits;
  }

  /** The pass of a wave. */
  ghost predicate WavePass(x: Pass, s: Loop, ids: seq<Id>) {
    && x.Ok() && x.start == s.ledger.log && x.n == s.nextId && x.u == s.nextId
    && x.p.workUnitId == Some(x.u) && x.p.covers == Some(ids) && (x.decision.DAccept? || x.decision.DRework?)
  }

  lemma WaveDepsShown(c: Config, s: Loop, ds: seq<WorkUnit>, ids: seq<Id>, p: Payload)
    requires FreshHead(c, s) && s.dag == Some(ds)
    requires p.workUnitId == Some(s.nextId) && p.covers == Some(ids)
    requires forall id :: id in ids ==> exists d :: d in ds && d.id == id && Ready(d, ds)
    ensures DepsShown(s.ledger.log, p)
  {
    hide View, ContextOf, Serial, InWave, Below, OrderedLog, Stable, WaveCounted, Shape, Ready;
    NothingAbove(s.ledger.log, s.nextId, s.nextId);
    forall id, dep | IsTarget(p, id) && View(s.ledger.log, id).Some? && dep in View(s.ledger.log, id).value.dependsOn
      ensures ShownAccepted(s.ledger.log, dep)
    {
      ReadyDepsShown(s.ledger.log, ds, id, dep);
    }
  }

  lemma WaveTracked(c: Config, s: Loop, ds: seq<WorkUnit>, ids: seq<Id>, x: Pass, es: seq<WorkUnit>, i: nat)
    requires FreshHead(c, s) && s.dag == Some(ds) && WavePass(x, s, ids) && Distinct(ids)
    requires i < |ds| == |es| && es[i].id == ds[i].id && SameStatic(es[i], ds[i])
    requires if ds[i].id in ids
             then es[i].state == Judged(ds[i], Some(x.decision)).state
                  && es[i].rework == Judged(ds[i], Some(x.decision)).rework
             else es[i] == ds[i]
    ensures Tracked(x.Log(), es[i])
  {
    hide View, ContextOf, Pass.Ok, Pass.Log, Serial, InWave, Below, OrderedLog, Stable, WaveCounted, Tracked;
    assert ds[i] in ds;
    HeadUnit(c, s, ds, ds[i]);
    if ds[i].id in ids { TrackMember(x, ds[i], es[i]); } else { TrackOther(x, ds[i]); }
  }

  lemma HeadUnit(c: Config, s: Loop, ds: seq<WorkUnit>, d: WorkUnit)
    requires FreshHead(c, s) && s.dag == Some(ds) && d in ds
    ensures Tracked(s.ledger.log, d) && DagUnit(d, s.nextId) && (d.state == UQueued || d.state == UAccepted)
  {
    hide Tracked, Serial, InWave, Below, OrderedLog;
  }

  /** Dispatch history after a wave. */
  lemma WaveHistory(c: Config, s: Loop, ds: seq<WorkUnit>, ids: seq<Id>, x: Pass, d: WorkUnit)
    requires FreshHead(c, s) && s.dag == Some(ds) && WavePass(x, s, ids) && d in ds
    requires |Wave(c.matcher, ReadyUnits(ds))| >= 2 && ids == Ids(Wave(c.matcher, ReadyUnits(ds)))
    requires ReadyIds(ds, IdSet(ids))
    ensures d.state != UAccepted ==> !Serial(x.Log(), d.id) && (InWave(x.Log(), d.id) <==> d.id in ids)
    ensures !(Serial(x.Log(), d.id) && InWave(x.Log(), d.id))
  {
    hide View, ContextOf, Pass.Ok, Pass.Log, Serial, InWave, Below, OrderedLog, WaveCounted, Wave, Shape, Tracked;
    HeadUnit(c, s, ds, d);
    PassDispatches(x, d.id);
    if d.state != UAccepted { DispatchedInWave(c, s.ledger.log, ds, ids, d); }
  }

  lemma WaveAccepted(c: Config, s: Loop, ds: seq<WorkUnit>, ids: seq<Id>, x: Pass, es: seq<WorkUnit>, r: Reviewed)
    requires FreshHead(c, s) && s.dag == Some(ds) && WavePass(x, s, ids) && x.decision.DAccept?
    requires |Wave(c.matcher, ReadyUnits(ds))| >= 2 && ids == Ids(Wave(c.matcher, ReadyUnits(ds)))
    requires Accepts(ds, es, IdSet(ids)) && !AllAccepted(es)
    requires r.decision.DAccept? && r.covers == ids
    ensures Shape(es, x.m + 1) && (forall e :: e in es ==> Tracked(x.Log(), e))
    ensures Stable(c, x.Log(), es) && WaveCounted(c, IdSet(ids), 0, es)
    ensures Credited(s.reviews + [r], es) && Recounted(s.reviews + [r], es)
  {
    hide Recounted, View, ContextOf, Pass.Ok, Pass.Log, Serial, InWave, Below, OrderedLog, Wave, Tracked, AcceptMembers;
    WaveFacts(c, ds, s.nextId);
    var set_ := IdSet(ids);
    PassRange(x);
    AcceptShape(ds, es, set_, s.nextId, x.m + 1);
    forall e | e in es ensures Tracked(x.Log(), e) {
      var i :| 0 <= i < |es| && es[i] == e;
      assert ds[i] in ds;
      if ds[i].id !in ids { assert ds[i].id !in set_; }
      WaveTracked(c, s, ds, ids, x, es, i);
    }
    forall d | d in ds
      ensures d.state != UAccepted && (Serial(x.Log(), d.id) || InWave(x.Log(), d.id)) ==> d.id in set_
      ensures !(Serial(x.Log(), d.id) && InWave(x.Log(), d.id))
    {
      WaveHistory(c, s, ds, ids, x, d);
    }
    AcceptStable(c, x.Log(), ds, es, set_);
    WaveStarts(c, s, ds, ids);
    AcceptCounted(c, set_, 0, ds, es, set_, 0);
    AcceptCredited(s.reviews, r, ds, es, set_);
    AcceptRecounted(s.reviews, r, ds, es, set_);
  }

  lemma PassRange(x: Pass)
    requires x.Ok()
    ensures x.n < x.m
  {}

  lemma SameUnitAt(ds: seq<WorkUnit>, es: seq<WorkUnit>, e: WorkUnit) returns (d: WorkUnit)
    requires SameButRework(ds, es) && e in es
    ensures d in ds && e == d.(rework := e.rework)
  {
    var i :| 0 <= i < |es| && es[i] == e;
    d := ds[i];
  }

  lemma ReworkOrder(ds: seq<WorkUnit>, es: seq<WorkUnit>)
    requires SameButRework(ds, es) && DistinctIds(ds) && DepsFirst(ds)
    ensures DistinctIds(es) && DepsFirst(es)
  {
    forall i | 0 <= i < |es| ensures es[i].id == ds[i].id && es[i].dependsOn == ds[i].dependsOn {}
    forall i, d | 0 <= i < |es| && d in es[i].dependsOn ensures ListedBefore(es, i, d) {
      assert ListedBefore(ds, i, d);
      var j :| 0 <= j < i && ds[j].id == d;
      assert es[j].id == d;
    }
  }

  lemma ReworkClosed(ds: seq<WorkUnit>, es: seq<WorkUnit>)
    requires SameButRework(ds, es) && AcceptedClosed(ds)
    ensures AcceptedClosed(es)
  {
    hide SameButRework;
    forall u, d | u in es && u.state == UAccepted && d in u.dependsOn ensures HasAccepted(es, d) {
      var v := SameUnitAt(ds, es, u);
      assert HasAccepted(ds, d);
      ReworkIsSamePlan(ds, es);
      SameAccepted(ds, es, d);
    }
  }

  lemma ReworkIsSamePlan(ds: seq<WorkUnit>, es: seq<WorkUnit>)
    requires SameButRework(ds, es)
    ensures SamePlan(ds, es)
  {}

  lemma ReworkLeft(ds: seq<WorkUnit>, es: seq<WorkUnit>)
    requires SameButRework(ds, es) && !AllAccepted(ds)
    ensures !AllAccepted(es)
  {
    var d :| d in ds && d.state != UAccepted;
    var i :| 0 <= i < |ds| && ds[i] == d;
    assert es[i] in es;
  }

  lemma ReworkShape(ds: seq<WorkUnit>, es: seq<WorkUnit>, n: Id, m: Id)
    requires Shape(ds, n) && SameButRework(ds, es) && n <= m && forall e :: e in es ==> e.rework <= MAX_REWORK
    ensures Shape(es, m)
  {
    hide SameButRework, DistinctIds, DepsFirst, AcceptedClosed;
    ReworkOrder(ds, es);
    ReworkClosed(ds, es);
    forall e | e in es ensures DagUnit(e, m) && (e.state == UQueued || e.state == UAccepted) {
      var d := SameUnitAt(ds, es, e);
      assert DagUnit(d, n);
    }
  }

  lemma ReworkCredited(reviews: seq<Reviewed>, r: Reviewed, ds: seq<WorkUnit>, es: seq<WorkUnit>)
    requires SameButRework(ds, es) && Credited(reviews, ds)
    ensures Credited(reviews + [r], es)
  {
    forall e | e in es && e.state == UAccepted ensures exists x :: x in reviews + [r] && CreditedBy(x, e.id) {
      var i :| 0 <= i < |es| && es[i] == e;
      assert ds[i] in ds;
      var x :| x in reviews && CreditedBy(x, ds[i].id);
      assert x in reviews + [r];
    }
  }

  lemma {:induction false} ReworkRecounted(reviews: seq<Reviewed>, r: Reviewed, ds: seq<WorkUnit>, ids: seq<Id>)
    requires Recounted(reviews, ds) && r.decision.DRework? && r.covers == ids
    ensures Recounted(reviews + [r], ReworkMembers(ds, ids))
  {
    hide WaveReworks;
    var es := ReworkMembers(ds, ids);
    forall e | e in es ensures WaveReworks(reviews + [r], e.id) == e.rework {
      var i :| 0 <= i < |es| && es[i] == e;
      assert ds[i] in ds;
      OneMoreReview(reviews, r, e.id);
    }
  }

  /** A reworked wave is the next wave again. */
  lemma WaveAgain(c: Config, ds: seq<WorkUnit>, es: seq<WorkUnit>)
    requires SameButRework(ds, es)
    ensures Ids(Wave(c.matcher, ReadyUnits(es))) == Ids(Wave(c.matcher, ReadyUnits(ds)))
    ensures |Wave(c.matcher, ReadyUnits(es))| == |Wave(c.matcher, ReadyUnits(ds))|
  {
    hide Wave, ReadyAmong;
    ScheduleIgnoresHistory(c.matcher, ds, es);
    var a, b := Wave(c.matcher, ReadyUnits(ds)), Wave(c.matcher, ReadyUnits(es));
    assert forall i :: 0 <= i < |a| ==> Ids(a)[i] == Ids(b)[i];
  }

  /** One member, counted up. */
  lemma {:induction false} WaveReworkCountAt(ds: seq<WorkUnit>, ids: seq<Id>, count: nat, n: Id, i: nat)
    requires Shape(ds, n) && count + 1 <= MAX_REWORK && ReadyIds(ds, IdSet(ids)) && i < |ds|
    requires ds[i].state != UAccepted ==> ds[i].rework == if ds[i].id in ids then count else 0
    ensures var e := ReworkMembers(ds, ids)[i];
            e.rework <= MAX_REWORK && (e.state != UAccepted ==> e.rework == if e.id in IdSet(ids) then count + 1 else 0)
  {
    hide HasAccepted, DistinctIds, DepsFirst, AcceptedClosed;
    assert ds[i] in ds && DagUnit(ds[i], n);
    if ds[i].id in IdSet(ids) { assert Ready(ds[i], ds); }
  }

  lemma {:induction false} WaveReworkCounts(c: Config, ds: seq<WorkUnit>, es: seq<WorkUnit>, ids: seq<Id>, count: nat,
                                            n: Id)
    requires Shape(ds, n) && es == ReworkMembers(ds, ids) && count + 1 <= MAX_REWORK && ReadyIds(ds, IdSet(ids))
    requires forall d :: d in ds && d.state != UAccepted ==> d.rework == if d.id in ids then count else 0
    requires |Wave(c.matcher, ReadyUnits(ds))| >= 2 && ids == Ids(Wave(c.matcher, ReadyUnits(ds)))
    ensures WaveCounted(c, IdSet(ids), count + 1, es) && forall e :: e in es ==> e.rework <= MAX_REWORK
  {
    hide Wave, ReadyUnits, Shape, ReadyIds, ReworkMembers;
    ReworkSame(ds, ids);
    WaveAgain(c, ds, es);
    forall e | e in es
      ensures e.rework <= MAX_REWORK
      ensures e.state != UAccepted ==> e.rework == if e.id in IdSet(ids) then count + 1 else 0
    {
      var i :| 0 <= i < |es| && es[i] == e;
      assert ds[i] in ds;
      WaveReworkCountAt(ds, ids, count, n, i);
    }
  }

  lemma {:induction false} WaveReworkTracks(c: Config, s: Loop, ds: seq<WorkUnit>, ids: seq<Id>, x: Pass, i: nat)
    requires FreshHead(c, s) && s.dag == Some(ds) && WavePass(x, s, ids) && x.decision.DRework? && i < |ds|
    requires |Wave(c.matcher, ReadyUnits(ds))| >= 2 && ids == Ids(Wave(c.matcher, ReadyUnits(ds)))
    requires Distinct(ids) && ReadyIds(ds, IdSet(ids))
    ensures var es := ReworkMembers(ds, ids); Tracked(x.Log(), es[i])
  {
    hide View, ContextOf, Pass.Ok, Pass.Log, Serial, InWave, Wave, Tracked, ReadyAmong, FreshHead, WavePass, Distinct,
         ReadyIds;
    var es := ReworkMembers(ds, ids);
    assert ds[i] in ds;
    if ds[i].id in ids { MemberIsQueued(c, s, ds, ids, ds[i]); }
    WaveTracked(c, s, ds, ids, x, es, i);
  }

  /** After a rework every dispatched unit is dispatched again in the same wave. */
  lemma WaveReworkStable(c: Config, s: Loop, ds: seq<WorkUnit>, ids: seq<Id>, x: Pass, es: seq<WorkUnit>)
    requires FreshHead(c, s) && s.dag == Some(ds) && WavePass(x, s, ids)
    requires |Wave(c.matcher, ReadyUnits(ds))| >= 2 && ids == Ids(Wave(c.matcher, ReadyUnits(ds)))
    requires ReadyIds(ds, IdSet(ids)) && SameButRework(ds, es)
    ensures Stable(c, x.Log(), es)
  {
    hide View, ContextOf, Pass.Ok, Pass.Log, Serial, InWave, Wave, ReadyAmong, FreshHead, WavePass, ReadyIds,
         SameButRework;
    WaveAgain(c, ds, es);
    forall e | e in es
      ensures e.state != UAccepted ==> !Serial(x.Log(), e.id) && (InWave(x.Log(), e.id) ==> e.id in ids)
      ensures !(Serial(x.Log(), e.id) && InWave(x.Log(), e.id))
    {
      var d := SameUnitAt(ds, es, e);
      WaveHistory(c, s, ds, ids, x, d);
    }
  }

  lemma {:induction false} WaveReworked(c: Config, s: Loop, ds: seq<WorkUnit>, ids: seq<Id>, x: Pass,
                                        es: seq<WorkUnit>, r: Reviewed)
    requires FreshHead(c, s) && s.dag == Some(ds) && WavePass(x, s, ids) && x.decision.DRework?
    requires |Wave(c.matcher, ReadyUnits(ds))| >= 2 && ids == Ids(Wave(c.matcher, ReadyUnits(ds)))
    requires es == ReworkMembers(ds, ids) && Waved(s, ids).waveRework + 1 <= MAX_REWORK
    requires r.decision.DRework? && r.covers == ids
    ensures Shape(es, x.m + 1) && !AllAccepted(es) && (forall e :: e in es ==> Tracked(x.Log(), e))
    ensures Stable(c, x.Log(), es) && WaveCounted(c, IdSet(ids), Waved(s, ids).waveRework + 1, es)
    ensures Credited(s.reviews + [r], es) && Recounted(s.reviews + [r], es)
  {
    hide Recounted, Credited, View, ContextOf, Pass.Ok, Pass.Log, Serial, InWave, Below, OrderedLog, Wave, Tracked,
         ReadyAmong, Stable, SameButRework, Shape, Distinct, ReadyIds;
    HeadDag(c, s, ds);
    WaveFacts(c, ds, s.nextId);
    PassRange(x);
    ReworkSame(ds, ids);
    WaveStarts(c, s, ds, ids);
    WaveReworkCounts(c, ds, es, ids, Waved(s, ids).waveRework, s.nextId);
    ReworkShape(ds, es, s.nextId, x.m + 1);
    ReworkLeft(ds, es);
    ReworkCredited(s.reviews, r, ds, es);
    ReworkRecounted(s.reviews, r, ds, ids);
    WaveReworkStable(c, s, ds, ids, x, es);
    forall e | e in es ensures Tracked(x.Log(), e) {
      var i :| 0 <= i < |es| && es[i] == e;
      WaveReworkTracks(c, s, ds, ids, x, i);
    }
  }

  lemma HeadDag(c: Config, s: Loop, ds: seq<WorkUnit>)
    requires FreshHead(c, s) && s.dag == Some(ds)
    ensures DagHead(c, s, ds)
  {
    hide DagHead;
  }

  lemma MemberIsQueued(c: Config, s: Loop, ds: seq<WorkUnit>, ids: seq<Id>, d: WorkUnit)
    requires FreshHead(c, s) && s.dag == Some(ds) && d in ds && d.id in ids && ReadyIds(ds, IdSet(ids))
    ensures d.state == UQueued
  {
    HeadUnit(c, s, ds, d);
    assert d.id in IdSet(ids);
  }

  /** A whole turn spent on a wave. */
  ghost predicate WaveTurned(c: Config, s: Loop, ds: seq<WorkUnit>, ids: seq<Id>, u: WorkUnit, p: Payload, g: Phase,
                             k: Ruling) {
    && FreshHead(c, s) && s.dag == Some(ds)
    && |Wave(c.matcher, ReadyUnits(ds))| >= 2 && ids == Ids(Wave(c.matcher, ReadyUnits(ds)))
    && u.id == s.nextId && u.rework == 0 && p.workUnitId == Some(u.id) && p.covers == Some(ids)
    && Performed(Waved(s, ids), g, u, p, ids) && Ruled(g.s, u, ids, k)
    && After(k, ids).outcome.Running?
    && (k.decision.DAccept? ==> LeavesWork(AcceptedLoop(k.recorded, k.receipt, ids)))
  }

  lemma WaveTurnPass(c: Config, s: Loop, ds: seq<WorkUnit>, ids: seq<Id>, u: WorkUnit, p: Payload, g: Phase, k: Ruling)
    returns (x: Pass)
    requires WaveTurned(c, s, ds, ids, u, p, g, k)
    ensures WavePass(x, s, ids) && x.Log() == k.recorded.ledger.log && x.decision == k.decision && x.m == g.s.nextId
    ensures OrderedLog(x.Log()) && Below(x.Log(), x.m + 1)
  {
    hide View, ContextOf, Pass.Ok, Pass.Log, Serial, InWave, Below, OrderedLog, Wave, Tracked, ReadyAmong, Performed,
         Ruled, AcceptedLoop, After, Stable, WaveCounted, Shape, LeavesWork, ReadyIds;
    HeadDag(c, s, ds);
    var asked := Waved(s, ids);
    WaveFacts(c, ds, s.nextId);
    PassFits(s, asked, g, u, p, ids, k);
    x := PassOf(s, asked, g.s, u, p, k);
    RuledShape(g.s, u, ids, k);
    WaveDepsShown(c, s, ds, ids, p);
    PassOrdered(x);
    PassDispatches(x, x.m + 1);
  }

  lemma WaveTurnAccepts(c: Config, s: Loop, ds: seq<WorkUnit>, ids: seq<Id>, u: WorkUnit, p: Payload, g: Phase,
                        k: Ruling)
    requires WaveTurned(c, s, ds, ids, u, p, g, k) && k.decision.DAccept?
    ensures FreshHead(c, After(k, ids))
  {
    hide View, ContextOf, Pass.Ok, Pass.Log, Serial, InWave, Below, OrderedLog, Wave, Tracked, ReadyAmong, Performed,
         Ruled, After, Stable, WaveCounted, Shape, AcceptMembers, Accepts, Credited, Recounted, AllAccepted, Exhausted,
         AcceptGates.CanAccept;
    var x := WaveTurnPass(c, s, ds, ids, u, p, g, k);
    HeadDag(c, s, ds);
    WorkedShape(Waved(s, ids), g, u, p, ids);
    RuledShape(g.s, u, ids, k);
    AfterAccept(k, g.s, u, ids);
    var cur := k.recorded.unit.value.(state := UAccepted);
    var es := AcceptMembers(ds, cur, ids, k.receipt);
    WaveAccepts(ds, cur, ids, k.receipt, s.nextId);
    var r := Reviewed(u.id, ids, k.gates, k.decision, k.recorded.ledger.run);
    WaveAccepted(c, s, ds, ids, x, es, r);
    HonestGrows(s.reviews, r);
  }

  lemma WaveTurnReworks(c: Config, s: Loop, ds: seq<WorkUnit>, ids: seq<Id>, u: WorkUnit, p: Payload, g: Phase,
                        k: Ruling)
    requires WaveTurned(c, s, ds, ids, u, p, g, k) && k.decision.DRework?
    ensures FreshHead(c, After(k, ids))
  {
    hide View, ContextOf, Pass.Ok, Pass.Log, Serial, InWave, Below, OrderedLog, Wave, Tracked, ReadyAmong, Performed,
         Ruled, After, Stable, WaveCounted, Shape, ReworkMembers, Credited, Recounted, AllAccepted, Exhausted,
         AcceptGates.CanAccept;
    var x := WaveTurnPass(c, s, ds, ids, u, p, g, k);
    HeadDag(c, s, ds);
    WorkedShape(Waved(s, ids), g, u, p, ids);
    RuledShape(g.s, u, ids, k);
    AfterRework(k, g.s, u, ids);
    var es := ReworkMembers(ds, ids);
    var r := Reviewed(u.id, ids, k.gates, k.decision, k.recorded.ledger.run);
    WaveReworked(c, s, ds, ids, x, es, r);
    HonestGrows(s.reviews, r);
  }
}
