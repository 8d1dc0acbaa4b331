/** How often the envelope says a unit of a DAG was sent back: exactly as often as it,
    or a wave it was in, got a rework verdict. */
module Counts {
  import opened Types
  import opened Budget
  import opened Events
  import opened Scheduler
  import opened Drive
  import opened Replay
  import opened Accounting
  import opened Chronicle
  import opened Passes
  import opened FreshRun
  import opened DagRun
  import opened Turns
  import Dag

  /** The rework verdicts given to the unit or to a wave it was in. */
  function ReworkVerdicts(reviews: seq<Reviewed>, id: Id): nat {
    if reviews == [] then 0
    else
      var r := reviews[|reviews| - 1];
      ReworkVerdicts(reviews[..|reviews| - 1], id)
      + if r.decision.DRework? && (r.unitId == id || id in r.covers) then 1 else 0
  }

  lemma {:induction false} OneMoreVerdict(reviews: seq<Reviewed>, r: Reviewed, id: Id)
    ensures ReworkVerdicts(reviews + [r], id) ==
            ReworkVerdicts(reviews, id) + if r.decision.DRework? && (r.unitId == id || id in r.covers) then 1 else 0
  {
    assert (reviews + [r])[..|reviews + [r]| - 1] == reviews;
  }

  predicate ReviewsBelow(reviews: seq<Reviewed>, n: Id) { forall r :: r in reviews ==> r.unitId < n }

  lemma {:induction false} NoVerdictYet(reviews: seq<Reviewed>, n: Id, id: Id)
    requires ReviewsBelow(reviews, n) && NoWaves(reviews) && id >= n
    ensures ReworkVerdicts(reviews, id) == 0
  {
    if reviews != [] {
      assert reviews[|reviews| - 1] in reviews;
      assert forall r :: r in reviews[..|reviews| - 1] ==> r in reviews;
      NoVerdictYet(reviews[..|reviews| - 1], n, id);
    }
  }

  /** Replay counts the reworks of this unit. */
  ghost predicate Counted(log: seq<Event>, reviews: seq<Reviewed>, id: Id) {
    View(log, id).Some? && View(log, id).value.rework == ReworkVerdicts(reviews, id)
  }

  ghost predicate CountOk(s: Loop) {
    && ReviewsBelow(s.reviews, s.nextId)
    && (s.dag.Some? ==> forall id :: id in Ids(s.dag.value) ==> Counted(s.ledger.log, s.reviews, id))
  }

  // ---- the units of a DAG stay the same units ----

  lemma {:induction false} SameIds(a: seq<WorkUnit>, b: seq<WorkUnit>)
    requires |a| == |b| && forall i :: 0 <= i < |a| ==> a[i].id == b[i].id
    ensures Ids(a) == Ids(b)
  {}

  lemma {:induction false} AcceptKeepsIds(ds: seq<WorkUnit>, cur: WorkUnit, wave: seq<Id>, r: Receipt)
    ensures Ids(AcceptMembers(ds, cur, wave, r)) == Ids(ds)
  {
    SameIds(AcceptMembers(ds, cur, wave, r), ds);
  }

  lemma {:induction false} ReworkKeepsIds(ds: seq<WorkUnit>, wave: seq<Id>)
    ensures Ids(ReworkMembers(ds, wave)) == Ids(ds)
  {
    SameIds(ReworkMembers(ds, wave), ds);
  }

  /** The DAG after a ruling holds the same units, and the ruling is the last review. */
  lemma RuledIds(g: Loop, u: WorkUnit, wave: seq<Id>, k: Ruling)
    requires Ruled(g, u, wave, k) && g.outcome.Running? && g.dag.Some?
    ensures var t := After(k, wave);
            t.dag.Some? && Ids(t.dag.value) == Ids(g.dag.value) && t.ledger.log == k.recorded.ledger.log
            && (wave == [] ==> t.waveRework == g.waveRework)
  {
    hide AcceptMembers, ReworkMembers, Ids, After, Ruled;
    RuledShape(g, u, wave, k);
    if k.decision.DAccept? {
      AfterAccept(k, g, u, wave);
      AcceptKeepsIds(g.dag.value, k.recorded.unit.value.(state := UAccepted), wave, k.receipt);
    } else {
      AfterRework(k, g, u, wave);
      ReworkKeepsIds(g.dag.value, wave);
    }
  }

  lemma RuledReview(g: Loop, u: WorkUnit, wave: seq<Id>, k: Ruling)
    requires Ruled(g, u, wave, k) && g.outcome.Running?
    ensures var t, r := After(k, wave), Reviewed(u.id, wave, k.gates, k.decision, k.recorded.ledger.run);
            && t.reviews == g.reviews + [r] && t.nextId == g.nextId + 1 && (t.dag.None? <==> g.dag.None?)
            && (ReviewsBelow(g.reviews, g.nextId) && u.id < g.nextId ==> ReviewsBelow(t.reviews, t.nextId))
  {
    hide AcceptMembers, ReworkMembers, After, Ruled;
    RuledShape(g, u, wave, k);
    if k.decision.DAccept? { AfterAccept(k, g, u, wave); } else { AfterRework(k, g, u, wave); }
  }

  // ---- one pass ----

  /** A rework counts once for the unit and once for every unit of its wave. */
  lemma PassCounts(x: Pass, reviews: seq<Reviewed>, r: Reviewed, id: Id)
    requires x.Ok() && id <= x.n && Counted(x.start, reviews, id)
    requires Distinct([x.u] + x.CoveredUnits()) && (x.decision.DAccept? || x.decision.DRework?)
    requires r.unitId == x.u && r.covers == x.CoveredUnits() && r.decision == x.decision
    ensures Counted(x.Log(), reviews + [r], id)
  {
    hide View, ContextOf, Pass.Ok, Pass.Log, Pass.CoveredUnits, ReworkVerdicts;
    PassViews(x, id);
    SlotId(x.start, id);
    OneMoreVerdict(reviews, r, id);
    var v, ids := View(x.start, id).value, [x.u] + x.CoveredUnits();
    var v2 := if id == x.u then Received(ApplyUnitFields(v, x.p).(state := UImplementing), x.receipt) else v;
    DispatchedId(x);
    assert id in ids <==> id == x.u || id in x.CoveredUnits();
    if id in ids { JudgedOnce(v2, ids, Some(x.decision)); } else { JudgedNone(v2, ids, Some(x.decision)); }
  }

  lemma DispatchedId(x: Pass)
    requires x.Ok()
    ensures x.p.workUnitId == Some(x.u)
  {}

  // ---- a turn ----

  lemma {:induction false} HeadId(c: Config, s: Loop, ds: seq<WorkUnit>, id: Id)
    requires FreshHead(c, s) && s.dag == Some(ds) && id in Ids(ds)
    ensures id < s.nextId
  {
    hide FreshHead;
    var i :| 0 <= i < |ds| && ds[i].id == id;
    HeadUnit(c, s, ds, ds[i]);
  }

  lemma {:induction false} SerialCounts(c: Config, s: Loop, ds: seq<WorkUnit>, d: WorkUnit, u: WorkUnit, g: Phase,
                                        k: Ruling)
    requires SerialTurned(c, s, ds, d, u, g, k) && CountOk(s)
    ensures CountOk(After(k, []))
  {
    hide View, ContextOf, Pass.Ok, Pass.Log, Pass.CoveredUnits, Performed, Ruled, After, Counted, FreshHead, LeavesWork,
         AcceptedLoop, Ids, SerialPass, Tracked, NextAlone;
    var x := SerialTurnPass(c, s, ds, d, u, g, k);
    NextFacts(c, s, ds, d);
    HeadRuns(c, s);
    WorkedShape(s, g, u, UnitPayload(u), []);
    RuledShape(g.s, u, [], k);
    RuledIds(g.s, u, [], k);
    RuledReview(g.s, u, [], k);
    SerialCovers(c, s, d, u, k.receipt, x);
    SerialParts(x, s, u, k.receipt);
    var r := Reviewed(u.id, [], k.gates, k.decision, k.recorded.ledger.run);
    assert [x.u] + [] == [x.u];
    forall id | id in Ids(ds) ensures Counted(x.Log(), s.reviews + [r], id) {
      HeadId(c, s, ds, id);
      PassCounts(x, s.reviews, r, id);
    }
  }

  lemma SerialParts(x: Pass, s: Loop, u: WorkUnit, r: Receipt)
    requires SerialPass(x, s, u, r)
    ensures x.Ok() && x.start == s.ledger.log && x.n == s.nextId && x.u == u.id
    ensures x.decision.DAccept? || x.decision.DRework?
  {}

  lemma {:induction false} WaveCounts(c: Config, s: Loop, ds: seq<WorkUnit>, ids: seq<Id>, u: WorkUnit, p: Payload,
                                      g: Phase, k: Ruling)
    requires WaveTurned(c, s, ds, ids, u, p, g, k) && CountOk(s)
    ensures CountOk(After(k, ids))
  {
    hide View, ContextOf, Pass.Ok, Pass.Log, Pass.CoveredUnits, Performed, Ruled, After, Counted, FreshHead, LeavesWork,
         AcceptedLoop, Ids, WavePass, Tracked, Wave, ReadyUnits, Shape;
    var x := WaveTurnPass(c, s, ds, ids, u, p, g, k);
    HeadRuns(c, s);
    HeadShape(c, s, ds);
    WaveFacts(c, ds, s.nextId);
    WorkedShape(Waved(s, ids), g, u, p, ids);
    RuledShape(g.s, u, ids, k);
    RuledIds(g.s, u, ids, k);
    RuledReview(g.s, u, ids, k);
    WaveParts(x, s, ids);
    var r := Reviewed(u.id, ids, k.gates, k.decision, k.recorded.ledger.run);
    forall id | id in Ids(ds) ensures Counted(x.Log(), s.reviews + [r], id) {
      HeadId(c, s, ds, id);
      PassCounts(x, s.reviews, r, id);
    }
  }

  lemma HeadShape(c: Config, s: Loop, ds: seq<WorkUnit>)
    requires FreshHead(c, s) && s.dag == Some(ds)
    ensures Shape(ds, s.nextId)
  {
    hide Shape;
  }

  lemma WaveParts(x: Pass, s: Loop, ids: seq<Id>)
    requires WavePass(x, s, ids)
    ensures x.Ok() && x.start == s.ledger.log && x.n == s.nextId && x.u == s.nextId && x.CoveredUnits() == ids
    ensures x.decision.DAccept? || x.decision.DRework?
    ensures Distinct(ids) ==> Distinct([x.u] + ids)
  {
    hide View, QuietlyExtends;
    assert forall i :: 0 <= i < |ids| ==> ids[i] in ids;
  }

  lemma WaveTurnCounts(c: Config, s: Loop, ds: seq<WorkUnit>, input: TurnInput)
    requires FreshHead(c, s) && CountOk(s) && s.dag == Some(ds) && |Wave(c.matcher, ReadyUnits(ds))| >= 2
    requires Resolve(c, DagPhase(c, s, ds, input), input).outcome.Running?
    ensures CountOk(Resolve(c, DagPhase(c, s, ds, input), input))
  {
    hide FreshHead, Wave, RunPeerBatch, OuterPhase, Performed, Ruled, After, LeavesWork, AcceptedLoop, Instructions,
         CountOk;
    var wave := Wave(c.matcher, ReadyUnits(ds));
    var ids := Ids(wave);
    var asked := Waved(s, ids);
    var drafts := WaveDrafts(wave);
    var g := RunPeerBatch(c, asked, drafts, ids, input.batch);
    BatchYields(c, asked, drafts, ids, input.batch);
    if g.Got? {
      BatchWorked(c, asked, drafts, ids, input.batch);
      var u := NewMaster(s.nextId, drafts);
      HeadRuns(c, s);
      WorkedShape(asked, g, u, MasterPayload(u, ids), ids);
      PerformedRuns(asked, g, u, MasterPayload(u, ids), ids);
      var k := OuterRuled(c, g.s, u, g.receipt, ids, input.review);
      WaveCounts(c, s, ds, ids, u, MasterPayload(u, ids), g, k);
    } else {
      StoppedEarly(g.s);
    }
  }

  lemma SerialTurnCounts(c: Config, s: Loop, ds: seq<WorkUnit>, input: TurnInput)
    requires FreshHead(c, s) && CountOk(s) && s.dag == Some(ds) && |Wave(c.matcher, ReadyUnits(ds))| < 2
    requires Resolve(c, DagPhase(c, s, ds, input), input).outcome.Running?
    ensures CountOk(Resolve(c, DagPhase(c, s, ds, input), input))
  {
    hide FreshHead, Wave, RunSingle, OuterPhase, Performed, Ruled, After, LeavesWork, AcceptedLoop, NextReady,
         AllAccepted, CountOk;
    HeadRuns(c, s);
    var next := NextReady(ds);
    var d := next.value;
    var g := RunSingle(c, s, next, d.title, d.instruction, input);
    SingleYields(c, s, next, d.title, d.instruction, input);
    if g.Got? {
      SingleWorked(c, s, next, d.title, d.instruction, input);
      var u := Redirected(d, d.title, d.instruction);
      WorkedShape(s, g, u, UnitPayload(u), []);
      PerformedRuns(s, g, u, UnitPayload(u), []);
      var k := OuterRuled(c, g.s, u, g.receipt, [], input.review);
      SerialCounts(c, s, ds, d, u, g, k);
    } else {
      StoppedEarly(g.s);
    }
  }

  // ---- without a DAG ----

  /** Outside a DAG only the new review has to be placed. */
  lemma PlainCounts(s: Loop, asked: Loop, g: Phase, u: WorkUnit, p: Payload, k: Ruling)
    requires ReviewsBelow(s.reviews, s.nextId) && s.dag.None? && s.outcome.Running?
             && asked == s.(ledger := asked.ledger)
    requires Performed(asked, g, u, p, []) && Ruled(g.s, u, [], k) && u.id <= s.nextId
    ensures CountOk(After(k, []))
  {
    hide Performed, Ruled, After, Counted;
    WorkedShape(asked, g, u, p, []);
    RuledReview(g.s, u, [], k);
  }

  lemma SingleTurnCounts(c: Config, s: Loop, asked: Loop, title: string, instruction: string, input: TurnInput)
    requires FreshHead(c, s) && CountOk(s) && s.dag.None? && asked == s.(ledger := asked.ledger)
    requires Resolve(c, RunSingle(c, asked, s.unit, title, instruction, input), input).outcome.Running?
    ensures CountOk(Resolve(c, RunSingle(c, asked, s.unit, title, instruction, input), input))
  {
    hide RunSingle, OuterPhase, Performed, Ruled, After, LeavesWork, AcceptedLoop, Counted, UnitPayload, SingleHead,
         Below, OrderedLog, Honest;
    var g := RunSingle(c, asked, s.unit, title, instruction, input);
    SingleYields(c, asked, s.unit, title, instruction, input);
    if g.Got? {
      SingleWorked(c, asked, s.unit, title, instruction, input);
      var u := if s.unit.Some? then Redirected(s.unit.value, title, instruction)
               else NewUnit(s.nextId, title, instruction);
      WorkedShape(asked, g, u, UnitPayload(u), []);
      PerformedRuns(asked, g, u, UnitPayload(u), []);
      var k := OuterRuled(c, g.s, u, g.receipt, [], input.review);
      PlainCounts(s, asked, g, u, UnitPayload(u), k);
    } else {
      StoppedEarly(g.s);
    }
  }

  lemma PeersTurnCounts(c: Config, s: Loop, asked: Loop, peers: seq<PeerDraft>, input: TurnInput)
    requires FreshHead(c, s) && CountOk(s) && s.dag.None? && asked == s.(ledger := asked.ledger)
    requires Resolve(c, RunPeerBatch(c, asked, peers, [], input.batch), input).outcome.Running?
    ensures CountOk(Resolve(c, RunPeerBatch(c, asked, peers, [], input.batch), input))
  {
    hide RunPeerBatch, OuterPhase, Performed, Ruled, After, LeavesWork, AcceptedLoop, Counted, Instructions, SingleHead,
         Below, OrderedLog, Honest;
    var g := RunPeerBatch(c, asked, peers, [], input.batch);
    BatchYields(c, asked, peers, [], input.batch);
    if g.Got? {
      BatchWorked(c, asked, peers, [], input.batch);
      var u := NewMaster(s.nextId, peers);
      WorkedShape(asked, g, u, MasterPayload(u, []), []);
      PerformedRuns(asked, g, u, MasterPayload(u, []), []);
      var k := OuterRuled(c, g.s, u, g.receipt, [], input.review);
      PlainCounts(s, asked, g, u, MasterPayload(u, []), k);
    } else {
      StoppedEarly(g.s);
    }
  }

  lemma {:induction false} SeedTurnCounts(c: Config, s: Loop, asked: Loop, drafts: seq<DagDraft>)
    requires FreshHead(c, s) && CountOk(s) && s.dag.None? && asked == s.(ledger := asked.ledger)
    requires QuietlyExtends(s.ledger.log, asked.ledger.log, s.nextId, s.nextId) && SeedDag(asked, drafts).Again?
    ensures CountOk(SeedDag(asked, drafts).s)
  {
    hide QuietlyExtends, Tracked, Dag.Sorted, SeededUnit, NodesOf, View, Below, OrderedLog, Honest, SeedFacts,
         SeedEvents, NoWaves;
    var order := Dag.Sorted(NodesOf(drafts)).value;
    var n, units := s.nextId, SeededUnits(drafts, order, s.nextId);
    var b := asked.ledger.log + SeedEvents(units);
    SeededFacts(drafts, order, n);
    SingleCounters(c, s);
    QuietKeeps(s.ledger.log, asked.ledger.log, n, n);
    forall id | id in Ids(units) ensures Counted(b, s.reviews, id) {
      var k :| 0 <= k < |units| && units[k].id == id;
      SeedIsCounted(asked.ledger.log, units, n, k);
      NoVerdictYet(s.reviews, n, id);
    }
  }

  lemma {:induction false} SeedIsCounted(log: seq<Event>, units: seq<WorkUnit>, n: Id, k: nat)
    requires Below(log, n) && SeedFacts(units, n) && k < |units|
    ensures var v := View(log + SeedEvents(units), units[k].id); v.Some? && v.value.rework == 0 && units[k].id >= n
  {
    hide View, Below, SeedEvents;
    assert SeedEvents(units)[..|units|] == SeedEvents(units);
    SeedViews(log, units, n, |units|, k);
  }

  lemma PlanTurnCounts(c: Config, s: Loop, input: TurnInput)
    requires FreshHead(c, s) && CountOk(s) && s.dag.None?
    requires Resolve(c, PlanPhase(c, s, input), input).outcome.Running?
    ensures CountOk(Resolve(c, PlanPhase(c, s, input), input))
  {
    hide FreshHead, CountOk, RunSingle, RunPeerBatch, SeedDag, OuterPhase, AskPlan, Exhausted, ChargeAndTick,
         QuietlyExtends;
    var asked := AskPlan(input.plans, 3, ECommanderSchema);
    if asked.Err? {
      StoppedEarly(s);
    } else {
      var (plan, usage) := asked.value;
      var s1 := s.(ledger := ChargeAndTick(s.ledger, usage, c.commanderIn, c.commanderOut));
      StoppedEarly(s1);
      AskedQuietly(c, s, usage);
      if !Exhausted(s1.ledger.run) {
        match plan
        case Peers(peers) => if s1.unit.None? { PeersTurnCounts(c, s, s1, peers, input); }
        case Dag(drafts) =>
          SeedYields(s1, drafts);
          if SeedDag(s1, drafts).Again? {
            SeedTurnCounts(c, s, s1, drafts);
          } else {
            StoppedEarly(SeedDag(s1, drafts).s);
          }
        case Single(title, instruction) => SingleTurnCounts(c, s, s1, title, instruction, input);
      }
    }
  }

  /** A turn that goes on keeps the counts. */
  lemma TurnCounts(c: Config, s: Loop, input: TurnInput)
    requires FreshHead(c, s) && CountOk(s) && Turn(c, s, input).outcome.Running?
    ensures CountOk(Turn(c, s, input))
  {
    hide FreshHead, CountOk, DagPhase, PlanPhase, Exhausted, Resolve, Wave;
    HeadRuns(c, s);
    StoppedEarly(s);
    if s.dag.Some? {
      if |Wave(c.matcher, ReadyUnits(s.dag.value))| >= 2 {
        WaveTurnCounts(c, s, s.dag.value, input);
      } else {
        SerialTurnCounts(c, s, s.dag.value, input);
      }
    } else {
      PlanTurnCounts(c, s, input);
    }
  }
}
