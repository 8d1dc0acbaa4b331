/** Every turn of a fresh run that goes on keeps the invariants of its loop head. */
module Turns {
  import opened Types
  import opened Accept
  import opened Budget
  import opened Events
  import opened GlobOverlap
  import opened Scheduler
  import opened Drive
  import opened Replay
  import opened Accounting
  import opened Chronicle
  import opened Passes
  import opened FreshRun
  import opened DagRun
  import opened Safety
  import Dag

  // ---- a unit of a DAG dispatched by itself ----

  /** `d` is the next unit, and too little is ready for a wave. */
  ghost predicate NextAlone(c: Config, ds: seq<WorkUnit>, d: WorkUnit) {
    |Wave(c.matcher, ReadyUnits(ds))| < 2 && NextReady(ds) == Some(d)
  }

  /** A whole turn spent on one unit of a DAG. */
  ghost predicate SerialTurned(c: Config, s: Loop, ds: seq<WorkUnit>, d: WorkUnit, u: WorkUnit, g: Phase, k: Ruling) {
    && FreshHead(c, s) && s.dag == Some(ds) && NextAlone(c, ds, d)
    && u == d.(role := RGoal, state := UImplementing)
    && Performed(s, g, u, UnitPayload(u), []) && Ruled(g.s, u, [], k)
    && After(k, []).outcome.Running?
    && (k.decision.DAccept? ==> LeavesWork(AcceptedLoop(k.recorded, k.receipt, [])))
  }

  lemma NextFacts(c: Config, s: Loop, ds: seq<WorkUnit>, d: WorkUnit)
    requires FreshHead(c, s) && s.dag == Some(ds) && NextAlone(c, ds, d)
    ensures d in ds && Ready(d, ds) && d.state == UQueued && d.rework == 0
    ensures Tracked(s.ledger.log, d) && DagUnit(d, s.nextId)
    ensures ReadyIds(ds, {d.id}) && s.waveRework <= MAX_REWORK
    ensures forall e :: e in ds && e.state != UAccepted ==>
                          e.id !in s.waveKey && e.rework == 0
                          && !InWave(s.ledger.log, e.id) && (Serial(s.ledger.log, e.id) ==> e.id == d.id)
  {
    hide Serial, InWave, Wave, Tracked, ReadyAmong, HasAccepted, Below, OrderedLog;
    HeadUnit(c, s, ds, d);
    forall e | e in ds && e.id in {d.id} ensures Ready(e, ds) { SameId(ds, d, e); }
  }

  /** The pass of a unit dispatched by itself. */
  ghost predicate SerialPass(x: Pass, s: Loop, u: WorkUnit, r: Receipt) {
    && x.Ok() && x.start == s.ledger.log && x.n == s.nextId && x.u == u.id
    && x.p == UnitPayload(u) && x.receipt == ReceiptPayload(r, u.id) && (x.decision.DAccept? || x.decision.DRework?)
  }

  lemma SerialDepsShown(c: Config, s: Loop, ds: seq<WorkUnit>, d: WorkUnit, p: Payload)
    requires FreshHead(c, s) && s.dag == Some(ds) && NextAlone(c, ds, d) && p.workUnitId == Some(d.id) && p.covers.None?
    ensures DepsShown(s.ledger.log, p)
  {
    hide View, ContextOf, Serial, InWave, Below, OrderedLog, Stable, WaveCounted, Shape, Ready, Wave;
    NextFacts(c, s, ds, d);
    forall id, dep | IsTarget(p, id) && View(s.ledger.log, id).Some? && dep in View(s.ledger.log, id).value.dependsOn
      ensures ShownAccepted(s.ledger.log, dep)
    {
      ReadyDepsShown(s.ledger.log, ds, id, dep);
    }
  }

  lemma SerialTurnPass(c: Config, s: Loop, ds: seq<WorkUnit>, d: WorkUnit, u: WorkUnit, g: Phase, k: Ruling)
    returns (x: Pass)
    requires SerialTurned(c, s, ds, d, u, g, k)
    ensures SerialPass(x, s, u, k.receipt) && x.Log() == k.recorded.ledger.log && x.decision == k.decision
            && x.m == g.s.nextId
    ensures OrderedLog(x.Log()) && Below(x.Log(), x.m + 1)
  {
    hide View, ContextOf, Pass.Ok, Pass.Log, Serial, InWave, Below, OrderedLog, Wave, Tracked, ReadyAmong, Performed,
         Ruled, AcceptedLoop, After, Stable, WaveCounted, Shape, LeavesWork, ReadyIds;
    NextFacts(c, s, ds, d);
    PassFits(s, s, g, u, UnitPayload(u), [], k);
    x := PassOf(s, s, g.s, u, UnitPayload(u), k);
    RuledShape(g.s, u, [], k);
    SerialDepsShown(c, s, ds, d, UnitPayload(u));
    PassOrdered(x);
    PassDispatches(x, x.m + 1);
  }

  lemma SerialTracked(c: Config, s: Loop, ds: seq<WorkUnit>, d: WorkUnit, u: WorkUnit, r: Receipt, x: Pass,
                      b: WorkUnit, e: WorkUnit)
    requires FreshHead(c, s) && s.dag == Some(ds) && d in ds && b in ds && SerialPass(x, s, u, r)
    requires u == d.(role := RGoal, state := UImplementing)
    requires e.id == b.id && SameStatic(e, b)
    requires if b.id == d.id then e.state == (if x.decision.DAccept? then UAccepted else UQueued) else e == b
    ensures Tracked(x.Log(), e)
  {
    hide View, ContextOf, Pass.Ok, Pass.Log, Serial, InWave, Below, OrderedLog, Stable, WaveCounted, Tracked,
         UnitPayload, Pass.CoveredUnits;
    HeadUnit(c, s, ds, b);
    HeadUnit(c, s, ds, d);
    if b.id == d.id {
      HeadDag(c, s, ds);
      SameId(ds, b, d);
      TrackSelf(x, b, e, u, r, s.nextId);
    } else {
      SerialCovers(c, s, d, u, r, x);
      TrackOther(x, b);
    }
  }

  lemma SerialCovers(c: Config, s: Loop, d: WorkUnit, u: WorkUnit, r: Receipt, x: Pass)
    requires Tracked(s.ledger.log, d) && SerialPass(x, s, u, r) && u.id == d.id
    ensures x.CoveredUnits() == []
  {
    hide View, Pass.Ok, Pass.Log, ContextOf;
  }

  /** Dispatch history after the pass. */
  lemma SerialHistory(c: Config, s: Loop, ds: seq<WorkUnit>, d: WorkUnit, u: WorkUnit, r: Receipt, x: Pass, e: WorkUnit)
    requires FreshHead(c, s) && s.dag == Some(ds) && NextAlone(c, ds, d) && SerialPass(x, s, u, r) && e in ds
             && u.id == d.id
    ensures e.state != UAccepted ==> !InWave(x.Log(), e.id) && (Serial(x.Log(), e.id) ==> e.id == d.id)
    ensures !(Serial(x.Log(), e.id) && InWave(x.Log(), e.id))
  {
    hide View, ContextOf, Pass.Ok, Pass.Log, Serial, InWave, Below, OrderedLog, WaveCounted, Wave, Shape, Tracked,
         ReadyIds;
    HeadDag(c, s, ds);
    NextFacts(c, s, ds, d);
    PassDispatches(x, e.id);
    ShapeDistinct(ds, s.nextId);
    if e.id == d.id { SameId(ds, e, d); }
  }

  lemma {:induction false} SerialAccepts(ds: seq<WorkUnit>, d: WorkUnit, cur: WorkUnit, r: Receipt, n: Id)
    requires Shape(ds, n) && d in ds && cur.state == UAccepted && cur.rework == d.rework && SameStatic(cur, d)
             && cur.id == d.id
    ensures Accepts(ds, AcceptMembers(ds, cur, [], r), {d.id})
  {
    forall i | 0 <= i < |ds| && ds[i].id == d.id ensures ds[i] == d { SameId(ds, ds[i], d); }
  }

  lemma SerialTurnAccepts(c: Config, s: Loop, ds: seq<WorkUnit>, d: WorkUnit, u: WorkUnit, g: Phase, k: Ruling)
    requires SerialTurned(c, s, ds, d, u, g, k) && k.decision.DAccept?
    ensures FreshHead(c, After(k, []))
  {
    hide View, ContextOf, Pass.Ok, Pass.Log, Serial, InWave, Below, OrderedLog, Wave, Tracked, ReadyAmong, Performed,
         Ruled, After, Stable, WaveCounted, Shape, AcceptMembers, Accepts, Credited, Recounted, AllAccepted, Exhausted,
         AcceptGates.CanAccept, Ready, UnitPayload, ReadyIds;
    var x := SerialTurnPass(c, s, ds, d, u, g, k);
    HeadDag(c, s, ds);
    NextFacts(c, s, ds, d);
    WorkedShape(s, g, u, UnitPayload(u), []);
    RuledShape(g.s, u, [], k);
    AfterAccept(k, g.s, u, []);
    PassRange(x);
    var cur := k.recorded.unit.value.(state := UAccepted);
    var es := AcceptMembers(ds, cur, [], k.receipt);
    SerialAccepts(ds, d, cur, k.receipt, s.nextId);
    AcceptShape(ds, es, {d.id}, s.nextId, x.m + 1);
    SerialAcceptTracks(c, s, ds, d, u, k.receipt, x, es);
    SerialAcceptStable(c, s, ds, d, u, k.receipt, x, es);
    AcceptCounted(c, s.waveKey, s.waveRework, ds, es, {d.id}, s.waveRework);
    var r := Reviewed(u.id, [], k.gates, k.decision, k.recorded.ledger.run);
    AcceptCredited(s.reviews, r, ds, es, {d.id});
    AcceptRecounted(s.reviews, r, ds, es, {d.id});
    HonestGrows(s.reviews, r);
  }

  lemma SerialAcceptTracks(c: Config, s: Loop, ds: seq<WorkUnit>, d: WorkUnit, u: WorkUnit, r: Receipt, x: Pass,
                           es: seq<WorkUnit>)
    requires FreshHead(c, s) && s.dag == Some(ds) && d in ds && SerialPass(x, s, u, r) && x.decision.DAccept?
    requires u == d.(role := RGoal, state := UImplementing) && Accepts(ds, es, {d.id})
    ensures forall e :: e in es ==> Tracked(x.Log(), e)
  {
    hide FreshHead, SerialPass, Tracked, Pass.Log;
    forall e | e in es ensures Tracked(x.Log(), e) {
      var i :| 0 <= i < |es| && es[i] == e;
      assert ds[i] in ds;
      SerialTracked(c, s, ds, d, u, r, x, ds[i], e);
    }
  }

  lemma SerialAcceptStable(c: Config, s: Loop, ds: seq<WorkUnit>, d: WorkUnit, u: WorkUnit, r: Receipt, x: Pass,
                           es: seq<WorkUnit>)
    requires FreshHead(c, s) && s.dag == Some(ds) && NextAlone(c, ds, d) && SerialPass(x, s, u, r) && u.id == d.id
    requires Accepts(ds, es, {d.id})
    ensures Stable(c, x.Log(), es)
  {
    hide FreshHead, SerialPass, NextAlone, Serial, InWave, Pass.Log, Stable, Accepts;
    forall e | e in ds
      ensures e.state != UAccepted ==> !InWave(x.Log(), e.id) && (Serial(x.Log(), e.id) ==> e.id == d.id)
      ensures !(Serial(x.Log(), e.id) && InWave(x.Log(), e.id))
    {
      SerialHistory(c, s, ds, d, u, r, x, e);
    }
    AcceptStable(c, x.Log(), ds, es, {d.id});
  }

  lemma ShapeGrows(ds: seq<WorkUnit>, n: Id, m: Id)
    requires Shape(ds, n) && n <= m
    ensures Shape(ds, m)
  {}

  lemma SerialRecounted(reviews: seq<Reviewed>, r: Reviewed, ds: seq<WorkUnit>)
    requires Recounted(reviews, ds) && r.covers == []
    ensures Recounted(reviews + [r], ds)
  {
    hide WaveReworks;
    forall d | d in ds ensures WaveReworks(reviews + [r], d.id) == d.rework { OneMoreReview(reviews, r, d.id); }
  }

  /** A reworked unit of a DAG is dispatched again next; the DAG itself is unchanged. */
  lemma SerialTurnReworks(c: Config, s: Loop, ds: seq<WorkUnit>, d: WorkUnit, u: WorkUnit, g: Phase, k: Ruling)
    requires SerialTurned(c, s, ds, d, u, g, k) && k.decision.DRework?
    ensures FreshHead(c, After(k, []))
  {
    hide View, ContextOf, Pass.Ok, Pass.Log, Serial, InWave, Below, OrderedLog, Wave, Tracked, ReadyAmong, Performed,
         Ruled, After, WaveCounted, Shape, Credited, Recounted, AllAccepted, Exhausted, AcceptGates.CanAccept, Ready,
         UnitPayload, ReadyIds, Stable;
    var x := SerialTurnPass(c, s, ds, d, u, g, k);
    HeadDag(c, s, ds);
    NextFacts(c, s, ds, d);
    WorkedShape(s, g, u, UnitPayload(u), []);
    RuledShape(g.s, u, [], k);
    AfterRework(k, g.s, u, []);
    PassRange(x);
    ShapeGrows(ds, s.nextId, x.m + 1);
    SerialReworkTracks(c, s, ds, d, u, k.receipt, x);
    SerialReworkStable(c, s, ds, d, u, k.receipt, x);
    var r := Reviewed(u.id, [], k.gates, k.decision, k.recorded.ledger.run);
    ReworkCredited(s.reviews, r, ds, ds);
    SerialRecounted(s.reviews, r, ds);
    HonestGrows(s.reviews, r);
  }

  lemma SerialReworkTracks(c: Config, s: Loop, ds: seq<WorkUnit>, d: WorkUnit, u: WorkUnit, r: Receipt, x: Pass)
    requires FreshHead(c, s) && s.dag == Some(ds) && d in ds && d.state == UQueued && SerialPass(x, s, u, r)
             && x.decision.DRework?
    requires u == d.(role := RGoal, state := UImplementing)
    ensures forall e :: e in ds ==> Tracked(x.Log(), e)
  {
    hide FreshHead, SerialPass, Tracked, Pass.Log, Shape;
    HeadDag(c, s, ds);
    forall e | e in ds ensures Tracked(x.Log(), e) {
      if e.id == d.id { ShapeDistinct(ds, s.nextId); SameId(ds, e, d); }
      SerialTracked(c, s, ds, d, u, r, x, e, e);
    }
  }

  lemma ShapeDistinct(ds: seq<WorkUnit>, n: Id)
    requires Shape(ds, n)
    ensures DistinctIds(ds)
  {}

  lemma SerialReworkStable(c: Config, s: Loop, ds: seq<WorkUnit>, d: WorkUnit, u: WorkUnit, r: Receipt, x: Pass)
    requires FreshHead(c, s) && s.dag == Some(ds) && NextAlone(c, ds, d) && SerialPass(x, s, u, r) && u.id == d.id
    ensures Stable(c, x.Log(), ds)
  {
    hide FreshHead, SerialPass, Serial, InWave, Pass.Log, Wave, ReadyUnits, WaveTarget;
    forall e | e in ds
      ensures e.state != UAccepted ==> !InWave(x.Log(), e.id) && (Serial(x.Log(), e.id) ==> e.id == d.id)
      ensures !(Serial(x.Log(), e.id) && InWave(x.Log(), e.id))
    {
      SerialHistory(c, s, ds, d, u, r, x, e);
    }
  }

  // ---- any turn ----

  lemma StoppedEarly(s: Loop)
    ensures forall e :: !FailRun(s, e).outcome.Running?
    ensures !FailBudget(s).outcome.Running?
  {
    EndStops(s);
  }

  lemma FreshWaveTurn(c: Config, s: Loop, ds: seq<WorkUnit>, input: TurnInput)
    requires FreshHead(c, s) && s.dag == Some(ds) && |Wave(c.matcher, ReadyUnits(ds))| >= 2
    requires Resolve(c, DagPhase(c, s, ds, input), input).outcome.Running?
    ensures FreshHead(c, Resolve(c, DagPhase(c, s, ds, input), input))
  {
    hide FreshHead, Wave, RunPeerBatch, OuterPhase, Performed, Ruled, After, LeavesWork, AcceptedLoop, Instructions;
    var wave := Wave(c.matcher, ReadyUnits(ds));
    var ids := Ids(wave);
    var asked := Waved(s, ids);
    var drafts := WaveDrafts(wave);
    var g := RunPeerBatch(c, asked, drafts, ids, input.batch);
    BatchYields(c, asked, drafts, ids, input.batch);
    if g.Got? {
      BatchWorked(c, asked, drafts, ids, input.batch);
      var u := NewMaster(s.nextId, drafts);
      HeadRuns(c, s);
      WorkedShape(asked, g, u, MasterPayload(u, ids), ids);
      PerformedRuns(asked, g, u, MasterPayload(u, ids), ids);
      var k := OuterRuled(c, g.s, u, g.receipt, ids, input.review);
      if k.decision.DAccept? {
        WaveTurnAccepts(c, s, ds, ids, u, MasterPayload(u, ids), g, k);
      } else {
        RuledShape(g.s, u, ids, k);
        WaveTurnReworks(c, s, ds, ids, u, MasterPayload(u, ids), g, k);
      }
    } else {
      StoppedEarly(g.s);
    }
  }

  lemma PerformedRuns(s: Loop, g: Phase, u: WorkUnit, p: Payload, wave: seq<Id>)
    requires Performed(s, g, u, p, wave)
    ensures g.s.ledger.run.state == InnerWorking && !g.stored && g.u == u && g.wave == wave
  {}

  lemma HeadRuns(c: Config, s: Loop)
    requires FreshHead(c, s)
    ensures s.outcome.Running? && s.pending.None? && !s.reuse && s.ledger.run.state == Dispatched
    ensures s.dag.Some? ==> !AllAccepted(s.dag.value) && NextReady(s.dag.value).Some?
  {
    hide Tracked, Stable, WaveCounted, NextReady;
    if s.dag.Some? { SomeUnitIsReady(s.dag.value); }
  }

  lemma BatchYields(c: Config, s: Loop, peers: seq<PeerDraft>, covers: seq<Id>, b: BatchInput)
    ensures var g := RunPeerBatch(c, s, peers, covers, b); g.Got? || g.FailedWith?
  {
    hide Collect, SeedPeers, PairwiseDisjoint;
  }

  lemma SingleYields(c: Config, s: Loop, existing: Option<WorkUnit>, title: string, instruction: string,
                     input: TurnInput)
    ensures var g := RunSingle(c, s, existing, title, instruction, input); g.Got? || g.FailedWith?
  {
    hide GoalLoop;
  }

  lemma FreshSerialTurn(c: Config, s: Loop, ds: seq<WorkUnit>, input: TurnInput)
    requires FreshHead(c, s) && s.dag == Some(ds) && |Wave(c.matcher, ReadyUnits(ds))| < 2
    requires Resolve(c, DagPhase(c, s, ds, input), input).outcome.Running?
    ensures FreshHead(c, Resolve(c, DagPhase(c, s, ds, input), input))
  {
    hide FreshHead, Wave, RunSingle, OuterPhase, Performed, Ruled, After, LeavesWork, AcceptedLoop, NextReady,
         AllAccepted;
    HeadRuns(c, s);
    var next := NextReady(ds);
    var d := next.value;
    var g := RunSingle(c, s, next, d.title, d.instruction, input);
    SingleYields(c, s, next, d.title, d.instruction, input);
    if g.Got? {
      SingleWorked(c, s, next, d.title, d.instruction, input);
      var u := Redirected(d, d.title, d.instruction);
      WorkedShape(s, g, u, UnitPayload(u), []);
      PerformedRuns(s, g, u, UnitPayload(u), []);
      var k := OuterRuled(c, g.s, u, g.receipt, [], input.review);
      if k.decision.DAccept? {
        SerialTurnAccepts(c, s, ds, d, u, g, k);
      } else {
        RuledShape(g.s, u, [], k);
        SerialTurnReworks(c, s, ds, d, u, g, k);
      }
    } else {
      StoppedEarly(g.s);
    }
  }

  /** Without a DAG an accept always ends the run. */
  lemma SingleNeverAccepts(s: Loop, u: WorkUnit, wave: seq<Id>, k: Ruling)
    requires Ruled(s, u, wave, k) && s.dag.None?
             && (k.decision.DAccept? ==> LeavesWork(AcceptedLoop(k.recorded, k.receipt, wave)))
    ensures k.decision.DRework?
  {}

  /** The commander was asked and charged, and money and turns remain. */
  ghost predicate Asked(c: Config, s: Loop, asked: Loop, usage: Usage) {
    asked == s.(ledger := ChargeAndTick(s.ledger, usage, c.commanderIn, c.commanderOut))
  }

  lemma FreshSingleTurn(c: Config, s: Loop, asked: Loop, usage: Usage, title: string, instruction: string,
                        input: TurnInput)
    requires FreshHead(c, s) && s.dag.None? && Asked(c, s, asked, usage)
    requires Resolve(c, RunSingle(c, asked, s.unit, title, instruction, input), input).outcome.Running?
    ensures FreshHead(c, Resolve(c, RunSingle(c, asked, s.unit, title, instruction, input), input))
  {
    hide FreshHead, RunSingle, OuterPhase, Performed, Ruled, After, LeavesWork, AcceptedLoop, ChargeAndTick,
         QuietlyExtends;
    AskedQuietly(c, s, usage);
    HeadRuns(c, s);
    var g := RunSingle(c, asked, s.unit, title, instruction, input);
    SingleYields(c, asked, s.unit, title, instruction, input);
    if g.Got? {
      SingleWorked(c, asked, s.unit, title, instruction, input);
      var u := if s.unit.Some? then Redirected(s.unit.value, title, instruction)
               else NewUnit(s.nextId, title, instruction);
      WorkedShape(asked, g, u, UnitPayload(u), []);
      PerformedRuns(asked, g, u, UnitPayload(u), []);
      var k := OuterRuled(c, g.s, u, g.receipt, [], input.review);
      SingleNeverAccepts(g.s, u, [], k);
      FirstInRow(c, s);
      SingleTurn(c, s, asked, g, u, UnitPayload(u), k);
    } else {
      StoppedEarly(g.s);
    }
  }

  lemma FirstInRow(c: Config, s: Loop)
    requires FreshHead(c, s) && s.dag.None?
    ensures s.unit.Some? ==> s.unit.value.seqNo == 1
  {}

  lemma FreshPeersTurn(c: Config, s: Loop, asked: Loop, usage: Usage, peers: seq<PeerDraft>, input: TurnInput)
    requires FreshHead(c, s) && s.dag.None? && s.unit.None? && Asked(c, s, asked, usage)
    requires Resolve(c, RunPeerBatch(c, asked, peers, [], input.batch), input).outcome.Running?
    ensures FreshHead(c, Resolve(c, RunPeerBatch(c, asked, peers, [], input.batch), input))
  {
    hide FreshHead, RunPeerBatch, OuterPhase, Performed, Ruled, After, LeavesWork, AcceptedLoop, ChargeAndTick,
         QuietlyExtends, Instructions;
    AskedQuietly(c, s, usage);
    HeadRuns(c, s);
    var g := RunPeerBatch(c, asked, peers, [], input.batch);
    BatchYields(c, asked, peers, [], input.batch);
    if g.Got? {
      BatchWorked(c, asked, peers, [], input.batch);
      var u := NewMaster(s.nextId, peers);
      WorkedShape(asked, g, u, MasterPayload(u, []), []);
      PerformedRuns(asked, g, u, MasterPayload(u, []), []);
      var k := OuterRuled(c, g.s, u, g.receipt, [], input.review);
      SingleNeverAccepts(g.s, u, [], k);
      SingleTurn(c, s, asked, g, u, MasterPayload(u, []), k);
    } else {
      StoppedEarly(g.s);
    }
  }

  lemma FreshSeedTurn(c: Config, s: Loop, asked: Loop, usage: Usage, drafts: seq<DagDraft>, input: TurnInput)
    requires FreshHead(c, s) && s.dag.None? && Asked(c, s, asked, usage) && drafts != []
    requires Resolve(c, SeedDag(asked, drafts), input).outcome.Running?
    ensures FreshHead(c, Resolve(c, SeedDag(asked, drafts), input))
  {
    hide FreshHead, SeedDag, ChargeAndTick, QuietlyExtends;
    AskedQuietly(c, s, usage);
    HeadRuns(c, s);
    var g := SeedDag(asked, drafts);
    SeedYields(asked, drafts);
    if g.Again? { SeedTurn(c, s, asked, drafts); } else { StoppedEarly(g.s); }
  }

  lemma SeedYields(s: Loop, drafts: seq<DagDraft>)
    ensures SeedDag(s, drafts).Again? || SeedDag(s, drafts).FailedWith?
  {
    hide Dag.Sorted, SeededUnits;
  }

  lemma FreshPlanTurn(c: Config, s: Loop, input: TurnInput)
    requires FreshHead(c, s) && s.dag.None?
    requires Resolve(c, PlanPhase(c, s, input), input).outcome.Running?
    ensures FreshHead(c, Resolve(c, PlanPhase(c, s, input), input))
  {
    hide FreshHead, RunSingle, RunPeerBatch, SeedDag, OuterPhase, AskPlan, Exhausted, ChargeAndTick;
    var asked := AskPlan(input.plans, 3, ECommanderSchema);
    PlanIsNonempty(input.plans, 3, ECommanderSchema);
    if asked.Err? {
      StoppedEarly(s);
    } else {
      var (plan, usage) := asked.value;
      var s1 := s.(ledger := ChargeAndTick(s.ledger, usage, c.commanderIn, c.commanderOut));
      StoppedEarly(s1);
      if !Exhausted(s1.ledger.run) {
        match plan
        case Peers(peers) => if s1.unit.None? { FreshPeersTurn(c, s, s1, usage, peers, input); }
        case Dag(drafts) => FreshSeedTurn(c, s, s1, usage, drafts, input);
        case Single(title, instruction) => FreshSingleTurn(c, s, s1, usage, title, instruction, input);
      }
    }
  }

  /** A turn of a fresh run that goes on ends at a fresh head again. */
  lemma FreshTurn(c: Config, s: Loop, input: TurnInput)
    requires FreshHead(c, s) && Turn(c, s, input).outcome.Running?
    ensures FreshHead(c, Turn(c, s, input))
  {
    hide FreshHead, DagPhase, PlanPhase, Exhausted, Resolve, Wave;
    HeadRuns(c, s);
    StoppedEarly(s);
    if s.dag.Some? {
      if |Wave(c.matcher, ReadyUnits(s.dag.value))| >= 2 {
        FreshWaveTurn(c, s, s.dag.value, input);
      } else {
        FreshSerialTurn(c, s, s.dag.value, input);
      }
    } else {
      FreshPlanTurn(c, s, input);
    }
  }
}
