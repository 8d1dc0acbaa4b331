/** Picking a run up again from its envelope (continue_factory in
    crates/wanax-cli/src/engine.rs): when the rebuilt DAG is the live one, and that
    it is then scheduled alike. */
module Resume {
  import opened Types
  import opened Budget
  import opened Events
  import opened Scheduler
  import opened Drive
  import opened Replay
  import opened Accounting
  import opened Chronicle
  import opened Passes
  import opened FreshRun
  import opened DagRun
  import opened Turns
  import opened Counts
  import opened WholeRun
  import opened Heads
  import Dag

  /** The DAG a resume works with: all replayed units, if any of them looks like a
      DAG unit. */
  function ResumedDag(units: seq<WorkUnit>): Option<seq<WorkUnit>> {
    if exists u :: u in units && (u.localKey.Some? || u.dependsOn != []) then Some(units) else None
  }

  // ---- which units replay returns, and in which order ----

  predicate Names(e: Event) { (e.UnitSeeded? || e.UnitDispatched?) && e.p.workUnitId.Some? }

  function WithName(ids: seq<Id>, e: Event): seq<Id> {
    if Names(e) && e.p.workUnitId.value !in ids then ids + [e.p.workUnitId.value] else ids
  }

  /** The units a log seeds or dispatches, in the order it first does so. */
  function Named(log: seq<Event>): seq<Id> {
    if log == [] then [] else WithName(Named(log[..|log| - 1]), log[|log| - 1])
  }

  lemma {:induction false} NamedSnoc(log: seq<Event>, e: Event)
    ensures Named(log + [e]) == WithName(Named(log), e)
  {
    assert (log + [e])[..|log + [e]| - 1] == log;
  }

  lemma {:induction false} VerdictKeepsIds(s: Snapshot, ids: seq<Id>, d: Option<Decision>)
    requires IndexOk(s)
    ensures Ids(VerdictToAll(s, ids, d).units) == Ids(s.units)
    decreases |ids|
  {
    if ids != [] {
      SameIds(VerdictTo(s, ids[0], d).units, s.units);
      VerdictKeepsIds(VerdictTo(s, ids[0], d), ids[1..], d);
    }
  }

  lemma SlotNames(s: Snapshot, id: Id)
    requires Slots(s)
    ensures id in s.byId <==> id in Ids(s.units)
  {
    if id in s.byId { assert Ids(s.units)[s.byId[id]] == id; }
    if id in Ids(s.units) {
      var i :| 0 <= i < |s.units| && s.units[i].id == id;
    }
  }

  lemma UpsertNames(s: Snapshot, p: Payload, state: UnitState)
    requires Slots(s) && p.workUnitId.Some?
    ensures var id := p.workUnitId.value;
            Ids(Upserted(s, p, state).units) == if id in Ids(s.units) then Ids(s.units) else Ids(s.units) + [id]
  {
    var id := p.workUnitId.value;
    SlotNames(s, id);
    var r := Upserted(s, p, state).units;
    if id in s.byId {
      SameIds(r, s.units);
    } else {
      assert forall i :: 0 <= i < |s.units| ==> Ids(r)[i] == Ids(s.units)[i];
    }
  }

  lemma StepNames(s: Snapshot, e: Event)
    requires Slots(s)
    ensures Ids(SnapshotStep(s, e).units) == WithName(Ids(s.units), e)
  {
    hide Slots, Upserted, Ids;
    SlotsIndexed(s);
    match e
    case UnitSeeded(p) => if p.workUnitId.Some? { UpsertNames(s, p, UQueued); } else { NamelessUpsert(s, p); }
    case UnitDispatched(p) => if p.workUnitId.Some? { UpsertNames(s, p, UImplementing); } else { NamelessUpsert(s, p); }
    case ReceiptSubmitted(p) => ReceiptKeepsIds(s, p);
    case Verdict(p) =>
      var target := OrElse(p.workUnitId, s.ctx.lastReceiptUnit);
      if target.Some? {
        var ids := [target.value] + Covered(s.ctx, target.value);
        assert ids[1..] == Covered(s.ctx, target.value);
        VerdictKeepsIds(s, ids, p.decision);
      }
    case Tick(_) =>
  }

  lemma SlotsIndexed(s: Snapshot)
    requires Slots(s)
    ensures IndexOk(s)
  {}

  lemma NamelessUpsert(s: Snapshot, p: Payload)
    requires IndexOk(s) && p.workUnitId.None?
    ensures forall state :: Upserted(s, p, state) == s
  {}

  lemma ReceiptKeepsIds(s: Snapshot, p: Payload)
    requires Slots(s)
    ensures Ids(SnapshotStep(s, ReceiptSubmitted(p)).units) == Ids(s.units)
  {
    SameIds(SnapshotStep(s, ReceiptSubmitted(p)).units, s.units);
  }

  /** Replay returns exactly the named units, in this order, for any log. */
  lemma {:induction false} ReplayOrder(log: seq<Event>)
    ensures Ids(Replayed(log).units) == Named(log)
  {
    hide Slots, Ids, SnapshotStep, View;
    if log == [] {
      NoUnits();
    } else {
      var before := log[..|log| - 1];
      ReplayOrder(before);
      MirrorsAt(before, 0);
      StepNames(Replayed(before), log[|log| - 1]);
    }
  }

  lemma NoUnits()
    ensures Ids([]) == []
  {}

  // ---- dispatches that are none of the DAG's own ----

  predicate Own(e: Event, ids: seq<Id>) {
    e.UnitDispatched? ==> e.p.workUnitId.Some? && e.p.workUnitId.value in ids
  }

  /** Only units of the DAG were ever dispatched: no peer batch, and no unit from
      before the DAG was planned. */
  predicate OnlyOwn(log: seq<Event>, ids: seq<Id>) { forall e :: e in log ==> Own(e, ids) }

  /** What the log names at a loop head. */
  ghost predicate NamesOk(s: Loop) {
    if s.dag.None? then
      && (s.unit.None? ==> Named(s.ledger.log) == [])
      && (s.unit.Some? ==> Serial(s.ledger.log, s.unit.value.id))
    else OnlyOwn(s.ledger.log, Ids(s.dag.value)) ==> Named(s.ledger.log) == Ids(s.dag.value) && s.waveRework == 0
  }

  lemma {:induction false} TicksNameNothing(a: seq<Event>, b: seq<Event>, n: Id)
    requires QuietlyExtends(a, b, n, n)
    ensures Named(b) == Named(a)
    decreases |b|
  {
    if |b| > |a| {
      var before, e := b[..|b| - 1], b[|b| - 1];
      TicksNameNothing(a, before, n);
      NamedSnoc(before, e);
      assert before + [e] == b;
    } else {
      assert a == b;
    }
  }

  lemma OnlyOwnShrinks(a: seq<Event>, b: seq<Event>, ids: seq<Id>)
    requires a <= b && OnlyOwn(b, ids)
    ensures OnlyOwn(a, ids)
  {
    forall e | e in a ensures Own(e, ids) {
      var i :| 0 <= i < |a| && a[i] == e;
      assert b[i] == e && e in b;
    }
  }

  /** The dispatch of a turn stays in the log, and the turn starts from the old log. */
  lemma DispatchStays(s: Loop, g: Phase, u: WorkUnit, p: Payload, wave: seq<Id>, k: Ruling)
    requires Performed(s, g, u, p, wave) && Ruled(g.s, u, wave, k)
    ensures UnitDispatched(p) in k.recorded.ledger.log && s.ledger.log <= k.recorded.ledger.log
  {
    var a, b, d := s.ledger.log + [UnitDispatched(p)], g.s.ledger.log, k.recorded.ledger.log;
    assert a <= b <= d;
    assert d[|s.ledger.log|] == a[|s.ledger.log|] == UnitDispatched(p);
    assert forall i :: 0 <= i < |s.ledger.log| ==> s.ledger.log[i] == a[i] == d[i];
  }

  // ---- a unit of a DAG by itself ----

  lemma SingleTicks(c: Config, s: Loop, existing: Option<WorkUnit>, title: string, instruction: string,
                    input: TurnInput)
    requires RunSingle(c, s, existing, title, instruction, input).Got?
    ensures var u := if existing.Some? then Redirected(existing.value, title, instruction)
                     else NewUnit(s.nextId, title, instruction);
            QuietlyExtends(s.ledger.log + [UnitDispatched(UnitPayload(u))],
                           RunSingle(c, s, existing, title, instruction, input).s.ledger.log, 0, 0)
  {
    hide Grew, GoalLoop, UnitPayload, QuietlyExtends, Exhausted;
    var u := if existing.Some? then Redirected(existing.value, title, instruction)
             else NewUnit(s.nextId, title, instruction);
    var s1 := Dispatch(s, u, existing.None?);
    var moved := Moved(s1.ledger, InnerWorking).value;
    GoalLoopGrows(c, moved, input.goal, 0, None, None, s.ledger.run, 0, 0);
    var (worked, _) := GoalLoop(c, moved, input.goal, 0, None, None);
    GrewLog(moved, worked, 0, 0);
  }

  lemma {:induction false} SerialNames(log: seq<Event>, p: Payload, worked: seq<Event>, r: Payload, tick: Event,
                                       v: Payload)
    requires tick.Tick? && QuietlyExtends(log + [UnitDispatched(p)], worked, 0, 0)
    ensures Named(worked + [ReceiptSubmitted(r), tick, Verdict(v)]) == WithName(Named(log), UnitDispatched(p))
  {
    hide QuietlyExtends;
    NamedSnoc(log, UnitDispatched(p));
    TicksNameNothing(log + [UnitDispatched(p)], worked, 0);
    NamedSnoc(worked, ReceiptSubmitted(r));
    NamedSnoc(worked + [ReceiptSubmitted(r)], tick);
    NamedSnoc((worked + [ReceiptSubmitted(r)]) + [tick], Verdict(v));
    assert ((worked + [ReceiptSubmitted(r)]) + [tick]) + [Verdict(v)]
           == worked + [ReceiptSubmitted(r), tick, Verdict(v)];
  }

  lemma RuledLog(g: Loop, u: WorkUnit, wave: seq<Id>, k: Ruling)
    requires Ruled(g, u, wave, k)
    ensures k.recorded.ledger.log == g.ledger.log + [ReceiptSubmitted(ReceiptPayload(k.receipt, u.id)), Tick(k.tick),
                                                     Verdict(VerdictPayload(u.id, k.decision))]
  {}

  lemma SerialTurnNames(c: Config, s: Loop, ds: seq<WorkUnit>, input: TurnInput)
    requires FreshHead(c, s) && NamesOk(s) && s.dag == Some(ds) && |Wave(c.matcher, ReadyUnits(ds))| < 2
    requires Resolve(c, DagPhase(c, s, ds, input), input).outcome.Running?
    ensures NamesOk(Resolve(c, DagPhase(c, s, ds, input), input))
  {
    hide FreshHead, Wave, RunSingle, OuterPhase, Performed, Ruled, After, LeavesWork, AcceptedLoop, NextReady,
         AllAccepted, OnlyOwn, Named, QuietlyExtends, UnitPayload, Ids;
    HeadRuns(c, s);
    var d := NextReady(ds).value;
    var g := RunSingle(c, s, NextReady(ds), d.title, d.instruction, input);
    SingleYields(c, s, NextReady(ds), d.title, d.instruction, input);
    if g.Got? {
      SingleWorked(c, s, NextReady(ds), d.title, d.instruction, input);
      SingleTicks(c, s, NextReady(ds), d.title, d.instruction, input);
      var u := Redirected(d, d.title, d.instruction);
      PayloadId(u);
      WorkedShape(s, g, u, UnitPayload(u), []);
      PerformedRuns(s, g, u, UnitPayload(u), []);
      var k := OuterRuled(c, g.s, u, g.receipt, [], input.review);
      RuledIds(g.s, u, [], k);
      RuledLog(g.s, u, [], k);
      DispatchStays(s, g, u, UnitPayload(u), [], k);
      if OnlyOwn(k.recorded.ledger.log, Ids(ds)) {
        OnlyOwnShrinks(s.ledger.log, k.recorded.ledger.log, Ids(ds));
        OwnId(k.recorded.ledger.log, Ids(ds), UnitPayload(u));
        SerialNames(s.ledger.log, UnitPayload(u), g.s.ledger.log, ReceiptPayload(k.receipt, u.id), Tick(k.tick),
                    VerdictPayload(u.id, k.decision));
      }
    } else {
      StoppedEarly(g.s);
    }
  }

  lemma OwnId(log: seq<Event>, ids: seq<Id>, p: Payload)
    requires OnlyOwn(log, ids) && UnitDispatched(p) in log
    ensures p.workUnitId.Some? && p.workUnitId.value in ids
  {
    assert Own(UnitDispatched(p), ids);
  }

  // ---- a wave ----

  lemma {:induction false} BelowIds(c: Config, s: Loop, ds: seq<WorkUnit>)
    requires FreshHead(c, s) && s.dag == Some(ds)
    ensures s.nextId !in Ids(ds)
  {
    hide FreshHead;
    if s.nextId in Ids(ds) {
      var i :| 0 <= i < |ds| && ds[i].id == s.nextId;
      HeadUnit(c, s, ds, ds[i]);
    }
  }

  lemma WaveTurnNames(c: Config, s: Loop, ds: seq<WorkUnit>, input: TurnInput)
    requires FreshHead(c, s) && s.dag == Some(ds) && |Wave(c.matcher, ReadyUnits(ds))| >= 2
    requires Resolve(c, DagPhase(c, s, ds, input), input).outcome.Running?
    ensures NamesOk(Resolve(c, DagPhase(c, s, ds, input), input))
  {
    hide FreshHead, Wave, RunPeerBatch, OuterPhase, Performed, Ruled, After, LeavesWork, AcceptedLoop, Instructions,
         OnlyOwn, Named, QuietlyExtends, Ids;
    var wave := Wave(c.matcher, ReadyUnits(ds));
    var ids := Ids(wave);
    var asked := Waved(s, ids);
    var drafts := WaveDrafts(wave);
    var g := RunPeerBatch(c, asked, drafts, ids, input.batch);
    BatchYields(c, asked, drafts, ids, input.batch);
    HeadRuns(c, s);
    if g.Got? {
      BatchWorked(c, asked, drafts, ids, input.batch);
      var u := NewMaster(s.nextId, drafts);
      WorkedShape(asked, g, u, MasterPayload(u, ids), ids);
      PerformedRuns(asked, g, u, MasterPayload(u, ids), ids);
      var k := OuterRuled(c, g.s, u, g.receipt, ids, input.review);
      RuledIds(g.s, u, ids, k);
      DispatchStays(asked, g, u, MasterPayload(u, ids), ids, k);
      BelowIds(c, s, ds);
      if OnlyOwn(k.recorded.ledger.log, Ids(ds)) { OwnId(k.recorded.ledger.log, Ids(ds), MasterPayload(u, ids)); }
    } else {
      StoppedEarly(g.s);
    }
  }

  // ---- without a DAG ----

  lemma SerialFrom(log: seq<Event>, p: Payload, id: Id)
    requires UnitDispatched(p) in log && p.workUnitId == Some(id)
    ensures Serial(log, id)
  {}

  /** Work outside a DAG leaves a dispatched unit. */
  lemma PlainNames(asked: Loop, g: Phase, u: WorkUnit, p: Payload, k: Ruling)
    requires Performed(asked, g, u, p, []) && Ruled(g.s, u, [], k) && g.s.outcome.Running? && asked.dag.None?
    requires k.decision.DRework? && p.workUnitId == Some(u.id)
    ensures NamesOk(After(k, []))
  {
    hide Performed, Ruled, After, Serial, Named;
    WorkedShape(asked, g, u, p, []);
    RuledShape(g.s, u, [], k);
    AfterRework(k, g.s, u, []);
    DispatchStays(asked, g, u, p, [], k);
    SerialFrom(k.recorded.ledger.log, p, u.id);
  }

  lemma SingleTurnNames(c: Config, s: Loop, asked: Loop, title: string, instruction: string, input: TurnInput)
    requires FreshHead(c, s) && s.dag.None? && asked == s.(ledger := asked.ledger)
    requires Resolve(c, RunSingle(c, asked, s.unit, title, instruction, input), input).outcome.Running?
    ensures NamesOk(Resolve(c, RunSingle(c, asked, s.unit, title, instruction, input), input))
  {
    hide FreshHead, RunSingle, OuterPhase, Performed, Ruled, After, LeavesWork, AcceptedLoop, UnitPayload, Named,
         Serial;
    HeadRuns(c, s);
    var g := RunSingle(c, asked, s.unit, title, instruction, input);
    SingleYields(c, asked, s.unit, title, instruction, input);
    if g.Got? {
      SingleWorked(c, asked, s.unit, title, instruction, input);
      var u := if s.unit.Some? then Redirected(s.unit.value, title, instruction)
               else NewUnit(s.nextId, title, instruction);
      PayloadId(u);
      WorkedShape(asked, g, u, UnitPayload(u), []);
      PerformedRuns(asked, g, u, UnitPayload(u), []);
      var k := OuterRuled(c, g.s, u, g.receipt, [], input.review);
      SingleNeverAccepts(g.s, u, [], k);
      PlainNames(asked, g, u, UnitPayload(u), k);
    } else {
      StoppedEarly(g.s);
    }
  }

  lemma PeersTurnNames(c: Config, s: Loop, asked: Loop, peers: seq<PeerDraft>, input: TurnInput)
    requires FreshHead(c, s) && s.dag.None? && asked == s.(ledger := asked.ledger)
    requires Resolve(c, RunPeerBatch(c, asked, peers, [], input.batch), input).outcome.Running?
    ensures NamesOk(Resolve(c, RunPeerBatch(c, asked, peers, [], input.batch), input))
  {
    hide FreshHead, RunPeerBatch, OuterPhase, Performed, Ruled, After, LeavesWork, AcceptedLoop, Instructions, Named,
         Serial;
    HeadRuns(c, s);
    var g := RunPeerBatch(c, asked, peers, [], input.batch);
    BatchYields(c, asked, peers, [], input.batch);
    if g.Got? {
      BatchWorked(c, asked, peers, [], input.batch);
      var u := NewMaster(s.nextId, peers);
      WorkedShape(asked, g, u, MasterPayload(u, []), []);
      PerformedRuns(asked, g, u, MasterPayload(u, []), []);
      var k := OuterRuled(c, g.s, u, g.receipt, [], input.review);
      SingleNeverAccepts(g.s, u, [], k);
      PlainNames(asked, g, u, MasterPayload(u, []), k);
    } else {
      StoppedEarly(g.s);
    }
  }

  lemma {:induction false} SeedsName(log: seq<Event>, units: seq<WorkUnit>, i: nat)
    requires Named(log) == [] && DistinctIds(units) && i <= |units|
    ensures Named(SeededLog(log, units, i)) == Ids(units)[..i]
    decreases i
  {
    hide UnitPayload, SeededLog, Named;
    if i == 0 {
      NoSeedYet(log, units);
    } else {
      SeedsName(log, units, i - 1);
      OneMoreSeed(log, units, i - 1);
      PayloadId(units[i - 1]);
      NamedSnoc(SeededLog(log, units, i - 1), UnitSeeded(UnitPayload(units[i - 1])));
      assert Ids(units)[..i] == Ids(units)[..i - 1] + [units[i - 1].id];
      assert forall j :: 0 <= j < i - 1 ==> Ids(units)[j] != units[i - 1].id;
    }
  }

  lemma SeedTurnNames(c: Config, s: Loop, asked: Loop, drafts: seq<DagDraft>)
    requires FreshHead(c, s) && NamesOk(s) && s.dag.None? && asked == s.(ledger := asked.ledger)
    requires QuietlyExtends(s.ledger.log, asked.ledger.log, s.nextId, s.nextId)
    requires SeedDag(asked, drafts).Again?
    ensures NamesOk(SeedDag(asked, drafts).s)
  {
    hide FreshHead, Dag.Sorted, Named, OnlyOwn, SeedEvents, SeededUnit, NodesOf, Serial, QuietlyExtends;
    var order := Dag.Sorted(NodesOf(drafts)).value;
    var units := SeededUnits(drafts, order, s.nextId);
    var log := asked.ledger.log + SeedEvents(units);
    SeededFacts(drafts, order, s.nextId);
    SingleCounters(c, s);
    TicksNameNothing(s.ledger.log, asked.ledger.log, s.nextId);
    if s.unit.None? {
      assert SeedEvents(units)[..|units|] == SeedEvents(units);
      SeedsName(asked.ledger.log, units, |units|);
      assert Ids(units)[..|units|] == Ids(units);
    } else if OnlyOwn(log, Ids(units)) {
      HeadUnitBelow(c, s);
      EarlierDispatch(s.ledger.log, asked.ledger.log, log, Ids(units), s.unit.value.id, s.nextId);
    }
  }

  lemma HeadUnitBelow(c: Config, s: Loop)
    requires FreshHead(c, s) && s.unit.Some?
    ensures s.unit.value.id < s.nextId
  {}

  /** A unit dispatched before the seeding is not among the seeded ones. */
  lemma EarlierDispatch(a: seq<Event>, b: seq<Event>, log: seq<Event>, ids: seq<Id>, id: Id, n: Id)
    requires QuietlyExtends(a, b, n, n) && b <= log && Serial(a, id) && OnlyOwn(log, ids)
    ensures id in ids
  {
    hide Own;
    var e :| e in a && e.UnitDispatched? && e.p.workUnitId == Some(id);
    var i :| 0 <= i < |a| && a[i] == e;
    assert b[i] == e && log[i] == e && e in log;
    OwnId(log, ids, e.p);
  }

  lemma PlanTurnNames(c: Config, s: Loop, input: TurnInput)
    requires FreshHead(c, s) && NamesOk(s) && s.dag.None?
    requires Resolve(c, PlanPhase(c, s, input), input).outcome.Running?
    ensures NamesOk(Resolve(c, PlanPhase(c, s, input), input))
  {
    hide FreshHead, NamesOk, RunSingle, RunPeerBatch, SeedDag, OuterPhase, AskPlan, Exhausted, ChargeAndTick,
         QuietlyExtends;
    var asked := AskPlan(input.plans, 3, ECommanderSchema);
    if asked.Err? {
      StoppedEarly(s);
    } else {
      var (plan, usage) := asked.value;
      var s1 := s.(ledger := ChargeAndTick(s.ledger, usage, c.commanderIn, c.commanderOut));
      StoppedEarly(s1);
      AskedQuietly(c, s, usage);
      if !Exhausted(s1.ledger.run) {
        match plan
        case Peers(peers) => if s1.unit.None? { PeersTurnNames(c, s, s1, peers, input); }
        case Dag(drafts) =>
          SeedYields(s1, drafts);
          if SeedDag(s1, drafts).Again? {
            SeedTurnNames(c, s, s1, drafts);
          } else {
            StoppedEarly(SeedDag(s1, drafts).s);
          }
        case Single(title, instruction) => SingleTurnNames(c, s, s1, title, instruction, input);
      }
    }
  }

  lemma TurnNames(c: Config, s: Loop, input: TurnInput)
    requires FreshHead(c, s) && NamesOk(s) && Turn(c, s, input).outcome.Running?
    ensures NamesOk(Turn(c, s, input))
  {
    hide FreshHead, NamesOk, DagPhase, PlanPhase, Exhausted, Resolve, Wave;
    HeadRuns(c, s);
    StoppedEarly(s);
    if s.dag.Some? {
      if |Wave(c.matcher, ReadyUnits(s.dag.value))| >= 2 {
        WaveTurnNames(c, s, s.dag.value, input);
      } else {
        SerialTurnNames(c, s, s.dag.value, input);
      }
    } else {
      PlanTurnNames(c, s, input);
    }
  }

  lemma {:induction false} NamesThroughout(c: Config, run: Run, first: Id, env: nat -> TurnInput, k: nat)
    requires run.state == Dispatched
    ensures var s := HeadAt(c, run, first, env, k); s.outcome.Running? ==> FreshHead(c, s) && NamesOk(s)
  {
    hide Turn, FreshHead, NamesOk;
    EveryHeadIsFresh(c, run, first, env, k);
    if k == 0 {
      FreshNames(run, first);
    } else {
      NamesThroughout(c, run, first, env, k - 1);
      var s := HeadAt(c, run, first, env, k - 1);
      if s.outcome.Running? && Turn(c, s, env(k - 1)).outcome.Running? { TurnNames(c, s, env(k - 1)); }
    }
  }

  lemma FreshNames(run: Run, first: Id)
    requires run.state == Dispatched
    ensures NamesOk(Fresh(run, first))
  {}

  // ---- what a resume rebuilds ----

  /** Told of a key or of units to wait for. */
  predicate LooksPlanned(v: Option<WorkUnit>) { v.Some? && (v.value.localKey.Some? || |v.value.dependsOn| > 0) }

  /** From any log, all units become the DAG as soon as the log told of a key or of a
      dependency of one of them. */
  lemma {:induction false} DagTaken(log: seq<Event>)
    ensures var units := Replayed(log).units;
            ResumedDag(units) == if exists id :: LooksPlanned(View(log, id)) then Some(units) else None
  {
    hide View, Replayed;
    var s := Replayed(log);
    ReplayMirrorsLog(log);
    if id :| LooksPlanned(View(log, id)) {
      assert SlotOf(s, id) == View(log, id);
      assert s.units[s.byId[id]] in s.units;
    }
    forall u | u in s.units && (u.localKey.Some?
                                || u.dependsOn != []) ensures exists id :: LooksPlanned(View(log, id)) {
      var i :| 0 <= i < |s.units| && s.units[i] == u;
      assert SlotOf(s, u.id) == View(log, u.id);
      assert LooksPlanned(View(log, u.id));
    }
  }

  /** The rebuilt DAG has the live units in the live order and state, each with the
      number of rework verdicts it was given (which the live unit has too unless it was
      dispatched by itself), and what runs next, alone or as a wave, is the same. */
  ghost predicate ResumesAlike(c: Config, s: Loop, ds: seq<WorkUnit>) {
    var log, rs := s.ledger.log, Replayed(s.ledger.log).units;
    && ResumedDag(rs) == Some(rs)
    && SamePlan(ds, rs) && (forall i :: 0 <= i < |ds| ==> SameStatic(rs[i], ds[i]))
    && (forall i :: 0 <= i < |ds| ==> rs[i].rework == ReworkVerdicts(s.reviews, ds[i].id))
    && (forall i :: 0 <= i < |ds| && !Serial(log, ds[i].id) ==> rs[i].rework == ds[i].rework)
    && Ids(Wave(c.matcher, ReadyUnits(rs))) == Ids(Wave(c.matcher, ReadyUnits(ds)))
    && NextReady(rs).Some? && NextReady(ds).Some? && NextReady(rs).value.id == NextReady(ds).value.id
  }

  lemma {:induction false} ReplayedUnit(c: Config, s: Loop, ds: seq<WorkUnit>, i: nat)
    requires FreshHead(c, s) && CountOk(s) && s.dag == Some(ds) && i < |ds|
    requires Ids(Replayed(s.ledger.log).units) == Ids(ds)
    ensures var rs := Replayed(s.ledger.log).units;
            |rs| == |ds| && SameStatic(rs[i], ds[i]) && SameTask(ds[i], rs[i]) && rs[i].localKey.Some?
            && (!Serial(s.ledger.log, ds[i].id) ==> rs[i].rework == ds[i].rework)
            && rs[i].rework == ReworkVerdicts(s.reviews, ds[i].id)
  {
    hide View, ContextOf, Serial, Replayed, FreshHead, ReworkVerdicts;
    var rs := Replayed(s.ledger.log).units;
    assert |rs| == |Ids(rs)| == |ds| && rs[i].id == Ids(rs)[i] == ds[i].id;
    HeadUnit(c, s, ds, ds[i]);
    assert ds[i].id in Ids(ds);
    MirrorsAt(s.ledger.log, ds[i].id);
    SlotIs(s.ledger.log, i);
  }

  lemma {:induction false} SlotIs(log: seq<Event>, i: nat)
    requires i < |Replayed(log).units|
    ensures SlotOf(Replayed(log), Replayed(log).units[i].id) == Some(Replayed(log).units[i])
  {
    hide View, Replayed;
    ReplayMirrorsLog(log);
  }

  lemma {:induction false} ResumeAlike(c: Config, s: Loop, ds: seq<WorkUnit>)
    requires FreshHead(c, s) && CountOk(s) && s.dag == Some(ds) && Ids(Replayed(s.ledger.log).units) == Ids(ds)
    ensures ResumesAlike(c, s, ds)
  {
    hide FreshHead, Replayed, Wave, ReadyUnits, NextReady, SameStatic, SameTask, Ids, AllAccepted, Serial,
         CountOk, ReworkVerdicts;
    var rs := Replayed(s.ledger.log).units;
    HeadRuns(c, s);
    SomeUnit(ds);
    forall i | 0 <= i < |ds|
      ensures |rs| == |ds| && SameStatic(rs[i], ds[i]) && SameTask(ds[i], rs[i]) && rs[i].localKey.Some?
      ensures !Serial(s.ledger.log, ds[i].id) ==> rs[i].rework == ds[i].rework
      ensures rs[i].rework == ReworkVerdicts(s.reviews, ds[i].id)
    {
      ReplayedUnit(c, s, ds, i);
    }
    assert |rs| == |ds| && rs[0] in rs;
    ScheduleIgnoresHistory(c.matcher, ds, rs);
    PlanIds(Wave(c.matcher, ReadyUnits(ds)), Wave(c.matcher, ReadyUnits(rs)));
  }

  lemma SomeUnit(ds: seq<WorkUnit>)
    requires !AllAccepted(ds)
    ensures ds != []
  {}

  lemma {:induction false} PlanIds(a: seq<WorkUnit>, b: seq<WorkUnit>)
    requires SamePlan(a, b)
    ensures Ids(a) == Ids(b)
  {
    SameIds(a, b);
  }

  lemma {:induction false} DispatchIsNamed(log: seq<Event>, e: Event)
    requires e in log && e.UnitDispatched? && e.p.workUnitId.Some?
    ensures e.p.workUnitId.value in Named(log)
  {
    var before, last := log[..|log| - 1], log[|log| - 1];
    if e != last {
      assert log == before + [last];
      DispatchIsNamed(before, e);
    }
  }

  /** A crash at any head of a fresh run, resumed from the envelope: the units of the
      live DAG come back, scheduled alike, if and only if nothing but them was ever
      dispatched. Otherwise foreign units join the DAG. */
  lemma {:induction false} ResumeExactly(c: Config, run: Run, first: Id, env: nat -> TurnInput, k: nat)
    requires run.state == Dispatched
    requires var s := HeadAt(c, run, first, env, k); s.outcome.Running? && s.dag.Some?
    ensures var s := HeadAt(c, run, first, env, k);
            var log, ds := s.ledger.log, s.dag.value;
            && (Ids(Replayed(log).units) == Ids(ds) <==> OnlyOwn(log, Ids(ds)))
            && (OnlyOwn(log, Ids(ds)) ==> ResumesAlike(c, s, ds))
            && (!OnlyOwn(log, Ids(ds)) ==> exists id :: id in Ids(Replayed(log).units) && id !in Ids(ds))
  {
    hide HeadAt, FreshHead, Replayed, Named, ResumesAlike, Ids, CountOk;
    NamesThroughout(c, run, first, env, k);
    EveryHeadCounts(c, run, first, env, k);
    var s := HeadAt(c, run, first, env, k);
    var log, ds := s.ledger.log, s.dag.value;
    ReplayOrder(log);
    if OnlyOwn(log, Ids(ds)) {
      ResumeAlike(c, s, ds);
    } else {
      HeadOrdered(c, s);
      ForeignIsNamed(log, Ids(ds), s.nextId);
    }
  }

  lemma {:induction false} ForeignIsNamed(log: seq<Event>, ids: seq<Id>, n: Id)
    requires Below(log, n) && !OnlyOwn(log, ids)
    ensures exists id :: id in Named(log) && id !in ids
  {
    var e :| e in log && !Own(e, ids);
    assert EventBelow(e, n);
    DispatchIsNamed(log, e);
  }
}
