/** The review a resume has to catch up on: what the envelope says of a run that was cut
    between a receipt and its verdict (envelope_snapshot in
    crates/wanax-cli/src/replay.rs). */
module Pending {
  import opened Types
  import opened Budget
  import opened Events
  import opened Scheduler
  import opened Drive
  import opened Replay
  import opened Accounting
  import opened Chronicle
  import opened Passes
  import opened FreshRun
  import opened DagRun
  import opened Turns
  import opened WholeRun
  import opened Heads
  import opened Resume
  import Dag

  /** No peer batch was ever dispatched. */
  predicate Batchless(log: seq<Event>) { forall e :: e in log && e.UnitDispatched? ==> e.p.covers.None? }

  /** No unit waits for a verdict. */
  ghost predicate Settled(log: seq<Event>) {
    forall id :: View(log, id).Some? ==> View(log, id).value.state != UReceiptReady
  }

  ghost predicate SettledOk(s: Loop) { Batchless(s.ledger.log) ==> Settled(s.ledger.log) }

  // ---- one event ----

  lemma {:induction false} JudgedState(u: WorkUnit, ids: seq<Id>, d: Option<Decision>)
    ensures u.state != UReceiptReady ==> JudgedTimes(u, ids, d).state != UReceiptReady
    ensures u.id in ids && (d == Some(DAccept) || d == Some(DRework)) ==> JudgedTimes(u, ids, d).state != UReceiptReady
    decreases |ids|
  {
    if ids != [] { JudgedState(if ids[0] == u.id then Judged(u, d) else u, ids[1..], d); }
  }

  /** Nothing but a receipt makes a unit wait. */
  lemma EventSettles(log: seq<Event>, e: Event)
    requires Settled(log) && !e.ReceiptSubmitted?
    ensures Settled(log + [e])
  {
    hide View, ContextOf;
    forall id | View(log + [e], id).Some? ensures View(log + [e], id).value.state != UReceiptReady {
      ViewSnoc(log, e, id);
      if e.Verdict? && View(log, id).Some? {
        var target := OrElse(e.p.workUnitId, ContextOf(log).lastReceiptUnit);
        if target.Some? {
          JudgedState(View(log, id).value, [target.value] + Covered(ContextOf(log), target.value), e.p.decision);
        }
      }
    }
  }

  lemma {:induction false} TicksSettle(a: seq<Event>, b: seq<Event>, n: Id)
    requires QuietlyExtends(a, b, n, n) && Settled(a)
    ensures Settled(b)
    decreases |b|
  {
    hide Settled;
    if |b| > |a| {
      TicksSettle(a, b[..|b| - 1], n);
      EventSettles(b[..|b| - 1], b[|b| - 1]);
      assert b[..|b| - 1] + [b[|b| - 1]] == b;
    } else {
      assert a == b;
    }
  }

  /** After a receipt its unit waits, and no other does. */
  ghost predicate WaitsAlone(log: seq<Event>, id: Id, receipt: Id) {
    && View(log, id).Some? && View(log, id).value.state == UReceiptReady
       && View(log, id).value.receiptId == Some(receipt)
    && forall other :: other != id && View(log, other).Some? ==> View(log, other).value.state != UReceiptReady
  }

  lemma {:induction false} ReceiptWaits(log: seq<Event>, r: Receipt, id: Id)
    requires Settled(log) && View(log, id).Some?
    ensures WaitsAlone(log + [ReceiptSubmitted(ReceiptPayload(r, id))], id, r.id)
  {
    hide View, ContextOf;
    forall other { ViewSnoc(log, ReceiptSubmitted(ReceiptPayload(r, id)), other); }
  }

  lemma TickWaits(log: seq<Event>, t: BudgetTick, id: Id, receipt: Id)
    requires WaitsAlone(log, id, receipt)
    ensures WaitsAlone(log + [Tick(t)], id, receipt)
  {
    hide View, ContextOf;
    forall other { ViewSnoc(log, Tick(t), other); }
  }

  lemma VerdictSettles(log: seq<Event>, id: Id, receipt: Id, d: Decision)
    requires WaitsAlone(log, id, receipt) && (d == DAccept || d == DRework)
    ensures Settled(log + [Verdict(VerdictPayload(id, d))])
  {
    hide View, ContextOf;
    var e := Verdict(VerdictPayload(id, d));
    forall other | View(log + [e], other).Some? ensures View(log + [e], other).value.state != UReceiptReady {
      ViewSnoc(log, e, other);
      ViewHasItsId(log, other);
      JudgedState(View(log, other).value, [id] + Covered(ContextOf(log), id), Some(d));
    }
  }

  // ---- one dispatch and what follows ----

  /** The log of a unit at work by itself: its dispatch, and ticks. */
  lemma {:induction false} WorkSettles(log: seq<Event>, p: Payload, worked: seq<Event>)
    requires Settled(log) && p.workUnitId.Some? && QuietlyExtends(log + [UnitDispatched(p)], worked, 0, 0)
    ensures Settled(worked) && View(worked, p.workUnitId.value).Some?
  {
    hide View, ContextOf, Settled;
    EventSettles(log, UnitDispatched(p));
    TicksSettle(log + [UnitDispatched(p)], worked, 0);
    ViewSnoc(log, UnitDispatched(p), p.workUnitId.value);
    ViewStays(log + [UnitDispatched(p)], worked, p.workUnitId.value);
  }

  lemma {:induction false} ViewStays(a: seq<Event>, b: seq<Event>, id: Id)
    requires QuietlyExtends(a, b, 0, 0) && View(a, id).Some?
    ensures View(b, id).Some?
    decreases |b|
  {
    hide View, ContextOf;
    if |b| > |a| {
      ViewStays(a, b[..|b| - 1], id);
      ViewSnoc(b[..|b| - 1], b[|b| - 1], id);
      assert b[..|b| - 1] + [b[|b| - 1]] == b;
    } else {
      assert a == b;
    }
  }

  lemma PassSettles(log: seq<Event>, p: Payload, worked: seq<Event>, r: Receipt, id: Id, tick: BudgetTick, d: Decision)
    requires Settled(log) && p.workUnitId == Some(id) && QuietlyExtends(log + [UnitDispatched(p)], worked, 0, 0)
    requires d == DAccept || d == DRework
    ensures Settled(worked + [ReceiptSubmitted(ReceiptPayload(r, id)), Tick(tick), Verdict(VerdictPayload(id, d))])
  {
    hide Settled, WaitsAlone, ReceiptPayload, VerdictPayload, QuietlyExtends;
    var e, t, v := ReceiptSubmitted(ReceiptPayload(r, id)), Tick(tick), Verdict(VerdictPayload(id, d));
    WorkSettles(log, p, worked);
    ReceiptWaits(worked, r, id);
    TickWaits(worked + [e], tick, id, r.id);
    VerdictSettles((worked + [e]) + [t], id, r.id, d);
    assert ((worked + [e]) + [t]) + [v] == worked + [e, t, v];
  }

  lemma BatchlessBefore(a: seq<Event>, b: seq<Event>)
    requires a <= b && Batchless(b)
    ensures Batchless(a)
  {
    forall e | e in a && e.UnitDispatched? ensures e.p.covers.None? {
      var i :| 0 <= i < |a| && a[i] == e;
      assert b[i] == e && e in b;
    }
  }

  // ---- a turn ----

  /** A turn that worked on one unit. */
  lemma SingleSettles(c: Config, s: Loop, asked: Loop, existing: Option<WorkUnit>, title: string, instruction: string,
                      input: TurnInput)
    requires SettledOk(s) && s.outcome.Running? && asked == s.(ledger := asked.ledger) && s.waveRework <= MAX_REWORK
    requires QuietlyExtends(s.ledger.log, asked.ledger.log, s.nextId, s.nextId)
    requires Resolve(c, RunSingle(c, asked, existing, title, instruction, input), input).outcome.Running?
    ensures SettledOk(Resolve(c, RunSingle(c, asked, existing, title, instruction, input), input))
  {
    hide RunSingle, OuterPhase, Performed, Ruled, After, LeavesWork, AcceptedLoop, UnitPayload, Settled, Batchless,
         QuietlyExtends;
    var g := RunSingle(c, asked, existing, title, instruction, input);
    SingleYields(c, asked, existing, title, instruction, input);
    if g.Got? {
      SingleWorked(c, asked, existing, title, instruction, input);
      SingleTicks(c, asked, existing, title, instruction, input);
      var u := if existing.Some? then Redirected(existing.value, title, instruction)
               else NewUnit(asked.nextId, title, instruction);
      PayloadId(u);
      WorkedShape(asked, g, u, UnitPayload(u), []);
      PerformedRuns(asked, g, u, UnitPayload(u), []);
      var k := OuterRuled(c, g.s, u, g.receipt, [], input.review);
      RuledLog(g.s, u, [], k);
      RuledShape(g.s, u, [], k);
      AfterLog(k, []);
      DispatchStays(asked, g, u, UnitPayload(u), [], k);
      QuietPrefix(s.ledger.log, asked.ledger.log, s.nextId);
      if Batchless(k.recorded.ledger.log) {
        BatchlessBefore(s.ledger.log, k.recorded.ledger.log);
        TicksSettle(s.ledger.log, asked.ledger.log, s.nextId);
        PassSettles(asked.ledger.log, UnitPayload(u), g.s.ledger.log, k.receipt, u.id, k.tick, k.decision);
      }
    } else {
      StoppedEarly(g.s);
    }
  }

  lemma QuietPrefix(a: seq<Event>, b: seq<Event>, n: Id)
    requires QuietlyExtends(a, b, n, n)
    ensures a <= b
  {}

  lemma AfterLog(k: Ruling, wave: seq<Id>)
    requires k.recorded.unit.Some?
    ensures After(k, wave).ledger.log == k.recorded.ledger.log
  {
    hide AcceptMembers, ReworkMembers, Continue;
    MovingKeepsLog(AcceptedLoop(k.recorded, k.receipt, wave));
    MovingKeepsLog(ReworkedLoop(k.recorded, wave));
    MovingKeepsLog(Continue(ReworkedLoop(k.recorded, wave), Rework));
  }

  /** A batch shows in the log. */
  lemma {:induction false} BatchShows(c: Config, s: Loop, asked: Loop, peers: seq<PeerDraft>, covers: seq<Id>,
                                      input: TurnInput)
    requires s.outcome.Running? && asked.outcome.Running?
    requires Resolve(c, RunPeerBatch(c, asked, peers, covers, input.batch), input).outcome.Running?
    ensures !Batchless(Resolve(c, RunPeerBatch(c, asked, peers, covers, input.batch), input).ledger.log)
  {
    hide RunPeerBatch, OuterPhase, Performed, Ruled, After, LeavesWork, AcceptedLoop, Instructions, Batchless;
    var g := RunPeerBatch(c, asked, peers, covers, input.batch);
    BatchYields(c, asked, peers, covers, input.batch);
    if g.Got? {
      BatchWorked(c, asked, peers, covers, input.batch);
      var u := NewMaster(asked.nextId, peers);
      WorkedShape(asked, g, u, MasterPayload(u, covers), covers);
      PerformedRuns(asked, g, u, MasterPayload(u, covers), covers);
      var k := OuterRuled(c, g.s, u, g.receipt, covers, input.review);
      RuledShape(g.s, u, covers, k);
      AfterLog(k, covers);
      DispatchStays(asked, g, u, MasterPayload(u, covers), covers, k);
      MasterShows(k.recorded.ledger.log, u, covers);
    } else {
      StoppedEarly(g.s);
    }
  }

  lemma MasterShows(log: seq<Event>, u: WorkUnit, covers: seq<Id>)
    requires UnitDispatched(MasterPayload(u, covers)) in log
    ensures !Batchless(log)
  {}

  lemma {:induction false} SeedsSettle(log: seq<Event>, units: seq<WorkUnit>)
    requires Settled(log)
    ensures Settled(log + SeedEvents(units))
    decreases |units|
  {
    hide Settled, UnitPayload;
    if units == [] {
      assert log + SeedEvents(units) == log;
    } else {
      var e := UnitSeeded(UnitPayload(units[0]));
      EventSettles(log, e);
      SeedsSettle(log + [e], units[1..]);
      assert log + SeedEvents(units) == (log + [e]) + SeedEvents(units[1..]);
    }
  }

  lemma SeedSettles(s: Loop, asked: Loop, drafts: seq<DagDraft>)
    requires SettledOk(s) && QuietlyExtends(s.ledger.log, asked.ledger.log, s.nextId, s.nextId)
             && SeedDag(asked, drafts).Again?
    ensures SettledOk(SeedDag(asked, drafts).s)
  {
    hide Settled, Dag.Sorted, Batchless, SeedEvents, QuietlyExtends;
    var units := SeededUnits(drafts, Dag.Sorted(NodesOf(drafts)).value, asked.nextId);
    QuietPrefix(s.ledger.log, asked.ledger.log, s.nextId);
    var log := asked.ledger.log + SeedEvents(units);
    if Batchless(log) {
      BatchlessBefore(s.ledger.log, log);
      TicksSettle(s.ledger.log, asked.ledger.log, s.nextId);
      SeedsSettle(asked.ledger.log, units);
    }
  }

  lemma PlanTurnSettles(c: Config, s: Loop, input: TurnInput)
    requires FreshHead(c, s) && SettledOk(s) && s.dag.None?
    requires Resolve(c, PlanPhase(c, s, input), input).outcome.Running?
    ensures SettledOk(Resolve(c, PlanPhase(c, s, input), input))
  {
    hide FreshHead, SettledOk, RunSingle, RunPeerBatch, SeedDag, OuterPhase, AskPlan, Exhausted, ChargeAndTick,
         QuietlyExtends;
    HeadRuns(c, s);
    SingleCounters(c, s);
    var asked := AskPlan(input.plans, 3, ECommanderSchema);
    if asked.Err? {
      StoppedEarly(s);
    } else {
      var (plan, usage) := asked.value;
      var s1 := s.(ledger := ChargeAndTick(s.ledger, usage, c.commanderIn, c.commanderOut));
      StoppedEarly(s1);
      AskedQuietly(c, s, usage);
      if !Exhausted(s1.ledger.run) {
        match plan
        case Peers(peers) =>
          if s1.unit.None? {
            BatchShows(c, s, s1, peers, [], input);
            BatchlessIsAll(Resolve(c, RunPeerBatch(c, s1, peers, [], input.batch), input));
          }
        case Dag(drafts) =>
          SeedYields(s1, drafts);
          if SeedDag(s1, drafts).Again? { SeedSettles(s, s1, drafts); } else { StoppedEarly(SeedDag(s1, drafts).s); }
        case Single(title, instruction) => SingleSettles(c, s, s1, s1.unit, title, instruction, input);
      }
    }
  }

  lemma BatchlessIsAll(t: Loop)
    requires !Batchless(t.ledger.log)
    ensures SettledOk(t)
  {}

  lemma DagTurnSettles(c: Config, s: Loop, ds: seq<WorkUnit>, input: TurnInput)
    requires FreshHead(c, s) && SettledOk(s) && s.dag == Some(ds)
    requires Resolve(c, DagPhase(c, s, ds, input), input).outcome.Running?
    ensures SettledOk(Resolve(c, DagPhase(c, s, ds, input), input))
  {
    hide FreshHead, SettledOk, Wave, ReadyUnits, RunSingle, RunPeerBatch, OuterPhase, AllAccepted;
    HeadRuns(c, s);
    HeadCount(c, s, ds);
    var wave := Wave(c.matcher, ReadyUnits(ds));
    if |wave| >= 2 {
      BatchShows(c, s, Waved(s, Ids(wave)), WaveDrafts(wave), Ids(wave), input);
      BatchlessIsAll(Resolve(c, DagPhase(c, s, ds, input), input));
    } else if NextReady(ds).Some? {
      var next := NextReady(ds);
      NothingNew(s);
      SingleSettles(c, s, s, next, next.value.title, next.value.instruction, input);
    } else {
      StoppedEarly(s);
    }
  }

  lemma HeadCount(c: Config, s: Loop, ds: seq<WorkUnit>)
    requires FreshHead(c, s) && s.dag == Some(ds)
    ensures s.waveRework <= MAX_REWORK
  {}

  lemma NothingNew(s: Loop)
    ensures QuietlyExtends(s.ledger.log, s.ledger.log, s.nextId, s.nextId)
  {}

  lemma {:induction false} SettledThroughout(c: Config, run: Run, first: Id, env: nat -> TurnInput, k: nat)
    requires run.state == Dispatched
    ensures var s := HeadAt(c, run, first, env, k); s.outcome.Running? ==> FreshHead(c, s) && SettledOk(s)
  {
    hide Turn, FreshHead, SettledOk;
    EveryHeadIsFresh(c, run, first, env, k);
    if k == 0 {
      FreshSettled(run, first);
    } else {
      SettledThroughout(c, run, first, env, k - 1);
      var s := HeadAt(c, run, first, env, k - 1);
      if s.outcome.Running? && Turn(c, s, env(k - 1)).outcome.Running? { TurnSettles(c, s, env(k - 1)); }
    }
  }

  lemma FreshSettled(run: Run, first: Id)
    requires run.state == Dispatched
    ensures SettledOk(Fresh(run, first))
  {}

  lemma TurnSettles(c: Config, s: Loop, input: TurnInput)
    requires FreshHead(c, s) && SettledOk(s) && Turn(c, s, input).outcome.Running?
    ensures SettledOk(Turn(c, s, input))
  {
    hide FreshHead, SettledOk, DagPhase, PlanPhase, Exhausted, Resolve;
    HeadRuns(c, s);
    StoppedEarly(s);
    if s.dag.Some? { DagTurnSettles(c, s, s.dag.value, input); } else { PlanTurnSettles(c, s, input); }
  }

  // ---- the cut ----

  /** One unit waits: it is what the resume goes on with. */
  lemma {:induction false} OnlyPending(log: seq<Event>, id: Id, receipt: Id)
    requires WaitsAlone(log, id, receipt) && id in Replayed(log).receipts
    ensures EnvelopeSnapshot(log) == Some((Replayed(log), Some((id, receipt))))
  {
    hide View, Replayed, ContextOf, Slots;
    var s := Replayed(log);
    forall i | 0 <= i < |s.units| ensures View(log, s.units[i].id) == Some(s.units[i]) {
      MirrorsAt(log, s.units[i].id);
      SlotIs(log, i);
    }
    MirrorsAt(log, id);
    var k := SlotAt(s, id);
    assert s.units[k] == View(log, id).value;
    FirstFromEnd(s, |s.units|, k, id, receipt);
  }

  lemma SlotAt(s: Snapshot, id: Id) returns (k: nat)
    requires Slots(s) && SlotOf(s, id).Some?
    ensures k < |s.units| && s.units[k].id == id && SlotOf(s, id) == Some(s.units[k]) && s.sawUnits
  {
    k := s.byId[id];
  }

  lemma {:induction false} FirstFromEnd(s: Snapshot, n: nat, k: nat, id: Id, receipt: Id)
    requires k < n <= |s.units| && s.units[k].id == id && s.units[k].state == UReceiptReady
    requires s.units[k].receiptId == Some(receipt) && id in s.receipts
    requires forall i :: 0 <= i < |s.units| && s.units[i].state == UReceiptReady ==>
                           s.units[i].id == id && s.units[i].receiptId == Some(receipt)
    ensures PendingFrom(s, n) == Some((id, receipt))
    decreases n
  {
    if n - 1 > k && s.units[n - 1].state != UReceiptReady { FirstFromEnd(s, n - 1, k, id, receipt); }
  }

  lemma {:induction false} ReceiptKept(log: seq<Event>, r: Receipt, id: Id)
    ensures id in Replayed(log + [ReceiptSubmitted(ReceiptPayload(r, id))]).receipts
  {
    hide ReceiptPayload;
    var e := ReceiptSubmitted(ReceiptPayload(r, id));
    assert (log + [e])[..|log + [e]| - 1] == log;
    ReceiptNamesUnit(r, id);
  }

  lemma ReceiptNamesUnit(r: Receipt, id: Id)
    ensures ReceiptPayload(r, id).workUnitId == Some(id)
  {}

  lemma {:induction false} TickKeepsReceipts(log: seq<Event>, t: BudgetTick)
    ensures Replayed(log + [Tick(t)]).receipts == Replayed(log).receipts
  {
    assert (log + [Tick(t)])[..|log + [Tick(t)]| - 1] == log;
  }

  /** What the snapshot of a log names as pending. */
  ghost predicate Pends(log: seq<Event>, id: Id, receipt: Id) {
    EnvelopeSnapshot(log) == Some((Replayed(log), Some((id, receipt))))
  }

  lemma {:induction false} CutPends(asked: seq<Event>, u: WorkUnit, worked: seq<Event>, r: Receipt, tick: BudgetTick)
    requires Settled(asked) && QuietlyExtends(asked + [UnitDispatched(UnitPayload(u))], worked, 0, 0)
    ensures var cut := worked + [ReceiptSubmitted(ReceiptPayload(r, u.id))];
            Pends(cut, u.id, r.id) && Pends(cut + [Tick(tick)], u.id, r.id)
  {
    hide Settled, QuietlyExtends, WaitsAlone, UnitPayload, EnvelopeSnapshot, Replayed, ReceiptPayload;
    PayloadId(u);
    WorkSettles(asked, UnitPayload(u), worked);
    var cut := worked + [ReceiptSubmitted(ReceiptPayload(r, u.id))];
    ReceiptWaits(worked, r, u.id);
    ReceiptKept(worked, r, u.id);
    OnlyPending(cut, u.id, r.id);
    TickWaits(cut, tick, u.id, r.id);
    TickKeepsReceipts(cut, tick);
    OnlyPending(cut + [Tick(tick)], u.id, r.id);
  }

  lemma {:induction false} SinglePends(c: Config, s: Loop, asked: Loop, existing: Option<WorkUnit>, title: string,
                                       instruction: string, input: TurnInput, r: Receipt, tick: BudgetTick)
    requires SettledOk(s) && QuietlyExtends(s.ledger.log, asked.ledger.log, s.nextId, s.nextId)
    requires var g := RunSingle(c, asked, existing, title, instruction, input); g.Got? && Batchless(g.s.ledger.log)
    ensures var g := RunSingle(c, asked, existing, title, instruction, input);
            var cut := g.s.ledger.log + [ReceiptSubmitted(ReceiptPayload(r, g.u.id))];
            Pends(cut, g.u.id, r.id) && Pends(cut + [Tick(tick)], g.u.id, r.id)
  {
    hide RunSingle, Settled, Batchless, Pends, Performed, UnitPayload, QuietlyExtends;
    var g := RunSingle(c, asked, existing, title, instruction, input);
    SingleTicks(c, asked, existing, title, instruction, input);
    SingleWorked(c, asked, existing, title, instruction, input);
    var u := if existing.Some? then Redirected(existing.value, title, instruction)
             else NewUnit(asked.nextId, title, instruction);
    QuietPrefix(s.ledger.log, asked.ledger.log, s.nextId);
    QuietPrefix(asked.ledger.log + [UnitDispatched(UnitPayload(u))], g.s.ledger.log, 0);
    Prefixes(s.ledger.log, asked.ledger.log, UnitDispatched(UnitPayload(u)), g.s.ledger.log);
    BatchlessBefore(s.ledger.log, g.s.ledger.log);
    TicksSettle(s.ledger.log, asked.ledger.log, s.nextId);
    WorksOn(asked, g, u, UnitPayload(u));
    CutPends(asked.ledger.log, u, g.s.ledger.log, r, tick);
  }

  lemma Prefixes(a: seq<Event>, b: seq<Event>, e: Event, d: seq<Event>)
    requires a <= b && b + [e] <= d
    ensures a <= d
  {
    assert forall i :: 0 <= i < |a| ==> a[i] == b[i] == (b + [e])[i] == d[i];
  }

  lemma WorksOn(s: Loop, g: Phase, u: WorkUnit, p: Payload)
    requires Performed(s, g, u, p, [])
    ensures g.Got? && g.u == u
  {}

  lemma {:induction false} BatchWorkShows(c: Config, asked: Loop, peers: seq<PeerDraft>, covers: seq<Id>, b: BatchInput)
    requires RunPeerBatch(c, asked, peers, covers, b).Got?
    ensures !Batchless(RunPeerBatch(c, asked, peers, covers, b).s.ledger.log)
  {
    hide RunPeerBatch, Performed, Batchless, Instructions;
    BatchWorked(c, asked, peers, covers, b);
    var g, u := RunPeerBatch(c, asked, peers, covers, b), NewMaster(asked.nextId, peers);
    DispatchShows(asked, g, u, MasterPayload(u, covers), covers);
    MasterShows(g.s.ledger.log, u, covers);
  }

  lemma DispatchShows(s: Loop, g: Phase, u: WorkUnit, p: Payload, wave: seq<Id>)
    requires Performed(s, g, u, p, wave)
    ensures g.Got? && UnitDispatched(p) in g.s.ledger.log
  {
    var a := s.ledger.log + [UnitDispatched(p)];
    assert g.s.ledger.log[|s.ledger.log|] == a[|s.ledger.log|];
  }

  lemma PhasePends(c: Config, s: Loop, input: TurnInput, r: Receipt, tick: BudgetTick)
    requires FreshHead(c, s) && SettledOk(s)
    requires var g := InnerPhase(c, s, input); g.Got? && Batchless(g.s.ledger.log)
    ensures var g := InnerPhase(c, s, input);
            var cut := g.s.ledger.log + [ReceiptSubmitted(ReceiptPayload(r, g.u.id))];
            Pends(cut, g.u.id, r.id) && Pends(cut + [Tick(tick)], g.u.id, r.id)
  {
    hide FreshHead, SettledOk, Wave, ReadyUnits, RunSingle, RunPeerBatch, SeedDag, AskPlan, Exhausted, ChargeAndTick,
         QuietlyExtends, Pends, ReceiptPayload, Batchless, AllAccepted;
    HeadRuns(c, s);
    if s.dag.Some? {
      var wave := Wave(c.matcher, ReadyUnits(s.dag.value));
      if |wave| >= 2 {
        BatchWorkShows(c, Waved(s, Ids(wave)), WaveDrafts(wave), Ids(wave), input.batch);
      } else {
        var next := NextReady(s.dag.value);
        NothingNew(s);
        SinglePends(c, s, s, next, next.value.title, next.value.instruction, input, r, tick);
      }
    } else {
      var (plan, usage) := AskPlan(input.plans, 3, ECommanderSchema).value;
      var s1 := s.(ledger := ChargeAndTick(s.ledger, usage, c.commanderIn, c.commanderOut));
      AskedQuietly(c, s, usage);
      match plan
      case Peers(peers) => BatchWorkShows(c, s1, peers, [], input.batch);
      case Dag(drafts) => SeedYields(s1, drafts);
      case Single(title, instruction) => SinglePends(c, s, s1, s1.unit, title, instruction, input, r, tick);
    }
  }

  /** The envelope of a new run without batches, cut between a receipt and its verdict,
      before or after the review's own tick: the snapshot names the unit under review
      and its receipt as pending. */
  lemma {:induction false} PendingExactly(c: Config, run: Run, first: Id, env: nat -> TurnInput, k: nat,
                                          input: TurnInput, tick: BudgetTick)
    requires run.state == Dispatched
    requires var s := HeadAt(c, run, first, env, k);
             && s.outcome.Running?
             && var g := InnerPhase(c, s, input); g.Got? && Batchless(g.s.ledger.log)
    ensures var g := InnerPhase(c, HeadAt(c, run, first, env, k), input);
            var r := OverriddenCommand(g.receipt, g.u);
            var cut := Submitted(g.s, g.u, r, false).ledger.log;
            Pends(cut, g.u.id, r.id) && Pends(cut + [Tick(tick)], g.u.id, r.id)
  {
    hide HeadAt, FreshHead, InnerPhase, SettledOk, Batchless, Pends, ReceiptPayload, Continue;
    var s := HeadAt(c, run, first, env, k);
    SettledThroughout(c, run, first, env, k);
    var g := InnerPhase(c, s, input);
    var r := OverriddenCommand(g.receipt, g.u);
    PhasePends(c, s, input, r, tick);
    MovingKeepsLog(g.s.(unit := Some(g.u.(receiptId := Some(r.id), commit := Some(r.commit), state := UReceiptReady)),
                        ledger := Logged(g.s.ledger, ReceiptSubmitted(ReceiptPayload(r, g.u.id)))));
  }
}
