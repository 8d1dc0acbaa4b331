/** A resumed run with one unit and no DAG (drive_factory in
    crates/wanax-cli/src/engine.rs): it works on that unit without asking the commander,
    where the live loop would have asked again. */
module ResumeSingle {
  import opened Types
  import opened Budget
  import opened Events
  import opened Drive
  import opened Replay
  import opened Accounting
  import opened Chronicle
  import opened Passes
  import opened FreshRun
  import opened Turns
  import opened WholeRun
  import opened Heads
  import opened Resume
  import opened ResumeTurn
  import opened Crash
  import opened Pending
  import opened GlobOverlap
  import Dag

  // ---- the log names that unit and no other ----

  /** Without a batch and without a DAG only the live unit was ever dispatched. */
  ghost predicate AloneOk(s: Loop) {
    s.dag.None? && s.unit.Some? && Batchless(s.ledger.log) ==> Named(s.ledger.log) == [s.unit.value.id]
  }

  lemma SingleStaysAlone(c: Config, s: Loop, asked: Loop, title: string, instruction: string, input: TurnInput)
    requires FreshHead(c, s) && NamesOk(s) && AloneOk(s) && s.dag.None? && asked == s.(ledger := asked.ledger)
    requires QuietlyExtends(s.ledger.log, asked.ledger.log, s.nextId, s.nextId)
    requires Resolve(c, RunSingle(c, asked, s.unit, title, instruction, input), input).outcome.Running?
    ensures AloneOk(Resolve(c, RunSingle(c, asked, s.unit, title, instruction, input), input))
  {
    hide FreshHead, RunSingle, OuterPhase, Performed, Ruled, After, LeavesWork, AcceptedLoop, UnitPayload, Named,
         Serial, Batchless, QuietlyExtends;
    HeadRuns(c, s);
    var g := RunSingle(c, asked, s.unit, title, instruction, input);
    SingleYields(c, asked, s.unit, title, instruction, input);
    if g.Got? {
      SingleWorked(c, asked, s.unit, title, instruction, input);
      SingleTicks(c, asked, s.unit, title, instruction, input);
      var u := if s.unit.Some? then Redirected(s.unit.value, title, instruction)
               else NewUnit(s.nextId, title, instruction);
      PayloadId(u);
      WorkedShape(asked, g, u, UnitPayload(u), []);
      PerformedRuns(asked, g, u, UnitPayload(u), []);
      var k := OuterRuled(c, g.s, u, g.receipt, [], input.review);
      SingleNeverAccepts(g.s, u, [], k);
      RuledShape(g.s, u, [], k);
      AfterRework(k, g.s, u, []);
      RuledLog(g.s, u, [], k);
      DispatchStays(asked, g, u, UnitPayload(u), [], k);
      QuietPrefix(s.ledger.log, asked.ledger.log, s.nextId);
      if Batchless(k.recorded.ledger.log) {
        BatchlessBefore(s.ledger.log, k.recorded.ledger.log);
        TicksNameNothing(s.ledger.log, asked.ledger.log, s.nextId);
        SerialNames(asked.ledger.log, UnitPayload(u), g.s.ledger.log, ReceiptPayload(k.receipt, u.id), Tick(k.tick),
                    VerdictPayload(u.id, k.decision));
      }
    } else {
      StoppedEarly(g.s);
    }
  }

  lemma PlanStaysAlone(c: Config, s: Loop, input: TurnInput)
    requires FreshHead(c, s) && NamesOk(s) && AloneOk(s) && s.dag.None?
    requires Resolve(c, PlanPhase(c, s, input), input).outcome.Running?
    ensures AloneOk(Resolve(c, PlanPhase(c, s, input), input))
  {
    hide FreshHead, NamesOk, RunSingle, RunPeerBatch, SeedDag, OuterPhase, AskPlan, Exhausted, ChargeAndTick,
         QuietlyExtends, AloneOk;
    HeadRuns(c, s);
    var asked := AskPlan(input.plans, 3, ECommanderSchema);
    if asked.Err? {
      StoppedEarly(s);
    } else {
      var (plan, usage) := asked.value;
      var s1 := s.(ledger := ChargeAndTick(s.ledger, usage, c.commanderIn, c.commanderOut));
      StoppedEarly(s1);
      AskedQuietly(c, s, usage);
      if !Exhausted(s1.ledger.run) {
        match plan
        case Peers(peers) =>
          if s1.unit.None? {
            BatchShows(c, s, s1, peers, [], input);
            ShownIsAlone(Resolve(c, RunPeerBatch(c, s1, peers, [], input.batch), input));
          }
        case Dag(drafts) =>
          SeedYields(s1, drafts);
          if SeedDag(s1, drafts).Again? { SeededIsAlone(s1, drafts); } else { StoppedEarly(SeedDag(s1, drafts).s); }
        case Single(title, instruction) => SingleStaysAlone(c, s, s1, title, instruction, input);
      }
    }
  }

  lemma ShownIsAlone(t: Loop)
    requires !Batchless(t.ledger.log) || t.dag.Some?
    ensures AloneOk(t)
  {}

  lemma SeededIsAlone(s: Loop, drafts: seq<DagDraft>)
    requires SeedDag(s, drafts).Again?
    ensures AloneOk(SeedDag(s, drafts).s)
  {}

  lemma TurnStaysAlone(c: Config, s: Loop, input: TurnInput)
    requires FreshHead(c, s) && NamesOk(s) && AloneOk(s) && Turn(c, s, input).outcome.Running?
    ensures AloneOk(Turn(c, s, input))
  {
    hide FreshHead, NamesOk, AloneOk, DagPhase, PlanPhase, OuterPhase, Exhausted;
    HeadRuns(c, s);
    StoppedEarly(s);
    if s.dag.Some? {
      TurnTraced(c, s, input);
      ShownIsAlone(Turn(c, s, input));
    } else {
      PlanStaysAlone(c, s, input);
    }
  }

  lemma {:induction false} AloneThroughout(c: Config, run: Run, first: Id, env: nat -> TurnInput, k: nat)
    requires run.state == Dispatched
    ensures var s := HeadAt(c, run, first, env, k); s.outcome.Running? ==> FreshHead(c, s) && NamesOk(s) && AloneOk(s)
  {
    hide Turn, FreshHead, NamesOk, AloneOk;
    NamesThroughout(c, run, first, env, k);
    if k == 0 {
      FreshIsAlone(run, first);
    } else {
      AloneThroughout(c, run, first, env, k - 1);
      var s := HeadAt(c, run, first, env, k - 1);
      if s.outcome.Running? && Turn(c, s, env(k - 1)).outcome.Running? { TurnStaysAlone(c, s, env(k - 1)); }
    }
  }

  lemma FreshIsAlone(run: Run, first: Id)
    requires run.state == Dispatched
    ensures AloneOk(Fresh(run, first))
  {}

  // ---- what a resume rebuilds ----

  /** The loop reuses the live unit, and has no DAG. */
  ghost predicate ReusesUnit(s: Loop, r: Loop) {
    && r.dag.None? && r.reuse && r.pending.None? && s.unit.Some? && r.unit.Some?
    && Mirrored(r.unit.value, s.unit.value)
    && r.ledger == s.ledger && r.outcome == s.outcome
  }

  lemma {:induction false} ResumesAlone(c: Config, s: Loop)
    requires FreshHead(c, s) && AloneOk(s) && s.dag.None? && s.unit.Some? && Batchless(s.ledger.log)
    ensures ReusesUnit(s, ResumedLoop(s))
  {
    hide Named, Replayed, Below, OrderedLog, Honest, NoWaves, View, ContextOf, Batchless;
    var u, rs := s.unit.value, Replayed(s.ledger.log).units;
    ReplayOrder(s.ledger.log);
    assert |rs| == |Ids(rs)| == 1 && rs[0].id == Ids(rs)[0] == u.id;
    MirrorsAt(s.ledger.log, u.id);
    SlotIs(s.ledger.log, 0);
    MirroredIsBare(rs[0], u);
  }

  lemma MirroredIsBare(v: WorkUnit, u: WorkUnit)
    requires Mirrored(v, u)
    ensures v.localKey.None? && v.dependsOn == []
  {}

  // ---- the next turn ----

  /** The first event after a is e. */
  predicate Adds(a: seq<Event>, e: Event, b: seq<Event>) { a + [e] <= b }

  /** The resumed turn dispatches the unit at once. */
  lemma {:induction false} ResumedDispatches(c: Config, r: Loop, input: TurnInput)
    requires r.outcome.Running? && r.pending.None? && r.dag.None? && r.reuse && r.unit.Some?
             && !Exhausted(r.ledger.run)
    ensures var v := r.unit.value;
            Adds(r.ledger.log, UnitDispatched(UnitPayload(Redirected(v, v.title, v.instruction))),
                 Turn(c, r, input).ledger.log)
  {
    hide RunSingle, OuterPhase, UnitPayload, Exhausted;
    var v := r.unit.value;
    var g := RunSingle(c, r.(reuse := false), r.unit, v.title, v.instruction, input);
    SingleAdds(c, r.(reuse := false), r.unit, v.title, v.instruction, input);
    Resolved(c, g, input);
  }

  lemma Resolved(c: Config, g: Phase, input: TurnInput)
    ensures g.s.ledger.log <= Resolve(c, g, input).ledger.log
  {
    hide OuterPhase;
    MovingKeepsLog(g.s);
    if g.Got? { OuterNoDispatch(c, g.s, g.u, g.receipt, g.stored, g.wave, input.review); }
  }

  lemma {:induction false} SingleAdds(c: Config, s: Loop, existing: Option<WorkUnit>, title: string,
                                      instruction: string, input: TurnInput)
    ensures var u := if existing.Some? then Redirected(existing.value, title, instruction)
                     else NewUnit(s.nextId, title, instruction);
            Adds(s.ledger.log, UnitDispatched(UnitPayload(u)),
                 RunSingle(c, s, existing, title, instruction, input).s.ledger.log)
  {
    hide Grew, GoalLoop, UnitPayload, QuietlyExtends, Exhausted;
    var u := if existing.Some? then Redirected(existing.value, title, instruction)
             else NewUnit(s.nextId, title, instruction);
    var moved := Moved(Dispatch(s, u, existing.None?).ledger, InnerWorking);
    if moved.Some? {
      GoalLoopGrows(c, moved.value, input.goal, 0, None, None, s.ledger.run, 0, 0);
      var (worked, _) := GoalLoop(c, moved.value, input.goal, 0, None, None);
      GrewLog(moved.value, worked, 0, 0);
      QuietIsNoDispatch(moved.value.log, worked.log, 0, 0);
    }
  }

  lemma {:induction false} BatchExtends(c: Config, s: Loop, peers: seq<PeerDraft>, covers: seq<Id>, b: BatchInput)
    ensures s.ledger.log <= RunPeerBatch(c, s, peers, covers, b).s.ledger.log
  {
    hide SeedPeers, Collect, MasterPayload, Grew, Exhausted, QuietlyExtends, Instructions, PairwiseDisjoint;
    var master := NewMaster(s.nextId, peers);
    var s1 := s.(ledger := Logged(s.ledger, UnitDispatched(MasterPayload(master, covers))), nextId := s.nextId + 1);
    var moved := Moved(s1.ledger, InnerWorking);
    if moved.Some? {
      var l, first, n := moved.value, s1.nextId, |peers|;
      var to := first + n;
      SeedPeersGrows(l, first, master.id, peers, 0, s.ledger.run, first, to);
      var l1 := Opened(SeedPeers(l, first, master.id, peers, 0));
      CollectGrows(c, l1, b, first, to, 0, n, s.ledger.run, first, to);
      var (done, _) := Collect(c, l1, b, first, to, 0, n);
      GrewPrefix(l, SeedPeers(l, first, master.id, peers, 0), first, to);
      GrewPrefix(l1, done, first, to);
    }
  }

  lemma GrewPrefix(l: Ledger, m: Ledger, from: Id, to: Id)
    requires Grew(l, m, from, to)
    ensures l.log <= m.log
  {}

  /** The live loop asks the commander first, and charges for the answer. */
  lemma {:induction false} PlanAsks(c: Config, s: Loop, input: TurnInput) returns (tick: BudgetTick)
    ensures var g := PlanPhase(c, s, input);
            (g.FailedWith? && g.s == s) || Adds(s.ledger.log, Tick(tick), g.s.ledger.log)
  {
    hide RunSingle, RunPeerBatch, AskPlan, Exhausted, CostOf, Dag.Sorted, NodesOf, AllDrafted, SeedEvents, Moved;
    tick := TickOf(s.ledger.run, false);
    var asked := AskPlan(input.plans, 3, ECommanderSchema);
    if asked.Ok? {
      var (plan, usage) := asked.value;
      var (cost, estimated) := CostOf(usage, c.commanderIn, c.commanderOut);
      tick := TickOf(Charge(s.ledger.run, cost), estimated);
      var s1 := s.(ledger := ChargeAndTick(s.ledger, usage, c.commanderIn, c.commanderOut));
      MovingKeepsLog(s1);
      match plan
      case Peers(peers) => BatchExtends(c, s1, peers, [], input.batch);
      case Dag(drafts) =>
      case Single(title, instruction) => SingleAdds(c, s1, s1.unit, title, instruction, input);
    }
  }

  lemma {:induction false} LiveAsks(c: Config, s: Loop, input: TurnInput) returns (tick: BudgetTick)
    requires s.outcome.Running? && s.pending.None? && s.dag.None? && !s.reuse && !Exhausted(s.ledger.run)
    ensures var log := Turn(c, s, input).ledger.log; log == s.ledger.log || Adds(s.ledger.log, Tick(tick), log)
  {
    hide PlanPhase, Exhausted;
    tick := PlanAsks(c, s, input);
    Resolved(c, PlanPhase(c, s, input), input);
    MovingKeepsLog(PlanPhase(c, s, input).s);
  }

  lemma AddsOne(a: seq<Event>, d: Event, e: Event, b: seq<Event>)
    requires Adds(a, d, b) && d != e
    ensures b != a && !Adds(a, e, b)
  {
    assert b[|a|] == (a + [d])[|a|];
  }

  /** A crash at a head of a fresh run that has one unit and no DAG, and dispatched no
      batch: the resume has the live unit back, and dispatches it at once. The live loop
      would have asked the commander again, and charged for the answer. So, whatever is
      answered, the two turns agree if and only if the run is out of budget. */
  lemma {:induction false} SingleResumeExactly(c: Config, run: Run, first: Id, env: nat -> TurnInput, k: nat,
                                               input: TurnInput)
    requires run.state == Dispatched
    requires var s := HeadAt(c, run, first, env, k);
             s.outcome.Running? && s.dag.None? && s.unit.Some? && Batchless(s.ledger.log)
    ensures var s := HeadAt(c, run, first, env, k);
            var r := ResumedLoop(s);
            && ReusesUnit(s, r)
            && (SameStep(Turn(c, s, input), Turn(c, r, input)) <==> Exhausted(s.ledger.run))
            && (!Exhausted(s.ledger.run) ==>
                  var v := r.unit.value;
                  Adds(s.ledger.log, UnitDispatched(UnitPayload(Redirected(v, v.title, v.instruction))),
                       Turn(c, r, input).ledger.log))
  {
    hide HeadAt, FreshHead, NamesOk, AloneOk, Batchless, ResumedLoop, Turn, Exhausted, Mirrored, UnitPayload;
    AloneThroughout(c, run, first, env, k);
    var s := HeadAt(c, run, first, env, k);
    var r := ResumedLoop(s);
    HeadRuns(c, s);
    ResumesAlone(c, s);
    if Exhausted(s.ledger.run) {
      BothStop(c, s, r, input);
    } else {
      var v := r.unit.value;
      ResumedDispatches(c, r, input);
      var tick := LiveAsks(c, s, input);
      AddsOne(s.ledger.log, UnitDispatched(UnitPayload(Redirected(v, v.title, v.instruction))), Tick(tick),
              Turn(c, r, input).ledger.log);
    }
  }

  lemma BothStop(c: Config, s: Loop, r: Loop, input: TurnInput)
    requires s.outcome.Running? && s.ledger == r.ledger && s.outcome == r.outcome && Exhausted(s.ledger.run)
    ensures SameStep(Turn(c, s, input), Turn(c, r, input))
  {
    hide Exhausted;
  }
}
