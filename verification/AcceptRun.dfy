/** A new run with a DAG of two units that accepts the first one: a crash right then. */
module AcceptRun {
  import opened Types
  import opened State
  import opened Accept
  import opened Budget
  import opened Events
  import opened Scheduler
  import opened Drive
  import opened Replay
  import opened Chronicle
  import opened Passes
  import opened FreshRun
  import opened DagRun
  import opened Turns
  import opened Counts
  import opened WholeRun
  import opened Heads
  import opened Resume
  import opened Pending
  import opened Calm
  import opened Crash
  import opened ResumeReview
  import opened Instances
  import opened Forgotten
  import opened Accounting
  import Dag

  /** Everything is in order in the outer review, and the commander accepts. */
  const GREEN := ReviewInput(0, ["f"], true, true, true, true, Ok(true), true, [Ok((DAccept, FREE))], FREE)

  const TWO := [DagDraft("a", "A", "do a", [], None, None), DagDraft("b", "B", "do b", [], None, None)]

  const PLAN_TWO := Answers([Ok((Plan.Dag(TWO), FREE))], WORKED, 0)

  /** The world in which two units are planned, and then worked on and accepted. */
  ghost function GreenEnv(): nat -> TurnInput {
    k => if k == 0 then PLAN_TWO else Answers([], WORKED, 0).(review := GREEN)
  }

  // ---- accepted ----

  lemma GreenIsAccepted(gates: AcceptGates)
    requires gates.CanAccept()
    ensures Enforced(DAccept, gates) == (DAccept, None)
  {}

  lemma OtherIsLeft(s: Loop, r: Receipt, i: nat)
    requires s.unit.Some? && s.dag.Some? && i < |s.dag.value|
    requires s.dag.value[i].id != s.unit.value.id && s.dag.value[i].state != UAccepted
    ensures LeavesWork(AcceptedLoop(s, r, []))
  {
    var es := AcceptedLoop(s, r, []).dag.value;
    assert es[i] in es && es[i] == s.dag.value[i];
  }

  /** The review accepts a unit, another is left, and the run goes on. */
  lemma JudgedGreen(c: Config, s: Loop, u: WorkUnit, r: Receipt, i: nat)
    requires s.outcome.Running? && s.ledger.run.state == OuterReviewing && s.unit.Some?
    requires !Exhausted(s.ledger.run) && ReworkSoFar(s) <= MAX_REWORK
    requires r.changedFiles == ["f"]
             && r.testCommand == if u.testCommand.Some? then u.testCommand.value else c.testCommand
    requires s.dag.Some? && i < |s.dag.value|
             && s.dag.value[i].id != s.unit.value.id && s.dag.value[i].state != UAccepted
    ensures Judge(c, s, u, r, [], GREEN).outcome.Running?
    ensures var t := Judge(c, s, u, r, [], GREEN);
            |t.reviews| == |s.reviews| + 1 && t.reviews[|s.reviews|].decision == DAccept
  {
    hide CostOf, Exhausted, VerdictPayload, Enforced, AcceptMembers, AllAccepted, AcceptedLoop;
    var gates := GatesOf(c, s, u, r, true, GREEN);
    assert gates.CanAccept();
    GreenIsAccepted(gates);
    FreeCostsNothing(c, s.ledger);
    assert AskVerdict(GREEN.verdicts, 3, ECommanderSchema) == Ok((DAccept, FREE));
    var charged := s.(ledger := ChargeAndTick(s.ledger, FREE, c.commanderIn, c.commanderOut));
    var x := Recorded(charged, u.id, [], gates, DAccept);
    OtherIsLeft(x, r, i);
    GreenGoesOn(x, gates, r);
  }

  lemma GreenGoesOn(x: Loop, gates: AcceptGates, r: Receipt)
    requires x.outcome.Running? && x.ledger.run.state == OuterReviewing && x.unit.Some? && gates.CanAccept()
    requires LeavesWork(AcceptedLoop(x, r, []))
    ensures var t := Decided(x, DAccept, gates, r, []); t.outcome.Running? && t.reviews == x.reviews
  {
    hide AcceptMembers, AllAccepted;
  }

  // ---- the plan ----

  lemma PlannedBelow(c: Config)
    ensures Below(Planned(c).ledger.log, 0)
  {}

  /** Two units without dependencies or globs, both queued, and nothing done yet. */
  ghost predicate BothQueued(c: Config, s: Loop, ds: seq<WorkUnit>) {
    && FreshHead(c, s) && s.dag == Some(ds) && s.ledger.run == RUN && s.waveRework == 0
    && |ds| == 2 && ds[0].id != ds[1].id
    && (forall d :: d in ds ==> d.state == UQueued && d.dependsOn == [] && d.globs.None?)
    && View(s.ledger.log, ds[1].id).Some? && View(s.ledger.log, ds[1].id).value.receiptId.None?
    && Batchless(s.ledger.log) && OnlyOwn(s.ledger.log, Ids(ds))
  }

  /** The first turn seeds the two units. */
  lemma {:induction false} TwoAreSeeded(c: Config) returns (ds: seq<WorkUnit>)
    ensures var t := Turn(c, Fresh(RUN, 0), PLAN_TWO);
            && t.outcome.Running? && t.dag == Some(ds) && t.ledger.run == RUN && t.waveRework == 0
            && t.ledger.log == Planned(c).ledger.log + SeedEvents(ds)
    ensures |ds| == 2 && SeedFacts(ds, 0) && forall d :: d in ds ==> d.dependsOn == [] && d.globs.None?
  {
    hide Dag.Sorted, Turn, Planned, SeedEvents;
    assert NodesOf(TWO) == NodesOf(DRAFTS);
    DraftsSort();
    var order := Dag.Sorted(NodesOf(TWO)).value;
    assert TWO[0] in TWO && TWO[1] in TWO;
    assert AllDrafted(TWO, order);
    ds := SeededUnits(TWO, order, 0);
    PlanSeeds(c, TWO);
    SeededFacts(TWO, order, 0);
  }

  lemma {:induction false} TwoArePlanned(c: Config) returns (ds: seq<WorkUnit>)
    ensures BothQueued(c, HeadAt(c, RUN, 0, GreenEnv(), 1), ds)
  {
    hide Turn, Planned, FreshHead, SeedEvents, OnlyOwn, View, Below;
    ds := TwoAreSeeded(c);
    var s := Turn(c, Fresh(RUN, 0), PLAN_TWO);
    assert HeadAt(c, RUN, 0, GreenEnv(), 0) == Fresh(RUN, 0) && HeadAt(c, RUN, 0, GreenEnv(), 1) == s;
    EveryHeadIsFresh(c, RUN, 0, GreenEnv(), 1);
    PlannedLog(c);
    PlannedBelow(c);
    NothingDispatched(s.ledger.log, Ids(ds));
    assert SeedEvents(ds)[..|ds|] == SeedEvents(ds);
    SeedViews(Planned(c).ledger.log, ds, 0, |ds|, 1);
    SeedHasNoReceipt(ds[1]);
  }

  lemma SeedHasNoReceipt(u: WorkUnit)
    ensures SeedView(u).receiptId.None?
  {}

  // ---- the first unit is accepted ----

  lemma FirstIsNext(c: Config, ds: seq<WorkUnit>)
    requires |ds| == 2 && forall d :: d in ds ==> d.state == UQueued && d.dependsOn == [] && d.globs.None?
    ensures NextAlone(c, ds, ds[0])
  {
    hide Wave;
    assert ds[0] in ds && Ready(ds[0], ds);
    NoWave(c, ds);
  }

  /** The review in a loop that was working. */
  lemma OuterGreen(c: Config, s: Loop, u: WorkUnit, receipt: Receipt, i: nat)
    requires s.outcome.Running? && s.ledger.run.state == InnerWorking && !Exhausted(s.ledger.run)
    requires u.rework == 0 && s.waveRework == 0
    requires receipt.changedFiles == ["f"] && receipt.testCommand == c.testCommand
    requires s.dag.Some? && i < |s.dag.value| && s.dag.value[i].id != u.id && s.dag.value[i].state != UAccepted
    ensures OuterPhase(c, s, u, receipt, false, [], GREEN).outcome.Running?
    ensures var t := OuterPhase(c, s, u, receipt, false, [], GREEN);
            |t.reviews| == |s.reviews| + 1 && t.reviews[|s.reviews|].decision == DAccept
  {
    hide Judge, ReceiptPayload;
    var r := OverriddenCommand(receipt, u);
    var s2 := Continue(Submitted(s, u, r, false), OuterReviewing);
    JudgedGreen(c, s2, u, r, i);
  }

  /** The answers to the goal loop and the commit do not depend on the review's. */
  lemma SameWork(c: Config, s: Loop, d: WorkUnit, title: string, instruction: string)
    ensures var input := Answers([], WORKED, 0);
            RunSingle(c, s, Some(d), title, instruction, input.(review := GREEN))
            == RunSingle(c, s, Some(d), title, instruction, input)
    ensures var g := RunSingle(c, s, Some(d), title, instruction, Answers([], WORKED, 0));
            g.Got? ==> g.receipt.testCommand == c.testCommand
  {
    hide GoalLoop, Answers;
  }

  /** The turn taken apart. */
  lemma {:induction false} FirstIsAccepted(c: Config, s: Loop, ds: seq<WorkUnit>) returns (g: Phase, k: Ruling)
    requires BothQueued(c, s, ds)
    ensures var t, u := Turn(c, s, Answers([], WORKED, 0).(review := GREEN)),
                        Redirected(ds[0], ds[0].title, ds[0].instruction);
            && k.recorded.unit.Some? && t == After(k, []) && t.outcome.Running? && RuledBy(s, t, DAccept)
            && k.decision.DAccept?
            && g == RunSingle(c, s, Some(ds[0]), ds[0].title, ds[0].instruction, Answers([], WORKED, 0))
            && g.Got? && g.s.outcome.Running? && g.s.dag == Some(ds)
            && SerialTurned(c, s, ds, ds[0], u, g, k)
  {
    hide FreshHead, OnlyOwn, Batchless, Wave, ReadyUnits, NextReady, RunSingle, OuterPhase, Performed, Ruled, After,
         LeavesWork, AcceptedLoop, UnitPayload, Answers, View;
    var input := Answers([], WORKED, 0);
    HeadRuns(c, s);
    FirstIsNext(c, ds);
    var d := ds[0];
    NextFacts(c, s, ds, d);
    SameWork(c, s, d, d.title, d.instruction);
    SingleDelivers(c, s, Some(d), d.title, d.instruction, [], WORKED, 0);
    AttemptSpends(c, s, Some(d), d.title, d.instruction, []);
    g := RunSingle(c, s, Some(d), d.title, d.instruction, input);
    var u := Redirected(d, d.title, d.instruction);
    OuterGreen(c, g.s, u, g.receipt, 1);
    assert Turn(c, s, input.(review := GREEN)) == OuterPhase(c, g.s, u, g.receipt, false, [], GREEN);
    SingleWorked(c, s, Some(d), d.title, d.instruction, input);
    k := OuterRuled(c, g.s, u, g.receipt, [], GREEN);
    RuledShape(g.s, u, [], k);
    RuledReview(g.s, u, [], k);
  }

  lemma {:induction false} FirstLeaves(c: Config, s: Loop, ds: seq<WorkUnit>, g: Phase, k: Ruling)
    requires BothQueued(c, s, ds) && k.decision.DAccept? && g.Got? && g.s.outcome.Running? && g.s.dag == Some(ds)
    requires g == RunSingle(c, s, Some(ds[0]), ds[0].title, ds[0].instruction, Answers([], WORKED, 0))
    requires SerialTurned(c, s, ds, ds[0], Redirected(ds[0], ds[0].title, ds[0].instruction), g, k)
    ensures var t := After(k, []);
            && !Exhausted(t.ledger.run) && Batchless(t.ledger.log)
            && t.dag.Some? && Ids(t.dag.value) == Ids(ds) && OnlyOwn(t.ledger.log, Ids(ds))
            && View(t.ledger.log, ds[1].id).Some? && View(t.ledger.log, ds[1].id).value.receiptId.None?
  {
    hide FreshHead, OnlyOwn, Batchless, NextAlone, RunSingle, Performed, Ruled, After, LeavesWork, AcceptedLoop,
         UnitPayload, QuietlyExtends, Answers, View, SerialPass, Exhausted;
    var d, u := ds[0], Redirected(ds[0], ds[0].title, ds[0].instruction);
    SingleTicks(c, s, Some(d), d.title, d.instruction, Answers([], WORKED, 0));
    PayloadId(u);
    RuledShape(g.s, u, [], k);
    RuledLog(g.s, u, [], k);
    RuledIds(g.s, u, [], k);
    SpendsNoMore(k);
    var r, tick, v := ReceiptPayload(k.receipt, u.id), Tick(k.tick), VerdictPayload(u.id, k.decision);
    IdIsListed(ds, d);
    StaysOwn(s.ledger.log, UnitPayload(u), g.s.ledger.log, r, tick, v, Ids(ds));
    StaysBatchless(s.ledger.log, u, g.s.ledger.log, r, tick, v);
    var x := SerialTurnPass(c, s, ds, d, u, g, k);
    SerialParts(x, s, u, k.receipt);
    NextFacts(c, s, ds, d);
    SerialCovers(c, s, d, u, k.receipt, x);
    OtherUntouched(c, s, x, ds);
  }

  lemma SpendsNoMore(k: Ruling)
    requires k.recorded.unit.Some?
    ensures Exhausted(After(k, []).ledger.run) == Exhausted(k.recorded.ledger.run)
  {
    hide AcceptMembers, ReworkMembers, CanTransition;
  }

  /** The pass of the first unit says nothing about the second. */
  lemma {:induction false} OtherUntouched(c: Config, s: Loop, x: Pass, ds: seq<WorkUnit>)
    requires BothQueued(c, s, ds) && x.Ok() && x.start == s.ledger.log && x.n == s.nextId && x.u == ds[0].id
    requires x.CoveredUnits() == []
    ensures View(x.Log(), ds[1].id) == View(s.ledger.log, ds[1].id)
  {
    hide View, FreshHead, Pass.Ok, Pass.Log, Pass.CoveredUnits, Batchless, OnlyOwn;
    IdIsListed(ds, ds[1]);
    HeadId(c, s, ds, ds[1].id);
    PassViews(x, ds[1].id);
    ViewHasItsId(s.ledger.log, ds[1].id);
    JudgedNone(View(s.ledger.log, ds[1].id).value, [x.u] + [], Some(x.decision));
  }

  /** This run is lost when it crashes once its first unit is accepted. */
  lemma {:induction false} AnAcceptToCrashAfter(c: Config, store: Store, made: Id -> Receipt, input: TurnInput)
    ensures var t := HeadAt(c, RUN, 0, GreenEnv(), 2);
            && CameThrough(t, OuterReviewing)
            && var x := ResumedReview(FoundIn(t, OuterReviewing), store, made);
               Turn(c, x, input).outcome.Ended? && Turn(c, x, input).ledger.run.state == Failed
  {
    hide Turn, FreshHead, OnlyOwn, Batchless, View, Exhausted, Answers, Replayed, CameThrough, ResumedReview, NamesOk,
         Named;
    var ds := TwoArePlanned(c);
    var s, t := HeadAt(c, RUN, 0, GreenEnv(), 1), HeadAt(c, RUN, 0, GreenEnv(), 2);
    HeadRuns(c, s);
    assert t == Turn(c, s, Answers([], WORKED, 0).(review := GREEN));
    var g, k := FirstIsAccepted(c, s, ds);
    FirstLeaves(c, s, ds, g, k);
    NamesThroughout(c, RUN, 0, GreenEnv(), 2);
    LastHasNoReceipt(t, ds, store);
    CrashAfterAcceptLoses(c, RUN, 0, GreenEnv(), 2, store, made, input);
  }

  lemma {:induction false} LastHasNoReceipt(t: Loop, ds: seq<WorkUnit>, store: Store)
    requires NamesOk(t) && t.dag.Some? && Ids(t.dag.value) == Ids(ds) && OnlyOwn(t.ledger.log, Ids(ds)) && |ds| == 2
    requires View(t.ledger.log, ds[1].id).Some? && View(t.ledger.log, ds[1].id).value.receiptId.None?
    ensures LastReceipt(Replayed(t.ledger.log).units, store).None?
  {
    hide View, Replayed, Named, OnlyOwn;
    var rs := Replayed(t.ledger.log).units;
    ReplayOrder(t.ledger.log);
    assert |rs| == |Ids(rs)| == 2 && rs[1].id == Ids(rs)[1] == ds[1].id;
    MirrorsAt(t.ledger.log, ds[1].id);
    SlotIs(t.ledger.log, 1);
  }
}
