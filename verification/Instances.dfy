/** Concrete runs that do what the theorems say can happen: a wave whose master joins
    the DAG on a resume, and a reported cost that makes the budget ticks fall. */
module Instances {
  import opened Types
  import opened Budget
  import opened Events
  import opened GlobOverlap
  import opened Scheduler
  import opened Drive
  import opened Accounting
  import opened Passes
  import opened FreshRun
  import opened Turns
  import opened Safety
  import opened WholeRun
  import opened Heads
  import opened Counts
  import opened Resume
  import opened Calm
  import opened Ticks
  import Accept
  import Dag
  import Replay
  import ResumeStart

  const RUN := Run(Dispatched, 100, 100, 0, 0)

  // ---- any wave joins the DAG of a resume ----

  /** After any wave that leaves the run going, accepted or sent back, the log names a
      unit the DAG does not have. */
  lemma {:induction false} WaveJoins(c: Config, s: Loop, ds: seq<WorkUnit>, input: TurnInput)
    requires FreshHead(c, s) && s.dag == Some(ds) && |Wave(c.matcher, ReadyUnits(ds))| >= 2
    requires Resolve(c, DagPhase(c, s, ds, input), input).outcome.Running?
    ensures var t := Resolve(c, DagPhase(c, s, ds, input), input);
            t.dag.Some? && Ids(t.dag.value) == Ids(ds) && !OnlyOwn(t.ledger.log, Ids(ds))
  {
    hide FreshHead, Wave, RunPeerBatch, OuterPhase, Performed, Ruled, After, LeavesWork, AcceptedLoop, Instructions,
         OnlyOwn, Ids;
    var wave := Wave(c.matcher, ReadyUnits(ds));
    var ids := Ids(wave);
    var asked := Waved(s, ids);
    var drafts := WaveDrafts(wave);
    var g := RunPeerBatch(c, asked, drafts, ids, input.batch);
    BatchYields(c, asked, drafts, ids, input.batch);
    HeadRuns(c, s);
    if g.Got? {
      BatchWorked(c, asked, drafts, ids, input.batch);
      var u := NewMaster(s.nextId, drafts);
      WorkedShape(asked, g, u, MasterPayload(u, ids), ids);
      PerformedRuns(asked, g, u, MasterPayload(u, ids), ids);
      var k := OuterRuled(c, g.s, u, g.receipt, ids, input.review);
      RuledIds(g.s, u, ids, k);
      DispatchStays(asked, g, u, MasterPayload(u, ids), ids, k);
      BelowIds(c, s, ds);
      if OnlyOwn(k.recorded.ledger.log, Ids(ds)) { OwnId(k.recorded.ledger.log, Ids(ds), MasterPayload(u, ids)); }
    } else {
      StoppedEarly(g.s);
    }
  }

  // ---- two units that can run together ----

  const DRAFTS := [DagDraft("a", "A", "do a", [], Some(["a"]), None), DagDraft("b", "B", "do b", [], Some(["b"]), None)]

  lemma DraftsSort()
    ensures Dag.Sorted(NodesOf(DRAFTS)).Ok?
    ensures var order := Dag.Sorted(NodesOf(DRAFTS)).value;
            |order| == 2 && order[0] != order[1] && order[0] in ["a", "b"] && order[1] in ["a", "b"]
  {
    hide Dag.Sorted;
    var nodes := NodesOf(DRAFTS);
    var g := Dag.GraphOf(nodes);
    Dag.SortedExactly(nodes);
    assert nodes == [Dag.Node("a", []), Dag.Node("b", [])];
    forall id | id in g.ids ensures g.deps[id] == {} {}
    assert Dag.TopologicalOrder(g, ["a", "b"]) by { assert g.ids == {"a", "b"}; }
    Dag.TopologicalMeansAcyclic(g, ["a", "b"]);
    var order := Dag.Sorted(nodes).value;
    assert order[0] in order && order[1] in order;
  }

  lemma LiteralsApart(m: Matcher)
    requires ReadsSimple(m)
    ensures !Overlap(m, ["a"], ["b"]) && !Overlap(m, ["b"], ["a"])
  {
    hide Overlap;
    assert Plain("a") && Plain("b");
    OverlapExact(m, ["a"], ["b"]);
    OverlapExact(m, ["b"], ["a"]);
  }

  /** Two queued units without dependencies and with disjoint globs run together. */
  lemma BothInWave(m: Matcher, ds: seq<WorkUnit>)
    requires |ds| == 2 && ds[0] != ds[1]
    requires forall d :: d in ds ==> d.state == UQueued && d.dependsOn == [] && d.globs.Some?
    requires !Overlap(m, ds[0].globs.value, ds[1].globs.value) && !Overlap(m, ds[1].globs.value, ds[0].globs.value)
    ensures |Wave(m, ReadyUnits(ds))| >= 2
  {
    hide Overlap, Wave;
    var wave := Wave(m, ReadyUnits(ds));
    WaveIsMaximalAndDisjoint(m, ReadyUnits(ds));
    assert ds[0] in ds && ds[1] in ds && Ready(ds[0], ds) && Ready(ds[1], ds);
    assert forall x :: x in wave ==> x == ds[0] || x == ds[1];
    assert ds[0] in wave && ds[1] in wave;
  }

  // ---- the run ----

  const PLAN_WAVE := Answers([Ok((Plan.Dag(DRAFTS), FREE))], WORKED, 0)

  /** The first turn seeds the two units. */
  lemma SeedsTwo(c: Config) returns (ds: seq<WorkUnit>)
    requires ReadsSimple(c.matcher)
    ensures var t := Turn(c, Fresh(RUN, 0), PLAN_WAVE);
            && t.outcome.Running? && t.dag == Some(ds) && |Wave(c.matcher, ReadyUnits(ds))| >= 2
            && t.ledger.run == RUN && t.waveRework == 0
  {
    hide Dag.Sorted, Overlap, Wave, ReadsSimple, SeedEvents, Turn, Planned;
    DraftsSort();
    var order := Dag.Sorted(NodesOf(DRAFTS)).value;
    assert DRAFTS[0] in DRAFTS && DRAFTS[1] in DRAFTS;
    assert AllDrafted(DRAFTS, order);
    ds := SeededUnits(DRAFTS, order, 0);
    assert ds[0].globs == Some([order[0]]) && ds[1].globs == Some([order[1]]);
    LiteralsApart(c.matcher);
    BothInWave(c.matcher, ds);
    PlanSeeds(c, DRAFTS);
  }

  /** The run once the plan is paid for. */
  function Planned(c: Config): Loop {
    var s := Fresh(RUN, 0);
    s.(ledger := ChargeAndTick(s.ledger, FREE, c.commanderIn, c.commanderOut))
  }

  lemma PlanSeeds(c: Config, drafts: seq<DagDraft>)
    requires drafts != []
    ensures var plan := Answers([Ok((Plan.Dag(drafts), FREE))], WORKED, 0);
            Turn(c, Fresh(RUN, 0), plan) == Resolve(c, SeedDag(Planned(c), drafts), plan)
    ensures Planned(c) == Fresh(RUN, 0).(ledger := Planned(c).ledger) && Planned(c).ledger.run == RUN
  {
    hide SeedDag;
  }

  /** The world in which the plan is made and then the wave is worked on and sent back. */
  ghost function WaveEnv(n: nat): nat -> TurnInput { k => if k == 0 then PLAN_WAVE else Answers([], WORKED, n) }

  /** A wave that is sent back once leaves the run going. */
  lemma {:induction false} WaveSentBack(c: Config, s: Loop, ds: seq<WorkUnit>, n: nat)
    requires FreshHead(c, s) && s.dag == Some(ds) && n == |Wave(c.matcher, ReadyUnits(ds))| >= 2 && s.waveRework == 0
    requires !Exhausted(s.ledger.run)
    ensures Turn(c, s, Answers([], WORKED, n))
            == Resolve(c, DagPhase(c, s, ds, Answers([], WORKED, n)), Answers([], WORKED, n))
    ensures Turn(c, s, Answers([], WORKED, n)).outcome.Running?
  {
    hide FreshHead, Wave, RunPeerBatch, OuterPhase, ReadyUnits, PairwiseDisjoint, Instructions, Exhausted;
    HeadRuns(c, s);
    var wave := Wave(c.matcher, ReadyUnits(ds));
    ResumeStart.WaveIsApart(c, ds);
    var asked := Waved(s, Ids(wave));
    BatchDelivers(c, asked, WaveDrafts(wave), Ids(wave), [], WORKED);
    var g := RunPeerBatch(c, asked, WaveDrafts(wave), Ids(wave), Answers([], WORKED, n).batch);
    SentBack(c, g.s, g.u, g.receipt, g.wave);
  }

  /** A head that a new run reaches, from which a resume does not get the DAG back. */
  lemma ForeignUnitJoins(c: Config) returns (env: nat -> TurnInput)
    requires ReadsSimple(c.matcher)
    ensures var s := HeadAt(c, RUN, 0, env, 2);
            && s.outcome.Running? && s.dag.Some? && !OnlyOwn(s.ledger.log, Ids(s.dag.value))
            && exists id :: id in Ids(Replay.Replayed(s.ledger.log).units) && id !in Ids(s.dag.value)
  {
    hide FreshHead, Wave, ReadsSimple, DagPhase, Resolve, OnlyOwn, Ids, ReadyUnits, Turn, Answers, Replay.Replayed;
    var ds := SeedsTwo(c);
    var s := Turn(c, Fresh(RUN, 0), PLAN_WAVE);
    var n := |Wave(c.matcher, ReadyUnits(ds))|;
    env := WaveEnv(n);
    assert HeadAt(c, RUN, 0, env, 0) == Fresh(RUN, 0) && HeadAt(c, RUN, 0, env, 1) == s;
    EveryHeadIsFresh(c, RUN, 0, env, 1);
    WaveSentBack(c, s, ds, n);
    WaveJoins(c, s, ds, env(1));
    assert HeadAt(c, RUN, 0, env, 2) == Turn(c, s, env(1));
    ResumeExactly(c, RUN, 0, env, 2);
  }

  // ---- ticks that fall ----

  const PAID_PLAN: Result<(Plan, Usage), ErrorCode> := Ok((Single("title", "do it"), Usage(Some(5), None, None, 0, 0)))

  /** A worker that reports a negative cost. */
  const REFUND := Answers([PAID_PLAN], WORKED.(costUsd := Some(-3)), 0)

  lemma RefundCharges(c: Config)
    ensures var t := Turn(c, Fresh(RUN, 0), REFUND); t.outcome.Running? && t.ledger.charges == [5, -3, 0]
  {
    hide RunSingle, OuterPhase;
    var s, h := Fresh(RUN, 0), WORKED.(costUsd := Some(-3));
    var s1 := s.(ledger := ChargeAndTick(s.ledger, PAID_PLAN.value.1, c.commanderIn, c.commanderOut));
    var g := RunSingle(c, s1, None, "title", "do it", REFUND);
    assert PlanPhase(c, s, REFUND) == g;
    SingleDelivers(c, s1, None, "title", "do it", [PAID_PLAN], h, 0);
    WorkIsCharged(c, s1, "title", "do it", h);
    SentBack(c, g.s, g.u, g.receipt, []);
    ReviewIsFree(c, g.s, g.u, g.receipt, []);
  }

  lemma WorkIsCharged(c: Config, s: Loop, title: string, instruction: string, h: Handle)
    requires s.ledger.run.state == Dispatched && !Exhausted(s.ledger.run) && !h.crashed && h.costUsd.Some?
    ensures RunSingle(c, s, None, title, instruction, Answers([PAID_PLAN], h, 0)).s.ledger.charges
            == s.ledger.charges + [h.costUsd.value]
  {
    hide GoalLoop, UnitPayload;
    var l := Moved(Dispatch(s, NewUnit(s.nextId, title, instruction), true).ledger, InnerWorking).value;
    GoalIsReached(c, l, Answers([PAID_PLAN], h, 0), [PAID_PLAN], h, 0);
  }

  lemma ReviewIsFree(c: Config, s: Loop, u: WorkUnit, receipt: Receipt, wave: seq<Id>)
    requires s.outcome.Running? && s.ledger.run.state == InnerWorking && receipt.changedFiles == ["f"]
    ensures OuterPhase(c, s, u, receipt, false, wave, FAILED_TESTS).ledger.charges == s.ledger.charges + [0]
  {
    hide Accept.Enforced, Decided, Accept.AcceptGates.CanAccept, VerdictPayload, ReceiptPayload, Exhausted;
    var r := OverriddenCommand(receipt, u);
    var s1 := Continue(Submitted(s, u, r, false), OuterReviewing);
    var gates := GatesOf(c, s1, u, r, true, FAILED_TESTS);
    RedIsSentBack(gates);
    var charged := s1.(ledger := ChargeAndTick(s1.ledger, FREE, c.commanderIn, c.commanderOut));
    var d := Accept.Enforced(DRework, gates).0;
    DecisionIsFree(Recorded(charged, u.id, wave, gates, d), d, gates, r, wave);
  }

  /** Two ticks of one turn decrease. */
  lemma TicksFall(c: Config)
    ensures var t := Turn(c, Fresh(RUN, 0), REFUND);
            t.outcome.Running? && TickTotals(t.ledger.log) == [5, 2, 2] && !NeverDecreases(TickTotals(t.ledger.log))
  {
    hide Turn, TickTotals, FreshHead, CleanHead;
    var s := Fresh(RUN, 0);
    FreshIsHead(c, RUN, 0);
    HeadIsClean(c, s);
    EntryBalances(s);
    TurnIsClean(c, s, REFUND, RUN);
    RefundCharges(c);
    var charges: seq<I64> := [5, -3, 0];
    assert charges[..2] == [5, -3] && charges[..2][..1] == [5] && charges[..2][..1][..0] == [];
    assert SatSum(0, [5]) == 5 && SatSum(0, charges[..2]) == 2 && SatSum(0, charges) == 2;
    assert RunningTotals(0, charges) == [5, 2, 2];
    assert [5, 2, 2][0] > [5, 2, 2][0 + 1];
  }
}
