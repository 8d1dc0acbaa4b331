/** A new run whose only unit is sent back four times: the live loop goes on, a resumed
    one can only end, and not as accepted. */
module Forgotten {
  import opened Types
  import opened Budget
  import opened Events
  import opened Scheduler
  import opened Drive
  import opened Accounting
  import opened Chronicle
  import opened Passes
  import opened FreshRun
  import opened Turns
  import opened Counts
  import opened WholeRun
  import opened Heads
  import opened Resume
  import opened Calm
  import opened ResumeTurn
  import opened Instances
  import Dag
  import Replay

  const DRAFT := DagDraft("a", "A", "do a", [], None, None)

  const PLAN_ONE := Answers([Ok((Plan.Dag([DRAFT]), FREE))], WORKED, 0)

  /** The world in which one unit is planned, and then worked on and sent back. */
  ghost function RedEnv(): nat -> TurnInput { k => if k == 0 then PLAN_ONE else Answers([], WORKED, 0) }

  /** The head after the unit was sent back j times. */
  ghost predicate Round(c: Config, s: Loop, j: nat) {
    && FreshHead(c, s) && CountOk(s) && s.waveRework == 0 && j <= U32_MAX && s.ledger.run == RUN.(spentTurns := j)
    && s.dag.Some? && |s.dag.value| == 1 && s.dag.value[0].globs.None?
    && OnlyOwn(s.ledger.log, Ids(s.dag.value)) && ReworkVerdicts(s.reviews, s.dag.value[0].id) == j
  }

  // ---- the plan ----

  lemma OneSorts()
    ensures var order := Dag.Sorted(NodesOf([DRAFT])); order.Ok? && order.value == ["a"]
  {
    hide Dag.Sorted;
    var nodes := NodesOf([DRAFT]);
    var g := Dag.GraphOf(nodes);
    Dag.SortedExactly(nodes);
    assert nodes == [Dag.Node("a", [])];
    forall id | id in g.ids ensures g.deps[id] == {} {}
    assert Dag.TopologicalOrder(g, ["a"]) by { assert g.ids == {"a"}; }
    Dag.TopologicalMeansAcyclic(g, ["a"]);
    var order := Dag.Sorted(nodes).value;
    assert order[0] in order && g.ids == {"a"};
  }

  lemma NothingDispatched(log: seq<Event>, ids: seq<Id>)
    requires forall e :: e in log ==> !e.UnitDispatched?
    ensures OnlyOwn(log, ids)
  {}

  lemma {:induction false} FirstRound(c: Config)
    ensures Round(c, HeadAt(c, RUN, 0, RedEnv(), 1), 0)
  {
    hide Dag.Sorted, Turn, Planned, FreshHead, CountOk, SeedEvents, OnlyOwn;
    OneSorts();
    PlanSeeds(c, [DRAFT]);
    assert Drafted([DRAFT], "a") by { assert [DRAFT][0].key == "a"; }
    var units := SeededUnits([DRAFT], ["a"], 0);
    var s := Turn(c, Fresh(RUN, 0), PLAN_ONE);
    assert HeadAt(c, RUN, 0, RedEnv(), 0) == Fresh(RUN, 0) && HeadAt(c, RUN, 0, RedEnv(), 1) == s;
    EveryHeadCounts(c, RUN, 0, RedEnv(), 1);
    assert s.dag == Some(units);
    forall e | e in s.ledger.log ensures !e.UnitDispatched? { PlannedLog(c); }
    NothingDispatched(s.ledger.log, Ids(units));
  }

  lemma PlannedLog(c: Config)
    ensures forall e :: e in Planned(c).ledger.log ==> !e.UnitDispatched?
  {}

  // ---- one more attempt ----

  /** Units without declared globs never run in a wave. */
  lemma NoWave(c: Config, ds: seq<WorkUnit>)
    requires forall d :: d in ds ==> d.globs.None?
    ensures |Wave(c.matcher, ReadyUnits(ds))| < 2
  {
    ReadyAreUnits(ds);
    NoneFits(c, ReadyUnits(ds));
  }

  lemma {:induction false} NoneFits(c: Config, rest: seq<WorkUnit>)
    requires forall d :: d in rest ==> d.globs.None?
    ensures WaveFrom(c.matcher, [], rest) == []
    decreases |rest|
  {
    if rest != [] { NoneFits(c, rest[1..]); }
  }

  lemma AttemptSpends(c: Config, s: Loop, existing: Option<WorkUnit>, title: string, instruction: string,
                      plans: seq<Result<(Plan, Usage), ErrorCode>>)
    requires s.ledger.run.state == Dispatched && !Exhausted(s.ledger.run)
    ensures RunSingle(c, s, existing, title, instruction, Answers(plans, WORKED, 0)).s.ledger.run
            == s.ledger.run.(state := InnerWorking, spentTurns := SatAddU32(s.ledger.run.spentTurns, 1))
  {
    hide GoalLoop, UnitPayload;
    var u := if existing.Some? then Redirected(existing.value, title, instruction)
             else NewUnit(s.nextId, title, instruction);
    var l := Moved(Dispatch(s, u, existing.None?).ledger, InnerWorking).value;
    GoalIsReached(c, l, Answers(plans, WORKED, 0), plans, WORKED, 0);
  }

  /** The dispatch of a DAG unit, its work and its ruling name no other unit. */
  lemma StaysOwn(log: seq<Event>, p: Payload, worked: seq<Event>, r: Payload, tick: Event, v: Payload, ids: seq<Id>)
    requires OnlyOwn(log, ids) && p.workUnitId.Some? && p.workUnitId.value in ids && tick.Tick?
    requires QuietlyExtends(log + [UnitDispatched(p)], worked, 0, 0)
    ensures OnlyOwn(worked + [ReceiptSubmitted(r), tick, Verdict(v)], ids)
  {
    var a := log + [UnitDispatched(p)];
    QuietDispatches(a, worked, 0, 0);
    forall e | e in worked + [ReceiptSubmitted(r), tick, Verdict(v)] && e.UnitDispatched? ensures Own(e, ids) {
      assert e in worked && e in a;
      assert e in log || e == UnitDispatched(p);
    }
  }

  /** With one unit an accept would have ended the run. */
  lemma AcceptsAll(s: Loop, r: Receipt, d: WorkUnit)
    requires s.unit.Some? && s.dag == Some([d]) && s.unit.value.id == d.id
    ensures !LeavesWork(AcceptedLoop(s, r, []))
  {}

  lemma {:induction false} NextRound(c: Config, s: Loop, j: nat)
    requires Round(c, s, j) && j < 99
    ensures var t := Turn(c, s, Answers([], WORKED, 0));
            && Round(c, t, j + 1)
            && |t.reviews| == |s.reviews| + 1 && t.reviews[|s.reviews|].decision.DRework?
  {
    hide FreshHead, CountOk, OnlyOwn, Wave, ReadyUnits, NextReady, RunSingle, OuterPhase, Performed, Ruled, After,
         LeavesWork, AcceptedLoop, UnitPayload, ReworkVerdicts, QuietlyExtends, Answers;
    var ds, input := s.dag.value, Answers([], WORKED, 0);
    HeadRuns(c, s);
    var d := NextReady(ds).value;
    assert ds == [d];
    NoWave(c, ds);
    SerialUncounted(c, s, ds);
    SingleDelivers(c, s, Some(d), d.title, d.instruction, [], WORKED, 0);
    AttemptSpends(c, s, Some(d), d.title, d.instruction, []);
    var g, u := RunSingle(c, s, Some(d), d.title, d.instruction, input), Redirected(d, d.title, d.instruction);
    CalmReview(input);
    SentBack(c, g.s, u, g.receipt, []);
    var t := Turn(c, s, input);
    assert t == OuterPhase(c, g.s, u, g.receipt, false, [], input.review);
    FreshTurn(c, s, input);
    TurnCounts(c, s, input);
    SingleWorked(c, s, Some(d), d.title, d.instruction, input);
    SingleTicks(c, s, Some(d), d.title, d.instruction, input);
    PayloadId(u);
    var k := OuterRuled(c, g.s, u, g.receipt, [], input.review);
    RuledShape(g.s, u, [], k);
    RuledLog(g.s, u, [], k);
    AcceptsAll(k.recorded, k.receipt, d);
    AfterRework(k, g.s, u, []);
    OneMoreVerdict(s.reviews, Reviewed(u.id, [], k.gates, k.decision, k.recorded.ledger.run), d.id);
    IdIsListed(ds, d);
    StaysOwn(s.ledger.log, UnitPayload(u), g.s.ledger.log, ReceiptPayload(k.receipt, u.id), Tick(k.tick),
             VerdictPayload(u.id, k.decision), Ids(ds));
  }

  lemma {:induction false} Rounds(c: Config, k: nat)
    requires 1 <= k <= 99
    ensures Round(c, HeadAt(c, RUN, 0, RedEnv(), k), k - 1)
  {
    hide Round, Turn, Answers, HeadAt, FreshHead, CountOk, OnlyOwn, Wave, Exhausted;
    if k == 1 {
      FirstRound(c);
    } else {
      Rounds(c, k - 1);
      RoundRuns(c, HeadAt(c, RUN, 0, RedEnv(), k - 1), k - 2);
      NextHead(c, k);
      NextRound(c, HeadAt(c, RUN, 0, RedEnv(), k - 1), k - 2);
    }
  }

  lemma NextHead(c: Config, k: nat)
    requires k > 1 && HeadAt(c, RUN, 0, RedEnv(), k - 1).outcome.Running?
    ensures HeadAt(c, RUN, 0, RedEnv(), k) == Turn(c, HeadAt(c, RUN, 0, RedEnv(), k - 1), Answers([], WORKED, 0))
  {
    hide Turn, Answers;
  }

  lemma RoundRuns(c: Config, s: Loop, j: nat)
    requires Round(c, s, j)
    ensures s.outcome.Running? && s.dag.Some? && OnlyOwn(s.ledger.log, Ids(s.dag.value)) && s.ledger.run.spentTurns == j
    ensures j < 100 ==> !Exhausted(s.ledger.run)
    ensures FreshHead(c, s) && CountOk(s) && |Wave(c.matcher, ReadyUnits(s.dag.value))| < 2
  {
    hide Wave, ReadyUnits, CountOk, OnlyOwn, NextReady;
    NoWave(c, s.dag.value);
    HeadRuns(c, s);
  }

  /** The replayed count of the unit. */
  lemma {:induction false} RoundReplays(c: Config, s: Loop, j: nat)
    requires Round(c, s, j) && NamesOk(s)
    ensures var rs := Replay.Replayed(s.ledger.log).units;
            && ResumedLoop(s).outcome.Running? && ResumedLoop(s).dag == Some(rs) && ResumedLoop(s).pending.None?
            && ResumedLoop(s).ledger == s.ledger && s.ledger.run.state == Dispatched
            && NextReady(rs).Some? && NextReady(rs).value.rework == j && |Wave(c.matcher, ReadyUnits(rs))| < 2
  {
    hide FreshHead, CountOk, OnlyOwn, Named, Wave, ReadyUnits, NextReady, ReworkVerdicts, Replay.Replayed, Rebuilt,
         Serial, SameStatic, SamePlan, ResumedLoop;
    var ds, rs, r := s.dag.value, Replay.Replayed(s.ledger.log).units, ResumedLoop(s);
    HeadRuns(c, s);
    HeadRebuilt(c, s, ds);
    RebuiltNext(c, s, r, ds, rs);
    ReplayOrder(s.ledger.log);
    assert Ids(rs) == Ids(ds);
    ResumeAlike(c, s, ds);
    NoWave(c, ds);
    SameIdsAt(c, s, r, ds, rs);
  }

  predicate LostAnyway(t: Loop) { t.outcome.Ended? && t.ledger.run.state != Accepted }

  /** The only unit of this DAG is sent back over and over, and the live loop goes on
      with every attempt. Once that has happened more than MAX_REWORK times, the run
      resumed from the envelope can only end, and not as accepted, whatever it is
      answered. */
  lemma {:induction false} ReworksRemembered(c: Config, k: nat)
    requires MAX_REWORK + 1 < k < 99
    ensures var s := HeadAt(c, RUN, 0, RedEnv(), k);
            var next := NextReady(Replay.Replayed(s.ledger.log).units);
            && s.outcome.Running? && s.dag.Some? && OnlyOwn(s.ledger.log, Ids(s.dag.value)) && !Exhausted(s.ledger.run)
            && next.Some? && next.value.rework == k - 1
            && Turn(c, s, RedEnv()(k)).outcome.Running?
            && forall input :: LostAnyway(Turn(c, ResumedLoop(s), input))
  {
    hide Turn, Round, FreshHead, CountOk, OnlyOwn, NamesOk, Wave, ReadyUnits, NextReady, Replay.Replayed, Exhausted,
         Answers, ResumedLoop, HeadAt;
    Rounds(c, k);
    Rounds(c, k + 1);
    var s := HeadAt(c, RUN, 0, RedEnv(), k);
    NamesThroughout(c, RUN, 0, RedEnv(), k);
    RoundRuns(c, s, k - 1);
    NextHead(c, k + 1);
    RoundRuns(c, HeadAt(c, RUN, 0, RedEnv(), k + 1), k);
    RoundReplays(c, s, k - 1);
    var rs := Replay.Replayed(s.ledger.log).units;
    forall input ensures LostAnyway(Turn(c, ResumedLoop(s), input)) { TooOftenEnds(c, ResumedLoop(s), rs, input); }
  }
}
