/** A crash between the two state changes of a rework (the rework branch of drive_factory
    in crates/wanax-cli/src/engine.rs), resumed from the envelope. */
module Crash {
  import opened Types
  import opened State
  import opened Accept
  import opened Budget
  import opened Events
  import opened GlobOverlap
  import opened Scheduler
  import opened Drive
  import opened Replay
  import opened Chronicle
  import opened Passes
  import opened FreshRun
  import opened Turns
  import opened Counts
  import opened Heads
  import opened Resume
  import opened ResumeStart
  import opened ResumeTurn
  import opened Calm
  import opened Instances
  import opened Forgotten
  import Dag

  // ---- the states a turn passes through ----

  /** The loop one state change earlier, with the same envelope. */
  function FoundIn(t: Loop, state: RunState): Loop
    requires t.ledger.path != []
  {
    t.(ledger := t.ledger.(run := t.ledger.run.(state := state), path := t.ledger.path[..|t.ledger.path| - 1]))
  }

  /** The turn from s to t ended with this verdict. */
  predicate RuledBy(s: Loop, t: Loop, d: Decision) {
    t.reviews != s.reviews && t.reviews != [] && t.reviews[|t.reviews| - 1].decision == d
  }

  /** The run is dispatched again, and just before it was in `state`. */
  predicate CameThrough(t: Loop, state: RunState) {
    var path := t.ledger.path;
    && |path| >= 2 && path[|path| - 2..] == [state, Dispatched] && t.ledger.run.state == Dispatched
    && t.outcome.Running? && Continue(FoundIn(t, state), Dispatched) == t
  }

  /** And before that, under review. */
  predicate FromReview(t: Loop) {
    |t.ledger.path| >= 3 && t.ledger.path[|t.ledger.path| - 3] == OuterReviewing
  }

  lemma ComesThrough(mid: Loop)
    requires mid.outcome.Running? && mid.ledger.path != [] && CanTransition(mid.ledger.run.state, Dispatched)
    requires mid.ledger.path[|mid.ledger.path| - 1] == mid.ledger.run.state
    ensures CameThrough(Continue(mid, Dispatched), mid.ledger.run.state)
  {
    var t := Continue(mid, Dispatched);
    assert t.ledger.path[..|t.ledger.path| - 1] == mid.ledger.path;
    assert FoundIn(t, mid.ledger.run.state) == mid;
  }

  /** A rework goes through `rework`, an accept comes straight from the review. */
  lemma AfterPasses(k: Ruling, wave: seq<Id>)
    requires k.recorded.unit.Some? && k.recorded.outcome.Running? && k.recorded.ledger.run.state == OuterReviewing
    requires var path := k.recorded.ledger.path; path != [] && path[|path| - 1] == OuterReviewing
    ensures k.decision.DRework? ==> CameThrough(After(k, wave), Rework) && FromReview(After(k, wave))
    ensures k.decision.DAccept? ==> CameThrough(After(k, wave), OuterReviewing)
  {
    hide ReworkMembers, AcceptMembers, CameThrough;
    if k.decision.DAccept? {
      ComesThrough(AcceptedLoop(k.recorded, k.receipt, wave));
    } else {
      var path := k.recorded.ledger.path;
      ComesThrough(Continue(ReworkedLoop(k.recorded, wave), Rework));
      assert After(k, wave).ledger.path == path + [Rework] + [Dispatched];
    }
  }

  /** The last state changes of a turn with a verdict. */
  ghost predicate Traced(s: Loop, t: Loop) {
    && (RuledBy(s, t, DRework) ==> CameThrough(t, Rework) && FromReview(t))
    && (RuledBy(s, t, DAccept) ==> CameThrough(t, OuterReviewing))
  }

  lemma OuterTraced(c: Config, s: Loop, u: WorkUnit, receipt: Receipt, stored: bool, wave: seq<Id>,
                    v: ReviewInput)
    requires s.outcome.Running? && OuterPhase(c, s, u, receipt, stored, wave, v).outcome.Running?
    ensures var t := OuterPhase(c, s, u, receipt, stored, wave, v);
            Traced(s, t) && (t.dag.None? <==> s.dag.None?)
  {
    hide Judge, TurnsExhausted, ReceiptPayload, VerdictPayload, After, AcceptGates.CanAccept, Exhausted, LeavesWork,
         AcceptedLoop, CameThrough;
    var r := OverriddenCommand(receipt, u);
    var s1 := Submitted(s, u, r, stored);
    EndStops(s1);
    var s2 := Continue(s1, OuterReviewing);
    var k := JudgeRuled(c, s2, u, r, wave, v);
    AfterKeeps(k, wave);
    AfterPasses(k, wave);
  }

  lemma AfterKeeps(k: Ruling, wave: seq<Id>)
    requires k.recorded.unit.Some?
    ensures After(k, wave).reviews == k.recorded.reviews && (After(k, wave).dag.None? <==> k.recorded.dag.None?)
  {
    hide AcceptMembers, ReworkMembers;
  }

  /** An inner phase reviews nothing, and stops for good when it stops. */
  ghost predicate ReviewsNothing(s: Loop, g: Phase) {
    && g.s.reviews == s.reviews && (s.dag.Some? ==> g.s.dag == s.dag) && (g.Got? ==> g.s.outcome.Running?)
    && (g.Halted? ==> !g.s.outcome.Running?)
  }

  lemma SingleReviewsNothing(c: Config, s: Loop, existing: Option<WorkUnit>, title: string, instruction: string,
                             input: TurnInput)
    requires s.outcome.Running?
    ensures ReviewsNothing(s, RunSingle(c, s, existing, title, instruction, input))
  {
    hide GoalLoop, UnitPayload, Moved, Exhausted;
  }

  lemma {:induction false} BatchReviewsNothing(c: Config, s: Loop, peers: seq<PeerDraft>, covers: seq<Id>,
                                               b: BatchInput)
    requires s.outcome.Running?
    ensures ReviewsNothing(s, RunPeerBatch(c, s, peers, covers, b))
  {
    hide SeedPeers, Collect, MasterPayload, PairwiseDisjoint, Instructions, Moved;
  }

  lemma PlanReviewsNothing(c: Config, s: Loop, input: TurnInput)
    requires s.outcome.Running? && s.dag.None?
    ensures ReviewsNothing(s, PlanPhase(c, s, input))
  {
    hide RunSingle, RunPeerBatch, AskPlan, Exhausted, ChargeAndTick, Dag.Sorted, NodesOf, AllDrafted, SeedEvents, Moved;
    var asked := AskPlan(input.plans, 3, ECommanderSchema);
    if asked.Ok? {
      var (plan, usage) := asked.value;
      var s1 := s.(ledger := ChargeAndTick(s.ledger, usage, c.commanderIn, c.commanderOut));
      StoppedEarly(s1);
      match plan
      case Peers(peers) => BatchReviewsNothing(c, s1, peers, [], input.batch);
      case Dag(drafts) =>
      case Single(title, instruction) => SingleReviewsNothing(c, s1, s1.unit, title, instruction, input);
    }
  }

  lemma PhaseReviewsNothing(c: Config, s: Loop, input: TurnInput)
    requires s.outcome.Running?
    ensures ReviewsNothing(s, InnerPhase(c, s, input))
  {
    hide RunSingle, RunPeerBatch, PlanPhase, Wave, ReadyUnits, NextReady, AllAccepted, Moved;
    EndStops(s);
    if s.pending.None? && s.dag.Some? {
      var wave, next := Wave(c.matcher, ReadyUnits(s.dag.value)), NextReady(s.dag.value);
      BatchReviewsNothing(c, Waved(s, Ids(wave)), WaveDrafts(wave), Ids(wave), input.batch);
      if next.Some? { SingleReviewsNothing(c, s, next, next.value.title, next.value.instruction, input); }
    } else if s.pending.None? && s.reuse && s.unit.Some? {
      SingleReviewsNothing(c, s.(reuse := false), s.unit, s.unit.value.title, s.unit.value.instruction, input);
    } else if s.dag.None? {
      PlanReviewsNothing(c, s, input);
    }
  }

  /** Any turn, of a new or a resumed run, that goes on after a verdict. And no turn that
      goes on drops the DAG. */
  lemma TurnTraced(c: Config, s: Loop, input: TurnInput)
    requires s.outcome.Running? && Turn(c, s, input).outcome.Running?
    ensures var t := Turn(c, s, input);
            Traced(s, t) && (s.dag.Some? ==> t.dag.Some?)
  {
    hide InnerPhase, OuterPhase, Exhausted, CameThrough;
    StoppedEarly(s);
    PhaseReviewsNothing(c, s, input);
    var g := InnerPhase(c, s, input);
    StoppedEarly(g.s);
    if g.Got? { OuterTraced(c, g.s, g.u, g.receipt, g.stored, g.wave, input.review); }
  }

  // ---- the resume finds the unit and fails ----

  /** The replayed units of a fresh head that has any: one of them is ready. */
  lemma {:induction false} ReplayIsReady(c: Config, t: Loop)
    requires FreshHead(c, t) && (t.dag.Some? || t.unit.Some?)
    ensures NextReady(Replayed(t.ledger.log).units).Some?
  {
    hide View, Replayed, ContextOf, Slots, Below, OrderedLog, Honest, NoWaves, Serial, InWave, Stable, WaveCounted,
         Credited, Recounted, NextReady, AllAccepted;
    var rs := Replayed(t.ledger.log).units;
    if t.dag.Some? {
      HeadRuns(c, t);
      var ds := t.dag.value;
      var d := NextReady(ds).value;
      var e := Found(t.ledger.log, d.id);
      forall id | id in e.dependsOn ensures HasAccepted(rs, id) {
        var x :| x in ds && x.id == id && x.state == UAccepted;
        assert Tracked(t.ledger.log, x);
        var y := Found(t.ledger.log, id);
      }
      assert Ready(e, rs);
    } else {
      var e := Found(t.ledger.log, t.unit.value.id);
      assert Ready(e, rs);
    }
  }

  /** A unit the log tells of is among the replayed ones. */
  lemma {:induction false} Found(log: seq<Event>, id: Id) returns (u: WorkUnit)
    requires View(log, id).Some?
    ensures u in Replayed(log).units && u.id == id && View(log, id) == Some(u)
  {
    hide View, Replayed;
    MirrorsAt(log, id);
    var s := Replayed(log);
    u := s.units[s.byId[id]];
  }

  lemma ResumedHasWork(c: Config, t: Loop, x: Loop)
    requires NextReady(Replayed(t.ledger.log).units).Some? && x.ledger.log == t.ledger.log
    ensures HasWork(c, ResumedLoop(x))
  {
    hide Replayed, NextReady, Wave;
  }

  /** A new run that crashes between the two state changes of any of its reworks, with
      budget left, has work to dispatch when it is resumed from its envelope, and is lost
      whatever it is answered then. */
  lemma {:induction false} CrashInReworkLoses(c: Config, run: Run, first: Id, env: nat -> TurnInput, k: nat,
                                              input: TurnInput)
    requires run.state == Dispatched && k > 0
    requires var s, t := HeadAt(c, run, first, env, k - 1), HeadAt(c, run, first, env, k);
             t.outcome.Running? && RuledBy(s, t, DRework) && !Exhausted(t.ledger.run)
    ensures CameThrough(HeadAt(c, run, first, env, k), Rework)
    ensures var x := ResumedLoop(FoundIn(HeadAt(c, run, first, env, k), Rework));
            && HasWork(c, x)
            && Turn(c, x, input).outcome == Ended(Some(WhyLost(c, x, input)))
            && Turn(c, x, input).ledger.run.state == Failed
  {
    hide FreshHead, Turn, HasWork, WhyLost, Exhausted, Replayed, ResumedDag;
    var s, t := HeadAt(c, run, first, env, k - 1), HeadAt(c, run, first, env, k);
    assert s.outcome.Running? && t == Turn(c, s, env(k - 1));
    EveryHeadIsFresh(c, run, first, env, k);
    TurnTraced(c, s, env(k - 1));
    ReviewedHasUnit(c, t);
    ReplayIsReady(c, t);
    ResumedHasWork(c, t, FoundIn(t, Rework));
    StateIsNotSpent(t.ledger.run);
    ResumeFromReworkFails(c, ResumedLoop(FoundIn(t, Rework)), input);
  }

  lemma StateIsNotSpent(r: Run)
    ensures forall state :: Exhausted(r.(state := state)) == Exhausted(r)
  {}

  lemma ReviewedHasUnit(c: Config, t: Loop)
    requires FreshHead(c, t) && t.reviews != []
    ensures t.dag.Some? || t.unit.Some?
  {}

  /** It happens: every rework of the run in `Forgotten`, from the first on. */
  lemma {:induction false} ReworksToCrashIn(c: Config, k: nat, input: TurnInput)
    requires 1 < k < 99
    ensures var t := HeadAt(c, RUN, 0, RedEnv(), k);
            && CameThrough(t, Rework)
            && var u := Turn(c, ResumedLoop(FoundIn(t, Rework)), input);
               u.outcome == Ended(Some(EDb)) && u.ledger.run.state == Failed
  {
    hide HeadAt, Turn, Round, FreshHead, CountOk, OnlyOwn, NamesOk, Wave, ReadyUnits, NextReady, Replayed, Exhausted,
         Answers, ResumedLoop;
    var s, t := HeadAt(c, RUN, 0, RedEnv(), k - 1), HeadAt(c, RUN, 0, RedEnv(), k);
    Rounds(c, k - 1);
    Rounds(c, k);
    RoundRuns(c, s, k - 2);
    RoundRuns(c, t, k - 1);
    NextHead(c, k);
    NextRound(c, s, k - 2);
    CrashInReworkLoses(c, RUN, 0, RedEnv(), k, input);
    NamesThroughout(c, RUN, 0, RedEnv(), k);
    RoundReplays(c, t, k - 1);
    AloneIsDb(c, t, input);
  }

  lemma AloneIsDb(c: Config, t: Loop, input: TurnInput)
    requires t.ledger.path != [] && ResumedLoop(t).dag.Some?
    requires |Wave(c.matcher, ReadyUnits(ResumedLoop(t).dag.value))| < 2
    ensures WhyLost(c, ResumedLoop(FoundIn(t, Rework)), input) == EDb
  {
    hide Replayed, Wave;
  }
}
