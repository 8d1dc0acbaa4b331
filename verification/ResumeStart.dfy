/** The first turn of a resumed run that has work to dispatch (continue_factory and
    drive_factory in crates/wanax-cli/src/engine.rs): from which states it can go on. */
module ResumeStart {
  import opened Types
  import opened Budget
  import opened Events
  import opened GlobOverlap
  import opened Scheduler
  import opened Drive
  import opened Calm
  import opened Replay

  /** The turn has a unit or a wave to dispatch, and does not ask the commander first. */
  ghost predicate HasWork(c: Config, s: Loop) {
    if s.dag.Some? then |Wave(c.matcher, ReadyUnits(s.dag.value))| >= 2 || NextReady(s.dag.value).Some?
    else s.reuse && s.unit.Some?
  }

  /** A loop that a resume starts with, with nothing left to review and budget left. */
  ghost predicate Resumed(s: Loop) {
    s.outcome.Running? && s.pending.None? && !s.ledger.run.state.IsTerminal() && !Exhausted(s.ledger.run)
  }

  predicate MayDispatch(state: RunState) { state == Dispatched || state == InnerWorking }

  // ---- refused ----

  /** The dispatch is logged, but the run cannot start working. */
  ghost predicate RefusedBy(s: Loop, p: Phase, e: ErrorCode) {
    p.FailedWith? && p.error == e && p.s.ledger.run == s.ledger.run && p.s.outcome.Running?
  }

  lemma SingleRefused(c: Config, s: Loop, existing: Option<WorkUnit>, title: string, instruction: string,
                      input: TurnInput)
    requires Resumed(s) && !MayDispatch(s.ledger.run.state)
    ensures RefusedBy(s, RunSingle(c, s, existing, title, instruction, input), EDb)
  {
    hide UnitPayload, WorkOn, Exhausted;
  }

  lemma {:induction false} BatchRefused(c: Config, s: Loop, peers: seq<PeerDraft>, covers: seq<Id>, b: BatchInput)
    requires Resumed(s) && !MayDispatch(s.ledger.run.state)
    requires |peers| >= 2 && PairwiseDisjoint(c.matcher, DraftGlobs(peers))
    ensures RefusedBy(s, RunPeerBatch(c, s, peers, covers, b), Or(b.boundary, EDb))
  {
    hide MasterPayload, RunPeers, PairwiseDisjoint, NewMaster, Exhausted, DraftGlobs, Instructions;
  }

  lemma WaveIsApart(c: Config, units: seq<WorkUnit>)
    ensures var wave := Wave(c.matcher, ReadyUnits(units)); PairwiseDisjoint(c.matcher, DraftGlobs(WaveDrafts(wave)))
  {
    hide Wave, ReadyUnits, PairwiseDisjoint;
    var wave := Wave(c.matcher, ReadyUnits(units));
    WavePassesRecheck(c.matcher, ReadyUnits(units));
    assert GlobSets(wave) == DraftGlobs(WaveDrafts(wave));
  }

  /** The peers a turn needs answers for. */
  ghost function WaveSize(c: Config, s: Loop): nat {
    if s.dag.Some? then |Wave(c.matcher, ReadyUnits(s.dag.value))| else 0
  }

  /** The error of a lost dispatch: the refused state change, unless a wave fails its
      boundary probes before that. */
  ghost function WhyLost(c: Config, s: Loop, input: TurnInput): ErrorCode {
    if WaveSize(c, s) >= 2 then Or(input.batch.boundary, EDb) else EDb
  }

  lemma PhaseRefused(c: Config, s: Loop, input: TurnInput)
    requires Resumed(s) && HasWork(c, s) && !MayDispatch(s.ledger.run.state)
    ensures RefusedBy(s, InnerPhase(c, s, input), WhyLost(c, s, input))
  {
    hide RunSingle, RunPeerBatch, Wave, ReadyUnits, NextReady, Exhausted, RunState.IsTerminal, MayDispatch,
         PairwiseDisjoint;
    if s.dag.Some? {
      var wave := Wave(c.matcher, ReadyUnits(s.dag.value));
      if |wave| >= 2 {
        WaveIsApart(c, s.dag.value);
        BatchRefused(c, Waved(s, Ids(wave)), WaveDrafts(wave), Ids(wave), input.batch);
      } else {
        var next := NextReady(s.dag.value);
        SingleRefused(c, s, next, next.value.title, next.value.instruction, input);
      }
    } else {
      SingleRefused(c, s.(reuse := false), s.unit, s.unit.value.title, s.unit.value.instruction, input);
    }
  }

  /** Whatever the outside world would have answered, the run is lost. */
  lemma TurnRefused(c: Config, s: Loop, input: TurnInput)
    requires Resumed(s) && HasWork(c, s) && !MayDispatch(s.ledger.run.state)
    ensures var t := Turn(c, s, input);
            t.ledger.run == s.ledger.run.(state := Failed) && t.outcome == Ended(Some(WhyLost(c, s, input)))
  {
    hide InnerPhase, HasWork, Exhausted, WhyLost;
    PhaseRefused(c, s, input);
  }

  // ---- not refused ----

  lemma PhaseDelivers(c: Config, s: Loop, plans: seq<Result<(Plan, Usage), ErrorCode>>, h: Handle)
    requires Resumed(s) && HasWork(c, s) && MayDispatch(s.ledger.run.state) && !h.crashed
    ensures var g := InnerPhase(c, s, Answers(plans, h, WaveSize(c, s)));
            g.Got? && !g.stored && g.receipt.changedFiles == ["f"] && g.s.ledger.run.state == InnerWorking
                && g.s.outcome.Running?
  {
    hide RunSingle, RunPeerBatch, Wave, ReadyUnits, NextReady, Exhausted, NewMaster, PairwiseDisjoint;
    if s.dag.Some? {
      var wave := Wave(c.matcher, ReadyUnits(s.dag.value));
      if |wave| >= 2 {
        WaveIsApart(c, s.dag.value);
        BatchDelivers(c, Waved(s, Ids(wave)), WaveDrafts(wave), Ids(wave), plans, h);
      } else {
        var next := NextReady(s.dag.value);
        SingleDelivers(c, s, next, next.value.title, next.value.instruction, plans, h, |wave|);
      }
    } else {
      SingleDelivers(c, s.(reuse := false), s.unit, s.unit.value.title, s.unit.value.instruction, plans, h, 0);
    }
  }

  /** There are answers that keep the run from failing. */
  lemma TurnSurvives(c: Config, s: Loop)
    requires Resumed(s) && HasWork(c, s) && MayDispatch(s.ledger.run.state)
    ensures Turn(c, s, Answers([], WORKED, WaveSize(c, s))).ledger.run.state != Failed
  {
    hide InnerPhase, OuterPhase, HasWork, Exhausted;
    PhaseDelivers(c, s, [], WORKED);
    var g := InnerPhase(c, s, Answers([], WORKED, WaveSize(c, s)));
    SentBack(c, g.s, g.u, g.receipt, g.wave);
  }

  /** A resumed run with a unit or a wave to dispatch fails on its first turn whatever
      it is answered, if and only if it was found neither dispatched nor working. */
  lemma ResumeFailsExactly(c: Config, s: Loop)
    requires Resumed(s) && HasWork(c, s)
    ensures (forall input :: Turn(c, s, input).ledger.run.state == Failed) <==> !MayDispatch(s.ledger.run.state)
  {
    hide Turn, HasWork, Exhausted, RunState.IsTerminal;
    if MayDispatch(s.ledger.run.state) {
      TurnSurvives(c, s);
    } else {
      forall input ensures Turn(c, s, input).ledger.run.state == Failed { TurnRefused(c, s, input); }
    }
  }

  /** So a crash between the two state changes of a rework loses the run: a single unit,
      a unit of a DAG and a wave alike. */
  lemma ResumeFromReworkFails(c: Config, s: Loop, input: TurnInput)
    requires Resumed(s) && HasWork(c, s) && s.ledger.run.state == Rework
    ensures Turn(c, s, input).outcome == Ended(Some(WhyLost(c, s, input)))
    ensures Turn(c, s, input).ledger.run == s.ledger.run.(state := Failed)
  {
    hide Turn, HasWork, Exhausted;
    TurnRefused(c, s, input);
  }
}
