/** Safety and termination of the drive loop for any commander, workers and tests:
    every state change is legal, the books balance, and the run ends in exactly
    one terminal state. */
module Safety {
  import opened Types
  import opened State
  import opened Accept
  import opened Budget
  import opened Events
  import opened Scheduler
  import opened Drive
  import opened Accounting
  import Dag

  ghost predicate Books(l: Ledger, start: Run) { Historic(l) && Balanced(l, start) }

  /** A loop head from which no state change will ever be refused: a run that
      waits for a review is in a reviewing state, any other is dispatching or
      working, and a DAG in progress has something left to accept. */
  ghost predicate CleanHead(s: Loop) {
    && s.outcome.Running?
    && (if s.pending.Some?
        then s.ledger.run.state == ReceiptReady || s.ledger.run.state == OuterReviewing
        else s.ledger.run.state == Dispatched || s.ledger.run.state == InnerWorking)
    && (s.reuse ==> s.unit.Some? && s.pending.None? && s.dag.None?)
    && (s.dag.Some? ==> !AllAccepted(s.dag.value))
  }

  /** A turn is over: still running at a clean head, or ended for good. */
  ghost predicate CleanAfter(s: Loop) {
    || CleanHead(s)
    || (s.outcome.Ended? && s.ledger.run.state.IsTerminal())
  }

  // ---- ending and moving on ----

  lemma EndIsClean(s: Loop, to: RunState, e: Option<ErrorCode>, start: Run)
    requires Books(s.ledger, start) && CanTransition(s.ledger.run.state, to) && to.IsTerminal()
    requires !s.ledger.run.state.IsTerminal()
    ensures var t := End(s, to, e);
            t.outcome == Ended(e) && t.ledger.run.state == to && Books(t.ledger, start)
            && t == s.(ledger := t.ledger, outcome := Ended(e))
            && t.ledger.log == s.ledger.log && t.ledger.run == s.ledger.run.(state := to)
            && t.ledger.path == s.ledger.path + [to]
  {
    MoveKeeps(s.ledger, to, start);
  }

  lemma ContinueIsClean(s: Loop, to: RunState, start: Run)
    requires Books(s.ledger, start) && CanTransition(s.ledger.run.state, to) && !s.ledger.run.state.IsTerminal()
    ensures var t := Continue(s, to);
            t == s.(ledger := t.ledger) && t.ledger.run == s.ledger.run.(state := to) && Books(t.ledger, start)
            && t.ledger.log == s.ledger.log && t.ledger.path == s.ledger.path + [to]
  {
    MoveKeeps(s.ledger, to, start);
  }

  // ---- the inner phase ----

  /** What a completed inner phase leaves behind. */
  ghost predicate CleanGot(s: Loop, g: Phase, start: Run) {
    && g.Got?
    && g.s == s.(ledger := g.s.ledger, nextId := g.s.nextId, pending := None,
                 waveRework := g.s.waveRework, waveKey := g.s.waveKey)
    && Books(g.s.ledger, start) && g.s.ledger.run.maxTurns == s.ledger.run.maxTurns
    && if g.stored
       then s.pending.Some? && g.s.ledger == s.ledger
       else g.s.ledger.run.state == InnerWorking && s.pending.None?
            && g.s.ledger.run.spentTurns > s.ledger.run.spentTurns
  }

  /** A failed inner phase can still be recorded. */
  ghost predicate CleanFailure(s: Loop, f: Phase, start: Run) {
    f.FailedWith? && f.s.outcome.Running? && Books(f.s.ledger, start) && !f.s.ledger.run.state.IsTerminal()
  }

  ghost predicate CleanInner(s: Loop, p: Phase, start: Run) { CleanGot(s, p, start) || CleanFailure(s, p, start) }

  ghost predicate MayWork(s: Loop) {
    && s.outcome.Running? && s.pending.None? && !Exhausted(s.ledger.run)
    && (s.ledger.run.state == Dispatched || s.ledger.run.state == InnerWorking)
  }

  lemma SingleIsClean(c: Config, s: Loop, existing: Option<WorkUnit>, title: string, instruction: string,
                      input: TurnInput, start: Run)
    requires MayWork(s) && Books(s.ledger, start)
    ensures CleanInner(s, RunSingle(c, s, existing, title, instruction, input), start)
  {
    hide Balanced, Historic, Grew, GoalLoop, UnitPayload;
    var u := if existing.Some? then Redirected(existing.value, title, instruction)
             else NewUnit(s.nextId, title, instruction);
    var s1 := Dispatch(s, u, existing.None?);
    LogHistoric(s.ledger, UnitDispatched(UnitPayload(u)));
    LogBalances(s.ledger, UnitDispatched(UnitPayload(u)), start);
    MoveKeeps(s1.ledger, InnerWorking, start);
    var moved := Moved(s1.ledger, InnerWorking).value;
    GoalLoopGrows(c, moved, input.goal, 0, None, None, start, 0, 0);
    var (worked, _) := GoalLoop(c, moved, input.goal, 0, None, None);
    GrewHistoric(moved, worked, 0, 0);
    GrewTurns(moved, worked, 0, 0);
  }

  lemma LogHistoric(l: Ledger, e: Event)
    ensures Historic(l) ==> Historic(Logged(l, e))
  {}

  lemma BatchIsClean(c: Config, s: Loop, peers: seq<PeerDraft>, covers: seq<Id>, b: BatchInput, start: Run)
    requires MayWork(s) && Books(s.ledger, start)
    ensures CleanInner(s, RunPeerBatch(c, s, peers, covers, b), start)
  {
    hide Balanced, Historic, MasterPayload, RunPeers, NewMaster;
    var master := NewMaster(s.nextId, peers);
    var e := UnitDispatched(MasterPayload(master, covers));
    LogHistoric(s.ledger, e);
    LogBalances(s.ledger, e, start);
    var s1 := s.(ledger := Logged(s.ledger, e), nextId := s.nextId + 1);
    MoveKeeps(s1.ledger, InnerWorking, start);
    var s2 := s1.(ledger := Moved(s1.ledger, InnerWorking).value);
    if |peers| >= 2 {
      PeersAreClean(c, s2, master, peers, covers, b, start);
    }
  }

  lemma PeersAreClean(c: Config, s: Loop, master: WorkUnit, peers: seq<PeerDraft>, covers: seq<Id>, b: BatchInput,
                      start: Run)
    requires MayWork(s) && s.ledger.run.state == InnerWorking && Books(s.ledger, start) && |peers| >= 2
    ensures CleanInner(s, RunPeers(c, s, master, peers, covers, b), start)
  {
    hide Balanced, Historic, Grew, SeedPeers, Collect, Exhausted;
    var n := |peers|;
    var first := s.nextId + n;
    var l1 := SeedPeers(s.ledger, s.nextId, master.id, peers, 0);
    SeedPeersGrows(s.ledger, s.nextId, master.id, peers, 0, start, 0, first);
    OpenBalances(l1, start);
    GrewTwice(s.ledger, l1, Opened(l1), 0, first);
    CollectGrows(c, Opened(l1), b, s.nextId, first, 0, n, start, 0, first);
    var (done, _) := Collect(c, Opened(l1), b, s.nextId, first, 0, n);
    GrewTwice(s.ledger, Opened(l1), done, 0, first);
    GrewHistoric(s.ledger, Opened(l1), 0, first);
    GrewHistoric(s.ledger, done, 0, first);
    GrewTurns(s.ledger, Opened(l1), 0, first);
    GrewTurns(s.ledger, done, 0, first);
    TurnsRemain(s.ledger.run);
  }

  lemma TurnsRemain(r: Run)
    requires !Exhausted(r)
    ensures r.spentTurns < r.maxTurns
  {}

  /** Seeding a DAG: unfinished, and nothing spent. */
  ghost predicate CleanSeed(s: Loop, p: Phase, start: Run) {
    && p.Again?
    && p.s == s.(ledger := p.s.ledger, dag := p.s.dag, nextId := p.s.nextId)
    && p.s.ledger == s.ledger.(log := p.s.ledger.log)
    && p.s.dag.Some? && !AllAccepted(p.s.dag.value)
    && Books(p.s.ledger, start)
  }

  lemma {:induction false} SeedEventsBalance(l: Ledger, units: seq<WorkUnit>, start: Run)
    requires Books(l, start)
    ensures Books(l.(log := l.log + SeedEvents(units)), start)
    decreases |units|
  {
    hide Balanced, Historic, UnitPayload;
    if units == [] {
      assert l.log + SeedEvents(units) == l.log;
    } else {
      var e := UnitSeeded(UnitPayload(units[0]));
      LogHistoric(l, e);
      LogBalances(l, e, start);
      SeedEventsBalance(Logged(l, e), units[1..], start);
      assert l.log + SeedEvents(units) == Logged(l, e).log + SeedEvents(units[1..]);
    }
  }

  lemma SeedIsClean(s: Loop, drafts: seq<DagDraft>, start: Run)
    requires MayWork(s) && Books(s.ledger, start) && drafts != []
    ensures var p := SeedDag(s, drafts); CleanFailure(s, p, start) || CleanSeed(s, p, start)
  {
    hide Dag.Sorted, Books, SeedEvents;
    var nodes := NodesOf(drafts);
    Dag.SortedExactly(nodes);
    var sorted := Dag.Sorted(nodes);
    if sorted.Ok? && AllDrafted(drafts, sorted.value) {
      var units := SeededUnits(drafts, sorted.value, s.nextId);
      SeedEventsBalance(s.ledger, units, start);
      assert units[0] in units && units[0].state == UQueued;
    }
  }

  lemma PlanIsClean(c: Config, s: Loop, input: TurnInput, start: Run)
    requires MayWork(s) && Books(s.ledger, start)
    ensures var p := PlanPhase(c, s, input);
            || CleanInner(s, p, start)
            || (p.Again? && CleanSeed(s.(ledger := p.s.ledger), p, start)
                && p.s.ledger.run == s.ledger.run.(spentUsd := p.s.ledger.run.spentUsd))
            || (p.Halted? && p.s.outcome.Ended? && p.s.ledger.run.state.IsTerminal() && Books(p.s.ledger, start))
  {
    hide Balanced, Historic, ChargeAndTick, RunSingle, RunPeerBatch, SeedDag, Exhausted, AskPlan;
    var asked := AskPlan(input.plans, 3, ECommanderSchema);
    PlanIsNonempty(input.plans, 3, ECommanderSchema);
    if asked.Ok? {
      var (plan, usage) := asked.value;
      var l1 := ChargeAndTick(s.ledger, usage, c.commanderIn, c.commanderOut);
      var s1 := s.(ledger := l1);
      ChargeGrows(s.ledger, usage, c.commanderIn, c.commanderOut, start, 0, 0);
      GrewHistoric(s.ledger, l1, 0, 0);
      GrewTurns(s.ledger, l1, 0, 0);
      if Exhausted(l1.run) {
        EndIsClean(s1, BudgetExhausted, Some(EBudget), start);
      } else {
        match plan
        case Peers(peers) => BatchIsClean(c, s1, peers, [], input.batch, start);
        case Dag(drafts) => SeedIsClean(s1, drafts, start);
        case Single(title, instruction) => SingleIsClean(c, s1, s1.unit, title, instruction, input, start);
      }
    }
  }

  lemma {:induction false} PlanIsNonempty(attempts: seq<Result<(Plan, Usage), ErrorCode>>, left: nat, last: ErrorCode)
    ensures var a := AskPlan(attempts, left, last); a.Ok? ==> !EmptyPlan(a.value.0)
    decreases left
  {
    if left > 0 && attempts != [] {
      PlanIsNonempty(attempts[1..], left - 1, ECommanderSchema);
      if attempts[0].Err? { PlanIsNonempty(attempts[1..], left - 1, attempts[0].error); }
    }
  }

  lemma DagIsClean(c: Config, s: Loop, units: seq<WorkUnit>, input: TurnInput, start: Run)
    requires MayWork(s) && Books(s.ledger, start) && !AllAccepted(units)
    ensures CleanInner(s, DagPhase(c, s, units, input), start)
  {
    hide Balanced, Historic, RunSingle, RunPeerBatch, Exhausted, Wave;
    var wave := Wave(c.matcher, ReadyUnits(units));
    if |wave| >= 2 {
      BatchIsClean(c, Waved(s, Ids(wave)), WaveDrafts(wave), Ids(wave), input.batch, start);
    } else if NextReady(units).Some? {
      var next := NextReady(units);
      SingleIsClean(c, s, next, next.value.title, next.value.instruction, input, start);
    }
  }

  /** The inner phase from any clean head. */
  lemma InnerIsClean(c: Config, s: Loop, input: TurnInput, start: Run)
    requires CleanHead(s) && Books(s.ledger, start) && !Exhausted(s.ledger.run)
    ensures var p := InnerPhase(c, s, input);
            || CleanInner(s.(reuse := false), p, start)
            || (p.Again? && s.pending.None? && s.dag.None? && CleanHead(p.s) && p.s.pending.None? && p.s.dag.Some?
                && Books(p.s.ledger, start)
                && p.s.ledger.run.spentTurns == s.ledger.run.spentTurns
                   && p.s.ledger.run.maxTurns == s.ledger.run.maxTurns)
            || (p.Halted? && p.s.outcome.Ended? && p.s.ledger.run.state.IsTerminal() && Books(p.s.ledger, start))
  {
    hide Balanced, Historic, RunSingle, DagPhase, PlanPhase, Exhausted;
    if s.pending.Some? {
    } else if s.dag.Some? {
      DagIsClean(c, s, s.dag.value, input, start);
    } else if s.reuse {
      SingleIsClean(c, s.(reuse := false), s.unit, s.unit.value.title, s.unit.value.instruction, input, start);
    } else {
      PlanIsClean(c, s, input, start);
    }
  }

  // ---- the outer phase ----

  lemma RecordedKeeps(s: Loop, unitId: Id, covers: seq<Id>, gates: AcceptGates, d: Decision, start: Run)
    requires s.unit.Some? && Books(s.ledger, start)
    ensures Books(Recorded(s, unitId, covers, gates, d).ledger, start)
  {
    LogBalances(s.ledger, Verdict(VerdictPayload(unitId, d)), start);
  }

  lemma {:induction false} ReworkKeepsOpen(units: seq<WorkUnit>, wave: seq<Id>)
    ensures AllAccepted(ReworkMembers(units, wave)) == AllAccepted(units)
  {
    var out := ReworkMembers(units, wave);
    if AllAccepted(units) {
      forall u | u in out ensures u.state == UAccepted {
        var i :| 0 <= i < |out| && out[i] == u;
        assert units[i] in units;
      }
    } else {
      var u :| u in units && u.state != UAccepted;
      var i :| 0 <= i < |units| && units[i] == u;
      assert out[i] in out;
    }
  }

  /** What a decision may do to a loop. */
  ghost predicate DecidedCleanly(s: Loop, t: Loop, start: Run) {
    && CleanAfter(t) && Books(t.ledger, start)
    && t.ledger.run.spentTurns == s.ledger.run.spentTurns && t.ledger.run.maxTurns == s.ledger.run.maxTurns
    && (CleanHead(t) ==> t.pending.None?)
  }

  /** A loop whose verdict is recorded. */
  ghost predicate Recording(s: Loop, start: Run) {
    && s.unit.Some? && s.outcome.Running? && s.pending.None? && !s.reuse
    && s.ledger.run.state == OuterReviewing && Books(s.ledger, start)
    && (s.dag.Some? ==> !AllAccepted(s.dag.value))
  }

  lemma EndDecides(s: Loop, s1: Loop, to: RunState, e: Option<ErrorCode>, start: Run)
    requires Recording(s, start) && s1.ledger == s.ledger && to.IsTerminal() && CanTransition(OuterReviewing, to)
    ensures DecidedCleanly(s, End(s1, to, e), start)
  {
    hide Balanced, Historic, AllAccepted;
    EndIsClean(s1, to, e, start);
  }

  lemma AcceptIsClean(s: Loop, gates: AcceptGates, r: Receipt, wave: seq<Id>, start: Run)
    requires Recording(s, start)
    ensures DecidedCleanly(s, OnAccept(s, gates, r, wave), start)
  {
    hide Balanced, Historic, AcceptMembers, AllAccepted, AcceptGates.CanAccept, End;
    if gates.CanAccept() {
      var s1 := AcceptedLoop(s, r, wave);
      if s1.dag.Some? && !AllAccepted(s1.dag.value) {
        ContinueIsClean(s1, Dispatched, start);
      } else {
        EndDecides(s, s1, Accepted, None, start);
      }
    } else {
      EndDecides(s, s, Failed, Some(EDb), start);
    }
  }

  lemma ReworkIsClean(s: Loop, wave: seq<Id>, start: Run)
    requires Recording(s, start)
    ensures DecidedCleanly(s, OnRework(s, wave), start)
  {
    hide Balanced, Historic, ReworkMembers, AllAccepted, End;
    if wave != [] && s.waveRework + 1 > MAX_REWORK {
      EndDecides(s, s.(waveRework := s.waveRework + 1), Escalate, Some(EReworkLimit), start);
    } else if s.unit.value.rework + 1 > MAX_REWORK {
      EndDecides(s, ReworkedLoop(s, wave).(unit := Some(s.unit.value.(rework := s.unit.value.rework + 1))),
                 Escalate, Some(EReworkLimit), start);
    } else {
      var s1 := ReworkedLoop(s, wave);
      ContinueIsClean(s1, Rework, start);
      ContinueIsClean(Continue(s1, Rework), Dispatched, start);
      if s.dag.Some? { ReworkKeepsOpen(s.dag.value, wave); }
    }
  }

  lemma DecisionIsClean(s: Loop, d: Decision, gates: AcceptGates, r: Receipt, wave: seq<Id>, start: Run)
    requires Recording(s, start)
    ensures DecidedCleanly(s, Decided(s, d, gates, r, wave), start)
  {
    hide OnAccept, OnRework, End, DecidedCleanly, Recording;
    match d
    case DAccept => AcceptIsClean(s, gates, r, wave, start);
    case DReject => EndDecides(s, s, Rejected, Some(if gates.boundaryOk then ERejected else EBoundary), start);
    case DEscalate => EndDecides(s, s, Escalate, Some(EEscalated), start);
    case DRework => ReworkIsClean(s, wave, start);
  }

  lemma JudgementIsClean(c: Config, s: Loop, u: WorkUnit, r: Receipt, wave: seq<Id>, v: ReviewInput, start: Run)
    requires s.unit.Some? && s.outcome.Running? && s.pending.None? && !s.reuse
    requires s.ledger.run.state == OuterReviewing && Books(s.ledger, start)
    requires s.dag.Some? ==> !AllAccepted(s.dag.value)
    ensures var t := Judge(c, s, u, r, wave, v);
            CleanAfter(t) && Books(t.ledger, start)
            && t.ledger.run.spentTurns == s.ledger.run.spentTurns && t.ledger.run.maxTurns == s.ledger.run.maxTurns
            && (CleanHead(t) ==> t.pending.None?)
  {
    hide Balanced, Historic, ChargeAndTick, Proposal, Enforced, GatesOf, Decided, CleanHead, Exhausted, VerdictPayload;
    if v.plugin.Err? {
      EndIsClean(s, Failed, Some(v.plugin.error), start);
      EndedIsClean(FailRun(s, v.plugin.error));
    } else {
      var gates := GatesOf(c, s, u, r, v.plugin.value, v);
      var proposal := Proposal(gates, v);
      if proposal.Err? {
        EndIsClean(s, Failed, Some(proposal.error), start);
        EndedIsClean(FailRun(s, proposal.error));
      } else {
        var (proposed, usage) := proposal.value;
        var l1 := ChargeAndTick(s.ledger, usage, c.commanderIn, c.commanderOut);
        var charged := s.(ledger := l1);
        ChargeGrows(s.ledger, usage, c.commanderIn, c.commanderOut, start, 0, 0);
        GrewHistoric(s.ledger, l1, 0, 0);
        GrewTurns(s.ledger, l1, 0, 0);
        var (d, note) := Enforced(proposed, gates);
        if note == Some(EBudget) || (d == DAccept && Exhausted(l1.run)) {
          EndIsClean(charged, BudgetExhausted, Some(EBudget), start);
          EndedIsClean(FailBudget(charged));
        } else {
          RecordedKeeps(charged, u.id, wave, gates, d, start);
          DecisionIsClean(Recorded(charged, u.id, wave, gates, d), d, gates, r, wave, start);
        }
      }
    }
  }

  lemma EndedIsClean(s: Loop)
    requires s.outcome.Ended? && s.ledger.run.state.IsTerminal()
    ensures CleanAfter(s) && !CleanHead(s)
  {}

  lemma OuterIsClean(c: Config, s: Loop, u: WorkUnit, receipt: Receipt, stored: bool, wave: seq<Id>, v: ReviewInput,
                     start: Run)
    requires s.outcome.Running? && s.pending.None? && !s.reuse && Books(s.ledger, start)
    requires if stored then s.ledger.run.state == ReceiptReady || s.ledger.run.state == OuterReviewing
             else s.ledger.run.state == InnerWorking
    requires s.dag.Some? ==> !AllAccepted(s.dag.value)
    ensures var t := OuterPhase(c, s, u, receipt, stored, wave, v);
            CleanAfter(t) && Books(t.ledger, start)
            && t.ledger.run.spentTurns == s.ledger.run.spentTurns && t.ledger.run.maxTurns == s.ledger.run.maxTurns
            && (CleanHead(t) ==> t.pending.None?)
  {
    hide Balanced, Historic, Judge, CleanHead, ReceiptPayload, TurnsExhausted;
    var r := OverriddenCommand(receipt, u);
    if !stored {
      var e := ReceiptSubmitted(ReceiptPayload(r, u.id));
      LogHistoric(s.ledger, e);
      LogBalances(s.ledger, e, start);
      var s0 := s.(unit := Some(u.(receiptId := Some(r.id), commit := Some(r.commit), state := UReceiptReady)),
                   ledger := Logged(s.ledger, e));
      ContinueIsClean(s0, ReceiptReady, start);
    }
    var s1 := Submitted(s, u, r, stored);
    if TurnsExhausted(s1.ledger.run) && r.changedFiles == [] {
      EndIsClean(s1, BudgetExhausted, Some(EBudget), start);
      EndedIsClean(FailBudget(s1));
    } else {
      ContinueIsClean(s1, OuterReviewing, start);
      JudgementIsClean(c, Continue(s1, OuterReviewing), u, r, wave, v, start);
    }
  }

  // ---- one turn ----

  function TurnsLeft(r: Run): nat { if r.spentTurns < r.maxTurns then r.maxTurns - r.spentTurns else 0 }

  /** Unspent turns first, then the review left over from before a resume, then
      the seeding that happens at most once. */
  ghost predicate Smaller(t: Loop, s: Loop) {
    || TurnsLeft(t.ledger.run) < TurnsLeft(s.ledger.run)
    || (TurnsLeft(t.ledger.run) == TurnsLeft(s.ledger.run) && s.pending.Some? && t.pending.None?)
    || (TurnsLeft(t.ledger.run) == TurnsLeft(s.ledger.run) && s.pending.None? && t.pending.None? && s.dag.None?
        && t.dag.Some?)
  }

  lemma TurnIsClean(c: Config, s: Loop, input: TurnInput, start: Run)
    requires CleanHead(s) && Books(s.ledger, start)
    ensures var t := Turn(c, s, input);
            CleanAfter(t) && Books(t.ledger, start) && (CleanHead(t) ==> Smaller(t, s) && t.pending.None?)
  {
    hide Balanced, Historic, InnerPhase, OuterPhase, Exhausted;
    if Exhausted(s.ledger.run) {
      EndIsClean(s, BudgetExhausted, Some(EBudget), start);
    } else {
      InnerIsClean(c, s, input, start);
      NotExhausted(s.ledger.run);
      var p := InnerPhase(c, s, input);
      match p
      case Got(g, u, receipt, stored, wave) =>
        OuterIsClean(c, g, u, receipt, stored, wave, input.review, start);
      case FailedWith(f, e) => EndIsClean(f, Failed, Some(e), start);
      case Halted(_) =>
      case Again(_) =>
    }
  }

  lemma NotExhausted(r: Run)
    requires !Exhausted(r)
    ensures TurnsLeft(r) > 0
  {}

  // ---- the whole run ----

  /** The run from a clean head: turn after turn, answered by `env`, to its end.
      That this is a total function is the termination of the loop. */
  ghost function RunToEnd(c: Config, s: Loop, env: nat -> TurnInput, k: nat, start: Run): Loop
    requires CleanHead(s) && Books(s.ledger, start)
    decreases TurnsLeft(s.ledger.run), s.pending.Some?, s.dag.None?
  {
    TurnIsClean(c, s, env(k), start);
    var t := Turn(c, s, env(k));
    if t.outcome.Running? then RunToEnd(c, t, env, k + 1, start) else t
  }

  predicate EndsOnce(path: seq<RunState>) {
    && path != [] && path[|path| - 1].IsTerminal()
    && forall i :: 0 <= i < |path| - 1 ==> !path[i].IsTerminal()
  }

  /** A finished run: one terminal state, reached by legal changes from the state
      it started in, with every charge accounted for in the total and the ticks. */
  ghost predicate FinishedWell(t: Loop, start: Run) {
    && t.outcome.Ended? && t.ledger.run.state.IsTerminal()
    && EndsOnce(t.ledger.path) && LegalPath(t.ledger.path)
    && t.ledger.path[0] == start.state && t.ledger.path[|t.ledger.path| - 1] == t.ledger.run.state
    && t.ledger.run.spentUsd == SatSum(start.spentUsd, t.ledger.charges)
    && TickTotals(t.ledger.log) == RunningTotals(start.spentUsd, t.ledger.charges)
    && BurstsOk(t.ledger)
  }

  lemma EndedIsFinished(t: Loop, start: Run)
    requires t.outcome.Ended? && t.ledger.run.state.IsTerminal() && Books(t.ledger, start)
    ensures FinishedWell(t, start)
  {}

  /** Every run from a clean head ends well. */
  lemma {:induction false} EveryRunEnds(c: Config, s: Loop, env: nat -> TurnInput, k: nat, start: Run)
    requires CleanHead(s) && Books(s.ledger, start)
    ensures FinishedWell(RunToEnd(c, s, env, k, start), start)
    decreases TurnsLeft(s.ledger.run), s.pending.Some?, s.dag.None?
  {
    hide Turn, FinishedWell;
    TurnIsClean(c, s, env(k), start);
    var t := Turn(c, s, env(k));
    if t.outcome.Running? { EveryRunEnds(c, t, env, k + 1, start); } else { EndedIsFinished(t, start); }
  }

  /** A run as it enters the loop: nothing charged or called yet, and no tick in
      the envelope. */
  ghost predicate Entry(s: Loop) {
    && s.ledger.path == [s.ledger.run.state] && s.ledger.charges == [] && s.ledger.bursts == []
    && TickTotals(s.ledger.log) == []
  }

  lemma EntryBalances(s: Loop)
    requires Entry(s)
    ensures Books(s.ledger, s.ledger.run)
  {}

  lemma NoneReady(units: seq<WorkUnit>)
    requires AllAccepted(units)
    ensures ReadyUnits(units) == [] && NextReady(units).None?
  {
    var ready := ReadyUnits(units);
    if ready != [] { AcceptedIsNotReady(units, ready[0]); }
  }

  lemma AcceptedIsNotReady(units: seq<WorkUnit>, u: WorkUnit)
    requires AllAccepted(units)
    ensures u in units ==> !Ready(u, units)
  {}

  /** A run resumed with every unit of its DAG accepted already finishes at once if it
      was under review; from any other live state the change is refused. */
  lemma ResumeAllAcceptedExactly(c: Config, s: Loop, input: TurnInput)
    requires s.outcome.Running? && !s.ledger.run.state.IsTerminal() && !Exhausted(s.ledger.run)
    requires s.pending.None? && s.dag.Some? && AllAccepted(s.dag.value)
    ensures Turn(c, s, input).outcome == (if s.ledger.run.state == OuterReviewing then Ended(None) else Refused)
    ensures Turn(c, s, input).ledger.run.state == Accepted <==> s.ledger.run.state == OuterReviewing
  {
    hide RunSingle, RunPeerBatch, AllAccepted;
    NoneReady(s.dag.value);
  }
}
