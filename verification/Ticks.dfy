/** When the budget ticks of a run never decrease (charge_and_tick in
    crates/wanax-cli/src/engine.rs, estimate_cost_micros in
    crates/wanax-core/src/money.rs). */
module Ticks {
  import opened Types
  import opened Budget
  import opened Events
  import opened Drive
  import opened Accounting
  import opened Safety
  import Money
  import Accept
  import Scheduler

  // ---- the ticks of a run ----

  /** The ticks in the envelope of a finished run never decrease if and only if every
      charge after the first was non-negative, or found the total at the bottom of the
      range. */
  lemma {:induction false} TicksGrowExactly(c: Config, s: Loop, env: nat -> TurnInput, k: nat, start: Run)
    requires CleanHead(s) && Books(s.ledger, start)
    ensures var l := RunToEnd(c, s, env, k, start).ledger;
            NeverDecreases(TickTotals(l.log)) <==>
            forall i :: 1 <= i < |l.charges| ==> l.charges[i] >= 0 || SatSum(start.spentUsd, l.charges[..i]) == I64_MIN
  {
    hide RunToEnd, CleanHead, Books, TickTotals, RunningTotals, NeverDecreases;
    EveryRunEnds(c, s, env, k, start);
    TotalsGrowExactly(start.spentUsd, RunToEnd(c, s, env, k, start).ledger.charges);
  }

  // ---- which answers make a charge non-negative ----

  /** A reported cost is not negative; and one that has to be estimated fits 64 bits. */
  predicate FairUsage(u: Usage, rateIn: I64, rateOut: I64) {
    if u.usdMicros.Some? then u.usdMicros.value >= 0
    else
      var (i, o, _) := ChargeUnitsOf(u);
      rateIn >= 0 && rateOut >= 0 && Money.EstimateFits(i, o, rateIn, rateOut)
  }

  lemma FairCost(u: Usage, rateIn: I64, rateOut: I64)
    requires FairUsage(u, rateIn, rateOut)
    ensures CostOf(u, rateIn, rateOut).0 >= 0
  {
    if u.usdMicros.None? {
      var (i, o, _) := ChargeUnitsOf(u);
      Money.SideCostSplit(i, 0, rateIn);
      Money.SideCostSplit(o, 0, rateOut);
    }
  }

  /** Positive rates alone are not enough: the estimate of a large enough call wraps to
      a negative cost. */
  lemma LargeCallCostsLess()
    ensures CostOf(Usage(None, Some(U64_MAX), Some(0), 0, 0), 1_000_000, 1_000_000) == (-1, false)
  {}

  ghost predicate FairHandle(c: Config, h: Handle) { FairUsage(HandleUsage(h), c.innerIn, c.innerOut) }

  ghost predicate FairPass(c: Config, p: GoalPass) {
    && (p.adapter.Ok? ==> FairHandle(c, p.adapter.value))
    && (p.review.Some? ==> FairUsage(p.review.value, c.innerIn, c.innerOut))
  }

  ghost predicate FairInput(c: Config, input: TurnInput) {
    && (forall a :: a in input.plans && a.Ok? ==> FairUsage(a.value.1, c.commanderIn, c.commanderOut))
    && (forall p :: p in input.goal ==> FairPass(c, p))
    && (forall p :: p in input.batch.peers && p.adapter.Ok? ==> FairHandle(c, p.adapter.value))
    && (forall v :: v in input.review.verdicts && v.Ok? ==> FairUsage(v.value.1, c.commanderIn, c.commanderOut))
    && FairUsage(input.review.mechanicalUsage, c.commanderIn, c.commanderOut)
  }

  predicate Fair(l: Ledger) { forall x :: x in l.charges ==> x >= 0 }

  // ---- fair answers, fair charges ----

  lemma FairCharge(l: Ledger, u: Usage, rateIn: I64, rateOut: I64)
    requires Fair(l) && FairUsage(u, rateIn, rateOut)
    ensures Fair(ChargeAndTick(l, u, rateIn, rateOut))
  {
    hide FairUsage, CostOf;
    FairCost(u, rateIn, rateOut);
  }

  lemma FairBooking(c: Config, l: Ledger, h: Handle)
    requires Fair(l) && FairHandle(c, h) && l.bursts != []
    ensures Fair(ChargeHandle(c, Booked(l, h), h))
  {
    hide ChargeAndTick, FairUsage;
    if !(h.costUsd.None? && h.usageIn.None? && h.usageOut.None?) {
      FairCharge(Booked(l, h), HandleUsage(h), c.innerIn, c.innerOut);
    }
  }

  lemma {:induction false} FairGoal(c: Config, l: Ledger, passes: GoalPasses, i: nat, last: Option<Handle>,
                                    prev: Option<seq<string>>)
    requires Fair(l) && forall p :: p in passes ==> FairPass(c, p)
    ensures Fair(GoalLoop(c, l, passes, i, last, prev).0)
    decreases MAX_GOAL_ITERS - i
  {
    hide ChargeAndTick, ChargeHandle, FairUsage, FairHandle, Exhausted;
    if i < MAX_GOAL_ITERS && !Exhausted(l.run) && passes[i].before.Ok? && passes[i].adapter.Ok? {
      var p := passes[i];
      assert p in passes && FairPass(c, p);
      var worked := Worked(c, l, p.adapter.value);
      FairBooking(c, Opened(l), p.adapter.value);
      if !p.adapter.value.crashed && p.test.Ok? && p.changed.Ok? {
        var reviewed := Reviewing(c, worked, p.review);
        if p.review.Some? { FairCharge(worked, p.review.value, c.innerIn, c.innerOut); }
        FairGoal(c, reviewed, passes, i + 1, Some(p.adapter.value.(testExit := p.test.value)), Some(p.changed.value));
      }
    }
  }

  lemma MoveCharges(s: Loop)
    ensures forall to, e :: End(s, to, e).ledger.charges == s.ledger.charges
    ensures forall to :: Continue(s, to).ledger.charges == s.ledger.charges
  {}

  lemma {:induction false} FairSingle(c: Config, s: Loop, existing: Option<WorkUnit>, title: string,
                                      instruction: string, input: TurnInput)
    requires Fair(s.ledger) && FairInput(c, input)
    ensures Fair(RunSingle(c, s, existing, title, instruction, input).s.ledger)
  {
    hide GoalLoop, UnitPayload, FairPass, FairUsage, FairHandle, Exhausted;
    var u := if existing.Some? then Redirected(existing.value, title, instruction)
             else NewUnit(s.nextId, title, instruction);
    var moved := Moved(Dispatch(s, u, existing.None?).ledger, InnerWorking);
    if moved.Some? { FairGoal(c, moved.value, input.goal, 0, None, None); }
  }

  lemma {:induction false} SeedsAreFree(l: Ledger, first: Id, master: Id, peers: seq<PeerDraft>, idx: nat)
    requires idx <= |peers|
    ensures SeedPeers(l, first, master, peers, idx).charges == l.charges
    decreases |peers| - idx
  {
    hide UnitPayload;
    if idx < |peers| {
      var u := NewPeer(first + idx, idx, master, peers[idx]);
      SeedsAreFree(Logged(l, UnitSeeded(UnitPayload(u))), first, master, peers, idx + 1);
    }
  }

  lemma {:induction false} FairCollect(c: Config, l: Ledger, b: BatchInput, first: Id, receipts: Id, i: nat, n: nat)
    requires i <= n && l.bursts != [] && Fair(l)
    requires forall p :: p in b.peers && p.adapter.Ok? ==> FairHandle(c, p.adapter.value)
    ensures Fair(Collect(c, l, b, first, receipts, i, n).0)
    decreases n - i
  {
    hide ChargeHandle, ReceiptPayload, FairHandle;
    if i < n && PeerAt(b, i).adapter.Ok? {
      var p := PeerAt(b, i);
      assert p in b.peers;
      FairBooking(c, l, p.adapter.value);
      BookedOpen(c, l, p.adapter.value);
      if p.committed.Ok? {
        var worked := ChargeHandle(c, Booked(l, p.adapter.value), p.adapter.value);
        var r := PeerReceipt(c, receipts + i, first + i, p.adapter.value, p.committed.value);
        FairCollect(c, Logged(worked, ReceiptSubmitted(ReceiptPayload(r, first + i))), b, first, receipts, i + 1, n);
      }
    }
  }

  lemma BookedOpen(c: Config, l: Ledger, h: Handle)
    requires l.bursts != []
    ensures ChargeHandle(c, Booked(l, h), h).bursts != []
  {
    hide CostOf;
  }

  lemma {:induction false} FairBatch(c: Config, s: Loop, peers: seq<PeerDraft>, covers: seq<Id>, b: BatchInput)
    requires Fair(s.ledger) && forall p :: p in b.peers && p.adapter.Ok? ==> FairHandle(c, p.adapter.value)
    ensures Fair(RunPeerBatch(c, s, peers, covers, b).s.ledger)
  {
    hide Collect, SeedPeers, MasterPayload, FairHandle, Instructions;
    var n := |peers|;
    var master := NewMaster(s.nextId, peers);
    var s1 := s.(ledger := Logged(s.ledger, UnitDispatched(MasterPayload(master, covers))), nextId := s.nextId + 1);
    var moved := Moved(s1.ledger, InnerWorking);
    if n >= 2 && moved.Some? {
      SeedsAreFree(moved.value, s1.nextId, master.id, peers, 0);
      var seeded := Opened(SeedPeers(moved.value, s1.nextId, master.id, peers, 0));
      FairCollect(c, seeded, b, s1.nextId, s1.nextId + n, 0, n);
    }
  }

  lemma {:induction false} PlanIsAsked(attempts: seq<Result<(Plan, Usage), ErrorCode>>, left: nat, last: ErrorCode)
    ensures var a := AskPlan(attempts, left, last); a.Ok? ==> a in attempts
  {
    if left > 0 && attempts != [] {
      assert attempts[0] in attempts && forall a :: a in attempts[1..] ==> a in attempts;
      PlanIsAsked(attempts[1..], left - 1, ECommanderSchema);
      if attempts[0].Err? { PlanIsAsked(attempts[1..], left - 1, attempts[0].error); }
    }
  }

  lemma {:induction false} VerdictIsAsked(attempts: seq<Result<(Decision, Usage), ErrorCode>>, left: nat,
                                          last: ErrorCode)
    ensures var a := AskVerdict(attempts, left, last); a.Ok? ==> a in attempts
  {
    if left > 0 && attempts != [] {
      assert attempts[0] in attempts && forall a :: a in attempts[1..] ==> a in attempts;
      if attempts[0].Err? { VerdictIsAsked(attempts[1..], left - 1, attempts[0].error); }
    }
  }

  lemma {:induction false} FairPlan(c: Config, s: Loop, input: TurnInput)
    requires Fair(s.ledger) && FairInput(c, input)
    ensures Fair(PlanPhase(c, s, input).s.ledger)
  {
    hide RunSingle, RunPeerBatch, AskPlan, ChargeAndTick, FairPass, FairUsage, FairHandle, Exhausted, End, Fair;
    var asked := AskPlan(input.plans, 3, ECommanderSchema);
    PlanIsAsked(input.plans, 3, ECommanderSchema);
    if asked.Ok? {
      var (plan, usage) := asked.value;
      var s1 := s.(ledger := ChargeAndTick(s.ledger, usage, c.commanderIn, c.commanderOut));
      FairCharge(s.ledger, usage, c.commanderIn, c.commanderOut);
      EndIsFair(s1);
      match plan
      case Peers(peers) => FairBatch(c, s1, peers, [], input.batch);
      case Dag(drafts) => SeedingIsFree(s1, drafts);
      case Single(title, instruction) => FairSingle(c, s1, s1.unit, title, instruction, input);
    }
  }

  lemma EndIsFair(s: Loop)
    requires Fair(s.ledger)
    ensures forall to, e :: Fair(End(s, to, e).ledger)
  {
    MoveCharges(s);
  }

  lemma SeedingIsFree(s: Loop, drafts: seq<DagDraft>)
    requires Fair(s.ledger)
    ensures Fair(SeedDag(s, drafts).s.ledger)
  {}

  lemma {:induction false} FairInner(c: Config, s: Loop, input: TurnInput)
    requires Fair(s.ledger) && FairInput(c, input)
    ensures Fair(InnerPhase(c, s, input).s.ledger)
  {
    hide RunSingle, RunPeerBatch, PlanPhase, FairPass, FairUsage, FairHandle, End, Fair;
    if s.pending.Some? {
    } else if s.dag.Some? {
      var units := s.dag.value;
      var wave := Scheduler.Wave(c.matcher, Scheduler.ReadyUnits(units));
      EndIsFair(s);
      if |wave| >= 2 {
        FairBatch(c, Waved(s, Ids(wave)), WaveDrafts(wave), Ids(wave), input.batch);
      } else if Scheduler.NextReady(units).Some? {
        var next := Scheduler.NextReady(units);
        FairSingle(c, s, next, next.value.title, next.value.instruction, input);
      }
    } else if s.reuse && s.unit.Some? {
      FairSingle(c, s.(reuse := false), s.unit, s.unit.value.title, s.unit.value.instruction, input);
    } else {
      FairPlan(c, s, input);
    }
  }

  lemma DecisionIsFree(s: Loop, d: Decision, gates: Accept.AcceptGates, r: Receipt, wave: seq<Id>)
    requires s.unit.Some?
    ensures Decided(s, d, gates, r, wave).ledger.charges == s.ledger.charges
  {
    hide AcceptMembers, ReworkMembers, Scheduler.AllAccepted;
  }

  lemma {:induction false} FairJudge(c: Config, s: Loop, u: WorkUnit, r: Receipt, wave: seq<Id>, input: TurnInput)
    requires Fair(s.ledger) && FairInput(c, input) && s.unit.Some?
    ensures Fair(Judge(c, s, u, r, wave, input.review).ledger)
  {
    hide AskVerdict, ChargeAndTick, Accept.Enforced, Decided, FairPass, FairUsage, FairHandle, Exhausted, End,
         VerdictPayload;
    var v := input.review;
    EndIsFair(s);
    VerdictIsAsked(v.verdicts, 3, ECommanderSchema);
    if v.plugin.Ok? {
      var gates := GatesOf(c, s, u, r, v.plugin.value, v);
      var proposal := Proposal(gates, v);
      if proposal.Ok? {
        var (proposed, usage) := proposal.value;
        FairCharge(s.ledger, usage, c.commanderIn, c.commanderOut);
        var charged := s.(ledger := ChargeAndTick(s.ledger, usage, c.commanderIn, c.commanderOut));
        EndIsFair(charged);
        var d := Accept.Enforced(proposed, gates).0;
        DecisionIsFree(Recorded(charged, u.id, wave, gates, d), d, gates, r, wave);
      }
    }
  }

  lemma {:induction false} FairTurn(c: Config, s: Loop, input: TurnInput)
    requires Fair(s.ledger) && FairInput(c, input) && s.outcome.Running?
    ensures Fair(Turn(c, s, input).ledger)
  {
    hide InnerPhase, Judge, FairInput, Exhausted, ReceiptPayload;
    MoveCharges(s);
    FairInner(c, s, input);
    var p := InnerPhase(c, s, input);
    MoveCharges(p.s);
    if p.Got? {
      var r := OverriddenCommand(p.receipt, p.u);
      var s1 := Submitted(p.s, p.u, r, p.stored);
      MoveCharges(s1);
      FairJudge(c, Continue(s1, OuterReviewing), p.u, r, p.wave, input);
    }
  }

  lemma {:induction false} FairRun(c: Config, s: Loop, env: nat -> TurnInput, k: nat, start: Run)
    requires CleanHead(s) && Books(s.ledger, start) && Fair(s.ledger) && forall j :: FairInput(c, env(j))
    ensures Fair(RunToEnd(c, s, env, k, start).ledger)
    decreases TurnsLeft(s.ledger.run), s.pending.Some?, s.dag.None?
  {
    hide Turn, Fair, FairInput, Books;
    assert FairInput(c, env(k));
    FairTurn(c, s, env(k));
    TurnIsClean(c, s, env(k), start);
    var t := Turn(c, s, env(k));
    if t.outcome.Running? { FairRun(c, t, env, k + 1, start); }
  }

  /** So the ticks of a run never decrease if no usage reports a negative cost, the
      rates are not negative and every estimate fits. */
  lemma {:induction false} FairTicksGrow(c: Config, s: Loop, env: nat -> TurnInput, k: nat, start: Run)
    requires CleanHead(s) && Books(s.ledger, start) && Fair(s.ledger) && forall j :: FairInput(c, env(j))
    ensures NeverDecreases(TickTotals(RunToEnd(c, s, env, k, start).ledger.log))
  {
    hide RunToEnd, CleanHead, Books, TickTotals, NeverDecreases, FairInput;
    FairRun(c, s, env, k, start);
    TicksGrowExactly(c, s, env, k, start);
    var l := RunToEnd(c, s, env, k, start).ledger;
    assert forall i :: 1 <= i < |l.charges| ==> l.charges[i] in l.charges;
  }
}
