/** A run found under review after its verdict was logged and before its state changed
    (continue_factory in crates/wanax-cli/src/engine.rs): what is still pending then, and
    what the resume does about it. */
module ResumeReview {
  import opened Types
  import opened Accept
  import opened Budget
  import opened Events
  import opened Drive
  import opened Replay
  import opened Chronicle
  import opened Passes
  import opened FreshRun
  import opened Turns
  import opened WholeRun
  import opened Heads
  import opened Resume
  import opened ResumeStart
  import opened ResumeTurn
  import opened Pending
  import opened Crash
  import opened ResumeSingle
  import opened Accounting
  import opened Calm
  import opened Instances
  import opened Forgotten

  // ---- what a run found under review still has to review ----

  /** The receipts table, by receipt id. */
  type Store = map<Id, Receipt>

  /** The last unit, if the table has its receipt. */
  function LastReceipt(rs: seq<WorkUnit>, store: Store): Option<(WorkUnit, Receipt)> {
    if rs == [] then None
    else
      var u := rs[|rs| - 1];
      if u.receiptId.Some? && u.receiptId.value in store then Some((u, store[u.receiptId.value])) else None
  }

  /** The pending unit of the envelope, with its receipt from the table or made up from
      the envelope; else the last unit with its receipt. */
  function Owed(log: seq<Event>, store: Store, made: Id -> Receipt): Option<(WorkUnit, Receipt)> {
    var snap := EnvelopeSnapshot(log);
    if snap.None? then None
    else
      var (s, pending) := snap.value;
      if pending.Some? && SlotOf(s, pending.value.0).Some? then
        var (id, receipt) := pending.value;
        Some((SlotOf(s, id).value, if receipt in store then store[receipt] else made(id)))
      else LastReceipt(s.units, store)
  }

  /** The loop a resume starts with when the run is found under review. */
  function ResumedReview(s: Loop, store: Store, made: Id -> Receipt): Loop {
    var owed := Owed(s.ledger.log, store, made);
    if owed.None? then ResumedLoop(s) else ResumedLoop(s).(pending := owed, reuse := false)
  }

  // ---- the verdict is in the envelope ----

  /** Nobody waits for a verdict: what is left is the last unit's receipt. */
  lemma {:induction false} NothingPending(log: seq<Event>, store: Store, made: Id -> Receipt)
    requires Settled(log)
    ensures Owed(log, store, made)
            == if Replayed(log).sawUnits then LastReceipt(Replayed(log).units, store) else None
  {
    hide View, Replayed;
    var s := Replayed(log);
    forall i | 0 <= i < |s.units| ensures s.units[i].state != UReceiptReady {
      MirrorsAt(log, s.units[i].id);
      SlotIs(log, i);
    }
    NoneWaits(s, |s.units|);
  }

  lemma {:induction false} NoneWaits(s: Snapshot, n: nat)
    requires n <= |s.units| && forall i :: 0 <= i < |s.units| ==> s.units[i].state != UReceiptReady
    ensures PendingFrom(s, n) == None
    decreases n
  {
    if n > 0 { NoneWaits(s, n - 1); }
  }

  // ---- an accept, and more to do ----

  /** A run without batches that crashes after accepting a unit of its DAG and before it
      is dispatched again, and whose last unit has no receipt yet, is lost as well. */
  lemma {:induction false} CrashAfterAcceptLoses(c: Config, run: Run, first: Id, env: nat -> TurnInput, k: nat,
                                                 store: Store, made: Id -> Receipt, input: TurnInput)
    requires run.state == Dispatched && k > 0
    requires var s, t := HeadAt(c, run, first, env, k - 1), HeadAt(c, run, first, env, k);
             && t.outcome.Running? && RuledBy(s, t, DAccept) && !Exhausted(t.ledger.run) && Batchless(t.ledger.log)
             && LastReceipt(Replayed(t.ledger.log).units, store).None?
    ensures CameThrough(HeadAt(c, run, first, env, k), OuterReviewing)
    ensures var x := ResumedReview(FoundIn(HeadAt(c, run, first, env, k), OuterReviewing), store, made);
            && HasWork(c, x)
            && Turn(c, x, input).outcome == Ended(Some(WhyLost(c, x, input)))
            && Turn(c, x, input).ledger.run.state == Failed
  {
    hide FreshHead, Turn, HasWork, WhyLost, Exhausted, Replayed, ResumedDag, Settled, Batchless, Owed, LastReceipt;
    var s, t := HeadAt(c, run, first, env, k - 1), HeadAt(c, run, first, env, k);
    assert s.outcome.Running? && t == Turn(c, s, env(k - 1));
    SettledThroughout(c, run, first, env, k);
    TurnTraced(c, s, env(k - 1));
    ReviewedHasUnit(c, t);
    ReplayIsReady(c, t);
    ResumedHasWork(c, t, FoundIn(t, OuterReviewing));
    StateIsNotSpent(t.ledger.run);
    NothingPending(t.ledger.log, store, made);
    TurnRefused(c, ResumedLoop(FoundIn(t, OuterReviewing)), input);
  }

  // ---- a rework, judged a second time ----

  /** The loop when the verdict that sent its work back was in the envelope, and the run
      still under review. */
  function AtVerdict(t: Loop): Loop
    requires |t.ledger.path| >= 2
  {
    FoundIn(FoundIn(t, Rework), OuterReviewing)
  }

  /** A turn that starts with a stored receipt and goes on logs a tick and a verdict on it. */
  lemma StoredIsJudged(c: Config, r: Loop, u: WorkUnit, receipt: Receipt, input: TurnInput)
    returns (tick: BudgetTick, d: Decision)
    requires r.outcome.Running? && r.pending == Some((u, receipt)) && r.ledger.run.state == OuterReviewing
    requires r.dag.None? && Turn(c, r, input).outcome.Running?
    ensures var t := Turn(c, r, input);
            && d == DRework && t.ledger.log == r.ledger.log + [Tick(tick), Verdict(VerdictPayload(u.id, d))]
            && t.unit.Some? && t.unit.value.rework == u.rework + 1 && t.unit.value.receiptId == u.receiptId
  {
    hide Judge, VerdictPayload, After, AcceptGates.CanAccept, Exhausted, AcceptMembers, TurnsExhausted;
    StoppedEarly(r);
    var s, k0 := r.(pending := None), OverriddenCommand(receipt, u);
    var s2 := Continue(Submitted(s, u, k0, true), OuterReviewing);
    EndStops(s);
    EndStops(Submitted(s, u, k0, true));
    var k := JudgeRuled(c, s2, u, k0, [], input.review);
    tick, d := k.tick, k.decision;
    AfterLog(k, []);
    ReworkedUnit(k);
  }

  lemma {:induction false} UnitsAreSeen(log: seq<Event>)
    ensures Replayed(log).units != [] ==> Replayed(log).sawUnits
  {
    hide View, Replayed;
    MirrorsAt(log, 0);
  }

  lemma MirroredParts(v: WorkUnit, u: WorkUnit)
    requires Mirrored(v, u)
    ensures v.id == u.id && v.rework == u.rework && v.receiptId == u.receiptId
  {}

  lemma ReworkedUnit(k: Ruling)
    requires k.recorded.unit.Some?
    ensures k.decision.DRework? ==>
              After(k, []).unit == Some(k.recorded.unit.value.(rework := k.recorded.unit.value.rework + 1,
                                                               state := UQueued))
  {}

  /** A new run without a DAG and without batches that crashes after logging a rework
      verdict and before its state changed: the resume finds nothing pending, takes the
      unit's last receipt, the one just judged, and has it judged again, with the first
      verdict counted already. */
  lemma {:induction false} JudgedTwice(c: Config, run: Run, first: Id, env: nat -> TurnInput, k: nat, store: Store,
                                       made: Id -> Receipt, input: TurnInput)
    returns (tick: BudgetTick)
    requires run.state == Dispatched && k > 0
    requires var s, t := HeadAt(c, run, first, env, k - 1), HeadAt(c, run, first, env, k);
             && t.outcome.Running? && RuledBy(s, t, DRework) && t.dag.None? && Batchless(t.ledger.log)
             && t.unit.Some? && t.unit.value.receiptId.Some? && t.unit.value.receiptId.value in store
    ensures var t := HeadAt(c, run, first, env, k);
            && CameThrough(t, Rework) && FromReview(t)
            && var u, r := t.unit.value, ResumedReview(AtVerdict(t), store, made);
               && r.pending.Some? && Mirrored(r.pending.value.0, u) && r.pending.value.1 == store[u.receiptId.value]
               && var w := Turn(c, r, input);
                  w.outcome.Running? ==>
                    && w.ledger.log == t.ledger.log + [Tick(tick), Verdict(VerdictPayload(u.id, DRework))]
                    && w.unit.Some? && w.unit.value.rework == u.rework + 1 && w.unit.value.receiptId == u.receiptId
  {
    hide FreshHead, Turn, Exhausted, Replayed, Settled, Batchless, NamesOk, AloneOk, Mirrored, EnvelopeSnapshot, Owed;
    var s, t := HeadAt(c, run, first, env, k - 1), HeadAt(c, run, first, env, k);
    assert s.outcome.Running? && t == Turn(c, s, env(k - 1));
    SettledThroughout(c, run, first, env, k);
    AloneThroughout(c, run, first, env, k);
    TurnTraced(c, s, env(k - 1));
    NothingPending(t.ledger.log, store, made);
    ResumesAlone(c, t);
    UnitsAreSeen(t.ledger.log);
    var r, v := ResumedReview(AtVerdict(t), store, made), ResumedLoop(t).unit.value;
    MirroredParts(v, t.unit.value);
    tick := TickOf(run, false);
    if Turn(c, r, input).outcome.Running? {
      var d;
      tick, d := StoredIsJudged(c, r, v, store[v.receiptId.value], input);
    }
  }

  // ---- and it happens ----

  const PLAN_SINGLE := Answers([Ok((Single("title", "do it"), FREE))], WORKED, 0)

  ghost function SingleEnv(): nat -> TurnInput { _ => PLAN_SINGLE }

  /** One unit is planned, worked on and sent back. */
  lemma {:induction false} FirstAttempt(c: Config)
    ensures var s, t := Fresh(RUN, 0), Turn(c, Fresh(RUN, 0), PLAN_SINGLE);
            && t.outcome.Running? && RuledBy(s, t, DRework) && t.dag.None? && Batchless(t.ledger.log)
            && t.unit.Some? && t.unit.value.rework == 1 && t.unit.value.receiptId.Some?
            && t.ledger.run == RUN.(spentTurns := 1)
  {
    hide RunSingle, OuterPhase, Performed, Ruled, After, LeavesWork, AcceptedLoop, UnitPayload, QuietlyExtends;
    var plans := [Ok((Single("title", "do it"), FREE))];
    var s1, u := Planned(c), NewUnit(0, "title", "do it");
    FreeCostsNothing(c, Fresh(RUN, 0).ledger);
    var g := RunSingle(c, s1, None, "title", "do it", PLAN_SINGLE);
    assert PlanPhase(c, Fresh(RUN, 0), PLAN_SINGLE) == g;
    SingleDelivers(c, s1, None, "title", "do it", plans, WORKED, 0);
    AttemptSpends(c, s1, None, "title", "do it", plans);
    SentBack(c, g.s, u, g.receipt, []);
    SingleWorked(c, s1, None, "title", "do it", PLAN_SINGLE);
    SingleTicks(c, s1, None, "title", "do it", PLAN_SINGLE);
    var k := OuterRuled(c, g.s, u, g.receipt, [], FAILED_TESTS);
    SingleNeverAccepts(g.s, u, [], k);
    RuledShape(g.s, u, [], k);
    RuledLog(g.s, u, [], k);
    AfterRework(k, g.s, u, []);
    StaysBatchless(s1.ledger.log, u, g.s.ledger.log, ReceiptPayload(k.receipt, u.id), Tick(k.tick),
                   VerdictPayload(u.id, k.decision));
  }

  lemma {:induction false} StaysBatchless(log: seq<Event>, u: WorkUnit, worked: seq<Event>, r: Payload, tick: Event,
                                          v: Payload)
    requires Batchless(log) && tick.Tick? && QuietlyExtends(log + [UnitDispatched(UnitPayload(u))], worked, 0, 0)
    ensures Batchless(worked + [ReceiptSubmitted(r), tick, Verdict(v)])
  {
    var a := log + [UnitDispatched(UnitPayload(u))];
    QuietDispatches(a, worked, 0, 0);
    forall e | e in worked + [ReceiptSubmitted(r), tick, Verdict(v)] && e.UnitDispatched? ensures e.p.covers.None? {
      assert e in worked && e in a;
      assert e in log || e == UnitDispatched(UnitPayload(u));
    }
  }

  lemma StoredIsSentBack(c: Config, r: Loop, u: WorkUnit, receipt: Receipt, input: TurnInput)
    requires r.outcome.Running? && r.pending == Some((u, receipt)) && r.ledger.run.state == OuterReviewing
    requires !Exhausted(r.ledger.run) && input.review == FAILED_TESTS
    requires u.rework < MAX_REWORK && r.waveRework < MAX_REWORK
    ensures Turn(c, r, input).outcome.Running?
  {
    hide Judge;
    var s, k0 := r.(pending := None), OverriddenCommand(receipt, u);
    JudgedBack(c, Continue(Submitted(s, u, k0, true), OuterReviewing), u, k0, []);
  }

  /** The one attempt of this run ends up counted as two reworks, with two verdicts on its
      one receipt. */
  lemma {:induction false} OneAttemptCountsTwice(c: Config, receipt: Receipt, made: Id -> Receipt)
    returns (store: Store, tick: BudgetTick)
    ensures var t := HeadAt(c, RUN, 0, SingleEnv(), 1);
            && t.outcome.Running? && t.unit.Some? && t.unit.value.rework == 1 && |t.ledger.path| >= 2
            && var w := Turn(c, ResumedReview(AtVerdict(t), store, made), PLAN_SINGLE);
               && w.outcome.Running? && w.unit.Some? && w.unit.value.rework == 2
               && w.unit.value.receiptId == t.unit.value.receiptId
               && w.ledger.log == t.ledger.log + [Tick(tick), Verdict(VerdictPayload(t.unit.value.id, DRework))]
  {
    hide Turn, Batchless, Mirrored, Owed, Replayed;
    var env := SingleEnv();
    var t := HeadAt(c, RUN, 0, env, 1);
    assert HeadAt(c, RUN, 0, env, 0) == Fresh(RUN, 0) && t == Turn(c, Fresh(RUN, 0), PLAN_SINGLE);
    FirstAttempt(c);
    store := map[t.unit.value.receiptId.value := receipt];
    tick := JudgedTwice(c, RUN, 0, env, 1, store, made, PLAN_SINGLE);
    var r := ResumedReview(AtVerdict(t), store, made);
    MirroredParts(r.pending.value.0, t.unit.value);
    StoredIsSentBack(c, r, r.pending.value.0, receipt, PLAN_SINGLE);
  }
}
