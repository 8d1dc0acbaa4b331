/** What every outer review comes to, as a table over what it saw (the second half of a
    turn of drive_factory in crates/wanax-cli/src/engine.rs). */
module Fate {
  import opened Types
  import opened State
  import opened Accept
  import opened Budget
  import opened Events
  import opened Scheduler
  import opened Drive
  import opened Asking

  datatype Ending =
    | GoesOn
    | Stops(state: RunState, error: Option<ErrorCode>)

  /** The test command the receipt has to show. */
  function Required(c: Config, u: WorkUnit): string {
    if u.testCommand.Some? then u.testCommand.value else c.testCommand
  }

  /** Everything the mechanical gates look at is in order. */
  predicate InOrder(c: Config, s: Loop, u: WorkUnit, r: Receipt, v: ReviewInput) {
    && v.outerCode == 0 && v.boundaryOk && v.secretsOk && v.boundOk && v.mustHaveOk && v.plugin == Ok(true)
    && v.descendant && r.changedFiles != [] && r.testCommand == Required(c, u)
    && s.ledger.run.spentUsd < s.ledger.run.maxUsd && s.ledger.run.spentTurns < s.ledger.run.maxTurns
    && ReworkSoFar(s) <= MAX_REWORK
  }

  function BackOrUp(s: Loop): Ending {
    if ReworkSoFar(s) < MAX_REWORK then GoesOn else Stops(Escalate, Some(EEscalated))
  }

  const BROKE := Stops(BudgetExhausted, Some(EBudget))
  const NO := Stops(Rejected, Some(ERejected))

  /** Something is not in order: the commander is not asked. */
  function OutOfOrder(c: Config, s: Loop, u: WorkUnit, r: Receipt, v: ReviewInput): Ending {
    if v.outerCode != 0 then BackOrUp(s)
    else if !v.boundaryOk then Stops(Rejected, Some(EBoundary))
    else if v.changed == [] then NO
    else if s.ledger.run.spentUsd >= s.ledger.run.maxUsd || s.ledger.run.spentTurns >= s.ledger.run.maxTurns then BROKE
    else if !v.secretsOk || r.changedFiles == [] || r.testCommand != Required(c, u) || !v.descendant then NO
    else BackOrUp(s)
  }

  /** All is in order, and this is the commander's verdict. */
  function Judged(s: Loop, d: Decision, broke: bool, open: bool): Ending {
    match d
    case DAccept => if broke then BROKE else if open then GoesOn else Stops(Accepted, None)
    case DReject => NO
    case DEscalate => Stops(Escalate, Some(EEscalated))
    case DRework => BackOrUp(s)
  }

  predicate Meets(t: Loop, e: Ending) {
    match e
    case GoesOn => t.outcome.Running? && t.ledger.run.state == Dispatched
    case Stops(state, error) => t.outcome == Ended(error) && t.ledger.run.state == state
  }

  /** Something besides the unit under review and its wave is left to accept. */
  ghost predicate MoreToDo(s: Loop, wave: seq<Id>) {
    s.dag.Some? && exists d :: d in s.dag.value && d.state != UAccepted && d.id !in wave
                               && (s.unit.Some? ==> d.id != s.unit.value.id)
  }

  // ---- proofs ----

  lemma ChargingKeeps(c: Config, l: Ledger, u: Usage)
    ensures ChargeAndTick(l, u, c.commanderIn, c.commanderOut).run.state == l.run.state
  {
    hide CostOf;
  }

  lemma GatesInOrder(c: Config, s: Loop, u: WorkUnit, r: Receipt, v: ReviewInput)
    requires v.plugin.Ok?
    ensures GatesOf(c, s, u, r, v.plugin.value, v).CanAccept() <==> InOrder(c, s, u, r, v)
  {}

  /** A verdict that is not an accept. */
  lemma DecidedMeets(s: Loop, d: Decision, gates: AcceptGates, r: Receipt, wave: seq<Id>)
    requires s.outcome.Running? && s.ledger.run.state == OuterReviewing && s.unit.Some? && d != DAccept
    requires d == DRework ==> ReworkSoFar(s) < MAX_REWORK
    ensures Meets(Decided(s, d, gates, r, wave),
                  match d
                  case DReject => Stops(Rejected, Some(if gates.boundaryOk then ERejected else EBoundary))
                  case DEscalate => Stops(Escalate, Some(EEscalated))
                  case _ => GoesOn)
  {
    hide ReworkMembers;
  }

  lemma EndMeets(s: Loop, to: RunState, e: Option<ErrorCode>)
    requires CanTransition(s.ledger.run.state, to)
    ensures Meets(End(s, to, e), Stops(to, e))
  {}

  lemma {:induction false} AcceptMeets(s: Loop, gates: AcceptGates, r: Receipt, wave: seq<Id>)
    requires s.outcome.Running? && s.ledger.run.state == OuterReviewing && s.unit.Some? && gates.CanAccept()
    ensures Meets(Decided(s, DAccept, gates, r, wave),
                  if MoreToDo(s, wave) then GoesOn else Stops(Accepted, None))
  {
    hide AcceptGates.CanAccept, AcceptMembers;
    if s.dag.Some? { LeftOpen(s, r, wave); }
  }

  /** What is left to accept once the unit and its wave are accepted. */
  lemma {:induction false} LeftOpen(s: Loop, r: Receipt, wave: seq<Id>)
    requires s.unit.Some? && s.dag.Some?
    ensures AllAccepted(AcceptMembers(s.dag.value, s.unit.value.(state := UAccepted), wave, r)) <==> !MoreToDo(s, wave)
  {
    var ds, es := s.dag.value, AcceptMembers(s.dag.value, s.unit.value.(state := UAccepted), wave, r);
    if MoreToDo(s, wave) {
      var d :| d in ds && d.state != UAccepted && d.id !in wave && d.id != s.unit.value.id;
      var i :| 0 <= i < |ds| && ds[i] == d;
      assert es[i] in es;
    } else {
      forall e | e in es ensures e.state == UAccepted {
        var i :| 0 <= i < |es| && es[i] == e;
        assert ds[i] in ds;
      }
    }
  }

  /** The mechanical verdict, where something is not in order. */
  lemma {:induction false} MechanicalMeets(c: Config, s: Loop, u: WorkUnit, r: Receipt, wave: seq<Id>, v: ReviewInput)
    requires s.outcome.Running? && s.ledger.run.state == OuterReviewing && s.unit.Some?
    requires v.plugin.Ok? && !InOrder(c, s, u, r, v)
    ensures Meets(Judge(c, s, u, r, wave, v), OutOfOrder(c, s, u, r, v))
  {
    hide CostOf, VerdictPayload, Enforced, Decided, ChargeAndTick, AcceptGates.CanAccept, ReworkSoFar;
    GatesInOrder(c, s, u, r, v);
    var gates := GatesOf(c, s, u, r, v.plugin.value, v);
    var proposed := MechanicalDecision(v.outerCode, v.boundaryOk, v.changed);
    var charged := s.(ledger := ChargeAndTick(s.ledger, v.mechanicalUsage, c.commanderIn, c.commanderOut));
    ChargingKeeps(c, s.ledger, v.mechanicalUsage);
    EnforcedRules(proposed, gates);
    AcceptIffGates(proposed, gates);
    var d := Enforced(proposed, gates).0;
    var x := Recorded(charged, u.id, wave, gates, d);
    SameCount(s, x);
    if d != DAccept { DecidedMeets(x, d, gates, r, wave); }
    EndMeets(charged, BudgetExhausted, Some(EBudget));
  }

  lemma SameCount(s: Loop, x: Loop)
    requires s.unit.Some? && x.unit.Some? && x.unit.value.rework == s.unit.value.rework && x.waveRework == s.waveRework
    ensures ReworkSoFar(x) == ReworkSoFar(s)
  {}

  /** The commander's verdict, where all is in order. */
  lemma {:induction false} CommanderMeets(c: Config, s: Loop, u: WorkUnit, r: Receipt, wave: seq<Id>, v: ReviewInput,
                                          d: Decision, usage: Usage)
    requires s.outcome.Running? && s.ledger.run.state == OuterReviewing && s.unit.Some?
    requires InOrder(c, s, u, r, v) && AskVerdict(v.verdicts, 3, ECommanderSchema) == Ok((d, usage))
    ensures var broke := Exhausted(ChargeAndTick(s.ledger, usage, c.commanderIn, c.commanderOut).run);
            Meets(Judge(c, s, u, r, wave, v), Judged(s, d, broke, MoreToDo(s, wave)))
  {
    hide CostOf, VerdictPayload, Enforced, Decided, ChargeAndTick, AcceptGates.CanAccept, Required, ReworkSoFar,
         AskVerdict, MoreToDo, Exhausted;
    GatesInOrder(c, s, u, r, v);
    var gates := GatesOf(c, s, u, r, true, v);
    var charged := s.(ledger := ChargeAndTick(s.ledger, usage, c.commanderIn, c.commanderOut));
    ChargingKeeps(c, s.ledger, usage);
    AcceptIffGates(d, gates);
    EnforcedRules(d, gates);
    var e := Enforced(d, gates).0;
    var x := Recorded(charged, u.id, wave, gates, e);
    SameCount(s, x);
    SameLeft(s, x, wave);
    if e == DAccept { AcceptMeets(x, gates, r, wave); } else { DecidedMeets(x, e, gates, r, wave); }
    EndMeets(charged, BudgetExhausted, Some(EBudget));
  }

  lemma SameLeft(s: Loop, x: Loop, wave: seq<Id>)
    requires s.unit.Some? && x.unit.Some? && x.unit.value.id == s.unit.value.id && x.dag == s.dag
    ensures MoreToDo(x, wave) == MoreToDo(s, wave)
  {}

  /** Every review, from any state of the loop: a failed plugin or a commander that gives
      no verdict fails the run; what is not in order is judged by the table without asking
      the commander; and where all is, the first verdict of three that can be used decides. */
  lemma {:induction false} ReviewExactly(c: Config, s: Loop, u: WorkUnit, r: Receipt, wave: seq<Id>, v: ReviewInput,
                                         i: nat)
    requires s.outcome.Running? && s.ledger.run.state == OuterReviewing && s.unit.Some?
    requires Counts(v.verdicts, NoVerdict, 3, i) || NoneCounts(v.verdicts, NoVerdict, 3)
    ensures var t := Judge(c, s, u, r, wave, v);
            if v.plugin.Err? then Meets(t, Stops(Failed, Some(v.plugin.error)))
            else if !InOrder(c, s, u, r, v) then Meets(t, OutOfOrder(c, s, u, r, v))
            else if NoneCounts(v.verdicts, NoVerdict, 3) then Meets(t, Stops(Failed, Some(ECommanderSchema)))
            else match v.verdicts[i]
              case Err(e) => Meets(t, Stops(Failed, Some(e)))
              case Ok((d, usage)) =>
                var broke := Exhausted(ChargeAndTick(s.ledger, usage, c.commanderIn, c.commanderOut).run);
                Meets(t, Judged(s, d, broke, MoreToDo(s, wave)))
  {
    hide CostOf, VerdictPayload, Enforced, Decided, ChargeAndTick, AcceptGates.CanAccept, AskVerdict, MoreToDo,
         Exhausted, InOrder, OutOfOrder, Judged;
    VerdictIsFirst(v.verdicts, 3);
    if v.plugin.Err? {
      EndMeets(s, Failed, Some(v.plugin.error));
    } else if !InOrder(c, s, u, r, v) {
      MechanicalMeets(c, s, u, r, wave, v);
    } else {
      GatesInOrder(c, s, u, r, v);
      var answer := AskVerdict(v.verdicts, 3, ECommanderSchema);
      if answer.Err? {
        EndMeets(s, Failed, Some(answer.error));
      } else {
        CommanderMeets(c, s, u, r, wave, v, answer.value.0, answer.value.1);
      }
    }
  }

  // ---- before the review ----

  /** A run without budget ends before anything is asked, dispatched or logged. */
  lemma BudgetStops(c: Config, s: Loop, input: TurnInput)
    requires s.outcome.Running? && !s.ledger.run.state.IsTerminal()
    requires s.ledger.run.spentUsd >= s.ledger.run.maxUsd || s.ledger.run.spentTurns >= s.ledger.run.maxTurns
    ensures var t := Turn(c, s, input);
            && Meets(t, BROKE) && t.ledger.log == s.ledger.log && t.ledger.charges == s.ledger.charges
            && t == s.(ledger := t.ledger, outcome := t.outcome)
  {}

  /** A DAG of which no unit may start and some unit is not accepted fails the run, with
      nothing asked, dispatched or charged. */
  lemma {:induction false} StuckFails(c: Config, s: Loop, input: TurnInput, k: nat)
    requires s.outcome.Running? && !s.ledger.run.state.IsTerminal() && !Exhausted(s.ledger.run)
    requires s.pending.None? && s.dag.Some? && k < |s.dag.value| && s.dag.value[k].state != UAccepted
    requires forall u :: u in s.dag.value ==> !MayStart(u, s.dag.value)
    ensures var t := Turn(c, s, input);
            && Meets(t, Stops(Failed, Some(EDagCycle))) && t.ledger.log == s.ledger.log
            && t.ledger.charges == s.ledger.charges && t == s.(ledger := t.ledger, outcome := t.outcome)
  {
    hide RunSingle, RunPeerBatch, MayStart, Ready;
    NobodyStarts(s.dag.value);
  }

  lemma {:induction false} NobodyStarts(units: seq<WorkUnit>)
    requires forall u :: u in units ==> !MayStart(u, units)
    ensures ReadyUnits(units) == []
  {
    hide MayStart, Ready;
    var ready := ReadyUnits(units);
    if ready != [] {
      assert ready[0] in ready;
      ReadyExactly(units, ready[0]);
    }
  }

  /** The receipt as it is logged and judged: with the unit's own test command, if it has
      one. */
  predicate Corrected(r: Receipt, receipt: Receipt, u: WorkUnit) {
    && r.testCommand == (if u.testCommand.Some? then u.testCommand.value else receipt.testCommand)
    && r.id == receipt.id && r.unitId == receipt.unitId && r.changedFiles == receipt.changedFiles
    && r.commit == receipt.commit && r.exitCode == receipt.exitCode && r.claimedPass == receipt.claimedPass
  }

  predicate AnnouncesReceipt(e: Event, r: Receipt, u: Id) {
    && e.ReceiptSubmitted? && e.p.workUnitId == Some(u) && e.p.receiptId == Some(r.id) && e.p.commit == Some(r.commit)
    && e.p.changed == Some(r.changedFiles) && e.p.exitCode == Some(r.exitCode) && e.p.claimed == Some(r.claimedPass)
  }

  /** A new receipt is logged and recorded on its unit. With all turns spent and nothing
      changed the run ends there; else it is reviewed. */
  lemma {:induction false} OuterExactly(c: Config, s: Loop, u: WorkUnit, receipt: Receipt, wave: seq<Id>,
                                        v: ReviewInput) returns (x: Loop, r: Receipt)
    requires s.outcome.Running? && s.ledger.run.state == InnerWorking
    ensures Corrected(r, receipt, u)
    ensures && x == s.(ledger := x.ledger, unit := x.unit) && x.unit.Some?
            && x.unit.value == u.(receiptId := Some(r.id), commit := Some(r.commit), state := UReceiptReady)
            && x.ledger.run == s.ledger.run.(state := OuterReviewing) && x.ledger.charges == s.ledger.charges
            && |x.ledger.log| == |s.ledger.log| + 1 && x.ledger.log[..|s.ledger.log|] == s.ledger.log
            && AnnouncesReceipt(x.ledger.log[|s.ledger.log|], r, u.id)
    ensures var t := OuterPhase(c, s, u, receipt, false, wave, v);
            if s.ledger.run.spentTurns >= s.ledger.run.maxTurns && receipt.changedFiles == [] then
              Meets(t, BROKE) && t.ledger.log == x.ledger.log && t.reviews == s.reviews
            else t == Judge(c, x, u, r, wave, v)
  {
    hide Judge;
    r := OverriddenCommand(receipt, u);
    var s1 := Submitted(s, u, r, false);
    x := Continue(s1, OuterReviewing);
  }
}
