/** What a leaked secret, or a file out of bounds, does to a run (the outer review of
    drive_factory in crates/wanax-cli/src/engine.rs). */
module Refused {
  import opened Types
  import opened State
  import opened Accept
  import opened Budget
  import opened Events
  import opened Scheduler
  import opened Drive
  import opened Passes
  import opened Turns
  import opened Crash
  import opened Replay
  import opened Chronicle

  /** The review saw a secret in the diff, or a file out of bounds. */
  predicate Breached(v: ReviewInput) { !v.boundaryOk || !v.secretsOk }

  /** The mechanical commander would accept: nothing but a secret is wrong so far. */
  predicate LooksFine(v: ReviewInput) { v.outerCode == 0 && v.boundaryOk && v.changed != [] }

  /** How the review of a breach ends: sent back only for a red test, else rejected, or
      stopped where there is no budget left to reject a leak in. */
  ghost predicate BreachEnds(s: Loop, v: ReviewInput, t: Loop) {
    var over := ReworkSoFar(s) >= MAX_REWORK;
    if v.outerCode != 0 then
      if over then t.outcome == Ended(Some(EEscalated)) && t.ledger.run.state == Escalate
      else t.outcome.Running? && t.ledger.run.state == Dispatched
    else if LooksFine(v) && Exhausted(s.ledger.run) then
      t.outcome == Ended(Some(EBudget)) && t.ledger.run.state == BudgetExhausted
    else
      && t.outcome == Ended(Some(if v.boundaryOk then ERejected else EBoundary))
      && t.ledger.run.state == Rejected
  }

  /** For any state of the loop under review. */
  lemma BreachIsRefused(c: Config, s: Loop, u: WorkUnit, r: Receipt, wave: seq<Id>, v: ReviewInput)
    requires s.outcome.Running? && s.ledger.run.state == OuterReviewing && s.unit.Some?
    requires Breached(v) && v.plugin.Ok?
    ensures BreachEnds(s, v, Judge(c, s, u, r, wave, v))
  {
    hide CostOf, Exhausted, VerdictPayload, Enforced, Decided, ChargeAndTick;
    var gates := GatesOf(c, s, u, r, v.plugin.value, v);
    assert !gates.CanAccept();
    var proposed := MechanicalDecision(v.outerCode, v.boundaryOk, v.changed);
    var charged := s.(ledger := ChargeAndTick(s.ledger, v.mechanicalUsage, c.commanderIn, c.commanderOut));
    ChargingKeepsState(c, s.ledger, v.mechanicalUsage);
    EnforcedRules(proposed, gates);
    var d := Enforced(proposed, gates).0;
    if d != DAccept { StopsOrGoesBack(Recorded(charged, u.id, wave, gates, d), d, gates, r, wave); }
    EndsIn(charged, BudgetExhausted, Some(EBudget));
  }

  lemma ChargingKeepsState(c: Config, l: Ledger, u: Usage)
    ensures ChargeAndTick(l, u, c.commanderIn, c.commanderOut).run.state == l.run.state
  {
    hide CostOf;
  }

  lemma EndsIn(s: Loop, to: RunState, e: Option<ErrorCode>)
    requires CanTransition(s.ledger.run.state, to)
    ensures End(s, to, e).outcome == Ended(e) && End(s, to, e).ledger.run.state == to
  {}

  lemma StopsOrGoesBack(s: Loop, d: Decision, gates: AcceptGates, r: Receipt, wave: seq<Id>)
    requires s.outcome.Running? && s.ledger.run.state == OuterReviewing && s.unit.Some? && d != DAccept
    requires d == DRework ==> ReworkSoFar(s) < MAX_REWORK
    ensures var t := Decided(s, d, gates, r, wave);
            match d
            case DReject => t.outcome == Ended(Some(if gates.boundaryOk then ERejected else EBoundary))
                            && t.ledger.run.state == Rejected
            case DEscalate => t.outcome == Ended(Some(EEscalated)) && t.ledger.run.state == Escalate
            case _ => t.outcome.Running? && t.ledger.run.state == Dispatched
  {
    hide ReworkMembers;
  }

  lemma JudgeRefuses(c: Config, s: Loop, u: WorkUnit, r: Receipt, wave: seq<Id>, v: ReviewInput)
    requires s.outcome.Running? && s.ledger.run.state == OuterReviewing && s.unit.Some?
    requires Breached(v) && v.outerCode == 0
    ensures var t := Judge(c, s, u, r, wave, v);
            !t.outcome.Running? && (t.reviews != s.reviews ==> t.ledger.run.state == Rejected)
  {
    hide CostOf, Exhausted, VerdictPayload, Enforced, Decided, Proposal, ChargeAndTick, Breached;
    EndStops(s);
    EndKeepsReviews(s);
    if v.plugin.Ok? {
      BreachIsRefused(c, s, u, r, wave, v);
      var gates := GatesOf(c, s, u, r, v.plugin.value, v);
      var proposal := Proposal(gates, v);
      if proposal.Ok? {
        var (proposed, usage) := proposal.value;
        var charged := s.(ledger := ChargeAndTick(s.ledger, usage, c.commanderIn, c.commanderOut));
        ChargingKeepsState(c, s.ledger, usage);
        EndKeepsReviews(charged);
        var d := Enforced(proposed, gates).0;
        DecidedIsNoStop(Recorded(charged, u.id, wave, gates, d), d, gates, r, wave);
      }
    }
  }

  /** A verdict never ends a run for its budget. */
  lemma DecidedIsNoStop(s: Loop, d: Decision, gates: AcceptGates, r: Receipt, wave: seq<Id>)
    requires s.outcome.Running? && s.ledger.run.state == OuterReviewing && s.unit.Some?
    ensures Decided(s, d, gates, r, wave).ledger.run.state != BudgetExhausted
  {
    hide AcceptMembers, ReworkMembers, AllAccepted, AcceptGates.CanAccept;
  }

  lemma OuterRefuses(c: Config, s: Loop, u: WorkUnit, receipt: Receipt, stored: bool, wave: seq<Id>, v: ReviewInput)
    requires s.outcome.Running? && Breached(v) && v.outerCode == 0
    ensures var t := OuterPhase(c, s, u, receipt, stored, wave, v);
            !t.outcome.Running? && (t.reviews != s.reviews ==> t.ledger.run.state == Rejected)
  {
    hide Judge, ReceiptPayload, TurnsExhausted, Breached;
    var r := OverriddenCommand(receipt, u);
    var s1 := Submitted(s, u, r, stored);
    EndStops(s1);
    EndKeepsReviews(s1);
    var s2 := Continue(s1, OuterReviewing);
    if s1.outcome.Running? && s2.outcome.Running? { JudgeRefuses(c, s2, u, r, wave, v); }
  }

  /** No turn that reviews a breach under a green test goes on. */
  lemma BreachNeverGoesOn(c: Config, s: Loop, input: TurnInput)
    requires s.outcome.Running? && Breached(input.review) && input.review.outerCode == 0
    ensures var t := Turn(c, s, input); t.outcome.Running? ==> t.reviews == s.reviews
    ensures var t := Turn(c, s, input); t.reviews != s.reviews ==> t.ledger.run.state == Rejected
  {
    hide InnerPhase, OuterPhase, Exhausted, Breached;
    StoppedEarly(s);
    PhaseReviewsNothing(c, s, input);
    var g := InnerPhase(c, s, input);
    StoppedEarly(g.s);
    EndKeepsReviews(s);
    EndKeepsReviews(g.s);
    if g.Got? { OuterRefuses(c, g.s, g.u, g.receipt, g.stored, g.wave, input.review); }
  }

  lemma EndKeepsReviews(s: Loop)
    ensures forall to, e :: End(s, to, e).reviews == s.reviews
  {}

  // ---- what replay makes of a reject ----

  /** The log ends in this reject. */
  predicate EndsInReject(log: seq<Event>, u: Id) {
    log != [] && log[|log| - 1] == Verdict(VerdictPayload(u, DReject))
  }

  lemma JudgeRejects(c: Config, s: Loop, u: WorkUnit, r: Receipt, wave: seq<Id>, v: ReviewInput)
    requires s.unit.Some? && s.outcome.Running? && s.ledger.run.state == OuterReviewing
    requires RuledBy(s, Judge(c, s, u, r, wave, v), DReject)
    ensures var t := Judge(c, s, u, r, wave, v);
            && EndsInReject(t.ledger.log, u.id) && t.reviews[|t.reviews| - 1].unitId == u.id
            && t.ledger.run.state == Rejected
  {
    hide CostOf, Exhausted, VerdictPayload, Enforced, AskVerdict, AcceptGates.CanAccept, OnAccept, OnRework,
         MechanicalDecision, ChargeAndTick;
    EndKeepsReviews(s);
    var gates := GatesOf(c, s, u, r, v.plugin.value, v);
    var proposal := Proposal(gates, v);
    var (proposed, usage) := proposal.value;
    var charged := s.(ledger := ChargeAndTick(s.ledger, usage, c.commanderIn, c.commanderOut));
    ChargingKeepsState(c, s.ledger, usage);
    EndKeepsReviews(charged);
    var d := Enforced(proposed, gates).0;
    var x := Recorded(charged, u.id, wave, gates, d);
    DecidedKeepsReviews(x, d, gates, r, wave);
  }

  lemma DecidedKeepsReviews(s: Loop, d: Decision, gates: AcceptGates, r: Receipt, wave: seq<Id>)
    requires s.unit.Some?
    ensures Decided(s, d, gates, r, wave).reviews == s.reviews
  {
    hide AcceptGates.CanAccept, AllAccepted, AcceptMembers, ReworkMembers, CanTransition;
  }

  lemma OuterRejects(c: Config, s: Loop, u: WorkUnit, receipt: Receipt, stored: bool, wave: seq<Id>, v: ReviewInput)
    requires s.outcome.Running? && RuledBy(s, OuterPhase(c, s, u, receipt, stored, wave, v), DReject)
    ensures var t := OuterPhase(c, s, u, receipt, stored, wave, v);
            && EndsInReject(t.ledger.log, u.id) && t.reviews[|t.reviews| - 1].unitId == u.id
            && t.ledger.run.state == Rejected
  {
    hide Judge, ReceiptPayload, VerdictPayload, TurnsExhausted;
    var r := OverriddenCommand(receipt, u);
    var s1 := Submitted(s, u, r, stored);
    EndKeepsReviews(s1);
    JudgeRejects(c, Continue(s1, OuterReviewing), u, r, wave, v);
  }

  /** A turn, of a new or a resumed run, whose review rejects: the run is Rejected, and in
      the envelope the unit judged and every unit it covers replay as rejected. */
  lemma {:induction false} RejectedTurn(c: Config, s: Loop, input: TurnInput, id: Id)
    requires s.outcome.Running? && RuledBy(s, Turn(c, s, input), DReject)
    ensures var t := Turn(c, s, input);
            var u := t.reviews[|t.reviews| - 1].unitId;
            && t.ledger.run.state == Rejected
            && (id == u || id in Covered(ContextOf(t.ledger.log), u) ==>
                  View(t.ledger.log, id).Some? ==> View(t.ledger.log, id).value.state == URejected)
  {
    hide InnerPhase, OuterPhase, Exhausted, View, ContextOf, VerdictPayload;
    PhaseReviewsNothing(c, s, input);
    var g := InnerPhase(c, s, input);
    EndKeepsReviews(s);
    EndKeepsReviews(g.s);
    OuterRejects(c, g.s, g.u, g.receipt, g.stored, g.wave, input.review);
    var log, u := Turn(c, s, input).ledger.log, g.u.id;
    var before := log[..|log| - 1];
    assert log == before + [Verdict(VerdictPayload(u, DReject))];
    RejectReplays(before, u, id);
    ViewSnoc(before, Verdict(VerdictPayload(u, DReject)), id);
  }
}
