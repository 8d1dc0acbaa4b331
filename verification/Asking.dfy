/** Which answer of the commander counts, and what it is charged for it
    (dispatch_with_retry, drive_factory and charge_and_tick in
    crates/wanax-cli/src/engine.rs). */
module Asking {
  import opened Types
  import opened State
  import opened Accept
  import opened Budget
  import opened Events
  import opened Scheduler
  import opened Drive
  import opened Charges
  import opened WholeRun
  import opened ResumeSingle
  import Dag

  // ---- the commander's answers ----

  /** A task without a title or an instruction, or a list of nothing. */
  predicate AsksNothing(p: Plan) {
    || (p.Single? && (|p.title| == 0 || |p.instruction| == 0))
    || (p.Peers? && |p.peers| == 0)
    || (p.Dag? && |p.units| == 0)
  }

  /** No plan by the schema, or one that asks for nothing: the commander is asked again. */
  predicate NoPlan(answer: Result<(Plan, Usage), ErrorCode>) {
    if answer.Ok? then AsksNothing(answer.value.0) else answer.error == ECommanderSchema
  }

  predicate NoVerdict(answer: Result<(Decision, Usage), ErrorCode>) { answer == Err(ECommanderSchema) }

  /** Answer i is the one that counts: it can be used, none before it could, and it is one
      of the first n. */
  predicate Counts<T(==)>(answers: seq<T>, useless: T -> bool, n: nat, i: int) {
    0 <= i < n && i < |answers| && !useless(answers[i]) && forall j :: 0 <= j < i ==> useless(answers[j])
  }

  predicate NoneCounts<T(==)>(answers: seq<T>, useless: T -> bool, n: nat) {
    forall j :: 0 <= j < n && j < |answers| ==> useless(answers[j])
  }

  lemma {:induction false} PlanIsFirst(answers: seq<Result<(Plan, Usage), ErrorCode>>, n: nat)
    ensures var r := AskPlan(answers, n, ECommanderSchema);
            && (forall i :: Counts(answers, NoPlan, n, i) ==> r == answers[i])
            && (NoneCounts(answers, NoPlan, n) ==> r == Err(ECommanderSchema))
    decreases n
  {
    if n > 0 && answers != [] {
      PlanIsFirst(answers[1..], n - 1);
      forall i | Counts(answers, NoPlan, n, i) ensures AskPlan(answers, n, ECommanderSchema) == answers[i] {
        if i > 0 { Shorter(answers, NoPlan, n, i); }
      }
      if NoneCounts(answers, NoPlan, n) {
        assert forall j :: 0 <= j < |answers| - 1 ==> answers[1..][j] == answers[j + 1];
        assert NoPlan(answers[0]) && NoneCounts(answers[1..], NoPlan, n - 1);
      }
    }
  }

  lemma {:induction false} VerdictIsFirst(answers: seq<Result<(Decision, Usage), ErrorCode>>, n: nat)
    ensures var r := AskVerdict(answers, n, ECommanderSchema);
            && (forall i :: Counts(answers, NoVerdict, n, i) ==> r == answers[i])
            && (NoneCounts(answers, NoVerdict, n) ==> r == Err(ECommanderSchema))
    decreases n
  {
    if n > 0 && answers != [] {
      VerdictIsFirst(answers[1..], n - 1);
      forall i | Counts(answers, NoVerdict, n, i) ensures AskVerdict(answers, n, ECommanderSchema) == answers[i] {
        if i > 0 { Shorter(answers, NoVerdict, n, i); }
      }
      if NoneCounts(answers, NoVerdict, n) {
        assert forall j :: 0 <= j < |answers| - 1 ==> answers[1..][j] == answers[j + 1];
        assert NoVerdict(answers[0]) && NoneCounts(answers[1..], NoVerdict, n - 1);
      }
    }
  }

  lemma {:induction false} Shorter<T>(answers: seq<T>, useless: T -> bool, n: nat, i: int)
    requires Counts(answers, useless, n, i) && i > 0
    ensures useless(answers[0]) && Counts(answers[1..], useless, n - 1, i - 1) && answers[1..][i - 1] == answers[i]
  {
    forall j | 0 <= j < i - 1 ensures useless(answers[1..][j]) { assert answers[1..][j] == answers[j + 1]; }
  }

  // ---- what it is charged for ----

  /** The plan that counts is charged at the commander's rates before anything is
      dispatched; when no answer counts, or the first one that does is an error, the phase
      fails with it and nothing is charged. */
  lemma {:induction false} PlanIsCharged(c: Config, s: Loop, input: TurnInput, i: nat) returns (m: Ledger)
    requires Counts(input.plans, NoPlan, 3, i) && s.outcome.Running?
    ensures var g := PlanPhase(c, s, input);
            match input.plans[i]
            case Ok((_, usage)) =>
              ChargedFor(s.ledger, m, usage, c.commanderIn, c.commanderOut) && m.log <= g.s.ledger.log
            case Err(e) => g == FailedWith(s, e)
  {
    hide RunSingle, RunPeerBatch, SeedDag, Exhausted, ChargeAndTick, AskPlan, ChargedFor;
    PlanIsFirst(input.plans, 3);
    m := s.ledger;
    if input.plans[i].Ok? {
      var (plan, usage) := input.plans[i].value;
      ChargeIsPriced(s.ledger, usage, c.commanderIn, c.commanderOut);
      m := ChargeAndTick(s.ledger, usage, c.commanderIn, c.commanderOut);
      var s1 := s.(ledger := m);
      MovingKeepsLog(s1);
      match plan
      case Peers(peers) => BatchExtends(c, s1, peers, [], input.batch);
      case Dag(drafts) => SeedExtends(s1, drafts);
      case Single(title, instruction) => SingleAdds(c, s1, s1.unit, title, instruction, input);
    }
  }

  lemma SeedExtends(s: Loop, drafts: seq<DagDraft>)
    ensures s.ledger.log <= SeedDag(s, drafts).s.ledger.log
  {
    hide Dag.Sorted, NodesOf, AllDrafted, SeedEvents;
  }

  lemma {:induction false} NoPlanFails(c: Config, s: Loop, input: TurnInput)
    requires NoneCounts(input.plans, NoPlan, 3)
    ensures PlanPhase(c, s, input) == FailedWith(s, ECommanderSchema)
  {
    hide RunSingle, RunPeerBatch, SeedDag, AskPlan;
    PlanIsFirst(input.plans, 3);
  }

  /** A verdict is charged once, at the commander's rates: the one that counts where all
      gates hold, else that of the mechanical commander. */
  lemma {:induction false} VerdictIsCharged(c: Config, s: Loop, u: WorkUnit, r: Receipt, wave: seq<Id>,
                                            v: ReviewInput, i: nat) returns (m: Ledger)
    requires s.unit.Some? && v.plugin.Ok?
    requires var gates := GatesOf(c, s, u, r, v.plugin.value, v);
             gates.CanAccept() ==> Counts(v.verdicts, NoVerdict, 3, i)
    ensures var t, fine := Judge(c, s, u, r, wave, v), GatesOf(c, s, u, r, v.plugin.value, v).CanAccept();
            if fine && v.verdicts[i].Err? then t == FailRun(s, v.verdicts[i].error)
            else
              var usage := if fine then v.verdicts[i].value.1 else v.mechanicalUsage;
              && ChargedFor(s.ledger, m, usage, c.commanderIn, c.commanderOut)
              && t.ledger.charges == m.charges && m.log <= t.ledger.log && |t.ledger.log| <= |m.log| + 1
  {
    hide Exhausted, ChargeAndTick, AskVerdict, ChargedFor, Enforced, Decided, VerdictPayload, AcceptGates.CanAccept,
         MechanicalDecision, GatesOf;
    VerdictIsFirst(v.verdicts, 3);
    var gates := GatesOf(c, s, u, r, v.plugin.value, v);
    m := s.ledger;
    var proposal := Proposal(gates, v);
    if proposal.Ok? {
      var (proposed, usage) := proposal.value;
      ChargeIsPriced(s.ledger, usage, c.commanderIn, c.commanderOut);
      m := ChargeAndTick(s.ledger, usage, c.commanderIn, c.commanderOut);
      var charged := s.(ledger := m);
      var d := Enforced(proposed, gates).0;
      DecidedLog(Recorded(charged, u.id, wave, gates, d), d, gates, r, wave);
      DecidedCharges(Recorded(charged, u.id, wave, gates, d), d, gates, r, wave);
      MovingKeepsLog(charged);
    }
  }

  lemma DecidedCharges(s: Loop, d: Decision, gates: AcceptGates, r: Receipt, wave: seq<Id>)
    requires s.unit.Some?
    ensures Decided(s, d, gates, r, wave).ledger.charges == s.ledger.charges
  {
    hide AcceptGates.CanAccept, AllAccepted, AcceptMembers, ReworkMembers, CanTransition;
  }
}
