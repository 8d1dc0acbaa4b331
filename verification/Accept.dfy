/** The accept gates and the rule that no commander can argue past them
    (crates/wanax-core/src/accept.rs). */
module Accept {
  import opened Types

  datatype AcceptGates = AcceptGates(
    outerTestExitCode: int,
    boundaryOk: bool,
    receiptTestCommand: string,
    contractTestCommand: string,
    innerIsDescendant: bool,
    changedFilesNonempty: bool,
    budgetExhausted: bool,
    reworkCount: nat,
    pluginOk: bool,
    boundTestsOk: bool,
    secretsOk: bool,
    mustHaveOk: bool)
  {
    predicate CanAccept() {
      && outerTestExitCode == 0
      && boundaryOk
      && receiptTestCommand == contractTestCommand
      && innerIsDescendant
      && changedFilesNonempty
      && !budgetExhausted
      && reworkCount <= MAX_REWORK
      && pluginOk
      && boundTestsOk
      && secretsOk
      && mustHaveOk
    }
  }

  /** The decision that stands, and the error code noted beside it. */
  function Enforced(proposed: Decision, gates: AcceptGates): (Decision, Option<ErrorCode>) {
    var red := gates.outerTestExitCode != 0 && proposed.DAccept?;
    var d0, n0 := if red then DRework else proposed, if red then Some(EAcceptOverride) else None;
    if d0.DAccept? && !gates.CanAccept() && gates.budgetExhausted then (DAccept, Some(EBudget))
    else
      var (d1, n1) :=
        if !d0.DAccept? || gates.CanAccept() then (d0, n0)
        else if !gates.boundaryOk then (DReject, Some(EBoundary))
        else if !gates.secretsOk then (DReject, Some(ESecretLeak))
        else if !gates.changedFilesNonempty
                || gates.receiptTestCommand != gates.contractTestCommand
                || !gates.innerIsDescendant then (DReject, n0)
        else if !gates.boundTestsOk || !gates.mustHaveOk then (DRework, n0)
        else if !gates.pluginOk then (DRework, Some(EPlugin))
        else if gates.reworkCount > MAX_REWORK then (DEscalate, Some(EReworkLimit))
        else (DRework, n0);
      if d1.DRework? && gates.reworkCount >= MAX_REWORK then (DEscalate, Some(EReworkLimit)) else (d1, n1)
  }

  function OrNote(note: Option<ErrorCode>, e: ErrorCode): Option<ErrorCode> { if note.Some? then note else Some(e) }

  // ---- what becomes of a proposal ----

  /** What an accept with a green test is refused for, for good. */
  predicate Unacceptable(gates: AcceptGates) {
    || !gates.boundaryOk || !gates.secretsOk || !gates.changedFilesNonempty
    || gates.receiptTestCommand != gates.contractTestCommand || !gates.innerIsDescendant
  }

  /** What it is sent back for. */
  predicate Unfinished(gates: AcceptGates) { !gates.boundTestsOk || !gates.mustHaveOk || !gates.pluginOk }

  /** A proposed accept with a green test and budget left: it stands exactly when all the
      gates hold and the rework limit was not passed; it becomes a reject exactly for
      files out of bounds, a leaked secret, no change, another test command or a commit
      off the base; else it is sent back, or escalated at the limit. */
  predicate GreenRules(gates: AcceptGates, d: Decision, note: Option<ErrorCode>) {
    var bad, open := Unacceptable(gates), Unfinished(gates);
    && (d == DAccept <==> !bad && !open && gates.reworkCount <= MAX_REWORK)
    && (d == DReject <==> bad)
    && (d == DRework <==> !bad && open && gates.reworkCount < MAX_REWORK)
    && (d == DEscalate <==>
        !bad && (if open then gates.reworkCount >= MAX_REWORK else gates.reworkCount > MAX_REWORK))
    && (note == Some(EBoundary) <==> !gates.boundaryOk)
    && (note == Some(ESecretLeak) <==> gates.boundaryOk && !gates.secretsOk)
    && (note == Some(EPlugin) <==> d == DRework && gates.boundTestsOk && gates.mustHaveOk)
    && (note == Some(EReworkLimit) <==> d == DEscalate)
    && (note.Some? ==> note.value in {EBoundary, ESecretLeak, EPlugin, EReworkLimit})
  }

  /** A red test sends an accept back whatever else is wrong; without budget a green one
      is a budget stop; and what is not an accept is left alone, but for the limit. */
  predicate RulesAs(proposed: Decision, gates: AcceptGates, d: Decision, note: Option<ErrorCode>) {
    var over := gates.reworkCount >= MAX_REWORK;
    if proposed != DAccept then
      if proposed == DRework && over then d == DEscalate && note == Some(EReworkLimit)
      else d == proposed && note == None
    else if gates.outerTestExitCode != 0 then
      if over then d == DEscalate && note == Some(EReworkLimit) else d == DRework && note == Some(EAcceptOverride)
    else if gates.budgetExhausted then
      d == DAccept && note == Some(EBudget)
    else GreenRules(gates, d, note)
  }

  method EnforceDecision(proposed: Decision, gates: AcceptGates)
    returns (decision: Decision, note: Option<ErrorCode>)
    ensures (decision, note) == Enforced(proposed, gates)
    ensures RulesAs(proposed, gates, decision, note)
  {
    decision := proposed;
    note := None;
    if gates.outerTestExitCode != 0 && decision.DAccept? {
      decision := DRework;
      note := Some(EAcceptOverride);
    }
    if decision.DAccept? && !gates.CanAccept() {
      if gates.budgetExhausted {
        return decision, Some(EBudget);
      }
      if !gates.boundaryOk {
        decision := DReject;
        note := OrNote(note, EBoundary);
      } else if !gates.secretsOk {
        decision := DReject;
        note := OrNote(note, ESecretLeak);
      } else if !gates.changedFilesNonempty
                || gates.receiptTestCommand != gates.contractTestCommand
                || !gates.innerIsDescendant {
        decision := DReject;
      } else if !gates.boundTestsOk || !gates.mustHaveOk {
        decision := DRework;
      } else if !gates.pluginOk {
        decision := DRework;
        note := Some(EPlugin);
      } else if gates.reworkCount > MAX_REWORK {
        decision := DEscalate;
        note := Some(EReworkLimit);
      } else {
        decision := DRework;
      }
    }
    if decision.DRework? && gates.reworkCount >= MAX_REWORK {
      decision := DEscalate;
      note := Some(EReworkLimit);
    }
  }

  /** An acceptance that is not a budget stop means the commander proposed it and
      every gate held; and such a proposal is never changed. */
  lemma AcceptIffGates(proposed: Decision, gates: AcceptGates)
    ensures var (d, n) := Enforced(proposed, gates);
            (d == DAccept && n != Some(EBudget)) <==> (proposed == DAccept && gates.CanAccept())
    ensures var (d, n) := Enforced(proposed, gates);
            n == Some(EBudget) ==> d == DAccept && gates.budgetExhausted && proposed == DAccept
  {}

  /** A rework verdict always leaves room for one more attempt. */
  lemma ReworkLeavesRoom(proposed: Decision, gates: AcceptGates)
    ensures Enforced(proposed, gates).0 == DRework ==> gates.reworkCount < MAX_REWORK
  {}

  /** The specification rules as the loop-free conditions say. */
  lemma EnforcedRules(proposed: Decision, gates: AcceptGates)
    ensures RulesAs(proposed, gates, Enforced(proposed, gates).0, Enforced(proposed, gates).1)
  {}

  /** And no other answer would. */
  lemma OneRuling(proposed: Decision, gates: AcceptGates, d: Decision, note: Option<ErrorCode>)
    requires RulesAs(proposed, gates, d, note)
    ensures (d, note) == Enforced(proposed, gates)
  {}
}
