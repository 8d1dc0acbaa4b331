/** What dispatching one unit logs, and what it comes to (run_single_unit in
    crates/wanax-cli/src/engine.rs), said of the plan, the passes and the commit. */
module UnitRun {
  import opened Types
  import opened Budget
  import opened Events
  import opened Drive
  import opened ResumeStart
  import opened ResumeSingle
  import GoalRun

  /** The dispatch event: the planned task, and the unit it goes to with what is fixed
      about it; without one, a new unit that may touch anything. */
  predicate Announces(e: Event, existing: Option<WorkUnit>, newId: Id, title: string, instruction: string) {
    && e.UnitDispatched? && e.p.title == Some(title) && e.p.instruction == Some(instruction)
    && e.p.role == Some(RGoal) && e.p.covers == None
    && match existing
       case None =>
         && e.p.workUnitId == Some(newId) && e.p.seqNo == Some(1) && e.p.dependsOn == Some([])
         && e.p.globs == None && e.p.testCommand == None && e.p.localKey == None && e.p.parent == None
       case Some(u) =>
         && e.p.workUnitId == Some(u.id) && e.p.seqNo == Some(u.seqNo) && e.p.dependsOn == Some(u.dependsOn)
         && e.p.globs == u.globs && e.p.testCommand == u.testCommand && e.p.localKey == u.localKey
         && e.p.parent == u.parent
  }

  /** The receipt of a finished unit: what was committed, and what its last pass showed. */
  predicate Attests(r: Receipt, unit: Id, c: Config, h: Handle, k: Committed) {
    && r.unitId == unit && r.changedFiles == k.changed && r.commit == k.commit && r.testCommand == c.testCommand
    && r.exitCode == h.testExit && r.claimedPass == h.claimed
  }

  /** The worked unit is the one given, with its new task, or the new one. */
  predicate WorkedOn(u: WorkUnit, existing: Option<WorkUnit>, newId: Id, title: string, instruction: string) {
    && u.title == title && u.instruction == instruction
    && match existing
       case None => u.id == newId && u.rework == 0 && u.testCommand == None
       case Some(e) => u.id == e.id && u.rework == e.rework && u.testCommand == e.testCommand
  }

  /** What follows from how the goal loop ended: an error of its own, a stop when the last
      turns were spent on a crash, a failed commit, or a receipt. */
  predicate Yields(g: Phase, t: Ledger, r: Result<Handle, ErrorCode>, input: TurnInput, c: Config,
                   existing: Option<WorkUnit>, newId: Id, title: string, instruction: string)
  {
    && g.s.ledger == t
    && match r
       case Err(e) => g.FailedWith? && g.error == e
       case Ok(h) =>
         if h.crashed && t.run.spentTurns >= t.run.maxTurns then g.FailedWith? && g.error == EBudget
         else match input.committed
           case Err(e) => g.FailedWith? && g.error == e
           case Ok(k) =>
             && g.Got? && !g.stored && g.wave == [] && WorkedOn(g.u, existing, newId, title, instruction)
             && Attests(g.receipt, g.u.id, c, h, k)
  }

  /** For any unit or none, from any state: the dispatch is announced first; a run that may
      not start working fails there; else the goal loop runs from there and what it comes
      to decides. */
  lemma {:induction false} SingleExactly(c: Config, s: Loop, existing: Option<WorkUnit>, title: string,
                                         instruction: string, input: TurnInput)
    returns (l: Ledger, k: nat, t: Ledger, r: Result<Handle, ErrorCode>)
    requires !s.ledger.run.state.IsTerminal()
    ensures var g := RunSingle(c, s, existing, title, instruction, input);
            && |g.s.ledger.log| > |s.ledger.log| && g.s.ledger.log[..|s.ledger.log|] == s.ledger.log
            && Announces(g.s.ledger.log[|s.ledger.log|], existing, s.nextId, title, instruction)
            && if !MayDispatch(s.ledger.run.state) then
                 g.FailedWith? && g.error == EDb && |g.s.ledger.log| == |s.ledger.log| + 1
               else
                 && l.run == s.ledger.run.(state := InnerWorking) && l.bursts == s.ledger.bursts
                 && l.log == g.s.ledger.log[..|s.ledger.log| + 1] && l.charges == s.ledger.charges
                 && GoalRun.Runs(c, l, input.goal, k, t, r)
                 && Yields(g, t, r, input, c, existing, s.nextId, title, instruction)
  {
    hide GoalLoop, GoalRun.Runs;
    l, k, t, r := s.ledger, 0, s.ledger, Err(EDb);
    SingleAdds(c, s, existing, title, instruction, input);
    var u := if existing.Some? then Redirected(existing.value, title, instruction)
             else NewUnit(s.nextId, title, instruction);
    var d := Dispatch(s, u, existing.None?);
    var e := UnitDispatched(UnitPayload(u));
    assert (s.ledger.log + [e])[|s.ledger.log|] == e && (s.ledger.log + [e])[..|s.ledger.log|] == s.ledger.log;
    FirstAdded(s.ledger.log, e, RunSingle(c, s, existing, title, instruction, input).s.ledger.log);
    if MayDispatch(s.ledger.run.state) {
      l := Moved(d.ledger, InnerWorking).value;
      k := GoalRun.GoalLoopRuns(c, l, input.goal);
      var (worked, result) := GoalLoop(c, l, input.goal, 0, None, None);
      t, r := worked, result;
    }
  }

  lemma FirstAdded(a: seq<Event>, e: Event, b: seq<Event>)
    requires Adds(a, e, b)
    ensures |b| > |a| && b[..|a|] == a && b[|a|] == e && b[..|a| + 1] == a + [e]
  {
    assert b[..|a| + 1] == a + [e];
    assert b[..|a|] == (a + [e])[..|a|] && b[|a|] == (a + [e])[|a|];
  }
}
