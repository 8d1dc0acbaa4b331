/** A turn of the loop that is still running at its end, taken apart: what was
    dispatched, what the review decided, and the pass it wrote to the envelope. */
module Passes {
  import opened Types
  import opened Accept
  import opened Budget
  import opened Events
  import opened Scheduler
  import opened Drive
  import opened Accounting

  // ---- the inner phase ----

  /** A finished inner phase that started by logging `p` for unit `u`. */
  ghost predicate Performed(s: Loop, g: Phase, u: WorkUnit, p: Payload, wave: seq<Id>) {
    && g.Got? && !g.stored && g.u == u && g.wave == wave
    && g.s == s.(ledger := g.s.ledger, nextId := g.s.nextId)
    && g.s.nextId > s.nextId
    && QuietlyExtends(s.ledger.log + [UnitDispatched(p)], g.s.ledger.log, s.nextId + 1, g.s.nextId)
    && g.s.ledger.run.state == InnerWorking
  }

  lemma SingleWorked(c: Config, s: Loop, existing: Option<WorkUnit>, title: string, instruction: string,
                     input: TurnInput)
    requires RunSingle(c, s, existing, title, instruction, input).Got?
    ensures var u := if existing.Some? then Redirected(existing.value, title, instruction)
                     else NewUnit(s.nextId, title, instruction);
            Performed(s, RunSingle(c, s, existing, title, instruction, input), u, UnitPayload(u), [])
  {
    hide Grew, GoalLoop, UnitPayload, QuietlyExtends, Exhausted;
    var g := RunSingle(c, s, existing, title, instruction, input);
    var u := if existing.Some? then Redirected(existing.value, title, instruction)
             else NewUnit(s.nextId, title, instruction);
    var s1 := Dispatch(s, u, existing.None?);
    var moved := Moved(s1.ledger, InnerWorking).value;
    GoalLoopGrows(c, moved, input.goal, 0, None, None, s.ledger.run, s.nextId + 1, g.s.nextId);
    var (worked, _) := GoalLoop(c, moved, input.goal, 0, None, None);
    GrewTurns(moved, worked, s.nextId + 1, g.s.nextId);
    GrewLog(moved, worked, s.nextId + 1, g.s.nextId);
  }

  lemma GrewLog(l: Ledger, m: Ledger, from: Id, to: Id)
    requires Grew(l, m, from, to)
    ensures QuietlyExtends(l.log, m.log, from, to)
  {}

  lemma BatchWorked(c: Config, s: Loop, peers: seq<PeerDraft>, covers: seq<Id>, b: BatchInput)
    requires RunPeerBatch(c, s, peers, covers, b).Got?
    ensures var master := NewMaster(s.nextId, peers);
            Performed(s, RunPeerBatch(c, s, peers, covers, b), master, MasterPayload(master, covers), covers)
  {
    hide Grew, SeedPeers, Collect, MasterPayload, QuietlyExtends, Exhausted, Instructions;
    var g := RunPeerBatch(c, s, peers, covers, b);
    var master := NewMaster(s.nextId, peers);
    var s1 := s.(ledger := Logged(s.ledger, UnitDispatched(MasterPayload(master, covers))), nextId := s.nextId + 1);
    var s2 := s1.(ledger := Moved(s1.ledger, InnerWorking).value);
    var n := |peers|;
    var from, to := s2.nextId, g.s.nextId;
    var l1 := SeedPeers(s2.ledger, s2.nextId, master.id, peers, 0);
    SeedPeersGrows(s2.ledger, s2.nextId, master.id, peers, 0, s.ledger.run, from, to);
    OpenGrows(l1, from, to);
    GrewTwice(s2.ledger, l1, Opened(l1), from, to);
    CollectGrows(c, Opened(l1), b, s2.nextId, s2.nextId + n, 0, n, s.ledger.run, from, to);
    var (done, _) := Collect(c, Opened(l1), b, s2.nextId, s2.nextId + n, 0, n);
    GrewTwice(s2.ledger, Opened(l1), done, from, to);
    GrewTurns(s2.ledger, done, from, to);
    GrewLog(s2.ledger, done, from, to);
  }

  lemma OpenGrows(l: Ledger, from: Id, to: Id)
    ensures Grew(l, Opened(l), from, to)
  {}

  // ---- the outer phase ----

  /** A verdict that leaves the run alive, and everything it was based on. */
  datatype Ruling = Ruling(recorded: Loop, gates: AcceptGates, receipt: Receipt, tick: BudgetTick, decision: Decision)

  /** How the run goes on after a ruling. */
  function After(k: Ruling, wave: seq<Id>): Loop
    requires k.recorded.unit.Some?
  {
    if k.decision.DAccept? then Continue(AcceptedLoop(k.recorded, k.receipt, wave), Dispatched)
    else Continue(Continue(ReworkedLoop(k.recorded, wave), Rework), Dispatched)
  }

  /** The unit once its receipt and its verdict are recorded. */
  function UnderReview(u: WorkUnit, r: Receipt, verdict: Id): WorkUnit {
    u.(receiptId := Some(r.id), commit := Some(r.commit), state := UReceiptReady, verdictId := Some(verdict))
  }

  ghost predicate Ruled(s: Loop, u: WorkUnit, wave: seq<Id>, k: Ruling) {
    && k.recorded == s.(ledger := k.recorded.ledger, nextId := s.nextId + 1,
                        unit := Some(UnderReview(u, k.receipt, s.nextId)),
                        reviews := s.reviews + [Reviewed(u.id, wave, k.gates, k.decision, k.recorded.ledger.run)])
    && k.recorded.ledger.log == s.ledger.log + [ReceiptSubmitted(ReceiptPayload(k.receipt, u.id)), Tick(k.tick),
                                                Verdict(VerdictPayload(u.id, k.decision))]
    && k.recorded.ledger.run.state == OuterReviewing
    && (if k.decision.DAccept? then k.gates.CanAccept() && !Exhausted(k.recorded.ledger.run)
        else k.decision.DRework? && u.rework < MAX_REWORK && s.waveRework < MAX_REWORK)
  }

  /** A DAG with something left to accept. */
  ghost predicate LeavesWork(s: Loop) { s.dag.Some? && !AllAccepted(s.dag.value) }

  lemma JudgeRuled(c: Config, s: Loop, u: WorkUnit, r: Receipt, wave: seq<Id>, v: ReviewInput) returns (k: Ruling)
    requires s.unit.Some? && s.outcome.Running? && s.ledger.run.state == OuterReviewing
    requires Judge(c, s, u, r, wave, v).outcome.Running?
    ensures k.receipt == r
    ensures k.recorded == s.(ledger := k.recorded.ledger, nextId := s.nextId + 1,
                             unit := Some(s.unit.value.(verdictId := Some(s.nextId))),
                             reviews := s.reviews + [Reviewed(u.id, wave, k.gates, k.decision, k.recorded.ledger.run)])
    ensures k.recorded.ledger.log == s.ledger.log + [Tick(k.tick), Verdict(VerdictPayload(u.id, k.decision))]
    ensures k.recorded.ledger.run.state == OuterReviewing && k.recorded.ledger.path == s.ledger.path
    ensures if k.decision.DAccept? then k.gates.CanAccept() && !Exhausted(k.recorded.ledger.run)
            else k.decision.DRework? && s.unit.value.rework < MAX_REWORK && s.waveRework < MAX_REWORK
    ensures Judge(c, s, u, r, wave, v) == After(k, wave)
    ensures k.decision.DAccept? ==> LeavesWork(AcceptedLoop(k.recorded, r, wave))
  {
    hide Exhausted, Enforced, CostOf, AcceptGates.CanAccept, AskVerdict, AllAccepted, AcceptedLoop, ReworkedLoop,
         VerdictPayload, Moved;
    var gates := GatesOf(c, s, u, r, v.plugin.value, v);
    var proposal := Proposal(gates, v);
    EndStops(s);
    var (proposed, usage) := proposal.value;
    var charged := s.(ledger := ChargeAndTick(s.ledger, usage, c.commanderIn, c.commanderOut));
    EndStops(charged);
    var (d, note) := Enforced(proposed, gates);
    ReworkLeavesRoom(proposed, gates);
    AcceptIffGates(proposed, gates);
    var recorded := Recorded(charged, u.id, wave, gates, d);
    EndStops(recorded);
    var (cost, estimated) := CostOf(usage, c.commanderIn, c.commanderOut);
    var tick := TickOf(Charge(s.ledger.run, cost), estimated);
    k := Ruling(recorded, gates, r, tick, d);
    assert (s.ledger.log + [Tick(tick)]) + [Verdict(VerdictPayload(u.id, d))]
        == s.ledger.log + [Tick(tick), Verdict(VerdictPayload(u.id, d))];
    DecidedRunning(recorded, d, gates, r, wave, k);
  }

  lemma EndStops(s: Loop)
    ensures forall to, e :: !End(s, to, e).outcome.Running?
  {
    hide Moved;
  }

  lemma DecidedRunning(s: Loop, d: Decision, gates: AcceptGates, r: Receipt, wave: seq<Id>, k: Ruling)
    requires s.unit.Some? && s.outcome.Running? && Decided(s, d, gates, r, wave).outcome.Running?
    requires k.recorded == s && k.decision == d && k.receipt == r
    ensures d == DAccept || d == DRework
    ensures Decided(s, d, gates, r, wave) == After(k, wave)
    ensures d == DAccept ==> gates.CanAccept() && LeavesWork(AcceptedLoop(s, r, wave))
  {
    hide Moved, AcceptedLoop, AllAccepted, AcceptGates.CanAccept, ReworkedLoop;
    EndStops(s);
    EndStops(AcceptedLoop(s, r, wave));
    ContinueRuns(ReworkedLoop(s, wave), Rework);
  }

  lemma ContinueRuns(s: Loop, to: RunState)
    ensures Continue(s, to).outcome == s.outcome || Continue(s, to).outcome.Refused?
  {
    hide Moved;
  }

  lemma OuterRuled(c: Config, s: Loop, u: WorkUnit, receipt: Receipt, wave: seq<Id>, v: ReviewInput) returns (k: Ruling)
    requires s.outcome.Running? && s.ledger.run.state == InnerWorking
    requires OuterPhase(c, s, u, receipt, false, wave, v).outcome.Running?
    ensures Ruled(s, u, wave, k) && k.receipt == OverriddenCommand(receipt, u)
    ensures OuterPhase(c, s, u, receipt, false, wave, v) == After(k, wave)
    ensures k.decision.DAccept? ==> LeavesWork(AcceptedLoop(k.recorded, k.receipt, wave))
  {
    hide Judge, TurnsExhausted, ReceiptPayload, VerdictPayload, After, AcceptGates.CanAccept, Exhausted, LeavesWork,
         AcceptedLoop;
    var r := OverriddenCommand(receipt, u);
    var e := ReceiptSubmitted(ReceiptPayload(r, u.id));
    var s1 := Submitted(s, u, r, false);
    EndStops(s1);
    var s2 := Continue(s1, OuterReviewing);
    k := JudgeRuled(c, s2, u, r, wave, v);
    var t, w := Tick(k.tick), Verdict(VerdictPayload(u.id, k.decision));
    assert (s.ledger.log + [e]) + [t, w] == s.ledger.log + [e, t, w];
  }
}
