/** An outside world in which everything works and the review asks for more: the
    answers used where a run has to be shown to get somewhere. */
module Calm {
  import opened Types
  import opened Accept
  import opened Budget
  import opened Events
  import opened GlobOverlap
  import opened Drive

  const FREE := Usage(Some(0), None, None, 0, 0)

  /** A worker call of one turn that reports no usage. */
  const WORKED := Handle(1, false, 0, true, None, None, None)

  const CHANGE := Committed(0, ["f"])

  /** The tests fail in the outer review, everything else is in order. */
  const FAILED_TESTS := ReviewInput(1, ["f"], true, true, true, true, Ok(true), true, [], FREE)

  /** The answers to one turn, for a batch of n peers should there be one. */
  function Answers(plans: seq<Result<(Plan, Usage), ErrorCode>>, h: Handle, n: nat): TurnInput {
    TurnInput(
      plans,
      seq(MAX_GOAL_ITERS, _ => GoalPass(Ok([]), Ok(h), Ok(0), Ok(["f"]), None)),
      Ok(CHANGE),
      BatchInput(None, None, seq(n, _ => PeerResult(Ok(h), Ok(CHANGE))), Ok(CHANGE), 0),
      FAILED_TESTS)
  }

  // ---- the inner phase ----

  /** A worker's receipt is there, for a run that was working. */
  ghost predicate Delivered(s: Loop, g: Phase, u: WorkUnit, wave: seq<Id>) {
    && g.Got? && !g.stored && g.u == u && g.wave == wave && g.receipt.changedFiles == ["f"]
    && g.s == s.(ledger := g.s.ledger, nextId := g.s.nextId)
    && g.s.ledger.run.state == InnerWorking
  }

  lemma {:induction false} GoalIsReached(c: Config, l: Ledger, input: TurnInput,
                                         plans: seq<Result<(Plan, Usage), ErrorCode>>, h: Handle, n: nat)
    requires input == Answers(plans, h, n) && !h.crashed && !Exhausted(l.run)
    ensures GoalLoop(c, l, input.goal, 0, None, None) == (Worked(c, l, h), Ok(h.(testExit := 0)))
  {
    hide Worked, Exhausted;
  }

  lemma WorkKeepsState(c: Config, l: Ledger, h: Handle)
    ensures Worked(c, l, h).run.state == l.run.state
  {
    hide CostOf;
  }

  lemma SingleDelivers(c: Config, s: Loop, existing: Option<WorkUnit>, title: string, instruction: string,
                       plans: seq<Result<(Plan, Usage), ErrorCode>>, h: Handle, n: nat)
    requires !Exhausted(s.ledger.run) && (s.ledger.run.state == Dispatched || s.ledger.run.state == InnerWorking)
             && !h.crashed
    ensures var u := if existing.Some? then Redirected(existing.value, title, instruction)
                     else NewUnit(s.nextId, title, instruction);
            Delivered(s, RunSingle(c, s, existing, title, instruction, Answers(plans, h, n)), u, [])
  {
    hide GoalLoop, Worked, UnitPayload;
    var u := if existing.Some? then Redirected(existing.value, title, instruction)
             else NewUnit(s.nextId, title, instruction);
    var l := Moved(Dispatch(s, u, existing.None?).ledger, InnerWorking).value;
    GoalIsReached(c, l, Answers(plans, h, n), plans, h, n);
    WorkKeepsState(c, l, h);
  }

  lemma {:induction false} PeersDeliver(c: Config, l: Ledger, b: BatchInput, first: Id, receipts: Id, i: nat, n: nat,
                                        h: Handle)
    requires i <= n && l.bursts != [] && b.peers == seq(n, _ => PeerResult(Ok(h), Ok(CHANGE)))
    ensures var (done, error) := Collect(c, l, b, first, receipts, i, n);
            error.None? && done.run.state == l.run.state
    decreases n - i
  {
    hide CostOf, ReceiptPayload;
    if i < n {
      var worked := ChargeHandle(c, Booked(l, h), h);
      var r := PeerReceipt(c, receipts + i, first + i, h, CHANGE);
      PeersDeliver(c, Logged(worked, ReceiptSubmitted(ReceiptPayload(r, first + i))), b, first, receipts, i + 1, n, h);
    }
  }

  lemma {:induction false} SeedsKeepState(l: Ledger, first: Id, master: Id, peers: seq<PeerDraft>, idx: nat)
    requires idx <= |peers|
    ensures SeedPeers(l, first, master, peers, idx).run == l.run
    decreases |peers| - idx
  {
    hide UnitPayload;
    if idx < |peers| {
      var u := NewPeer(first + idx, idx, master, peers[idx]);
      SeedsKeepState(Logged(l, UnitSeeded(UnitPayload(u))), first, master, peers, idx + 1);
    }
  }

  lemma {:induction false} BatchDelivers(c: Config, s: Loop, peers: seq<PeerDraft>, covers: seq<Id>,
                      plans: seq<Result<(Plan, Usage), ErrorCode>>, h: Handle)
    requires |peers| >= 2 && PairwiseDisjoint(c.matcher, DraftGlobs(peers))
    requires s.ledger.run.state == Dispatched || s.ledger.run.state == InnerWorking
    ensures Delivered(s, RunPeerBatch(c, s, peers, covers, Answers(plans, h, |peers|).batch),
                      NewMaster(s.nextId, peers), covers)
  {
    hide Collect, SeedPeers, MasterPayload, PairwiseDisjoint, Instructions;
    var b, n := Answers(plans, h, |peers|).batch, |peers|;
    var master := NewMaster(s.nextId, peers);
    var s1 := s.(ledger := Logged(s.ledger, UnitDispatched(MasterPayload(master, covers))), nextId := s.nextId + 1);
    var l := Moved(s1.ledger, InnerWorking).value;
    SeedsKeepState(l, s1.nextId, master.id, peers, 0);
    var seeded := Opened(SeedPeers(l, s1.nextId, master.id, peers, 0));
    PeersDeliver(c, seeded, b, s1.nextId, s1.nextId + n, 0, n, h);
  }

  // ---- the outer phase ----

  /** The review sends the work back while the count allows, and escalates at the limit. */
  lemma SentBack(c: Config, s: Loop, u: WorkUnit, receipt: Receipt, wave: seq<Id>)
    requires s.outcome.Running? && s.ledger.run.state == InnerWorking && receipt.changedFiles == ["f"]
    ensures var t := OuterPhase(c, s, u, receipt, false, wave, FAILED_TESTS);
            t.ledger.run == s.ledger.run.(state := if u.rework < MAX_REWORK && s.waveRework < MAX_REWORK then Dispatched
                                                   else Escalate)
    ensures var t := OuterPhase(c, s, u, receipt, false, wave, FAILED_TESTS);
            u.rework < MAX_REWORK && s.waveRework < MAX_REWORK ==> t.outcome.Running?
  {
    hide CostOf, Exhausted, ReceiptPayload, VerdictPayload, ReworkMembers;
    var r := OverriddenCommand(receipt, u);
    var s1 := Submitted(s, u, r, false);
    var s2 := Continue(s1, OuterReviewing);
    assert s2.ledger.run == s.ledger.run.(state := OuterReviewing);
    assert s2.unit.value.rework == u.rework && s2.waveRework == s.waveRework;
    JudgedBack(c, s2, u, r, wave);
  }

  lemma JudgedBack(c: Config, s: Loop, u: WorkUnit, r: Receipt, wave: seq<Id>)
    requires s.outcome.Running? && s.ledger.run.state == OuterReviewing && s.unit.Some?
             && s.unit.value.rework == u.rework
    ensures var t := Judge(c, s, u, r, wave, FAILED_TESTS);
            t.ledger.run == s.ledger.run.(state := if u.rework < MAX_REWORK && s.waveRework < MAX_REWORK then Dispatched
                                                   else Escalate)
    ensures var t := Judge(c, s, u, r, wave, FAILED_TESTS);
            u.rework < MAX_REWORK && s.waveRework < MAX_REWORK ==> t.outcome.Running?
  {
    hide CostOf, Exhausted, VerdictPayload, Enforced, Decided, AcceptGates.CanAccept;
    var gates := GatesOf(c, s, u, r, true, FAILED_TESTS);
    RedIsSentBack(gates);
    var charged := s.(ledger := ChargeAndTick(s.ledger, FREE, c.commanderIn, c.commanderOut));
    FreeCostsNothing(c, s.ledger);
    var d := Enforced(DRework, gates).0;
    BackOrUp(Recorded(charged, u.id, wave, gates, d), d, gates, r, wave);
  }

  lemma FreeCostsNothing(c: Config, l: Ledger)
    ensures ChargeAndTick(l, FREE, c.commanderIn, c.commanderOut).run == l.run
  {}

  lemma RedIsSentBack(gates: AcceptGates)
    requires gates.outerTestExitCode != 0
    ensures !gates.CanAccept() && Enforced(DRework, gates).1 != Some(EBudget)
    ensures Enforced(DRework, gates).0 == if gates.reworkCount < MAX_REWORK then DRework else DEscalate
  {}

  lemma BackOrUp(s: Loop, d: Decision, gates: AcceptGates, r: Receipt, wave: seq<Id>)
    requires s.outcome.Running? && s.ledger.run.state == OuterReviewing && s.unit.Some?
    requires d == if ReworkSoFar(s) < MAX_REWORK then DRework else DEscalate
    ensures var t := Decided(s, d, gates, r, wave);
            t.ledger.run == s.ledger.run.(state := if ReworkSoFar(s) < MAX_REWORK then Dispatched else Escalate)
    ensures ReworkSoFar(s) < MAX_REWORK ==> Decided(s, d, gates, r, wave).outcome.Running?
  {
    hide ReworkMembers;
  }
}
