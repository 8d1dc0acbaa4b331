/** Accept safety for any run, resumed ones included: how a run can come to be
    accepted (drive_factory in crates/wanax-cli/src/engine.rs). */
module AcceptedEnd {
  import opened Types
  import opened Accept
  import opened Budget
  import opened Events
  import opened Scheduler
  import opened Drive
  import opened Accounting
  import opened Safety
  import opened WholeRun
  import Dag

  /** The run was accepted by a review of its own, under all gates, with nothing charged
      after it and money and turns left. */
  ghost predicate AcceptedByReview(before: seq<Reviewed>, t: Loop) {
    exists last: Reviewed ::
      && t.reviews == before + [last] && last.decision.DAccept? && last.gates.CanAccept()
      && !Exhausted(last.run) && t.ledger.run == last.run.(state := Accepted)
  }

  // ---- an accepted run has ended ----

  lemma DecidedAccepted(s: Loop, d: Decision, gates: AcceptGates, r: Receipt, wave: seq<Id>)
    requires s.unit.Some? && s.outcome.Running? && s.ledger.run.state == OuterReviewing
    ensures Decided(s, d, gates, r, wave).ledger.run.state == Accepted ==> Decided(s, d, gates, r, wave).outcome.Ended?
  {
    hide AcceptGates.CanAccept, AllAccepted, AcceptMembers, ReworkMembers;
  }

  lemma JudgedAccepted(c: Config, s: Loop, u: WorkUnit, r: Receipt, wave: seq<Id>, v: ReviewInput)
    requires s.unit.Some? && s.outcome.Running? && s.ledger.run.state == OuterReviewing
    ensures Judge(c, s, u, r, wave, v).ledger.run.state == Accepted ==> Judge(c, s, u, r, wave, v).outcome.Ended?
  {
    hide CostOf, Exhausted, Enforced, Decided, AskVerdict, AcceptGates.CanAccept, VerdictPayload;
    if v.plugin.Ok? {
      var gates := GatesOf(c, s, u, r, v.plugin.value, v);
      var proposal := Proposal(gates, v);
      if proposal.Ok? {
        var (proposed, usage) := proposal.value;
        var charged := s.(ledger := ChargeAndTick(s.ledger, usage, c.commanderIn, c.commanderOut));
        var d := Enforced(proposed, gates).0;
        DecidedAccepted(Recorded(charged, u.id, wave, gates, d), d, gates, r, wave);
      }
    }
  }

  lemma JudgeAccepts(c: Config, s: Loop, u: WorkUnit, r: Receipt, wave: seq<Id>, v: ReviewInput)
    requires s.unit.Some? && s.outcome.Running? && s.ledger.run.state == OuterReviewing
    requires Judge(c, s, u, r, wave, v).ledger.run.state == Accepted
    ensures AcceptedByReview(s.reviews, Judge(c, s, u, r, wave, v))
  {
    hide Judge, Exhausted, AcceptGates.CanAccept, AllAccepted, AcceptMembers;
    JudgedAccepted(c, s, u, r, wave, v);
    var added := JudgeEnds(c, s, u, r, wave, v);
    assert added == [added[0]];
  }

  lemma OuterAccepts(c: Config, s: Loop, u: WorkUnit, receipt: Receipt, stored: bool, wave: seq<Id>, v: ReviewInput)
    requires s.outcome.Running? && s.ledger.run.state != Accepted
    requires OuterPhase(c, s, u, receipt, stored, wave, v).ledger.run.state == Accepted
    ensures AcceptedByReview(s.reviews, OuterPhase(c, s, u, receipt, stored, wave, v))
  {
    hide Judge, AcceptedByReview, TurnsExhausted, ReceiptPayload;
    var r := OverriddenCommand(receipt, u);
    var s2 := Continue(Submitted(s, u, r, stored), OuterReviewing);
    JudgeAccepts(c, s2, u, r, wave, v);
  }

  // ---- the inner phase accepts nothing ----

  /** The inner phase leaves a run that is not accepted, and its reviews alone. */
  ghost predicate Unaccepted(s: Loop, p: Phase) {
    p.s.outcome.Running? && p.s.ledger.run.state != Accepted && p.s.reviews == s.reviews
  }

  lemma {:induction false} SingleUnaccepted(c: Config, s: Loop, existing: Option<WorkUnit>, title: string,
                                            instruction: string, input: TurnInput)
    requires s.outcome.Running? && s.ledger.run.state != Accepted
    ensures Unaccepted(s, RunSingle(c, s, existing, title, instruction, input))
    ensures var p := RunSingle(c, s, existing, title, instruction, input); p.Got? || p.FailedWith?
  {
    hide GoalLoop, UnitPayload, Grew;
    var u := if existing.Some? then Redirected(existing.value, title, instruction)
             else NewUnit(s.nextId, title, instruction);
    var moved := Moved(Dispatch(s, u, existing.None?).ledger, InnerWorking);
    if moved.Some? {
      GoalLoopGrows(c, moved.value, input.goal, 0, None, None, s.ledger.run, 0, 0);
      var (worked, _) := GoalLoop(c, moved.value, input.goal, 0, None, None);
      GrewTurns(moved.value, worked, 0, 0);
    }
  }

  lemma {:induction false} BatchUnaccepted(c: Config, s: Loop, peers: seq<PeerDraft>, covers: seq<Id>, b: BatchInput)
    requires s.outcome.Running? && s.ledger.run.state != Accepted
    ensures Unaccepted(s, RunPeerBatch(c, s, peers, covers, b))
    ensures var p := RunPeerBatch(c, s, peers, covers, b); p.Got? || p.FailedWith?
  {
    hide SeedPeers, Collect, MasterPayload, Grew, Instructions;
    var n := |peers|;
    var master := NewMaster(s.nextId, peers);
    var s1 := s.(ledger := Logged(s.ledger, UnitDispatched(MasterPayload(master, covers))), nextId := s.nextId + 1);
    var moved := Moved(s1.ledger, InnerWorking);
    if n >= 2 && moved.Some? {
      var from, to := s1.nextId, s1.nextId + n;
      SeedPeersGrows(moved.value, from, master.id, peers, 0, s.ledger.run, from, to);
      var l := SeedPeers(moved.value, from, master.id, peers, 0);
      GrewTurns(moved.value, l, from, to);
      CollectGrows(c, Opened(l), b, from, to, 0, n, s.ledger.run, from, to);
      GrewTurns(Opened(l), Collect(c, Opened(l), b, from, to, 0, n).0, from, to);
    }
  }

  lemma {:induction false} PlanUnaccepted(c: Config, s: Loop, input: TurnInput)
    requires s.outcome.Running? && s.ledger.run.state != Accepted
    ensures var p := PlanPhase(c, s, input);
            p.s.ledger.run.state != Accepted && p.s.reviews == s.reviews
                && (p.Got? || p.FailedWith? ==> p.s.outcome.Running?)
  {
    hide RunSingle, RunPeerBatch, AskPlan, CostOf, Exhausted, Dag.Sorted, SeedEvents;
    var asked := AskPlan(input.plans, 3, ECommanderSchema);
    if asked.Ok? {
      var (plan, usage) := asked.value;
      var s1 := s.(ledger := ChargeAndTick(s.ledger, usage, c.commanderIn, c.commanderOut));
      match plan
      case Peers(peers) => BatchUnaccepted(c, s1, peers, [], input.batch);
      case Dag(_) =>
      case Single(title, instruction) => SingleUnaccepted(c, s1, s1.unit, title, instruction, input);
    }
  }

  /** Every unit of the DAG was accepted before the turn began. */
  ghost predicate NothingLeft(s: Loop) { s.dag.Some? && AllAccepted(s.dag.value) }

  lemma {:induction false} InnerUnaccepted(c: Config, s: Loop, input: TurnInput)
    requires s.outcome.Running? && s.ledger.run.state != Accepted
    ensures var p := InnerPhase(c, s, input);
            && (p.Got? || p.FailedWith? ==> Unaccepted(s, p))
            && (!p.Got? && p.s.ledger.run.state == Accepted
                ==> s.pending.None? && NothingLeft(s) && p.s.reviews == s.reviews)
  {
    hide RunSingle, RunPeerBatch, PlanPhase, AllAccepted;
    if s.pending.Some? {
    } else if s.dag.Some? {
      var wave := Wave(c.matcher, ReadyUnits(s.dag.value));
      if |wave| >= 2 {
        BatchUnaccepted(c, Waved(s, Ids(wave)), WaveDrafts(wave), Ids(wave), input.batch);
      } else if NextReady(s.dag.value).Some? {
        var next := NextReady(s.dag.value);
        SingleUnaccepted(c, s, next, next.value.title, next.value.instruction, input);
      }
    } else if s.reuse && s.unit.Some? {
      SingleUnaccepted(c, s.(reuse := false), s.unit, s.unit.value.title, s.unit.value.instruction, input);
    } else {
      PlanUnaccepted(c, s, input);
    }
  }

  // ---- any turn, any run ----

  /** From any state at all, a turn accepts the run only on the word of a review under
      all gates, or because every unit of the DAG was accepted before it. */
  lemma {:induction false} TurnAccepts(c: Config, s: Loop, input: TurnInput)
    requires s.outcome.Running? && s.ledger.run.state != Accepted && Turn(c, s, input).ledger.run.state == Accepted
    ensures AcceptedByReview(s.reviews, Turn(c, s, input)) || (s.pending.None? && NothingLeft(s))
  {
    hide InnerPhase, OuterPhase, Exhausted, AcceptedByReview, NothingLeft;
    InnerUnaccepted(c, s, input);
    var p := InnerPhase(c, s, input);
    if p.Got? { OuterAccepts(c, p.s, p.u, p.receipt, p.stored, p.wave, input.review); }
  }

  /** So a run, new or resumed, is accepted only on the word of the last review it had,
      under all gates and within its budget. */
  lemma {:induction false} RunAccepts(c: Config, s: Loop, env: nat -> TurnInput, k: nat, start: Run)
    requires CleanHead(s) && Books(s.ledger, start) && RunToEnd(c, s, env, k, start).ledger.run.state == Accepted
    ensures exists before :: AcceptedByReview(before, RunToEnd(c, s, env, k, start))
    decreases TurnsLeft(s.ledger.run), s.pending.Some?, s.dag.None?
  {
    hide Turn, AcceptedByReview, Books, AllAccepted;
    TurnIsClean(c, s, env(k), start);
    var t := Turn(c, s, env(k));
    if t.outcome.Running? { RunAccepts(c, t, env, k + 1, start); } else { TurnAccepts(c, s, env(k)); }
  }
}
