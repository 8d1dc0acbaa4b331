/** The first turn after a resume from the envelope, next to the turn the live loop
    would have made (continue_factory and drive_factory in
    crates/wanax-cli/src/engine.rs). */
module ResumeTurn {
  import opened Types
  import opened Accept
  import opened Budget
  import opened Events
  import opened GlobOverlap
  import opened Scheduler
  import opened Drive
  import opened Replay
  import opened Chronicle
  import opened FreshRun
  import opened DagRun
  import opened Turns
  import opened Counts
  import opened Heads
  import opened Resume
  import opened Calm
  import Accounting
  import Passes
  import ResumeStart

  /** The loop a resume starts with, from the envelope of a dispatching run. */
  function ResumedLoop(s: Loop): Loop {
    var rs := Replayed(s.ledger.log).units;
    s.(unit := if rs == [] then None else Some(rs[|rs| - 1]), dag := ResumedDag(rs), pending := None,
       reuse := rs != [] && ResumedDag(rs).None?, waveRework := 0, waveKey := {})
  }

  /** The same envelope, the same run and the same end, if any. */
  predicate SameStep(t: Loop, u: Loop) { t.ledger == u.ledger && t.outcome == u.outcome }

  /** The loops differ in what they count and in past receipts only. */
  ghost predicate Twins(s: Loop, r: Loop) {
    && s.ledger == r.ledger && s.nextId == r.nextId && s.outcome == r.outcome
    && s.dag.Some? && r.dag.Some? && SamePlan(s.dag.value, r.dag.value)
  }

  // ---- the inner phase ----

  /** Both inner phases end alike, working on u and w. */
  ghost predicate SamePhase(s: Loop, r: Loop, p: Phase, q: Phase, u: WorkUnit, w: WorkUnit, wave: seq<Id>) {
    && p.s.ledger == q.s.ledger && p.s.nextId == q.s.nextId
    && p.s == s.(ledger := p.s.ledger, nextId := p.s.nextId) && q.s == r.(ledger := q.s.ledger, nextId := q.s.nextId)
    && (|| (p.FailedWith? && q.FailedWith? && p.error == q.error)
        || (p.Got? && q.Got? && p.u == u && q.u == w && p.receipt == q.receipt && !p.stored && !q.stored
            && p.wave == wave && q.wave == wave && p.s.ledger.run.state == InnerWorking))
  }

  lemma {:induction false} SingleAlike(c: Config, s: Loop, r: Loop, d: WorkUnit, e: WorkUnit, title: string,
                                       instruction: string, input: TurnInput)
    requires Twins(s, r) && SameStatic(e, d)
    ensures SamePhase(s, r, RunSingle(c, s, Some(d), title, instruction, input),
                      RunSingle(c, r, Some(e), title, instruction, input),
                      Redirected(d, title, instruction), Redirected(e, title, instruction), [])
  {
    hide GoalLoop, Exhausted, SamePlan;
    var u, w := Redirected(d, title, instruction), Redirected(e, title, instruction);
    assert UnitPayload(u) == UnitPayload(w);
    var moved := Moved(Dispatch(s, u, false).ledger, InnerWorking);
    if moved.Some? {
      WorkStaysWorking(c, moved.value, input);
    }
  }

  lemma {:induction false} WorkStaysWorking(c: Config, l: Ledger, input: TurnInput)
    ensures GoalLoop(c, l, input.goal, 0, None, None).0.run.state == l.run.state
  {
    hide GoalLoop, Accounting.Grew;
    Accounting.GoalLoopGrows(c, l, input.goal, 0, None, None, l.run, 0, 0);
    Accounting.GrewTurns(l, GoalLoop(c, l, input.goal, 0, None, None).0, 0, 0);
  }

  lemma {:induction false} BatchAlike(c: Config, s: Loop, r: Loop, peers: seq<PeerDraft>, covers: seq<Id>,
                                      b: BatchInput)
    requires Twins(s, r)
    ensures var master := NewMaster(s.nextId, peers);
            SamePhase(s, r, RunPeerBatch(c, s, peers, covers, b), RunPeerBatch(c, r, peers, covers, b), master, master,
                      covers)
  {
    hide SeedPeers, Collect, MasterPayload, PairwiseDisjoint, Instructions, SamePlan, Passes.Performed;
    if RunPeerBatch(c, s, peers, covers, b).Got? {
      Passes.BatchWorked(c, s, peers, covers, b);
      PerformedWorks(s, RunPeerBatch(c, s, peers, covers, b), NewMaster(s.nextId, peers),
                     MasterPayload(NewMaster(s.nextId, peers), covers), covers);
    }
  }

  lemma PerformedWorks(s: Loop, g: Phase, u: WorkUnit, p: Payload, wave: seq<Id>)
    requires Passes.Performed(s, g, u, p, wave)
    ensures g.Got? && g.s.ledger.run.state == InnerWorking
  {}

  // ---- the outer phase ----

  lemma {:induction false} MembersAlike(ds: seq<WorkUnit>, rs: seq<WorkUnit>, u: WorkUnit, w: WorkUnit, wave: seq<Id>,
                                        r: Receipt)
    requires SamePlan(ds, rs) && u.id == w.id && u.state == w.state
    ensures AllAccepted(AcceptMembers(ds, u, wave, r)) == AllAccepted(AcceptMembers(rs, w, wave, r))
  {
    var a, b := AcceptMembers(ds, u, wave, r), AcceptMembers(rs, w, wave, r);
    assert forall i :: 0 <= i < |a| ==> a[i].state == b[i].state;
    if AllAccepted(a) {
      forall x | x in b ensures x.state == UAccepted {
        var i :| 0 <= i < |b| && b[i] == x;
        assert a[i] in a;
      }
    }
    if AllAccepted(b) {
      forall x | x in a ensures x.state == UAccepted {
        var i :| 0 <= i < |a| && a[i] == x;
        assert b[i] in b;
      }
    }
  }

  /** Neither count is at the limit. */
  predicate BelowLimit(s: Loop) { s.unit.Some? && s.unit.value.rework < MAX_REWORK && s.waveRework < MAX_REWORK }

  /** The verdict is recorded in both, for the same unit. */
  ghost predicate Deciding(s: Loop, r: Loop) {
    && Twins(s, r) && BelowLimit(s) && BelowLimit(r)
    && s.unit.value.id == r.unit.value.id && s.unit.value.state == r.unit.value.state
  }

  lemma MovesAlike(s: Loop, r: Loop)
    requires s.ledger == r.ledger && s.outcome == r.outcome
    ensures forall to, e :: SameStep(End(s, to, e), End(r, to, e))
    ensures forall to :: SameStep(Continue(s, to), Continue(r, to))
  {}

  lemma AcceptAlike(s: Loop, r: Loop, g: AcceptGates, h: AcceptGates, receipt: Receipt, wave: seq<Id>)
    requires Deciding(s, r) && g.CanAccept() == h.CanAccept()
    ensures SameStep(OnAccept(s, g, receipt, wave), OnAccept(r, h, receipt, wave))
  {
    hide AcceptMembers, AllAccepted, AcceptGates.CanAccept, SamePlan, End, Continue;
    MembersAlike(s.dag.value, r.dag.value, s.unit.value.(state := UAccepted), r.unit.value.(state := UAccepted), wave,
                 receipt);
    MovesAlike(s, r);
    MovesAlike(AcceptedLoop(s, receipt, wave), AcceptedLoop(r, receipt, wave));
  }

  lemma ReworkAlike(s: Loop, r: Loop, wave: seq<Id>)
    requires Deciding(s, r)
    ensures SameStep(OnRework(s, wave), OnRework(r, wave))
  {
    hide ReworkMembers, SamePlan, End, Continue;
    MovesAlike(ReworkedLoop(s, wave), ReworkedLoop(r, wave));
    MovesAlike(Continue(ReworkedLoop(s, wave), Rework), Continue(ReworkedLoop(r, wave), Rework));
  }

  lemma DecidedAlike(s: Loop, r: Loop, d: Decision, g: AcceptGates, h: AcceptGates, receipt: Receipt, wave: seq<Id>)
    requires Deciding(s, r) && g.CanAccept() == h.CanAccept() && g.boundaryOk == h.boundaryOk
    ensures SameStep(Decided(s, d, g, receipt, wave), Decided(r, d, h, receipt, wave))
  {
    hide OnAccept, OnRework, AcceptGates.CanAccept, End;
    AcceptAlike(s, r, g, h, receipt, wave);
    ReworkAlike(s, r, wave);
    MovesAlike(s, r);
  }

  lemma GatesAlike(g: AcceptGates, h: AcceptGates)
    requires h == g.(reworkCount := h.reworkCount) && g.reworkCount < MAX_REWORK && h.reworkCount < MAX_REWORK
    ensures g.CanAccept() == h.CanAccept() && forall d :: Enforced(d, g) == Enforced(d, h)
  {}

  lemma JudgedAlike(c: Config, s: Loop, r: Loop, u: WorkUnit, w: WorkUnit, receipt: Receipt, wave: seq<Id>,
                    v: ReviewInput)
    requires Deciding(s, r)
    requires u.id == w.id && u.testCommand == w.testCommand
    ensures SameStep(Judge(c, s, u, receipt, wave, v), Judge(c, r, w, receipt, wave, v))
  {
    hide CostOf, Exhausted, Enforced, Decided, AskVerdict, AcceptGates.CanAccept, VerdictPayload, SamePlan,
         MechanicalDecision;
    if v.plugin.Ok? {
      var g, h := GatesOf(c, s, u, receipt, v.plugin.value, v), GatesOf(c, r, w, receipt, v.plugin.value, v);
      GatesAlike(g, h);
      var proposal := Proposal(g, v);
      assert proposal == Proposal(h, v);
      if proposal.Ok? {
        var (proposed, usage) := proposal.value;
        var charged := ChargeAndTick(s.ledger, usage, c.commanderIn, c.commanderOut);
        var d := Enforced(proposed, g).0;
        var a, b := Recorded(s.(ledger := charged), u.id, wave, g, d),
            Recorded(r.(ledger := charged), w.id, wave, h, d);
        DecidedAlike(a, b, d, g, h, receipt, wave);
      }
    }
  }

  lemma MoveKeepsRest(s: Loop, to: RunState)
    ensures Continue(s, to) == s.(ledger := Continue(s, to).ledger, outcome := Continue(s, to).outcome)
  {}

  lemma SubmittedAlike(s: Loop, r: Loop, u: WorkUnit, w: WorkUnit, k: Receipt)
    requires Twins(s, r) && s.outcome.Running? && SameStatic(w, u) && u.state == w.state
    ensures var a, b := Submitted(s, u, k, false), Submitted(r, w, k, false);
            && SameStep(a, b)
            && a == s.(ledger := a.ledger, outcome := a.outcome, unit := a.unit)
            && b == r.(ledger := b.ledger, outcome := b.outcome, unit := b.unit)
            && a.unit.Some? && b.unit.Some? && a.unit.value.rework == u.rework && b.unit.value.rework == w.rework
            && a.unit.value.id == b.unit.value.id && a.unit.value.state == b.unit.value.state
  {
    hide ReceiptPayload, SamePlan, Continue;
    var e := ReceiptSubmitted(ReceiptPayload(k, u.id));
    var a := s.(unit := Some(u.(receiptId := Some(k.id), commit := Some(k.commit), state := UReceiptReady)),
                ledger := Logged(s.ledger, e));
    var b := r.(unit := Some(w.(receiptId := Some(k.id), commit := Some(k.commit), state := UReceiptReady)),
                ledger := Logged(r.ledger, e));
    MovesAlike(a, b);
    MoveKeepsRest(a, ReceiptReady);
    MoveKeepsRest(b, ReceiptReady);
  }

  lemma OuterAlike(c: Config, s: Loop, r: Loop, u: WorkUnit, w: WorkUnit, receipt: Receipt, wave: seq<Id>,
                   v: ReviewInput)
    requires Twins(s, r) && s.ledger.run.state == InnerWorking && s.outcome.Running?
    requires SameStatic(w, u) && u.state == w.state
    requires u.rework < MAX_REWORK && w.rework < MAX_REWORK && s.waveRework < MAX_REWORK && r.waveRework < MAX_REWORK
    ensures SameStep(OuterPhase(c, s, u, receipt, false, wave, v), OuterPhase(c, r, w, receipt, false, wave, v))
  {
    hide Judge, SamePlan, ReceiptPayload, TurnsExhausted, Continue;
    var k := OverriddenCommand(receipt, u);
    assert k == OverriddenCommand(receipt, w);
    SubmittedAlike(s, r, u, w, k);
    MoveKeepsRest(Submitted(s, u, k, false), OuterReviewing);
    MoveKeepsRest(Submitted(r, w, k, false), OuterReviewing);
    MovesAlike(Submitted(s, u, k, false), Submitted(r, w, k, false));
    var a, b := Continue(Submitted(s, u, k, false), OuterReviewing),
        Continue(Submitted(r, w, k, false), OuterReviewing);
    JudgedAlike(c, a, b, u, w, k, wave, v);
  }

  // ---- a turn ----

  lemma SerialAlike(c: Config, s: Loop, r: Loop, d: WorkUnit, e: WorkUnit, input: TurnInput)
    requires Twins(s, r) && s.outcome.Running? && SameStatic(e, d)
    requires d.rework < MAX_REWORK && e.rework < MAX_REWORK && s.waveRework < MAX_REWORK && r.waveRework < MAX_REWORK
    ensures SameStep(Resolve(c, RunSingle(c, s, Some(d), d.title, d.instruction, input), input),
                     Resolve(c, RunSingle(c, r, Some(e), e.title, e.instruction, input), input))
  {
    hide RunSingle, OuterPhase, SamePlan;
    SingleAlike(c, s, r, d, e, d.title, d.instruction, input);
    var p, q := RunSingle(c, s, Some(d), d.title, d.instruction, input),
        RunSingle(c, r, Some(e), e.title, e.instruction, input);
    if p.Got? { OuterAlike(c, p.s, q.s, p.u, q.u, p.receipt, [], input.review); }
  }

  lemma {:induction false} WaveAlike(c: Config, s: Loop, r: Loop, peers: seq<PeerDraft>, ids: seq<Id>, input: TurnInput)
    requires Twins(s, r) && s.outcome.Running? && s.waveRework < MAX_REWORK && r.waveRework < MAX_REWORK
    ensures SameStep(Resolve(c, RunPeerBatch(c, s, peers, ids, input.batch), input),
                     Resolve(c, RunPeerBatch(c, r, peers, ids, input.batch), input))
  {
    hide RunPeerBatch, OuterPhase, SamePlan, Instructions;
    BatchAlike(c, s, r, peers, ids, input.batch);
    var p, q := RunPeerBatch(c, s, peers, ids, input.batch), RunPeerBatch(c, r, peers, ids, input.batch);
    if p.Got? { OuterAlike(c, p.s, q.s, p.u, q.u, p.receipt, ids, input.review); }
  }

  /** Live and rebuilt units, as a resume finds them. */
  ghost predicate Rebuilt(c: Config, s: Loop, r: Loop, ds: seq<WorkUnit>, rs: seq<WorkUnit>) {
    && s.dag == Some(ds) && r.dag == Some(rs) && Twins(s, r) && r.pending.None? && s.pending.None? && s.outcome.Running?
    && s.waveRework == 0 && r.waveRework == 0
    && (forall i :: 0 <= i < |ds| ==> SameStatic(rs[i], ds[i]))
    && Ids(Wave(c.matcher, ReadyUnits(rs))) == Ids(Wave(c.matcher, ReadyUnits(ds)))
    && NextReady(rs).Some? && NextReady(ds).Some? && NextReady(rs).value.id == NextReady(ds).value.id
    && DistinctIds(ds) && AcceptedClosed(ds)
  }

  lemma {:induction false} HeadRebuilt(c: Config, s: Loop, ds: seq<WorkUnit>)
    requires FreshHead(c, s) && CountOk(s) && NamesOk(s) && s.dag == Some(ds) && OnlyOwn(s.ledger.log, Ids(ds))
    ensures Rebuilt(c, s, ResumedLoop(s), ds, Replayed(s.ledger.log).units)
  {
    hide FreshHead, Replayed, Wave, ReadyUnits, NextReady, SameStatic, SamePlan, Ids, AllAccepted, Serial, Named,
         DistinctIds, AcceptedClosed, Shape, CountOk, ReworkVerdicts;
    HeadRuns(c, s);
    ReplayOrder(s.ledger.log);
    ResumeAlike(c, s, ds);
    HeadDag(c, s, ds);
    ShapeParts(ds, s.nextId);
  }

  /** The member of the rebuilt list with a given id is the rebuilt unit. */
  lemma SameMember(c: Config, s: Loop, r: Loop, ds: seq<WorkUnit>, rs: seq<WorkUnit>, d: WorkUnit, e: WorkUnit)
    requires Rebuilt(c, s, r, ds, rs) && d in ds && e in rs && d.id == e.id
    ensures SameStatic(e, d)
  {
    hide Wave, ReadyUnits, NextReady, Ids, SameStatic, AcceptedClosed;
    var i :| 0 <= i < |ds| && ds[i] == d;
    var j :| 0 <= j < |rs| && rs[j] == e;
    assert SameTask(ds[j], rs[j]);
  }

  lemma DraftsAlike(c: Config, s: Loop, r: Loop, ds: seq<WorkUnit>, rs: seq<WorkUnit>)
    requires Rebuilt(c, s, r, ds, rs)
    ensures WaveDrafts(Wave(c.matcher, ReadyUnits(rs))) == WaveDrafts(Wave(c.matcher, ReadyUnits(ds)))
    ensures |Wave(c.matcher, ReadyUnits(rs))| == |Wave(c.matcher, ReadyUnits(ds))|
  {
    hide Wave, ReadyUnits, NextReady, SameStatic, Rebuilt;
    var a, b := Wave(c.matcher, ReadyUnits(ds)), Wave(c.matcher, ReadyUnits(rs));
    SameIdsAt(c, s, r, ds, rs);
    WaveIsMaximalAndDisjoint(c.matcher, ReadyUnits(ds));
    WaveIsMaximalAndDisjoint(c.matcher, ReadyUnits(rs));
    ReadyAreUnits(ds);
    ReadyAreUnits(rs);
    forall i | 0 <= i < |a| ensures WaveDrafts(a)[i] == WaveDrafts(b)[i] {
      assert a[i] in a && b[i] in b;
      SameMember(c, s, r, ds, rs, a[i], b[i]);
      SameDraft(a[i], b[i]);
    }
  }

  lemma SameIdsAt(c: Config, s: Loop, r: Loop, ds: seq<WorkUnit>, rs: seq<WorkUnit>)
    requires Rebuilt(c, s, r, ds, rs)
    ensures var a, b := Wave(c.matcher, ReadyUnits(ds)), Wave(c.matcher, ReadyUnits(rs));
            |a| == |b| && forall i :: 0 <= i < |a| ==> a[i].id == b[i].id
  {
    hide Wave, ReadyUnits, NextReady, SameStatic;
    var a, b := Wave(c.matcher, ReadyUnits(ds)), Wave(c.matcher, ReadyUnits(rs));
    assert |a| == |Ids(a)| == |Ids(b)| == |b|;
    forall i | 0 <= i < |a| ensures a[i].id == b[i].id { assert Ids(a)[i] == Ids(b)[i]; }
  }

  lemma ReadyAreUnits(ds: seq<WorkUnit>)
    ensures forall u :: u in ReadyUnits(ds) ==> u in ds
  {}

  lemma SameDraft(d: WorkUnit, e: WorkUnit)
    requires SameStatic(e, d)
    ensures e.title == d.title && e.instruction == d.instruction && GlobsOf(e) == GlobsOf(d)
  {}

  lemma TurnAlike(c: Config, s: Loop, r: Loop, ds: seq<WorkUnit>, rs: seq<WorkUnit>, input: TurnInput)
    requires Rebuilt(c, s, r, ds, rs)
    requires Exhausted(s.ledger.run) || |Wave(c.matcher, ReadyUnits(ds))| >= 2
             || (NextReady(ds).value.rework < MAX_REWORK && NextReady(rs).value.rework < MAX_REWORK)
    ensures SameStep(Turn(c, s, input), Turn(c, r, input))
  {
    hide Wave, ReadyUnits, SameStatic, RunSingle, RunPeerBatch, Resolve, Exhausted, SamePlan, DistinctIds,
         AcceptedClosed;
    DraftsAlike(c, s, r, ds, rs);
    var a := Wave(c.matcher, ReadyUnits(ds));
    if Exhausted(s.ledger.run) {
    } else if |a| >= 2 {
      WaveAlike(c, Waved(s, Ids(a)), Waved(r, Ids(a)), WaveDrafts(a), Ids(a), input);
    } else {
      var d, e := NextReady(ds).value, NextReady(rs).value;
      SameMember(c, s, r, ds, rs, d, e);
      SerialAlike(c, s, r, d, e, input);
    }
  }

  /** A unit dispatched by itself has no live rework count. */
  lemma SerialUncounted(c: Config, s: Loop, ds: seq<WorkUnit>)
    requires FreshHead(c, s) && s.dag == Some(ds) && |Wave(c.matcher, ReadyUnits(ds))| < 2 && NextReady(ds).Some?
    ensures NextReady(ds).value.rework == 0
  {
    hide Wave, ReadyUnits, Tracked, Stable, Shape, Credited, Recounted, Below, OrderedLog, Honest;
    var d := NextReady(ds).value;
    assert d in ds && d.state != UAccepted;
  }

  /** The answers that tell the two apart: the work is sent back. */
  lemma {:induction false} TurnsDiffer(c: Config, s: Loop, r: Loop, ds: seq<WorkUnit>, rs: seq<WorkUnit>,
                                       input: TurnInput)
    requires Rebuilt(c, s, r, ds, rs) && FreshHead(c, s) && !Exhausted(s.ledger.run)
             && |Wave(c.matcher, ReadyUnits(ds))| < 2
    requires NextReady(rs).value.rework >= MAX_REWORK && input == Answers([], WORKED, 0)
    ensures !SameStep(Turn(c, s, input), Turn(c, r, input))
  {
    hide Wave, ReadyUnits, SameStatic, RunSingle, RunPeerBatch, OuterPhase, Exhausted, SamePlan, FreshHead, Answers,
         DistinctIds, AcceptedClosed;
    HeadRuns(c, s);
    SerialUncounted(c, s, ds);
    SameIdsAt(c, s, r, ds, rs);
    var d, e := NextReady(ds).value, NextReady(rs).value;
    SingleDelivers(c, s, Some(d), d.title, d.instruction, [], WORKED, 0);
    SingleDelivers(c, r, Some(e), e.title, e.instruction, [], WORKED, 0);
    var p, q := RunSingle(c, s, Some(d), d.title, d.instruction, input),
        RunSingle(c, r, Some(e), e.title, e.instruction, input);
    CalmReview(input);
    SentBack(c, p.s, p.u, p.receipt, []);
    SentBack(c, q.s, q.u, q.receipt, []);
  }

  lemma CalmReview(input: TurnInput)
    requires input == Answers([], WORKED, 0)
    ensures input.review == FAILED_TESTS
  {}

  /** A crash at any head of a fresh run that dispatched units of its DAG only, resumed
      from the envelope: whatever the outside world answers, the next turn does what it
      would have done live, if and only if the run is out of budget, a wave is next, or
      the unit that is next was sent back less than MAX_REWORK times. The live loop
      forgets those reworks of a unit dispatched by itself, the envelope does not. */
  lemma {:induction false} ResumedTurnExactly(c: Config, run: Run, first: Id, env: nat -> TurnInput, k: nat)
    requires run.state == Dispatched
    requires var s := HeadAt(c, run, first, env, k);
             s.outcome.Running? && s.dag.Some? && OnlyOwn(s.ledger.log, Ids(s.dag.value))
    ensures var s := HeadAt(c, run, first, env, k);
            var ds, rs := s.dag.value, Replayed(s.ledger.log).units;
            && NextReady(rs).Some?
            && ((forall input :: SameStep(Turn(c, s, input), Turn(c, ResumedLoop(s), input))) <==>
                Exhausted(s.ledger.run) || |Wave(c.matcher, ReadyUnits(ds))| >= 2
                    || NextReady(rs).value.rework < MAX_REWORK)
  {
    hide HeadAt, FreshHead, Replayed, NamesOk, Turn, SameStep, Wave, ReadyUnits, Exhausted, Rebuilt, OnlyOwn,
         ResumedLoop, Answers, CountOk;
    NamesThroughout(c, run, first, env, k);
    EveryHeadCounts(c, run, first, env, k);
    var s := HeadAt(c, run, first, env, k);
    var ds, rs, r := s.dag.value, Replayed(s.ledger.log).units, ResumedLoop(s);
    HeadRebuilt(c, s, ds);
    RebuiltNext(c, s, r, ds, rs);
    if Exhausted(s.ledger.run) || |Wave(c.matcher, ReadyUnits(ds))| >= 2 || NextReady(rs).value.rework < MAX_REWORK {
      if |Wave(c.matcher, ReadyUnits(ds))| < 2 { SerialUncounted(c, s, ds); }
      forall input ensures SameStep(Turn(c, s, input), Turn(c, r, input)) { TurnAlike(c, s, r, ds, rs, input); }
    } else {
      TurnsDiffer(c, s, r, ds, rs, Answers([], WORKED, 0));
    }
  }

  lemma RebuiltNext(c: Config, s: Loop, r: Loop, ds: seq<WorkUnit>, rs: seq<WorkUnit>)
    requires Rebuilt(c, s, r, ds, rs)
    ensures NextReady(rs).Some? && NextReady(ds).Some? && s.outcome.Running? && r.outcome.Running?
    ensures r.ledger == s.ledger && r.dag == Some(rs) && r.pending.None?
  {}

  // ---- sent back too often to be accepted ----

  lemma JudgedTooOften(c: Config, s: Loop, u: WorkUnit, r: Receipt, wave: seq<Id>, v: ReviewInput)
    requires s.unit.Some? && s.outcome.Running? && s.ledger.run.state == OuterReviewing && ReworkSoFar(s) > MAX_REWORK
    ensures var t := Judge(c, s, u, r, wave, v); t.outcome.Ended? && t.ledger.run.state != Accepted
  {
    hide CostOf, Exhausted, Enforced, AskVerdict, AcceptGates.CanAccept, VerdictPayload, OnAccept, OnRework,
         MechanicalDecision;
    if v.plugin.Ok? {
      var gates := GatesOf(c, s, u, r, v.plugin.value, v);
      TooOften(gates);
      var proposed := MechanicalDecision(v.outerCode, v.boundaryOk, v.changed);
      AcceptIffGates(proposed, gates);
      ReworkLeavesRoom(proposed, gates);
    }
  }

  lemma TooOften(gates: AcceptGates)
    requires gates.reworkCount > MAX_REWORK
    ensures !gates.CanAccept()
  {}

  lemma OuterTooOften(c: Config, s: Loop, u: WorkUnit, receipt: Receipt, v: ReviewInput)
    requires s.outcome.Running? && s.ledger.run.state == InnerWorking && u.rework > MAX_REWORK
    ensures var t := OuterPhase(c, s, u, receipt, false, [], v); t.outcome.Ended? && t.ledger.run.state != Accepted
  {
    hide Judge, ReceiptPayload, TurnsExhausted;
    var k := OverriddenCommand(receipt, u);
    var s2 := Continue(Submitted(s, u, k, false), OuterReviewing);
    JudgedTooOften(c, s2, u, k, [], v);
  }

  /** The unit is worked on, or the attempt fails; the run is not accepted meanwhile. */
  lemma {:induction false} WorkedOn(c: Config, r: Loop, e: WorkUnit, input: TurnInput)
    requires r.outcome.Running? && ResumeStart.MayDispatch(r.ledger.run.state)
    ensures var p := RunSingle(c, r, Some(e), e.title, e.instruction, input);
            && p.s.outcome.Running? && p.s.ledger.run.state == InnerWorking
            && (p.FailedWith? || (p.Got? && !p.stored && p.wave == [] && p.u.rework == e.rework))
  {
    hide GoalLoop, UnitPayload;
    var moved := Moved(Dispatch(r, Redirected(e, e.title, e.instruction), false).ledger, InnerWorking).value;
    WorkStaysWorking(c, moved, input);
  }

  /** A resumed unit that was sent back more than MAX_REWORK times cannot be accepted any
      more: its next turn ends the run, and not as accepted, whatever is answered. */
  lemma {:induction false} TooOftenEnds(c: Config, r: Loop, rs: seq<WorkUnit>, input: TurnInput)
    requires r.outcome.Running? && r.pending.None? && r.dag == Some(rs) && ResumeStart.MayDispatch(r.ledger.run.state)
    requires |Wave(c.matcher, ReadyUnits(rs))| < 2 && NextReady(rs).Some? && NextReady(rs).value.rework > MAX_REWORK
    ensures Turn(c, r, input).outcome.Ended? && Turn(c, r, input).ledger.run.state != Accepted
  {
    hide Wave, ReadyUnits, RunSingle, OuterPhase, Exhausted;
    var e := NextReady(rs).value;
    var p := RunSingle(c, r, Some(e), e.title, e.instruction, input);
    WorkedOn(c, r, e, input);
    if p.Got? { OuterTooOften(c, p.s, p.u, p.receipt, input.review); }
  }
}
