/** Whole runs from a fresh start: what holds when the run has ended, whatever
    the commander, the workers and the tests did. */
module WholeRun {
  import opened Types
  import opened State
  import opened Accept
  import opened Budget
  import opened Events
  import opened GlobOverlap
  import opened Scheduler
  import opened Drive
  import opened Replay
  import opened Accounting
  import opened Chronicle
  import opened Passes
  import opened FreshRun
  import opened DagRun
  import opened Turns
  import opened Safety
  import Dag

  /** The loop as a new run enters it. */
  function Fresh(run: Run, first: Id): Loop
    requires run.state == Dispatched
  {
    Loop(Ledger(run, [], [Dispatched], [], []), None, None, None, false, 0, {}, first, [], Running)
  }

  lemma FreshIsHead(c: Config, run: Run, first: Id)
    requires run.state == Dispatched
    ensures FreshHead(c, Fresh(run, first)) && Entry(Fresh(run, first))
  {}

  lemma HeadIsClean(c: Config, s: Loop)
    requires FreshHead(c, s)
    ensures CleanHead(s)
  {
    HeadRuns(c, s);
  }

  // ---- dispatch order on every way out of a turn ----

  /** b continues a without dispatching anything. */
  ghost predicate NoDispatch(a: seq<Event>, b: seq<Event>) {
    a <= b && forall i :: |a| <= i < |b| ==> !b[i].UnitDispatched?
  }

  lemma OrderKept(a: seq<Event>, b: seq<Event>)
    requires OrderedLog(a) && NoDispatch(a, b)
    ensures OrderedLog(b)
  {
    forall i | 0 <= i < |b| && b[i].UnitDispatched? ensures DepsShown(b[..i], b[i].p) {
      assert i < |a| && a[i] == b[i] && a[..i] == b[..i];
    }
  }

  lemma QuietIsNoDispatch(a: seq<Event>, b: seq<Event>, from: Id, to: Id)
    requires QuietlyExtends(a, b, from, to)
    ensures NoDispatch(a, b)
  {}

  lemma NoDispatchTwice(a: seq<Event>, b: seq<Event>, d: seq<Event>)
    requires NoDispatch(a, b) && NoDispatch(b, d)
    ensures NoDispatch(a, d)
  {}

  function LoopOf(p: Phase): Loop { p.s }

  lemma SingleKeepsOrder(c: Config, s: Loop, existing: Option<WorkUnit>, title: string, instruction: string,
                         input: TurnInput)
    requires OrderedLog(s.ledger.log)
    requires var u := if existing.Some? then Redirected(existing.value, title, instruction)
                      else NewUnit(s.nextId, title, instruction);
             DepsShown(s.ledger.log, UnitPayload(u))
    ensures OrderedLog(LoopOf(RunSingle(c, s, existing, title, instruction, input)).ledger.log)
  {
    hide GoalLoop, OrderedLog, DepsShown, UnitPayload, NoDispatch, Exhausted, QuietlyExtends;
    var u := if existing.Some? then Redirected(existing.value, title, instruction)
             else NewUnit(s.nextId, title, instruction);
    DispatchOrdered(s.ledger.log, UnitPayload(u));
    var s1 := Dispatch(s, u, existing.None?);
    var moved := Moved(s1.ledger, InnerWorking);
    if moved.Some? {
      GoalLoopGrows(c, moved.value, input.goal, 0, None, None, s.ledger.run, 0, 0);
      var (worked, _) := GoalLoop(c, moved.value, input.goal, 0, None, None);
      QuietIsNoDispatch(moved.value.log, worked.log, 0, 0);
      OrderKept(moved.value.log, worked.log);
    }
  }

  lemma BatchKeepsOrder(c: Config, s: Loop, peers: seq<PeerDraft>, covers: seq<Id>, b: BatchInput)
    requires OrderedLog(s.ledger.log) && DepsShown(s.ledger.log, MasterPayload(NewMaster(s.nextId, peers), covers))
    ensures OrderedLog(LoopOf(RunPeerBatch(c, s, peers, covers, b)).ledger.log)
  {
    hide SeedPeers, Collect, OrderedLog, DepsShown, MasterPayload, NoDispatch, Exhausted, QuietlyExtends, Instructions,
         PairwiseDisjoint;
    var master := NewMaster(s.nextId, peers);
    DispatchOrdered(s.ledger.log, MasterPayload(master, covers));
    var s1 := s.(ledger := Logged(s.ledger, UnitDispatched(MasterPayload(master, covers))), nextId := s.nextId + 1);
    var moved := Moved(s1.ledger, InnerWorking);
    if moved.Some? {
      var l, first, n := moved.value, s1.nextId, |peers|;
      var to := first + n;
      SeedPeersGrows(l, first, master.id, peers, 0, s.ledger.run, first, to);
      var l1 := Opened(SeedPeers(l, first, master.id, peers, 0));
      QuietIsNoDispatch(l.log, l1.log, first, to);
      OrderKept(l.log, l1.log);
      CollectGrows(c, l1, b, first, to, 0, n, s.ledger.run, first, to);
      var (done, _) := Collect(c, l1, b, first, to, 0, n);
      QuietIsNoDispatch(l1.log, done.log, first, to);
      OrderKept(l1.log, done.log);
    }
  }

  /** What is dispatched outside a DAG has no dependencies. */
  lemma SingleShown(c: Config, s: Loop, asked: Loop, usage: Usage, u: WorkUnit, p: Payload)
    requires FreshHead(c, s) && s.dag.None? && Asked(c, s, asked, usage)
    requires if s.unit.Some?
             then u == s.unit.value.(title := u.title, instruction := u.instruction, role := RGoal,
                                     state := UImplementing)
             else u.id == s.nextId && Bare(u) && u.rework == 0
    requires p == UnitPayload(u) || p == MasterPayload(u, [])
    ensures OrderedLog(asked.ledger.log) && DepsShown(asked.ledger.log, p)
  {
    hide FreshHead, OrderedLog, DepsShown, UnitPayload, MasterPayload, View, QuietlyExtends, ChargeAndTick, Bare;
    SingleBefore(c, s, u);
    SinglePayload(u, p);
    BareDeps(Or(View(s.ledger.log, u.id), BlankUnit(u.id)));
    SingleOrdered(s, u, p);
    AskedQuietly(c, s, usage);
    forall id ensures View(asked.ledger.log, id) == View(s.ledger.log, id) {
      QuietViews(s.ledger.log, asked.ledger.log, s.nextId, s.nextId, id);
    }
    SameDepsShown(s.ledger.log, asked.ledger.log, p);
    HeadOrdered(c, s);
    QuietIsNoDispatch(s.ledger.log, asked.ledger.log, s.nextId, s.nextId);
    OrderKept(s.ledger.log, asked.ledger.log);
  }

  lemma HeadOrdered(c: Config, s: Loop)
    requires FreshHead(c, s)
    ensures OrderedLog(s.ledger.log) && Below(s.ledger.log, s.nextId)
  {}

  lemma DagKeepsOrder(c: Config, s: Loop, ds: seq<WorkUnit>, input: TurnInput)
    requires FreshHead(c, s) && s.dag == Some(ds)
    ensures OrderedLog(LoopOf(DagPhase(c, s, ds, input)).ledger.log)
  {
    hide FreshHead, Wave, RunPeerBatch, RunSingle, OrderedLog, DepsShown, UnitPayload, Shape, NextReady, AllAccepted,
         ReadyAmong, Instructions;
    HeadRuns(c, s);
    HeadOrdered(c, s);
    HeadDag(c, s, ds);
    var wave := Wave(c.matcher, ReadyUnits(ds));
    if |wave| >= 2 {
      var ids, drafts := Ids(wave), WaveDrafts(wave);
      WaveFacts(c, ds, s.nextId);
      var p := MasterPayload(NewMaster(s.nextId, drafts), ids);
      WaveDepsShown(c, s, ds, ids, p);
      BatchKeepsOrder(c, Waved(s, ids), drafts, ids, input.batch);
    } else {
      var next := NextReady(ds);
      var u := Redirected(next.value, next.value.title, next.value.instruction);
      PayloadId(u);
      SerialDepsShown(c, s, ds, next.value, UnitPayload(u));
      SingleKeepsOrder(c, s, next, next.value.title, next.value.instruction, input);
    }
  }

  lemma PlanKeepsOrder(c: Config, s: Loop, input: TurnInput)
    requires FreshHead(c, s) && s.dag.None?
    ensures OrderedLog(LoopOf(PlanPhase(c, s, input)).ledger.log)
  {
    hide FreshHead, RunPeerBatch, RunSingle, OrderedLog, DepsShown, UnitPayload, MasterPayload, ChargeAndTick,
         Exhausted, AskPlan, Instructions, SeedDag, QuietlyExtends;
    HeadOrdered(c, s);
    var asked := AskPlan(input.plans, 3, ECommanderSchema);
    if asked.Ok? {
      var (plan, usage) := asked.value;
      var s1 := s.(ledger := ChargeAndTick(s.ledger, usage, c.commanderIn, c.commanderOut));
      AskedQuietly(c, s, usage);
      QuietIsNoDispatch(s.ledger.log, s1.ledger.log, s.nextId, s.nextId);
      OrderKept(s.ledger.log, s1.ledger.log);
      match plan
      case Peers(peers) =>
        if s.unit.None? {
          var u := NewMaster(s.nextId, peers);
          SingleShown(c, s, s1, usage, u, MasterPayload(u, []));
          BatchKeepsOrder(c, s1, peers, [], input.batch);
        }
      case Dag(drafts) => SeedKeepsOrder(s1, drafts);
      case Single(title, instruction) =>
        var u := if s.unit.Some? then Redirected(s.unit.value, title, instruction)
                 else NewUnit(s.nextId, title, instruction);
        SingleShown(c, s, s1, usage, u, UnitPayload(u));
        SingleKeepsOrder(c, s1, s.unit, title, instruction, input);
    }
  }

  lemma SeedKeepsOrder(s: Loop, drafts: seq<DagDraft>)
    requires OrderedLog(s.ledger.log)
    ensures OrderedLog(LoopOf(SeedDag(s, drafts)).ledger.log)
  {
    hide OrderedLog, Dag.Sorted, UnitPayload;
    OrderKept(s.ledger.log, LoopOf(SeedDag(s, drafts)).ledger.log);
  }

  lemma MovingKeepsLog(s: Loop)
    ensures forall to, e :: End(s, to, e).ledger.log == s.ledger.log
    ensures forall to :: Continue(s, to).ledger.log == s.ledger.log
  {
    hide CanTransition;
  }

  lemma DecidedLog(s: Loop, d: Decision, gates: AcceptGates, r: Receipt, wave: seq<Id>)
    requires s.unit.Some?
    ensures Decided(s, d, gates, r, wave).ledger.log == s.ledger.log
  {
    hide AcceptGates.CanAccept, AllAccepted, AcceptMembers, ReworkMembers, End, Continue;
    MovingKeepsLog(s);
    MovingKeepsLog(AcceptedLoop(s, r, wave));
    MovingKeepsLog(s.(waveRework := s.waveRework + 1));
    MovingKeepsLog(ReworkedLoop(s, wave).(unit := Some(s.unit.value.(rework := s.unit.value.rework + 1))));
    MovingKeepsLog(ReworkedLoop(s, wave));
    MovingKeepsLog(Continue(ReworkedLoop(s, wave), Rework));
  }

  lemma JudgeNoDispatch(c: Config, s: Loop, u: WorkUnit, r: Receipt, wave: seq<Id>, v: ReviewInput)
    requires s.unit.Some?
    ensures NoDispatch(s.ledger.log, Judge(c, s, u, r, wave, v).ledger.log)
  {
    hide Exhausted, Enforced, CostOf, AcceptGates.CanAccept, AskVerdict, Decided, VerdictPayload, MechanicalDecision,
         Proposal;
    if v.plugin.Ok? {
      var gates := GatesOf(c, s, u, r, v.plugin.value, v);
      var proposal := Proposal(gates, v);
      if proposal.Ok? {
        var (proposed, usage) := proposal.value;
        var charged := s.(ledger := ChargeAndTick(s.ledger, usage, c.commanderIn, c.commanderOut));
        var (d, _) := Enforced(proposed, gates);
        DecidedLog(Recorded(charged, u.id, wave, gates, d), d, gates, r, wave);
      }
    }
  }

  lemma OuterNoDispatch(c: Config, s: Loop, u: WorkUnit, receipt: Receipt, stored: bool, wave: seq<Id>, v: ReviewInput)
    ensures NoDispatch(s.ledger.log, OuterPhase(c, s, u, receipt, stored, wave, v).ledger.log)
  {
    hide Judge, TurnsExhausted, ReceiptPayload;
    var r := OverriddenCommand(receipt, u);
    var s1 := Submitted(s, u, r, stored);
    var s2 := Continue(s1, OuterReviewing);
    JudgeNoDispatch(c, s2, u, r, wave, v);
    NoDispatchTwice(s.ledger.log, s2.ledger.log, Judge(c, s2, u, r, wave, v).ledger.log);
  }

  /** No turn of a fresh run, however it ends, dispatches a unit before its dependencies are accepted. */
  lemma TurnKeepsOrder(c: Config, s: Loop, input: TurnInput)
    requires FreshHead(c, s)
    ensures OrderedLog(Turn(c, s, input).ledger.log)
  {
    hide FreshHead, DagPhase, PlanPhase, OuterPhase, OrderedLog, NoDispatch, Exhausted, AllAccepted;
    HeadRuns(c, s);
    HeadOrdered(c, s);
    var p := InnerPhase(c, s, input);
    if s.dag.Some? { DagKeepsOrder(c, s, s.dag.value, input); } else { PlanKeepsOrder(c, s, input); }
    if p.Got? {
      OuterNoDispatch(c, p.s, p.u, p.receipt, p.stored, p.wave, input.review);
      OrderKept(p.s.ledger.log, OuterPhase(c, p.s, p.u, p.receipt, p.stored, p.wave, input.review).ledger.log);
    }
  }

  // ---- how a run ends ----

  /** The review that ended the run, if one did. */
  ghost predicate LastWord(s: Loop, t: Loop, added: seq<Reviewed>, unitId: Id, wave: seq<Id>) {
    && t.reviews == s.reviews + added && |added| <= 1
    && forall k :: k in added ==>
         && k.unitId == unitId && k.covers == wave && !k.decision.DRework?
         && (k.decision.DAccept? ==> k.gates.CanAccept() && !Exhausted(k.run))
  }

  /** The run ended accepted on that review's word. */
  ghost predicate AcceptedOn(s: Loop, t: Loop, added: seq<Reviewed>, cur: WorkUnit, wave: seq<Id>, r: Receipt) {
    && added != [] && added[0].decision.DAccept? && t.ledger.run == added[0].run.(state := Accepted)
    && cur.state == UAccepted
    && (if s.dag.None? then t.dag.None?
        else t.dag == Some(AcceptMembers(s.dag.value, cur, wave, r)) && AllAccepted(t.dag.value))
  }

  lemma {:induction false} DecidedEnds(s: Loop, d: Decision, gates: AcceptGates, r: Receipt, wave: seq<Id>)
    requires s.unit.Some? && s.outcome.Running? && Decided(s, d, gates, r, wave).outcome.Ended?
    requires d.DRework? ==> s.unit.value.rework < MAX_REWORK && s.waveRework < MAX_REWORK
    ensures var t := Decided(s, d, gates, r, wave);
            && !d.DRework? && t.reviews == s.reviews && t.ledger.run == s.ledger.run.(state := t.ledger.run.state)
            && (t.ledger.run.state == Accepted ==>
                  && d.DAccept?
                  && (if s.dag.None? then t.dag.None?
                      else t.dag == Some(AcceptMembers(s.dag.value, s.unit.value.(state := UAccepted), wave, r))
                           && AllAccepted(t.dag.value)))
            && (t.dag.None? <==> s.dag.None?)
            && (t.ledger.run.state != Accepted ==> t.dag == s.dag)
  {
    hide AcceptGates.CanAccept, AllAccepted, AcceptMembers, ReworkMembers, ReworkedLoop, CanTransition;
    ContinueNeverEnds(AcceptedLoop(s, r, wave));
    ContinueNeverEnds(ReworkedLoop(s, wave));
    ContinueNeverEnds(Continue(ReworkedLoop(s, wave), Rework));
    ReworkedRuns(s, wave);
  }

  lemma ContinueNeverEnds(s: Loop)
    ensures !s.outcome.Ended? ==> forall to :: !Continue(s, to).outcome.Ended?
  {}

  lemma ReworkedRuns(s: Loop, wave: seq<Id>)
    requires s.unit.Some?
    ensures ReworkedLoop(s, wave).outcome == s.outcome
  {
    hide ReworkMembers;
  }

  lemma JudgeEnds(c: Config, s: Loop, u: WorkUnit, r: Receipt, wave: seq<Id>, v: ReviewInput)
    returns (added: seq<Reviewed>)
    requires s.unit.Some? && s.outcome.Running? && s.ledger.run.state == OuterReviewing
    requires Judge(c, s, u, r, wave, v).outcome.Ended?
    ensures var t := Judge(c, s, u, r, wave, v);
            && LastWord(s, t, added, u.id, wave)
            && (t.dag.None? <==> s.dag.None?)
            && (t.ledger.run.state != Accepted ==> t.dag == s.dag)
            && (t.ledger.run.state == Accepted ==>
                  AcceptedOn(s, t, added, s.unit.value.(verdictId := Some(s.nextId), state := UAccepted), wave, r))
  {
    hide Exhausted, Enforced, CostOf, AcceptGates.CanAccept, AskVerdict, AllAccepted, AcceptMembers, ReworkMembers,
         VerdictPayload, Decided, MechanicalDecision, Proposal;
    added := [];
    if v.plugin.Ok? {
      var gates := GatesOf(c, s, u, r, v.plugin.value, v);
      var proposal := Proposal(gates, v);
      if proposal.Ok? {
        var (proposed, usage) := proposal.value;
        var charged := s.(ledger := ChargeAndTick(s.ledger, usage, c.commanderIn, c.commanderOut));
        var (d, note) := Enforced(proposed, gates);
        if !(note == Some(EBudget) || (d == DAccept && Exhausted(charged.ledger.run))) {
          ReworkLeavesRoom(proposed, gates);
          AcceptIffGates(proposed, gates);
          var recorded := Recorded(charged, u.id, wave, gates, d);
          DecidedEnds(recorded, d, gates, r, wave);
          added := [Reviewed(u.id, wave, gates, d, recorded.ledger.run)];
        }
      }
    }
  }

  lemma OuterEnds(c: Config, s: Loop, u: WorkUnit, receipt: Receipt, wave: seq<Id>, v: ReviewInput)
    returns (added: seq<Reviewed>)
    requires s.outcome.Running? && s.ledger.run.state == InnerWorking
    requires OuterPhase(c, s, u, receipt, false, wave, v).outcome.Ended?
    ensures var t := OuterPhase(c, s, u, receipt, false, wave, v);
            var r := OverriddenCommand(receipt, u);
            && LastWord(s, t, added, u.id, wave)
            && (t.dag.None? <==> s.dag.None?)
            && (t.ledger.run.state != Accepted ==> t.dag == s.dag)
            && (t.ledger.run.state == Accepted ==>
                  AcceptedOn(s, t, added, UnderReview(u, r, s.nextId).(state := UAccepted), wave, r))
  {
    hide Judge, TurnsExhausted, ReceiptPayload, AcceptGates.CanAccept, Exhausted, AllAccepted, AcceptMembers;
    var r := OverriddenCommand(receipt, u);
    var s1 := Submitted(s, u, r, false);
    var s2 := Continue(s1, OuterReviewing);
    added := [];
    if !(TurnsExhausted(s1.ledger.run) && r.changedFiles == []) {
      added := JudgeEnds(c, s2, u, r, wave, v);
    }
  }

  /** An accepted run: the last review accepted with every gate open, nothing was
      charged after it and money and turns remain even so; with a DAG every unit
      is accepted, each on an accepting review of its own or of its wave. */
  ghost predicate SoundlyAccepted(t: Loop) {
    && t.reviews != []
    && var last := t.reviews[|t.reviews| - 1];
       && last.decision.DAccept? && last.gates.CanAccept()
       && t.ledger.run == last.run.(state := Accepted) && !Exhausted(t.ledger.run)
       && (t.dag.Some? ==> AllAccepted(t.dag.value) && Credited(t.reviews, t.dag.value))
  }

  /** What every finished fresh run satisfies. */
  ghost predicate FreshEnd(t: Loop) {
    && OrderedLog(t.ledger.log) && Honest(t.reviews)
    && (t.dag.None? ==> |t.reviews| <= MAX_REWORK + 1)
    && (t.dag.Some? ==> forall d :: d in t.dag.value ==> WaveReworks(t.reviews, d.id) <= MAX_REWORK)
    && (t.ledger.run.state == Accepted ==> SoundlyAccepted(t))
  }

  lemma HeadBounds(c: Config, s: Loop)
    requires FreshHead(c, s)
    ensures Honest(s.reviews)
    ensures s.dag.None? ==> |s.reviews| <= MAX_REWORK
    ensures s.dag.Some? ==> forall d :: d in s.dag.value
                                        ==> WaveReworks(s.reviews, d.id) == d.rework && d.rework <= MAX_REWORK
  {
    hide Tracked, Stable, WaveCounted, OrderedLog, Below, Honest;
    if s.dag.Some? {
      forall d | d in s.dag.value ensures WaveReworks(s.reviews, d.id) == d.rework && d.rework <= MAX_REWORK {
        HeadUnit(c, s, s.dag.value, d);
      }
    }
  }

  /** Ended without a word of review. */
  lemma SilentEnd(c: Config, s: Loop, t: Loop)
    requires FreshHead(c, s) && t.reviews == s.reviews && t.dag == s.dag && t.ledger.run.state != Accepted
    requires OrderedLog(t.ledger.log)
    ensures FreshEnd(t)
  {
    hide FreshHead, OrderedLog, Honest;
    HeadBounds(c, s);
  }

  lemma SpokenBounds(c: Config, s: Loop, t: Loop, added: seq<Reviewed>, unitId: Id, wave: seq<Id>)
    requires FreshHead(c, s) && LastWord(s, t, added, unitId, wave)
    ensures Honest(t.reviews) && (s.dag.None? ==> |t.reviews| <= MAX_REWORK + 1)
    ensures s.dag.Some? ==> forall d :: d in s.dag.value
                                        ==> WaveReworks(t.reviews, d.id) == d.rework && d.rework <= MAX_REWORK
  {
    hide FreshHead, Honest, AcceptGates.CanAccept, Exhausted, WaveReworks;
    HeadBounds(c, s);
    if added == [] {
      assert s.reviews + added == s.reviews;
    } else {
      var k := added[0];
      assert k in added && added == [k];
      HonestGrows(s.reviews, k);
      forall id ensures WaveReworks(t.reviews, id) == WaveReworks(s.reviews, id) { OneMoreReview(s.reviews, k, id); }
    }
  }

  /** Ended after a review. */
  lemma {:induction false} SpokenEnd(c: Config, s: Loop, t: Loop, added: seq<Reviewed>, unitId: Id, wave: seq<Id>,
                                     cur: WorkUnit, r: Receipt, ids: set<Id>)
    requires FreshHead(c, s) && OrderedLog(t.ledger.log) && LastWord(s, t, added, unitId, wave)
    requires t.ledger.run.state != Accepted ==> t.dag == s.dag
    requires t.dag.None? <==> s.dag.None?
    requires t.ledger.run.state == Accepted ==> AcceptedOn(s, t, added, cur, wave, r)
    requires s.dag.Some? ==> Accepts(s.dag.value, AcceptMembers(s.dag.value, cur, wave, r), ids)
                             && forall d :: d in s.dag.value && d.id in ids ==> d.id == unitId || d.id in wave
    ensures FreshEnd(t)
  {
    hide FreshHead, OrderedLog, Honest, Accepts, AcceptMembers, AllAccepted, Credited, AcceptGates.CanAccept,
         Exhausted, WaveReworks;
    SpokenBounds(c, s, t, added, unitId, wave);
    if t.ledger.run.state == Accepted {
      assert added == [added[0]] && added[0] in added;
      assert t.reviews[|t.reviews| - 1] == added[0];
      SpendingStays(added[0].run);
      if s.dag.Some? {
        var ds := s.dag.value;
        HeadDag(c, s, ds);
        HeadCredited(c, s, ds);
        AcceptCredited(s.reviews, added[0], ds, t.dag.value, ids);
        SameReworks(t.reviews, ds, t.dag.value, ids);
      }
    }
  }

  lemma HeadCredited(c: Config, s: Loop, ds: seq<WorkUnit>)
    requires DagHead(c, s, ds)
    ensures Credited(s.reviews, ds) && Shape(ds, s.nextId) && !AllAccepted(ds)
  {}

  lemma SpendingStays(r: Run)
    ensures Exhausted(r.(state := Accepted)) == Exhausted(r)
  {}

  lemma SameReworks(reviews: seq<Reviewed>, ds: seq<WorkUnit>, es: seq<WorkUnit>, ids: set<Id>)
    requires Accepts(ds, es, ids) && forall d :: d in ds ==> WaveReworks(reviews, d.id) <= MAX_REWORK
    ensures forall e :: e in es ==> WaveReworks(reviews, e.id) <= MAX_REWORK
  {
    hide WaveReworks;
    forall e | e in es ensures WaveReworks(reviews, e.id) <= MAX_REWORK {
      var i :| 0 <= i < |es| && es[i] == e;
      assert ds[i] in ds;
    }
  }

  lemma FailEnds(c: Config, s: Loop, f: Loop, to: RunState, e: Option<ErrorCode>)
    requires FreshHead(c, s) && f.reviews == s.reviews && f.dag == s.dag && OrderedLog(f.ledger.log)
    requires to != Accepted && End(f, to, e).outcome.Ended?
    ensures FreshEnd(End(f, to, e))
  {
    hide FreshHead, OrderedLog, FreshEnd;
    SilentEnd(c, s, End(f, to, e));
  }

  /** Ended by or before the review of what a wave did. */
  lemma WaveEnds(c: Config, s: Loop, ds: seq<WorkUnit>, input: TurnInput)
    requires FreshHead(c, s) && s.dag == Some(ds) && |Wave(c.matcher, ReadyUnits(ds))| >= 2
    requires Resolve(c, DagPhase(c, s, ds, input), input).outcome.Ended?
    requires OrderedLog(Resolve(c, DagPhase(c, s, ds, input), input).ledger.log)
    ensures FreshEnd(Resolve(c, DagPhase(c, s, ds, input), input))
  {
    hide FreshHead, Wave, RunPeerBatch, OuterPhase, Performed, Instructions, OrderedLog, FreshEnd, LastWord, AcceptedOn,
         AcceptMembers, Accepts, Shape;
    var wave := Wave(c.matcher, ReadyUnits(ds));
    var ids := Ids(wave);
    var asked := Waved(s, ids);
    var drafts := WaveDrafts(wave);
    var g := RunPeerBatch(c, asked, drafts, ids, input.batch);
    BatchYields(c, asked, drafts, ids, input.batch);
    BatchReviews(c, asked, drafts, ids, input.batch);
    HeadRuns(c, s);
    if g.Got? {
      BatchWorked(c, asked, drafts, ids, input.batch);
      var u := NewMaster(s.nextId, drafts);
      WorkedShape(asked, g, u, MasterPayload(u, ids), ids);
      PerformedRuns(asked, g, u, MasterPayload(u, ids), ids);
      var added := OuterEnds(c, g.s, u, g.receipt, ids, input.review);
      var r := OverriddenCommand(g.receipt, u);
      var cur := UnderReview(u, r, g.s.nextId).(state := UAccepted);
      HeadDag(c, s, ds);
      HeadCredited(c, s, ds);
      WaveAccepts(ds, cur, ids, r, s.nextId);
      SameWord(g.s, s, OuterPhase(c, g.s, u, g.receipt, false, ids, input.review), added, u.id, ids, cur, r);
      SpokenEnd(c, s, OuterPhase(c, g.s, u, g.receipt, false, ids, input.review), added, u.id, ids, cur, r, IdSet(ids));
    } else {
      EndLog(g.s, Failed, Some(g.error));
      FailEnds(c, s, g.s, Failed, Some(g.error));
    }
  }

  lemma EndLog(s: Loop, to: RunState, e: Option<ErrorCode>)
    ensures End(s, to, e).ledger.log == s.ledger.log
  {}

  /** Only what a review and a DAG are compared with matters. */
  lemma SameWord(g: Loop, s: Loop, t: Loop, added: seq<Reviewed>, unitId: Id, wave: seq<Id>, cur: WorkUnit, r: Receipt)
    requires g.reviews == s.reviews && g.dag == s.dag
    ensures LastWord(g, t, added, unitId, wave) == LastWord(s, t, added, unitId, wave)
    ensures AcceptedOn(g, t, added, cur, wave, r) == AcceptedOn(s, t, added, cur, wave, r)
  {
    hide AcceptGates.CanAccept, Exhausted, AcceptMembers, AllAccepted;
  }

  lemma BatchReviews(c: Config, s: Loop, peers: seq<PeerDraft>, covers: seq<Id>, b: BatchInput)
    ensures var g := RunPeerBatch(c, s, peers, covers, b); LoopOf(g).reviews == s.reviews && LoopOf(g).dag == s.dag
  {
    hide Collect, SeedPeers, PairwiseDisjoint, Instructions;
  }

  lemma SingleReviews(c: Config, s: Loop, existing: Option<WorkUnit>, title: string, instruction: string,
                      input: TurnInput)
    ensures var g := RunSingle(c, s, existing, title, instruction, input);
            LoopOf(g).reviews == s.reviews && LoopOf(g).dag == s.dag
  {
    hide GoalLoop;
  }

  lemma SerialEnds(c: Config, s: Loop, ds: seq<WorkUnit>, input: TurnInput)
    requires FreshHead(c, s) && s.dag == Some(ds) && |Wave(c.matcher, ReadyUnits(ds))| < 2
    requires Resolve(c, DagPhase(c, s, ds, input), input).outcome.Ended?
    requires OrderedLog(Resolve(c, DagPhase(c, s, ds, input), input).ledger.log)
    ensures FreshEnd(Resolve(c, DagPhase(c, s, ds, input), input))
  {
    hide FreshHead, Wave, RunSingle, OuterPhase, Performed, OrderedLog, FreshEnd, LastWord, AcceptedOn, NextReady,
         AllAccepted, AcceptMembers, Accepts, Shape;
    HeadRuns(c, s);
    var next := NextReady(ds);
    var d := next.value;
    var g := RunSingle(c, s, next, d.title, d.instruction, input);
    SingleYields(c, s, next, d.title, d.instruction, input);
    SingleReviews(c, s, next, d.title, d.instruction, input);
    if g.Got? {
      SingleWorked(c, s, next, d.title, d.instruction, input);
      var u := Redirected(d, d.title, d.instruction);
      WorkedShape(s, g, u, UnitPayload(u), []);
      PerformedRuns(s, g, u, UnitPayload(u), []);
      var added := OuterEnds(c, g.s, u, g.receipt, [], input.review);
      var r := OverriddenCommand(g.receipt, u);
      var cur := UnderReview(u, r, g.s.nextId).(state := UAccepted);
      NextFacts(c, s, ds, d);
      HeadDag(c, s, ds);
      HeadCredited(c, s, ds);
      SerialAccepts(ds, d, cur, r, s.nextId);
      SameWord(g.s, s, OuterPhase(c, g.s, u, g.receipt, false, [], input.review), added, u.id, [], cur, r);
      SpokenEnd(c, s, OuterPhase(c, g.s, u, g.receipt, false, [], input.review), added, u.id, [], cur, r, {d.id});
    } else {
      EndLog(g.s, Failed, Some(g.error));
      FailEnds(c, s, g.s, Failed, Some(g.error));
    }
  }

  /** Ended by or before the review of work done outside a DAG. */
  lemma PlainEnds(c: Config, s: Loop, g: Phase, u: WorkUnit, input: TurnInput)
    requires FreshHead(c, s) && s.dag.None? && (g.Got? || g.FailedWith?) && g.s.reviews == s.reviews && g.s.dag.None?
    requires g.Got? ==> !g.stored && g.u == u && g.wave == [] && g.s.outcome.Running?
                        && g.s.ledger.run.state == InnerWorking
    requires Resolve(c, g, input).outcome.Ended? && OrderedLog(Resolve(c, g, input).ledger.log)
    ensures FreshEnd(Resolve(c, g, input))
  {
    hide FreshHead, OuterPhase, OrderedLog, FreshEnd, LastWord, AcceptedOn;
    if g.Got? {
      var added := OuterEnds(c, g.s, u, g.receipt, [], input.review);
      var r := OverriddenCommand(g.receipt, u);
      var cur := UnderReview(u, r, g.s.nextId).(state := UAccepted);
      SameWord(g.s, s, OuterPhase(c, g.s, u, g.receipt, false, [], input.review), added, u.id, [], cur, r);
      SpokenEnd(c, s, OuterPhase(c, g.s, u, g.receipt, false, [], input.review), added, u.id, [], cur, r, {});
    } else {
      EndLog(g.s, Failed, Some(g.error));
      FailEnds(c, s, g.s, Failed, Some(g.error));
    }
  }

  lemma PlanEnds(c: Config, s: Loop, input: TurnInput)
    requires FreshHead(c, s) && s.dag.None?
    requires Resolve(c, PlanPhase(c, s, input), input).outcome.Ended?
    requires OrderedLog(Resolve(c, PlanPhase(c, s, input), input).ledger.log)
    ensures FreshEnd(Resolve(c, PlanPhase(c, s, input), input))
  {
    hide FreshHead, RunSingle, RunPeerBatch, OuterPhase, Performed, OrderedLog, FreshEnd, LastWord, AcceptedOn,
         AskPlan, ChargeAndTick, SeedDag, Instructions, Exhausted;
    HeadRuns(c, s);
    var asked := AskPlan(input.plans, 3, ECommanderSchema);
    if asked.Err? {
      EndLog(s, Failed, Some(asked.error));
      FailEnds(c, s, s, Failed, Some(asked.error));
    } else {
      var (plan, usage) := asked.value;
      var s1 := s.(ledger := ChargeAndTick(s.ledger, usage, c.commanderIn, c.commanderOut));
      if Exhausted(s1.ledger.run) {
        EndLog(s1, BudgetExhausted, Some(EBudget));
        FailEnds(c, s, s1, BudgetExhausted, Some(EBudget));
      } else {
        match plan
        case Peers(peers) =>
          if s1.unit.Some? {
            PlainEnds(c, s, FailedWith(s1, ECommanderSchema), s1.unit.value, input);
          } else {
            var u, g := NewMaster(s1.nextId, peers), RunPeerBatch(c, s1, peers, [], input.batch);
            BatchYields(c, s1, peers, [], input.batch);
            BatchReviews(c, s1, peers, [], input.batch);
            if g.Got? {
              BatchWorked(c, s1, peers, [], input.batch);
              WorkedShape(s1, g, u, MasterPayload(u, []), []);
              PerformedRuns(s1, g, u, MasterPayload(u, []), []);
            }
            PlainEnds(c, s, g, u, input);
          }
        case Dag(drafts) =>
          SeedYields(s1, drafts);
          SeedReviews(s1, drafts);
          var u := NewUnit(0, "", "");
          if SeedDag(s1, drafts).FailedWith? { PlainEnds(c, s, SeedDag(s1, drafts), u, input); }
        case Single(title, instruction) =>
          var u := if s1.unit.Some? then Redirected(s1.unit.value, title, instruction)
                   else NewUnit(s1.nextId, title, instruction);
          var g := RunSingle(c, s1, s1.unit, title, instruction, input);
          SingleYields(c, s1, s1.unit, title, instruction, input);
          SingleReviews(c, s1, s1.unit, title, instruction, input);
          if g.Got? {
            SingleWorked(c, s1, s1.unit, title, instruction, input);
            WorkedShape(s1, g, u, UnitPayload(u), []);
            PerformedRuns(s1, g, u, UnitPayload(u), []);
          }
          PlainEnds(c, s, g, u, input);
      }
    }
  }

  lemma SeedReviews(s: Loop, drafts: seq<DagDraft>)
    ensures var g := SeedDag(s, drafts);
            LoopOf(g).reviews == s.reviews && LoopOf(g).outcome == s.outcome && (g.FailedWith? ==> g.s.dag == s.dag)
  {
    hide Dag.Sorted, SeededUnits;
  }

  /** However a turn of a fresh run ends the run, it ends it well. */
  lemma TurnEnds(c: Config, s: Loop, input: TurnInput)
    requires FreshHead(c, s) && Turn(c, s, input).outcome.Ended?
    ensures FreshEnd(Turn(c, s, input))
  {
    hide FreshHead, DagPhase, PlanPhase, Exhausted, Resolve, Wave, OrderedLog, FreshEnd;
    HeadRuns(c, s);
    HeadOrdered(c, s);
    TurnKeepsOrder(c, s, input);
    if Exhausted(s.ledger.run) {
      FailEnds(c, s, s, BudgetExhausted, Some(EBudget));
    } else if s.dag.Some? {
      if |Wave(c.matcher, ReadyUnits(s.dag.value))| >= 2 {
        WaveEnds(c, s, s.dag.value, input);
      } else {
        SerialEnds(c, s, s.dag.value, input);
      }
    } else {
      PlanEnds(c, s, input);
    }
  }

  // ---- the theorem ----

  /** Every fresh run ends, and however it ends: nothing was dispatched before its
      dependencies were accepted, rework stayed within its limit, and an accepted
      run was accepted soundly. */
  lemma {:induction false} FreshRunEnds(c: Config, s: Loop, env: nat -> TurnInput, k: nat, start: Run)
    requires FreshHead(c, s) && CleanHead(s) && Books(s.ledger, start)
    ensures FreshEnd(RunToEnd(c, s, env, k, start))
    decreases TurnsLeft(s.ledger.run), s.pending.Some?, s.dag.None?
  {
    hide Turn, FreshHead, FreshEnd, CleanHead, Books;
    CleanRuns(s);
    TurnIsClean(c, s, env(k), start);
    var t := Turn(c, s, env(k));
    if t.outcome.Running? {
      FreshTurn(c, s, env(k));
      HeadIsClean(c, t);
      FreshRunEnds(c, t, env, k + 1, start);
    } else {
      CleanEnds(t);
      TurnEnds(c, s, env(k));
    }
  }

  lemma CleanRuns(s: Loop)
    requires CleanHead(s)
    ensures s.outcome.Running?
  {}

  lemma CleanEnds(t: Loop)
    requires CleanAfter(t) && !t.outcome.Running?
    ensures t.outcome.Ended?
  {}

  /** The same for a new run, from its first turn. */
  lemma {:induction false} NewRunEnds(c: Config, run: Run, first: Id, env: nat -> TurnInput)
    requires run.state == Dispatched
    ensures CleanHead(Fresh(run, first)) && Books(Fresh(run, first).ledger, run)
    ensures var t := RunToEnd(c, Fresh(run, first), env, 0, run); FinishedWell(t, run) && FreshEnd(t)
  {
    hide FreshHead, CleanHead, Books, FreshEnd, FinishedWell, RunToEnd;
    FreshIsHead(c, run, first);
    EntryBalances(Fresh(run, first));
    HeadIsClean(c, Fresh(run, first));
    EveryRunEnds(c, Fresh(run, first), env, 0, run);
    FreshRunEnds(c, Fresh(run, first), env, 0, run);
  }
}
