/** The drive loop in its own form: one factory object that its methods update
    step by step (crates/wanax-cli/src/engine.rs). Every method is shown to take
    the object exactly where the functions of module Drive say. */
module Engine {
  import opened Types
  import opened State
  import opened Accept
  import opened Budget
  import opened Events
  import opened GlobOverlap
  import opened Scheduler
  import opened Drive
  import opened Safety
  import Charges
  import Dag
  import GoalRun

  /** What the inner part of a turn comes to. */
  datatype Step =
    | Review(u: WorkUnit, receipt: Receipt, stored: bool, wave: seq<Id>)
    | Fail(error: ErrorCode)
    | Stop
    | NextTurn

  ghost function PhaseOf(step: Step, s: Loop): Phase {
    match step
    case Review(u, receipt, stored, wave) => Got(s, u, receipt, stored, wave)
    case Fail(e) => FailedWith(s, e)
    case Stop => Halted(s)
    case NextTurn => Again(s)
  }

  // ---- building the units of a DAG ----

  /** The ids of the keys that have one. */
  function KeyIds(byKey: map<string, Id>, keys: seq<string>): seq<Id> {
    if keys == [] then []
    else (if keys[0] in byKey then [byKey[keys[0]]] else []) + KeyIds(byKey, keys[1..])
  }

  ghost predicate KeysIndex(byKey: map<string, Id>, order: seq<string>, first: Id, n: nat)
    requires n <= |order|
  {
    && (forall key :: key in byKey ==> key in order[..n])
    && forall k :: 0 <= k < n ==> order[k] in byKey && byKey[order[k]] == first + k
  }

  lemma {:induction false} KeyIdsAreDepIds(byKey: map<string, Id>, order: seq<string>, first: Id, keys: seq<string>)
    requires Dag.NoRepeats(order) && KeysIndex(byKey, order, first, |order|)
    ensures KeyIds(byKey, keys) == DepIds(order, first, keys)
  {
    if keys != [] {
      assert order[..|order|] == order;
      if keys[0] in order {
        var k := IndexIn(order, keys[0]);
        assert order[k] == keys[0];
      }
      KeyIdsAreDepIds(byKey, order, first, keys[1..]);
    }
  }

  lemma {:induction false} SortedOrderDistinct(drafts: seq<DagDraft>)
    requires Dag.Sorted(NodesOf(drafts)).Ok?
    ensures Dag.NoRepeats(Dag.Sorted(NodesOf(drafts)).value)
  {
    Dag.SortedExactly(NodesOf(drafts));
  }

  /** One unit per key of the order, dependencies still as keys. */
  method CreateUnits(drafts: seq<DagDraft>, order: seq<string>, first: Id)
    returns (r: Option<(seq<(seq<string>, WorkUnit)>, map<string, Id>)>)
    requires Dag.NoRepeats(order)
    ensures r.Some? <==> AllDrafted(drafts, order)
    ensures r.Some? ==>
              var (created, byKey) := r.value;
              var units := SeededUnits(drafts, order, first);
              |created| == |units|
              && forall k :: 0 <= k < |units| ==> units[k] == created[k].1.(dependsOn := KeyIds(byKey, created[k].0))
  {
    hide DraftOf, Drafted, DepIds, KeyIds;
    var created: seq<(seq<string>, WorkUnit)> := [];
    var byKey: map<string, Id> := map[];
    for k := 0 to |order|
      invariant |created| == k && KeysIndex(byKey, order, first, k)
      invariant forall j :: 0 <= j < k ==> Drafted(drafts, order[j])
      invariant forall j :: 0 <= j < k ==>
                  && created[j].0 == DraftOf(drafts, order[j]).dependsOn
                  && created[j].1 == SeededUnit(drafts, order, first, j).(dependsOn := [])
    {
      if !Drafted(drafts, order[k]) { return None; }
      var d := DraftOf(drafts, order[k]);
      var u := WorkUnit(first + k, SeqNo(k), d.title, d.instruction, UQueued, RGoal, None, d.globs, [],
                        d.testCommand, Some(d.key), 0, None, None, None);
      byKey := byKey[d.key := u.id];
      created := created + [(d.dependsOn, u)];
      assert order[..k + 1] == order[..k] + [order[k]];
    }
    forall k | 0 <= k < |order|
      ensures SeededUnit(drafts, order, first, k) == created[k].1.(dependsOn := KeyIds(byKey, created[k].0))
    {
      KeyIdsAreDepIds(byKey, order, first, created[k].0);
    }
    r := Some((created, byKey));
  }

  class Factory {
    const run: FactoryRun
    var log: seq<Event>
    var unit: Option<WorkUnit>
    var dag: Option<seq<WorkUnit>>
    var pending: Option<(WorkUnit, Receipt)>
    var reuse: bool
    var waveRework: nat
    var waveKey: set<Id>
    var nextId: Id
    var outcome: Outcome
    ghost var path: seq<RunState>
    ghost var charges: seq<I64>
    ghost var bursts: seq<Burst>
    ghost var reviews: seq<Reviewed>

    /** A run at the entry of the loop, new or resumed. */
    constructor (r: Run, log: seq<Event>, unit: Option<WorkUnit>, dag: Option<seq<WorkUnit>>,
                 pending: Option<(WorkUnit, Receipt)>, firstId: Id)
      ensures fresh(run)
      ensures View() == Loop(Ledger(r, log, [r.state], [], []), unit, dag, pending,
                             unit.Some? && pending.None? && dag.None?, 0, {}, firstId, [], Running)
    {
      run := new FactoryRun(r);
      this.log, this.unit, this.dag, this.pending := log, unit, dag, pending;
      reuse := unit.Some? && pending.None? && dag.None?;
      waveRework, waveKey, nextId, outcome := 0, {}, firstId, Running;
      path, charges, bursts, reviews := [r.state], [], [], [];
    }

    ghost function Account(): Ledger
      reads this, run
    {
      Ledger(run.View(), log, path, charges, bursts)
    }

    ghost function View(): Loop
      reads this, run
    {
      Loop(Account(), unit, dag, pending, reuse, waveRework, waveKey, nextId, reviews, outcome)
    }

    // ---- the ledger ----

    method Append(e: Event)
      modifies this`log
      ensures View() == old(View()).(ledger := Logged(old(Account()), e))
    {
      log := log + [e];
    }

    method SetState(to: RunState) returns (ok: bool)
      modifies this`path, run`state
      ensures ok <==> Moved(old(Account()), to).Some?
      ensures View() == if ok then old(View()).(ledger := Moved(old(Account()), to).value) else old(View())
    {
      ok := CanTransition(run.state, to);
      if ok {
        run.state := to;
        path := path + [to];
      }
    }

    method ChargeAndTick(u: Usage, rateIn: I64, rateOut: I64)
      modifies this`log, this`charges, run`spentUsd
      ensures View() == old(View()).(ledger := Drive.ChargeAndTick(old(Account()), u, rateIn, rateOut))
      ensures Charges.ChargedFor(old(Account()), Account(), u, rateIn, rateOut)
    {
      ghost var (cost, _) := CostOf(u, rateIn, rateOut);
      Charges.ChargeIsPriced(Account(), u, rateIn, rateOut);
      var tick: BudgetTick;
      if u.usdMicros.Some? {
        tick := run.ChargeUsdMicros(u.usdMicros.value);
      } else {
        var (unitsIn, unitsOut, estimated) := ChargeUnitsOf(u);
        tick := run.ChargeUnits(unitsIn, unitsOut, rateIn, rateOut, estimated);
      }
      charges := charges + [cost];
      Append(Tick(tick));
    }

    method ChargeHandle(c: Config, h: Handle)
      modifies this`log, this`charges, run`spentUsd
      ensures View() == old(View()).(ledger := Drive.ChargeHandle(c, old(Account()), h))
    {
      if h.costUsd.Some? || h.usageIn.Some? || h.usageOut.Some? {
        ChargeAndTick(HandleUsage(h), c.innerIn, c.innerOut);
      }
    }

    ghost method Open()
      modifies this`bursts
      ensures View() == old(View()).(ledger := Opened(old(Account())))
    {
      bursts := bursts + [Burst(run.View(), 0)];
    }

    /** Turns first, then whatever the handle reports about its cost. */
    method Book(c: Config, h: Handle)
      requires bursts != []
      modifies this`bursts, this`log, this`charges, run`spentUsd, run`spentTurns
      ensures View() == old(View()).(ledger := Drive.ChargeHandle(c, Booked(old(Account()), h), h))
    {
      var _ := run.AddTurns(h.turns);
      ghost var last := |bursts| - 1;
      bursts := bursts[last := bursts[last].(turns := bursts[last].turns + h.turns)];
      assert Account() == Booked(old(Account()), h);
      ChargeHandle(c, h);
    }

    // ---- the goal loop ----

    method RunGoalLoop(c: Config, passes: GoalPasses) returns (result: Result<Handle, ErrorCode>, ghost k: nat)
      modifies this, run
      ensures View() == old(View()).(ledger := Account())
      ensures (Account(), result) == GoalLoop(c, old(Account()), passes, 0, None, None)
      ensures GoalRun.Runs(c, old(Account()), passes, k, Account(), result)
    {
      hide Worked, Reviewing, Exhausted, GoalRun.Runs;
      k := GoalRun.GoalLoopRuns(c, Account(), passes);
      var last: Option<Handle>, prev: Option<seq<string>> := None, None;
      var i := 0;
      while i < MAX_GOAL_ITERS
        invariant View() == old(View()).(ledger := Account())
        invariant GoalLoop(c, Account(), passes, i, last, prev) == GoalLoop(c, old(Account()), passes, 0, None, None)
      {
        var exhausted := IsExhausted();
        if exhausted { break; }
        var p := passes[i];
        if p.before.Err? { return Err(p.before.error), k; }
        if p.adapter.Err? { return Err(p.adapter.error), k; }
        Work(c, p.adapter.value);
        if p.adapter.value.crashed { return Ok(p.adapter.value), k; }
        if p.test.Err? { return Err(p.test.error), k; }
        var handle := p.adapter.value.(testExit := p.test.value);
        if p.changed.Err? { return Err(p.changed.error), k; }
        SelfReview(c, p.review);
        last := Some(handle);
        exhausted := IsExhausted();
        if p.test.value == 0 || exhausted { break; }
        if p.changed.value == p.before.value || prev == Some(p.changed.value) { break; }
        prev := Some(p.changed.value);
        i := i + 1;
      }
      result := if last.Some? then Ok(last.value) else Err(EWorkerCrash);
    }

    method IsExhausted() returns (b: bool)
      ensures b == Exhausted(Account().run)
    {
      b := run.spentUsd >= run.maxUsd || run.spentTurns >= run.maxTurns;
    }

    /** One worker call. */
    method Work(c: Config, h: Handle)
      modifies this`bursts, this`log, this`charges, run`spentUsd, run`spentTurns
      ensures View() == old(View()).(ledger := Worked(c, old(Account()), h))
    {
      Open();
      Book(c, h);
    }

    method SelfReview(c: Config, review: Option<Usage>)
      modifies this`log, this`charges, run`spentUsd
      ensures View() == old(View()).(ledger := Reviewing(c, old(Account()), review))
    {
      if review.Some? { ChargeAndTick(review.value, c.innerIn, c.innerOut); }
    }

    // ---- one unit ----

    method DispatchUnit(u: WorkUnit, created: bool)
      modifies this`nextId, this`log
      ensures View() == Dispatch(old(View()), u, created)
    {
      hide UnitPayload;
      if created { nextId := nextId + 1; }
      Append(UnitDispatched(UnitPayload(u)));
    }

    method RunSingleUnit(c: Config, existing: Option<WorkUnit>, title: string, instruction: string, input: TurnInput)
      returns (step: Step)
      modifies this, run
      ensures PhaseOf(step, View()) == RunSingle(c, old(View()), existing, title, instruction, input)
    {
      hide WorkOn, UnitPayload, Redirected, NewUnit, CanTransition;
      var u: WorkUnit;
      if existing.Some? {
        u := Redirected(existing.value, title, instruction);
      } else {
        u := NewUnit(nextId, title, instruction);
      }
      DispatchUnit(u, existing.None?);
      var ok := SetState(InnerWorking);
      if !ok { return Fail(EDb); }
      step := WorkOnUnit(c, u, input);
    }

    method WorkOnUnit(c: Config, u: WorkUnit, input: TurnInput) returns (step: Step)
      modifies this, run
      ensures PhaseOf(step, View()) == WorkOn(c, old(View()), u, input)
    {
      hide GoalLoop, InnerReceipt;
      var result, _ := RunGoalLoop(c, input.goal);
      if result.Err? { return Fail(result.error); }
      if run.spentTurns >= run.maxTurns && result.value.crashed { return Fail(EBudget); }
      if input.committed.Err? { return Fail(input.committed.error); }
      var receipt := InnerReceipt(c, nextId, u, result.value, input.committed.value);
      nextId := nextId + 1;
      step := Review(u, receipt, false, []);
    }

    // ---- a peer batch ----

    method SeedPeerUnits(master: Id, peers: seq<PeerDraft>)
      modifies this`log, this`nextId
      ensures View() == old(View()).(ledger := SeedPeers(old(Account()), old(nextId), master, peers, 0),
                                     nextId := old(nextId) + |peers|)
    {
      hide UnitPayload;
      for idx := 0 to |peers|
        invariant nextId == old(nextId) + idx
        invariant View() == old(View()).(ledger := Account(), nextId := nextId)
        invariant SeedPeers(Account(), old(nextId), master, peers, idx)
            == SeedPeers(old(Account()), old(nextId), master, peers, 0)
      {
        var u := NewPeer(nextId, idx, master, peers[idx]);
        nextId := nextId + 1;
        Append(UnitSeeded(UnitPayload(u)));
      }
    }

    method CollectPeers(c: Config, b: BatchInput, first: Id, receipts: Id, n: nat) returns (error: Option<ErrorCode>)
      requires bursts != []
      modifies this`bursts, this`log, this`charges, run`spentUsd, run`spentTurns
      ensures View() == old(View()).(ledger := Account())
      ensures (Account(), error) == Collect(c, old(Account()), b, first, receipts, 0, n)
    {
      hide Drive.ChargeHandle, Booked, ReceiptPayload;
      for i := 0 to n
        invariant bursts != [] && View() == old(View()).(ledger := Account())
        invariant Collect(c, Account(), b, first, receipts, i, n)
            == Collect(c, old(Account()), b, first, receipts, 0, n)
      {
        var p := PeerAt(b, i);
        if p.adapter.Err? { return Some(p.adapter.error); }
        BookedStays(c, Account(), p.adapter.value);
        Book(c, p.adapter.value);
        if p.committed.Err? { return Some(p.committed.error); }
        var r := PeerReceipt(c, receipts + i, first + i, p.adapter.value, p.committed.value);
        Append(ReceiptSubmitted(ReceiptPayload(r, first + i)));
      }
      error := None;
    }

    method RunBatch(c: Config, peers: seq<PeerDraft>, covers: seq<Id>, b: BatchInput) returns (step: Step)
      modifies this, run
      ensures PhaseOf(step, View()) == RunPeerBatch(c, old(View()), peers, covers, b)
    {
      hide RunPeers, NewMaster, MasterPayload, PairwiseDisjoint, CanTransition;
      if |peers| < 2 { return Fail(ECommanderSchema); }
      var overlap := FindPeerOverlap(c.matcher, DraftGlobs(peers));
      if overlap.Some? { return Fail(EPeerOverlap); }
      if b.boundary.Some? { return Fail(b.boundary.value); }
      var master := NewMaster(nextId, peers);
      nextId := nextId + 1;
      Append(UnitDispatched(MasterPayload(master, covers)));
      var ok := SetState(InnerWorking);
      if !ok { return Fail(EDb); }
      step := WorkBatch(c, master, peers, covers, b);
    }

    method WorkBatch(c: Config, master: WorkUnit, peers: seq<PeerDraft>, covers: seq<Id>, b: BatchInput)
      returns (step: Step)
      modifies this, run
      ensures PhaseOf(step, View()) == RunPeers(c, old(View()), master, peers, covers, b)
    {
      hide Collect, SeedPeers, MergedReceipt;
      var first := nextId;
      SeedPeerUnits(master.id, peers);
      Open();
      if b.joined.Some? { return Fail(b.joined.value); }
      var receipts := nextId;
      nextId := nextId + |peers|;
      var error := CollectPeers(c, b, first, receipts, |peers|);
      if error.Some? { return Fail(error.value); }
      if b.merged.Err? { return Fail(b.merged.error); }
      var receipt := MergedReceipt(c, nextId, master.id, b, b.merged.value);
      nextId := nextId + 1;
      step := Review(master, receipt, false, covers);
    }

    // ---- a DAG ----

    /** Insert and log the created units, their dependencies now resolved to ids. */
    method InsertUnits(created: seq<(seq<string>, WorkUnit)>, byKey: map<string, Id>, ghost units: seq<WorkUnit>)
      returns (out: seq<WorkUnit>)
      requires |units| == |created|
      requires forall k :: 0 <= k < |units| ==> units[k] == created[k].1.(dependsOn := KeyIds(byKey, created[k].0))
      modifies this`log
      ensures out == units
      ensures View() == old(View()).(ledger := old(Account()).(log := old(log) + SeedEvents(units)))
    {
      hide UnitPayload, KeyIds, SeedEvents;
      out := [];
      for k := 0 to |created|
        invariant out == units[..k]
        invariant log == old(log) + SeedEvents(units)[..k]
      {
        var u := created[k].1.(dependsOn := KeyIds(byKey, created[k].0));
        log := log + [UnitSeeded(UnitPayload(u))];
        out := out + [u];
      }
    }

    method SeedDagUnits(drafts: seq<DagDraft>) returns (step: Step)
      modifies this`log, this`nextId, this`dag
      ensures PhaseOf(step, View()) == SeedDag(old(View()), drafts)
    {
      hide SeedEvents, KeyIds, SeededUnit, SeededUnits, AllDrafted, NodesOf, Dag.Sorted, Dag.NoRepeats;
      var sorted := Dag.TopoSort(NodesOf(drafts));
      if sorted.Err? { return Fail(sorted.error); }
      SortedOrderDistinct(drafts);
      var created := CreateUnits(drafts, sorted.value, nextId);
      if created.None? { return Fail(ECommanderSchema); }
      var out := InsertUnits(created.value.0, created.value.1, SeededUnits(drafts, sorted.value, nextId));
      nextId := nextId + |out|;
      dag := Some(out);
      step := NextTurn;
    }

    method RunDag(c: Config, units: seq<WorkUnit>, input: TurnInput) returns (step: Step)
      requires outcome.Running?
      modifies this, run
      ensures PhaseOf(step, View()) == DagPhase(c, old(View()), units, input)
    {
      hide RunSingle, RunPeerBatch, Wave, NextReady, ReadyAmong, AllAccepted;
      var wave := DagWave(c.matcher, ReadyUnits(units));
      if |wave| >= 2 {
        StartWave(Ids(wave));
        step := RunBatch(c, WaveDrafts(wave), Ids(wave), input.batch);
      } else {
        var next := NextReady(units);
        if next.Some? {
          step := RunSingleUnit(c, next, next.value.title, next.value.instruction, input);
        } else if AllAccepted(units) {
          Finish(Accepted, None);
          step := Stop;
        } else {
          step := Fail(EDagCycle);
        }
      }
    }

    method StartWave(ids: seq<Id>)
      modifies this`waveRework, this`waveKey
      ensures View() == Waved(old(View()), ids)
    {
      if IdSet(ids) != waveKey {
        waveRework := 0;
        waveKey := IdSet(ids);
      }
    }

    // ---- ending and moving on ----

    method Finish(to: RunState, error: Option<ErrorCode>)
      modifies this`path, this`outcome, run`state
      ensures View() == End(old(View()), to, error)
    {
      var ok := SetState(to);
      outcome := if ok then Ended(error) else Refused;
    }

    method GoOn(to: RunState)
      modifies this`path, this`outcome, run`state
      ensures View() == Continue(old(View()), to)
    {
      var ok := SetState(to);
      if !ok { outcome := Refused; }
    }

    // ---- the inner phase ----

    method Plan(c: Config, input: TurnInput) returns (step: Step)
      modifies this, run
      ensures PhaseOf(step, View()) == PlanPhase(c, old(View()), input)
    {
      hide RunSingle, RunPeerBatch, SeedDag, Drive.ChargeAndTick, Exhausted;
      var asked := AskPlan(input.plans, 3, ECommanderSchema);
      if asked.Err? { return Fail(asked.error); }
      var (plan, usage) := asked.value;
      ChargeAndTick(usage, c.commanderIn, c.commanderOut);
      var exhausted := IsExhausted();
      if exhausted {
        Finish(BudgetExhausted, Some(EBudget));
        return Stop;
      }
      match plan
      case Peers(peers) =>
        if unit.Some? { return Fail(ECommanderSchema); }
        step := RunBatch(c, peers, [], input.batch);
      case Dag(drafts) => step := SeedDagUnits(drafts);
      case Single(title, instruction) => step := RunSingleUnit(c, unit, title, instruction, input);
    }

    method Inner(c: Config, input: TurnInput) returns (step: Step)
      requires outcome.Running?
      modifies this, run
      ensures PhaseOf(step, View()) == InnerPhase(c, old(View()), input)
    {
      hide RunSingle, DagPhase, PlanPhase;
      if pending.Some? {
        var (u, r) := pending.value;
        pending := None;
        step := Review(u, r, true, []);
      } else if dag.Some? {
        step := RunDag(c, dag.value, input);
      } else if reuse {
        if unit.None? {
          outcome := Refused;
          return Stop;
        }
        reuse := false;
        step := RunSingleUnit(c, unit, unit.value.title, unit.value.instruction, input);
      } else {
        step := Plan(c, input);
      }
    }

    // ---- the outer phase ----

    method Submit(u: WorkUnit, r: Receipt, stored: bool)
      modifies this, run
      ensures View() == Submitted(old(View()), u, r, stored)
    {
      hide ReceiptPayload;
      unit := Some(u);
      if !stored {
        unit := Some(u.(receiptId := Some(r.id), commit := Some(r.commit), state := UReceiptReady));
        Append(ReceiptSubmitted(ReceiptPayload(r, u.id)));
        GoOn(ReceiptReady);
      }
    }

    method RecordVerdict(unitId: Id, covers: seq<Id>, gates: AcceptGates, d: Decision)
      requires unit.Some?
      modifies this`unit, this`nextId, this`log, this`reviews
      ensures View() == Recorded(old(View()), unitId, covers, gates, d) && unit.Some?
    {
      hide VerdictPayload;
      unit := Some(unit.value.(verdictId := Some(nextId)));
      nextId := nextId + 1;
      reviews := reviews + [Reviewed(unitId, covers, gates, d, run.View())];
      Append(Verdict(VerdictPayload(unitId, d)));
    }

    /** The finished unit replaces its copy in the DAG, and the members of its wave
        share its verdict. */
    method MarkAccepted(cur: WorkUnit, wave: seq<Id>, r: Receipt)
      requires dag.Some?
      modifies this`dag, this`waveRework
      ensures View() == old(View()).(dag := Some(AcceptMembers(old(dag.value), cur, wave, r)),
                                     waveRework := if wave != [] then 0 else old(waveRework))
    {
      var units, before := dag.value, dag.value;
      for i := 0 to |units|
        invariant |units| == |before| && forall j :: i <= j < |units| ==> units[j] == before[j]
        invariant forall j :: 0 <= j < i ==> units[j] == if before[j].id == cur.id then cur else before[j]
      {
        if units[i].id == cur.id { units := units[i := cur]; }
      }
      if wave != [] {
        ghost var replaced := units;
        for i := 0 to |units|
          invariant |units| == |before| && forall j :: i <= j < |units| ==> units[j] == replaced[j]
          invariant forall j :: 0 <= j < i ==> units[j] == AcceptMember(before[j], cur, wave, r)
        {
          if units[i].id in wave {
            units := units[i := units[i].(state := UAccepted, receiptId := Some(r.id), commit := Some(r.commit))];
          }
        }
        waveRework := 0;
      }
      assert units == AcceptMembers(before, cur, wave, r);
      dag := Some(units);
    }

    method AcceptUnit(gates: AcceptGates, r: Receipt, wave: seq<Id>)
      requires unit.Some?
      modifies this, run
      ensures View() == OnAccept(old(View()), gates, r, wave)
    {
      hide AcceptMembers, AcceptGates.CanAccept;
      if !gates.CanAccept() {
        Finish(Failed, Some(EDb));
        return;
      }
      var cur := unit.value.(state := UAccepted);
      unit := Some(cur);
      if dag.Some? { MarkAccepted(cur, wave, r); }
      assert View() == AcceptedLoop(old(View()), r, wave);
      if dag.Some? && !AllAccepted(dag.value) { GoOn(Dispatched); } else { Finish(Accepted, None); }
    }

    method CountWaveRework(wave: seq<Id>)
      requires dag.Some?
      modifies this`dag
      ensures View() == old(View()).(dag := Some(ReworkMembers(old(dag.value), wave)))
    {
      var units, before := dag.value, dag.value;
      for i := 0 to |units|
        invariant |units| == |before| && forall j :: i <= j < |units| ==> units[j] == before[j]
        invariant forall j :: 0 <= j < i ==> units[j] == ReworkMember(before[j], wave)
      {
        if units[i].id in wave { units := units[i := units[i].(rework := units[i].rework + 1)]; }
      }
      assert units == ReworkMembers(before, wave);
      dag := Some(units);
    }

    method ReworkUnit(wave: seq<Id>)
      requires unit.Some?
      modifies this, run
      ensures View() == OnRework(old(View()), wave)
    {
      hide ReworkMembers, CanTransition;
      if wave != [] {
        waveRework := waveRework + 1;
        if waveRework > MAX_REWORK {
          Finish(Escalate, Some(EReworkLimit));
          return;
        }
        if dag.Some? { CountWaveRework(wave); }
      }
      unit := Some(unit.value.(rework := unit.value.rework + 1));
      if unit.value.rework > MAX_REWORK {
        Finish(Escalate, Some(EReworkLimit));
        return;
      }
      unit := Some(unit.value.(state := UQueued));
      GoOn(Rework);
      if !outcome.Refused? { GoOn(Dispatched); }
    }

    method Decide(d: Decision, gates: AcceptGates, r: Receipt, wave: seq<Id>)
      requires unit.Some?
      modifies this, run
      ensures View() == Decided(old(View()), d, gates, r, wave)
    {
      hide OnAccept, OnRework;
      match d
      case DAccept => AcceptUnit(gates, r, wave);
      case DReject => Finish(Rejected, Some(if gates.boundaryOk then ERejected else EBoundary));
      case DEscalate => Finish(Escalate, Some(EEscalated));
      case DRework => ReworkUnit(wave);
    }

    method AssembleGates(c: Config, u: WorkUnit, r: Receipt, pluginOk: bool, v: ReviewInput)
      returns (gates: AcceptGates)
      ensures gates == GatesOf(c, View(), u, r, pluginOk, v)
    {
      hide Exhausted;
      var budgetDone := IsExhausted();
      var rework := if unit.Some? then unit.value.rework else 0;
      if rework < waveRework { rework := waveRework; }
      gates := AcceptGates(v.outerCode, v.boundaryOk, r.testCommand,
                           if u.testCommand.Some? then u.testCommand.value else c.testCommand,
                           v.descendant, r.changedFiles != [], budgetDone, rework,
                           pluginOk, v.boundOk, v.secretsOk, v.mustHaveOk);
    }

    method JudgeUnit(c: Config, u: WorkUnit, r: Receipt, wave: seq<Id>, v: ReviewInput)
      requires unit.Some?
      modifies this, run
      ensures View() == Judge(c, old(View()), u, r, wave, v)
    {
      hide GatesOf, Proposal, CanTransition, Decided, Drive.ChargeAndTick, Enforced, Recorded, AskVerdict, Exhausted,
           AcceptGates.CanAccept, MechanicalDecision;
      if v.plugin.Err? {
        Finish(Failed, Some(v.plugin.error));
        return;
      }
      var gates := AssembleGates(c, u, r, v.plugin.value, v);
      var proposal := Proposal(gates, v);
      if proposal.Err? {
        Finish(Failed, Some(proposal.error));
        return;
      }
      var (proposed, usage) := proposal.value;
      ChargeAndTick(usage, c.commanderIn, c.commanderOut);
      var d, note := EnforceDecision(proposed, gates);
      var exhausted := IsExhausted();
      if note == Some(EBudget) || (d == DAccept && exhausted) {
        Finish(BudgetExhausted, Some(EBudget));
        return;
      }
      RecordVerdict(u.id, wave, gates, d);
      Decide(d, gates, r, wave);
    }

    method Outer(c: Config, u: WorkUnit, receipt: Receipt, stored: bool, wave: seq<Id>, v: ReviewInput)
      modifies this, run
      ensures View() == OuterPhase(c, old(View()), u, receipt, stored, wave, v)
    {
      hide Judge, ReceiptPayload;
      var r := OverriddenCommand(receipt, u);
      Submit(u, r, stored);
      if outcome.Refused? { return; }
      if run.spentTurns >= run.maxTurns && r.changedFiles == [] {
        Finish(BudgetExhausted, Some(EBudget));
        return;
      }
      GoOn(OuterReviewing);
      if outcome.Refused? { return; }
      JudgeUnit(c, u, r, wave, v);
    }

    // ---- the loop ----

    method TakeTurn(c: Config, input: TurnInput)
      requires outcome.Running?
      modifies this, run
      ensures View() == Turn(c, old(View()), input)
    {
      hide InnerPhase, OuterPhase, Exhausted;
      var exhausted := IsExhausted();
      if exhausted {
        Finish(BudgetExhausted, Some(EBudget));
        return;
      }
      var step := Inner(c, input);
      match step
      case Review(u, receipt, stored, wave) => Outer(c, u, receipt, stored, wave, input.review);
      case Fail(e) => Finish(Failed, Some(e));
      case Stop =>
      case NextTurn =>
    }

    /** The whole loop, which always comes to an end. */
    method DriveFactory(c: Config, env: nat -> TurnInput, ghost start: Run)
      requires CleanHead(View()) && Books(Account(), start)
      modifies this, run
      ensures View() == RunToEnd(c, old(View()), env, 0, start)
      ensures FinishedWell(View(), start)
    {
      hide Turn, CleanHead, Books, FinishedWell;
      ghost var first := View();
      EveryRunEnds(c, first, env, 0, start);
      var k := 0;
      HeadRunning(View());
      while outcome.Running?
        invariant outcome.Running? ==> CleanHead(View()) && Books(Account(), start)
                                       && RunToEnd(c, View(), env, k, start) == RunToEnd(c, first, env, 0, start)
        invariant !outcome.Running? ==> View() == RunToEnd(c, first, env, 0, start)
        decreases outcome.Running?, TurnsLeft(Account().run), pending.Some?, dag.None?
      {
        TurnIsClean(c, View(), env(k), start);
        ghost var s := View();
        TakeTurn(c, env(k));
        k := k + 1;
      }
    }
  }

  lemma BookedStays(c: Config, l: Ledger, h: Handle)
    requires l.bursts != []
    ensures Drive.ChargeHandle(c, Booked(l, h), h).bursts != []
  {
    hide CostOf;
  }

  lemma HeadRunning(s: Loop)
    requires CleanHead(s)
    ensures s.outcome.Running?
  {}
}
