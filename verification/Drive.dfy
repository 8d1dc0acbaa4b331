/** The factory drive loop as a function of what the outside world answers
    (drive_factory, run_single_unit, run_goal_loop, run_peer_batch and
    seed_dag_units in crates/wanax-cli/src/engine.rs).

    One call of `Turn` is one iteration of the loop. Everything the commander,
    the workers, the tests and git report is an arbitrary `TurnInput`. */
module Drive {
  import opened Types
  import opened State
  import opened Accept
  import opened Budget
  import opened Events
  import opened GlobOverlap
  import opened Scheduler
  import Dag
  import Text

  // ---- configuration and the outside world ----

  datatype Config = Config(
    matcher: Matcher,
    testCommand: string,
    commanderIn: I64,
    commanderOut: I64,
    innerIn: I64,
    innerOut: I64)

  /** An adapter reports at least one turn. */
  type Turns = n: U32 | n >= 1 witness 1

  datatype Handle = Handle(
    turns: Turns,
    crashed: bool,
    testExit: int,
    claimed: bool,
    costUsd: Option<I64>,
    usageIn: Option<U64>,
    usageOut: Option<U64>)

  /** One pass of the goal loop: the worker, the bound test and the self review. */
  datatype GoalPass = GoalPass(
    before: Result<seq<string>, ErrorCode>,
    adapter: Result<Handle, ErrorCode>,
    test: Result<int, ErrorCode>,
    changed: Result<seq<string>, ErrorCode>,
    review: Option<Usage>)

  type GoalPasses = p: seq<GoalPass> | |p| == MAX_GOAL_ITERS
    witness seq(MAX_GOAL_ITERS, _ => GoalPass(Ok([]), Err(EWorkerCrash), Ok(0), Ok([]), None))

  /** A commit and the files it changes against the base. */
  datatype Committed = Committed(commit: Sha, changed: seq<string>)

  datatype PeerResult = PeerResult(adapter: Result<Handle, ErrorCode>, committed: Result<Committed, ErrorCode>)

  /** A batch: the boundary probes, worktree setup and join each may fail. */
  datatype BatchInput = BatchInput(
    boundary: Option<ErrorCode>,
    joined: Option<ErrorCode>,
    peers: seq<PeerResult>,
    merged: Result<Committed, ErrorCode>,
    mergedExit: int)

  datatype PeerDraft = PeerDraft(title: string, instruction: string, globs: seq<string>)

  datatype DagDraft = DagDraft(
    key: string,
    title: string,
    instruction: string,
    dependsOn: seq<string>,
    globs: Option<seq<string>>,
    testCommand: Option<string>)

  datatype Plan =
    | Single(title: string, instruction: string)
    | Peers(peers: seq<PeerDraft>)
    | Dag(units: seq<DagDraft>)

  datatype ReviewInput = ReviewInput(
    outerCode: int,
    changed: seq<string>,
    boundaryOk: bool,
    secretsOk: bool,
    boundOk: bool,
    mustHaveOk: bool,
    plugin: Result<bool, ErrorCode>,
    descendant: bool,
    verdicts: seq<Result<(Decision, Usage), ErrorCode>>,
    mechanicalUsage: Usage)

  datatype TurnInput = TurnInput(
    plans: seq<Result<(Plan, Usage), ErrorCode>>,
    goal: GoalPasses,
    committed: Result<Committed, ErrorCode>,
    batch: BatchInput,
    review: ReviewInput)

  // ---- the loop's state ----

  /** An adapter call, or all the calls of one peer batch. */
  datatype Burst = Burst(before: Run, turns: nat)

  /** The run record and the envelope, with the history of state changes,
      charges and adapter calls that led to them. */
  datatype Ledger = Ledger(
    run: Run,
    log: seq<Event>,
    path: seq<RunState>,
    charges: seq<I64>,
    bursts: seq<Burst>)

  datatype Reviewed = Reviewed(
    unitId: Id,
    covers: seq<Id>,
    gates: AcceptGates,
    decision: Decision,
    run: Run)

  datatype Outcome =
    | Running
    | Ended(error: Option<ErrorCode>)
    | Refused // a state change was refused outside the inner phase

  datatype Loop = Loop(
    ledger: Ledger,
    unit: Option<WorkUnit>,
    dag: Option<seq<WorkUnit>>,
    pending: Option<(WorkUnit, Receipt)>,
    reuse: bool,
    waveRework: nat,
    waveKey: set<Id>,
    nextId: Id,
    reviews: seq<Reviewed>,
    outcome: Outcome)

  /** What the inner phase of a turn hands to the outer phase. */
  datatype Phase =
    | Got(s: Loop, u: WorkUnit, receipt: Receipt, stored: bool, wave: seq<Id>)
    | FailedWith(s: Loop, error: ErrorCode)
    | Halted(s: Loop)
    | Again(s: Loop)

  // ---- the ledger ----

  function Logged(l: Ledger, e: Event): Ledger { l.(log := l.log + [e]) }

  /** `set_state`: refused when the transition is illegal. */
  function Moved(l: Ledger, to: RunState): Option<Ledger> {
    if CanTransition(l.run.state, to)
    then Some(l.(run := l.run.(state := to), path := l.path + [to]))
    else None
  }

  function ChargeAndTick(l: Ledger, u: Usage, rateIn: I64, rateOut: I64): Ledger {
    var (cost, estimated) := CostOf(u, rateIn, rateOut);
    var r := Charge(l.run, cost);
    l.(run := r, log := l.log + [Tick(TickOf(r, estimated))], charges := l.charges + [cost])
  }

  function HandleUsage(h: Handle): Usage { Usage(h.costUsd, h.usageIn, h.usageOut, 0, 0) }

  function ChargeHandle(c: Config, l: Ledger, h: Handle): Ledger {
    if h.costUsd.None? && h.usageIn.None? && h.usageOut.None? then l
    else ChargeAndTick(l, HandleUsage(h), c.innerIn, c.innerOut)
  }

  /** Start a burst of adapter calls. */
  function Opened(l: Ledger): Ledger { l.(bursts := l.bursts + [Burst(l.run, 0)]) }

  /** Book a returned handle's turns on the burst in progress. */
  function Booked(l: Ledger, h: Handle): Ledger
    requires l.bursts != []
  {
    var last := |l.bursts| - 1;
    l.(run := WithTurns(l.run, h.turns),
       bursts := l.bursts[last := l.bursts[last].(turns := l.bursts[last].turns + h.turns)])
  }

  // ---- the goal loop ----

  /** One worker call with its accounting. */
  function Worked(c: Config, l: Ledger, h: Handle): Ledger { ChargeHandle(c, Booked(Opened(l), h), h) }

  function Reviewing(c: Config, l: Ledger, review: Option<Usage>): Ledger {
    if review.Some? then ChargeAndTick(l, review.value, c.innerIn, c.innerOut) else l
  }

  function GoalLoop(c: Config, l: Ledger, passes: GoalPasses, i: nat, last: Option<Handle>, prev: Option<seq<string>>)
    : (Ledger, Result<Handle, ErrorCode>)
    decreases MAX_GOAL_ITERS - i
  {
    if i >= MAX_GOAL_ITERS || Exhausted(l.run) then
      (l, if last.Some? then Ok(last.value) else Err(EWorkerCrash))
    else
      var p := passes[i];
      if p.before.Err? then (l, Err(p.before.error))
      else if p.adapter.Err? then (l, Err(p.adapter.error))
      else
        var worked := Worked(c, l, p.adapter.value);
        if p.adapter.value.crashed then (worked, Ok(p.adapter.value))
        else if p.test.Err? then (worked, Err(p.test.error))
        else if p.changed.Err? then (worked, Err(p.changed.error))
        else
          var h := p.adapter.value.(testExit := p.test.value);
          var reviewed := Reviewing(c, worked, p.review);
          if p.test.value == 0 || Exhausted(reviewed.run)
             || p.changed.value == p.before.value || prev == Some(p.changed.value)
          then (reviewed, Ok(h))
          else GoalLoop(c, reviewed, passes, i + 1, Some(h), Some(p.changed.value))
  }

  // ---- one unit ----

  function Redirected(u: WorkUnit, title: string, instruction: string): WorkUnit {
    u.(instruction := instruction, title := title, role := RGoal, state := UImplementing)
  }

  function NewUnit(id: Id, title: string, instruction: string): WorkUnit {
    WorkUnit(id, 1, title, instruction, UAssigned, RGoal, None, None, [], None, None, 0, None, None, None)
  }

  function InnerReceipt(c: Config, id: Id, u: WorkUnit, h: Handle, k: Committed): Receipt {
    Receipt(id, u.id, k.changed, k.commit, c.testCommand, h.testExit, h.claimed)
  }

  /** After the dispatch of `u` is logged; a new unit took a fresh id. */
  function Dispatch(s: Loop, u: WorkUnit, created: bool): Loop {
    s.(ledger := Logged(s.ledger, UnitDispatched(UnitPayload(u))),
       nextId := if created then s.nextId + 1 else s.nextId)
  }

  function RunSingle(c: Config, s: Loop, existing: Option<WorkUnit>, title: string, instruction: string,
                     input: TurnInput)
    : Phase
  {
    var u := if existing.Some? then Redirected(existing.value, title, instruction)
             else NewUnit(s.nextId, title, instruction);
    var s1 := Dispatch(s, u, existing.None?);
    var moved := Moved(s1.ledger, InnerWorking);
    if moved.None? then FailedWith(s1, EDb) else WorkOn(c, s1.(ledger := moved.value), u, input)
  }

  /** The goal loop on a dispatched unit, and its receipt. */
  function WorkOn(c: Config, s: Loop, u: WorkUnit, input: TurnInput): Phase {
    var (worked, result) := GoalLoop(c, s.ledger, input.goal, 0, None, None);
    var s2 := s.(ledger := worked);
    if result.Err? then FailedWith(s2, result.error)
    else if TurnsExhausted(worked.run) && result.value.crashed then FailedWith(s2, EBudget)
    else if input.committed.Err? then FailedWith(s2, input.committed.error)
    else Got(s2.(nextId := s2.nextId + 1), u,
             InnerReceipt(c, s2.nextId, u, result.value, input.committed.value), false, [])
  }

  // ---- a peer batch ----

  function NewMaster(id: Id, peers: seq<PeerDraft>): WorkUnit {
    WorkUnit(id, 1, "peer-batch (" + Text.Digits(|peers|) + ")", Instructions(peers), UAssigned, RMaster, None, None,
             [], None, None, 0, None, None, None)
  }

  function Instructions(peers: seq<PeerDraft>): string {
    if peers == [] then ""
    else "- " + peers[0].title + ": " + peers[0].instruction
         + if |peers| == 1 then "" else "\n" + Instructions(peers[1..])
  }

  /** A 1-based sequence number, as `u32::try_from(idx + 1).unwrap_or(1)`. */
  function SeqNo(idx: nat): nat { if idx + 1 <= U32_MAX then idx + 1 else 1 }

  function NewPeer(id: Id, idx: nat, master: Id, peer: PeerDraft): WorkUnit {
    WorkUnit(id, SeqNo(idx) + 1, peer.title, peer.instruction, UImplementing, RPeer, Some(master), Some(peer.globs),
             [], None, Some("peer-" + Text.Digits(SeqNo(idx))), 0, None, None, None)
  }

  /** The seeding events of peers `idx`.., the first of which gets id `first + idx`. */
  function SeedPeers(l: Ledger, first: Id, master: Id, peers: seq<PeerDraft>, idx: nat): Ledger
    requires idx <= |peers|
    decreases |peers| - idx
  {
    if idx == |peers| then l
    else
      SeedPeers(Logged(l, UnitSeeded(UnitPayload(NewPeer(first + idx, idx, master, peers[idx])))), first, master,
                peers, idx + 1)
  }

  function PeerAt(b: BatchInput, i: nat): PeerResult {
    if i < |b.peers| then b.peers[i] else PeerResult(Err(EWorkerCrash), Err(EWorkerCrash))
  }

  function PeerReceipt(c: Config, id: Id, unitId: Id, h: Handle, k: Committed): Receipt {
    Receipt(id, unitId, k.changed, k.commit, c.testCommand, h.testExit, h.claimed)
  }

  /** Account for peers i.. of n and log their receipts; unit i has id `first + i`
      and its receipt id `receipts + i`. */
  function Collect(c: Config, l: Ledger, b: BatchInput, first: Id, receipts: Id, i: nat, n: nat)
    : (Ledger, Option<ErrorCode>)
    requires i <= n && l.bursts != []
    decreases n - i
  {
    if i == n then (l, None)
    else
      var p := PeerAt(b, i);
      if p.adapter.Err? then (l, Some(p.adapter.error))
      else
        var worked := ChargeHandle(c, Booked(l, p.adapter.value), p.adapter.value);
        if p.committed.Err? then (worked, Some(p.committed.error))
        else
          var r := PeerReceipt(c, receipts + i, first + i, p.adapter.value, p.committed.value);
          Collect(c, Logged(worked, ReceiptSubmitted(ReceiptPayload(r, first + i))), b, first, receipts, i + 1, n)
  }

  function DraftGlobs(peers: seq<PeerDraft>): (g: seq<seq<string>>)
    ensures |g| == |peers| && forall i :: 0 <= i < |g| ==> g[i] == peers[i].globs
  {
    if peers == [] then [] else [peers[0].globs] + DraftGlobs(peers[1..])
  }

  function MergedReceipt(c: Config, id: Id, master: Id, b: BatchInput, k: Committed): Receipt {
    Receipt(id, master, k.changed, k.commit, c.testCommand, b.mergedExit, b.mergedExit == 0)
  }

  /** The batch once its master is dispatched and the run is working. */
  function RunPeers(c: Config, s: Loop, master: WorkUnit, peers: seq<PeerDraft>, covers: seq<Id>,
                    b: BatchInput): Phase {
    var n := |peers|;
    var seeded := s.(ledger := Opened(SeedPeers(s.ledger, s.nextId, master.id, peers, 0)), nextId := s.nextId + n);
    if b.joined.Some? then FailedWith(seeded, b.joined.value)
    else
      var (done, error) := Collect(c, seeded.ledger, b, s.nextId, seeded.nextId, 0, n);
      var s2 := seeded.(ledger := done, nextId := seeded.nextId + n);
      if error.Some? then FailedWith(s2, error.value)
      else if b.merged.Err? then FailedWith(s2, b.merged.error)
      else Got(s2.(nextId := s2.nextId + 1), master, MergedReceipt(c, s2.nextId, master.id, b, b.merged.value), false,
               covers)
  }

  ghost function RunPeerBatch(c: Config, s: Loop, peers: seq<PeerDraft>, covers: seq<Id>, b: BatchInput): Phase {
    if |peers| < 2 then FailedWith(s, ECommanderSchema)
    else if !PairwiseDisjoint(c.matcher, DraftGlobs(peers)) then FailedWith(s, EPeerOverlap)
    else if b.boundary.Some? then FailedWith(s, b.boundary.value)
    else
      var master := NewMaster(s.nextId, peers);
      var s1 := s.(ledger := Logged(s.ledger, UnitDispatched(MasterPayload(master, covers))), nextId := s.nextId + 1);
      var moved := Moved(s1.ledger, InnerWorking);
      if moved.None? then FailedWith(s1, EDb)
      else RunPeers(c, s1.(ledger := moved.value), master, peers, covers, b)
  }

  // ---- seeding a DAG ----

  function NodesOf(drafts: seq<DagDraft>): (nodes: seq<Dag.Node>)
    ensures |nodes| == |drafts|
    ensures forall i :: 0 <= i < |nodes| ==> nodes[i] == Dag.Node(drafts[i].key, drafts[i].dependsOn)
  {
    if drafts == [] then [] else [Dag.Node(drafts[0].key, drafts[0].dependsOn)] + NodesOf(drafts[1..])
  }

  predicate Drafted(drafts: seq<DagDraft>, key: string) { exists d :: d in drafts && d.key == key }

  /** The first draft with this key. */
  function DraftOf(drafts: seq<DagDraft>, key: string): (d: DagDraft)
    requires Drafted(drafts, key)
    ensures d in drafts && d.key == key
  {
    if drafts[0].key == key then drafts[0] else DraftOf(drafts[1..], key)
  }

  /** Where a key stands in an order. */
  function IndexIn(order: seq<string>, key: string): (k: nat)
    requires key in order
    ensures k < |order| && order[k] == key
  {
    if order[0] == key then 0 else 1 + IndexIn(order[1..], key)
  }

  /** Dependency keys as unit ids; unit k of the order has id `first + k`. */
  function DepIds(order: seq<string>, first: Id, deps: seq<string>): (ids: seq<Id>)
  {
    if deps == [] then []
    else (if deps[0] in order then [first + IndexIn(order, deps[0])] else []) + DepIds(order, first, deps[1..])
  }

  function SeededUnit(drafts: seq<DagDraft>, order: seq<string>, first: Id, k: nat): WorkUnit
    requires k < |order| && Drafted(drafts, order[k])
  {
    var d := DraftOf(drafts, order[k]);
    WorkUnit(first + k, SeqNo(k), d.title, d.instruction, UQueued, RGoal, None, d.globs,
             DepIds(order, first, d.dependsOn), d.testCommand, Some(d.key), 0, None, None, None)
  }

  predicate AllDrafted(drafts: seq<DagDraft>, order: seq<string>) {
    forall k :: 0 <= k < |order| ==> Drafted(drafts, order[k])
  }

  function SeededUnits(drafts: seq<DagDraft>, order: seq<string>, first: Id): (units: seq<WorkUnit>)
    requires AllDrafted(drafts, order)
    ensures |units| == |order|
    ensures forall k :: 0 <= k < |units| ==> units[k] == SeededUnit(drafts, order, first, k)
  {
    seq(|order|, k requires 0 <= k < |order| => SeededUnit(drafts, order, first, k))
  }

  function SeedEvents(units: seq<WorkUnit>): (es: seq<Event>)
    ensures |es| == |units|
    ensures forall i :: 0 <= i < |es| ==> es[i] == UnitSeeded(UnitPayload(units[i]))
  {
    if units == [] then [] else [UnitSeeded(UnitPayload(units[0]))] + SeedEvents(units[1..])
  }

  ghost function SeedDag(s: Loop, drafts: seq<DagDraft>): Phase {
    var sorted := Dag.Sorted(NodesOf(drafts));
    if sorted.Err? then FailedWith(s, sorted.error)
    else if !AllDrafted(drafts, sorted.value) then FailedWith(s, ECommanderSchema)
    else
      var units := SeededUnits(drafts, sorted.value, s.nextId);
      Again(s.(ledger := s.ledger.(log := s.ledger.log + SeedEvents(units)),
               dag := Some(units),
               nextId := s.nextId + |units|))
  }

  // ---- asking the commander ----

  predicate EmptyPlan(p: Plan) {
    match p
    case Single(t, i) => t == "" || i == ""
    case Peers(ps) => ps == []
    case Dag(us) => us == []
  }

  /** `dispatch_with_retry`: up to three attempts past schema errors and empty plans. */
  function AskPlan(attempts: seq<Result<(Plan, Usage), ErrorCode>>, left: nat, last: ErrorCode)
    : Result<(Plan, Usage), ErrorCode>
  {
    if left == 0 || attempts == [] then Err(last)
    else match attempts[0]
      case Ok((plan, usage)) =>
        if EmptyPlan(plan) then AskPlan(attempts[1..], left - 1, ECommanderSchema) else Ok((plan, usage))
      case Err(e) =>
        if e == ECommanderSchema then AskPlan(attempts[1..], left - 1, e) else Err(e)
  }

  /** The verdict, retried the same way. */
  function AskVerdict(attempts: seq<Result<(Decision, Usage), ErrorCode>>, left: nat, last: ErrorCode)
    : Result<(Decision, Usage), ErrorCode>
  {
    if left == 0 || attempts == [] then Err(last)
    else match attempts[0]
      case Ok(v) => Ok(v)
      case Err(e) => if e == ECommanderSchema then AskVerdict(attempts[1..], left - 1, e) else Err(e)
  }

  /** The verdict of the mechanical commander. */
  function MechanicalDecision(outerCode: int, boundaryOk: bool, changed: seq<string>): Decision {
    if outerCode != 0 then DRework
    else if !boundaryOk then DReject
    else if changed == [] then DReject
    else DAccept
  }

  // ---- the inner phase ----

  function Ids(units: seq<WorkUnit>): (ids: seq<Id>)
    ensures |ids| == |units| && forall i :: 0 <= i < |ids| ==> ids[i] == units[i].id
  {
    if units == [] then [] else [units[0].id] + Ids(units[1..])
  }

  function WaveDrafts(wave: seq<WorkUnit>): (d: seq<PeerDraft>)
    ensures |d| == |wave|
    ensures forall i :: 0 <= i < |d| ==> d[i] == PeerDraft(wave[i].title, wave[i].instruction, GlobsOf(wave[i]))
  {
    if wave == [] then []
    else [PeerDraft(wave[0].title, wave[0].instruction, GlobsOf(wave[0]))] + WaveDrafts(wave[1..])
  }

  function IdSet(ids: seq<Id>): set<Id> { set id | id in ids }

  /** Starting a wave: a new member set starts a new rework count. */
  function Waved(s: Loop, ids: seq<Id>): Loop {
    if IdSet(ids) == s.waveKey then s else s.(waveRework := 0, waveKey := IdSet(ids))
  }

  ghost function DagPhase(c: Config, s: Loop, units: seq<WorkUnit>, input: TurnInput): Phase {
    var wave := Wave(c.matcher, ReadyUnits(units));
    if |wave| >= 2 then RunPeerBatch(c, Waved(s, Ids(wave)), WaveDrafts(wave), Ids(wave), input.batch)
    else
      var next := NextReady(units);
      if next.Some? then RunSingle(c, s, next, next.value.title, next.value.instruction, input)
      else if AllAccepted(units) then Halted(End(s, Accepted, None))
      else FailedWith(s, EDagCycle)
  }

  ghost function PlanPhase(c: Config, s: Loop, input: TurnInput): Phase {
    var asked := AskPlan(input.plans, 3, ECommanderSchema);
    if asked.Err? then FailedWith(s, asked.error)
    else
      var (plan, usage) := asked.value;
      var s1 := s.(ledger := ChargeAndTick(s.ledger, usage, c.commanderIn, c.commanderOut));
      if Exhausted(s1.ledger.run) then Halted(FailBudget(s1))
      else match plan
        case Peers(peers) =>
          if s1.unit.Some? then FailedWith(s1, ECommanderSchema) else RunPeerBatch(c, s1, peers, [], input.batch)
        case Dag(drafts) => SeedDag(s1, drafts)
        case Single(title, instruction) => RunSingle(c, s1, s1.unit, title, instruction, input)
  }

  ghost function InnerPhase(c: Config, s: Loop, input: TurnInput): Phase {
    if s.pending.Some? then
      Got(s.(pending := None), s.pending.value.0, s.pending.value.1, true, [])
    else if s.dag.Some? then DagPhase(c, s, s.dag.value, input)
    else if s.reuse then
      if s.unit.Some?
      then RunSingle(c, s.(reuse := false), s.unit, s.unit.value.title, s.unit.value.instruction, input)
      else Halted(s.(outcome := Refused))
    else PlanPhase(c, s, input)
  }

  // ---- ending ----

  function End(s: Loop, to: RunState, error: Option<ErrorCode>): Loop {
    var moved := Moved(s.ledger, to);
    if moved.None? then s.(outcome := Refused) else s.(ledger := moved.value, outcome := Ended(error))
  }

  function FailRun(s: Loop, e: ErrorCode): Loop { End(s, Failed, Some(e)) }

  function FailBudget(s: Loop): Loop { End(s, BudgetExhausted, Some(EBudget)) }

  /** Back to dispatching, still running. */
  function Continue(s: Loop, to: RunState): Loop {
    var moved := Moved(s.ledger, to);
    if moved.None? then s.(outcome := Refused) else s.(ledger := moved.value)
  }

  // ---- the outer phase ----

  function OverriddenCommand(r: Receipt, u: WorkUnit): Receipt {
    if u.testCommand.Some? then r.(testCommand := u.testCommand.value) else r
  }

  /** A fresh receipt is recorded on the unit and logged. */
  function Submitted(s: Loop, u: WorkUnit, r: Receipt, stored: bool): Loop {
    if stored then s.(unit := Some(u))
    else
      Continue(
        s.(unit := Some(u.(receiptId := Some(r.id), commit := Some(r.commit), state := UReceiptReady)),
           ledger := Logged(s.ledger, ReceiptSubmitted(ReceiptPayload(r, u.id)))),
        ReceiptReady)
  }

  function ReworkSoFar(s: Loop): nat {
    var n := if s.unit.Some? then s.unit.value.rework else 0;
    if n < s.waveRework then s.waveRework else n
  }

  function GatesOf(c: Config, s: Loop, u: WorkUnit, r: Receipt, pluginOk: bool, v: ReviewInput): AcceptGates {
    AcceptGates(
      v.outerCode,
      v.boundaryOk,
      r.testCommand,
      if u.testCommand.Some? then u.testCommand.value else c.testCommand,
      v.descendant,
      r.changedFiles != [],
      Exhausted(s.ledger.run),
      ReworkSoFar(s),
      pluginOk,
      v.boundOk,
      v.secretsOk,
      v.mustHaveOk)
  }

  /** Only when every gate holds is the real commander asked. */
  function Proposal(gates: AcceptGates, v: ReviewInput): Result<(Decision, Usage), ErrorCode> {
    if gates.CanAccept() then AskVerdict(v.verdicts, 3, ECommanderSchema)
    else Ok((MechanicalDecision(v.outerCode, v.boundaryOk, v.changed), v.mechanicalUsage))
  }

  function WithVerdict(s: Loop): Loop
    requires s.unit.Some?
  {
    s.(unit := Some(s.unit.value.(verdictId := Some(s.nextId))), nextId := s.nextId + 1)
  }

  /** The verdict, once it stands, is stored and logged. */
  function Recorded(s: Loop, unitId: Id, covers: seq<Id>, gates: AcceptGates, d: Decision): Loop
    requires s.unit.Some?
  {
    WithVerdict(s).(
      ledger := Logged(s.ledger, Verdict(VerdictPayload(unitId, d))),
      reviews := s.reviews + [Reviewed(unitId, covers, gates, d, s.ledger.run)])
  }

  function AcceptMember(d: WorkUnit, cur: WorkUnit, wave: seq<Id>, r: Receipt): WorkUnit {
    var d1 := if d.id == cur.id then cur else d;
    if d1.id in wave then d1.(state := UAccepted, receiptId := Some(r.id), commit := Some(r.commit)) else d1
  }

  function AcceptMembers(units: seq<WorkUnit>, cur: WorkUnit, wave: seq<Id>, r: Receipt): (out: seq<WorkUnit>)
    ensures |out| == |units|
    ensures forall i :: 0 <= i < |out| ==> out[i] == AcceptMember(units[i], cur, wave, r)
  {
    if units == [] then [] else [AcceptMember(units[0], cur, wave, r)] + AcceptMembers(units[1..], cur, wave, r)
  }

  function ReworkMember(d: WorkUnit, wave: seq<Id>): WorkUnit {
    if d.id in wave then d.(rework := d.rework + 1) else d
  }

  function ReworkMembers(units: seq<WorkUnit>, wave: seq<Id>): (out: seq<WorkUnit>)
    ensures |out| == |units|
    ensures forall i :: 0 <= i < |out| ==> out[i] == ReworkMember(units[i], wave)
  {
    if units == [] then [] else [ReworkMember(units[0], wave)] + ReworkMembers(units[1..], wave)
  }

  /** The state after an accept, before the run moves on. */
  function AcceptedLoop(s: Loop, r: Receipt, wave: seq<Id>): Loop
    requires s.unit.Some?
  {
    var cur := s.unit.value.(state := UAccepted);
    if s.dag.None? then s.(unit := Some(cur))
    else s.(unit := Some(cur),
            dag := Some(AcceptMembers(s.dag.value, cur, wave, r)),
            waveRework := if wave != [] then 0 else s.waveRework)
  }

  function OnAccept(s: Loop, gates: AcceptGates, r: Receipt, wave: seq<Id>): Loop
    requires s.unit.Some?
  {
    if !gates.CanAccept() then FailRun(s, EDb)
    else
      var s1 := AcceptedLoop(s, r, wave);
      if s1.dag.Some? && !AllAccepted(s1.dag.value) then Continue(s1, Dispatched)
      else End(s1, Accepted, None)
  }

  /** The state after a rework, before the run moves on. */
  function ReworkedLoop(s: Loop, wave: seq<Id>): Loop
    requires s.unit.Some?
  {
    var s1 := if wave == [] then s
              else s.(waveRework := s.waveRework + 1,
                      dag := if s.dag.Some? then Some(ReworkMembers(s.dag.value, wave)) else None);
    s1.(unit := Some(s.unit.value.(rework := s.unit.value.rework + 1, state := UQueued)))
  }

  function OnRework(s: Loop, wave: seq<Id>): Loop
    requires s.unit.Some?
  {
    if wave != [] && s.waveRework + 1 > MAX_REWORK then
      End(s.(waveRework := s.waveRework + 1), Escalate, Some(EReworkLimit))
    else if s.unit.value.rework + 1 > MAX_REWORK then
      End(ReworkedLoop(s, wave).(unit := Some(s.unit.value.(rework := s.unit.value.rework + 1))), Escalate,
          Some(EReworkLimit))
    else
      var s1 := Continue(ReworkedLoop(s, wave), Rework);
      if s1.outcome.Refused? then s1 else Continue(s1, Dispatched)
  }

  function Decided(s: Loop, d: Decision, gates: AcceptGates, r: Receipt, wave: seq<Id>): Loop
    requires s.unit.Some?
  {
    match d
    case DAccept => OnAccept(s, gates, r, wave)
    case DReject => End(s, Rejected, Some(if gates.boundaryOk then ERejected else EBoundary))
    case DEscalate => End(s, Escalate, Some(EEscalated))
    case DRework => OnRework(s, wave)
  }

  /** The review proper, in state OuterReviewing. */
  function Judge(c: Config, s: Loop, u: WorkUnit, r: Receipt, wave: seq<Id>, v: ReviewInput): Loop
    requires s.unit.Some?
  {
    if v.plugin.Err? then FailRun(s, v.plugin.error)
    else
      var gates := GatesOf(c, s, u, r, v.plugin.value, v);
      var proposal := Proposal(gates, v);
      if proposal.Err? then FailRun(s, proposal.error)
      else
        var (proposed, usage) := proposal.value;
        var charged := s.(ledger := ChargeAndTick(s.ledger, usage, c.commanderIn, c.commanderOut));
        var (d, note) := Enforced(proposed, gates);
        if note == Some(EBudget) || (d == DAccept && Exhausted(charged.ledger.run)) then FailBudget(charged)
        else Decided(Recorded(charged, u.id, wave, gates, d), d, gates, r, wave)
  }

  function OuterPhase(c: Config, s: Loop, u: WorkUnit, receipt: Receipt, stored: bool, wave: seq<Id>,
                      v: ReviewInput): Loop {
    var r := OverriddenCommand(receipt, u);
    var s1 := Submitted(s, u, r, stored);
    if s1.outcome.Refused? then s1
    else if TurnsExhausted(s1.ledger.run) && r.changedFiles == [] then FailBudget(s1)
    else
      var s2 := Continue(s1, OuterReviewing);
      if s2.outcome.Refused? then s2 else Judge(c, s2, u, r, wave, v)
  }

  // ---- one turn, and the whole run ----

  function Resolve(c: Config, p: Phase, input: TurnInput): Loop {
    match p
    case Got(s, u, receipt, stored, wave) => OuterPhase(c, s, u, receipt, stored, wave, input.review)
    case FailedWith(s, e) => FailRun(s, e)
    case Halted(s) => s
    case Again(s) => s
  }

  ghost function Turn(c: Config, s: Loop, input: TurnInput): Loop
    requires s.outcome.Running?
  {
    if Exhausted(s.ledger.run) then FailBudget(s) else Resolve(c, InnerPhase(c, s, input), input)
  }
}
