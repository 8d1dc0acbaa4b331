# Wanax, verified

Wanax is a control plane for untrusted coding workers. A *run* is driven by one loop: a
commander plans the work, workers do it in isolated worktrees, an outer review judges the
result behind a set of mechanical gates, and every step goes to an append-only envelope
from which a crashed run is rebuilt. This project models the parts of that system on
which its promises rest, and proves the promises.

| area | files |
|---|---|
| run states, budget, money, accept gates | `State`, `Budget`, `Money`, `Accept` |
| overlap of glob sets, DAG order, scheduling | `GlobOverlap`, `Order`, `Dag`, `DagOrder`, `Scheduler` |
| the drive loop as a function of the outside world's answers | `Events`, `Drive` |
| the same loop as an object whose methods change it | `Engine` |
| what the operations of a turn come to, said of plans, passes and reviews alone | `GoalRun`, `UnitRun`, `BatchRun`, `SeedRun`, `Asking`, `Choosing`, `Fate`, `Verdicts`, `Refused` |
| the books, termination, budget ticks | `Accounting`, `Charges`, `Safety`, `Ticks` |
| what a turn writes to the envelope, and invariants of fresh runs | `Chronicle`, `Passes`, `FreshRun`, `DagRun`, `Turns`, `Counts` |
| theorems about whole runs, every loop head and every acceptance | `WholeRun`, `Heads`, `AcceptedEnd` |
| picking a run up again from its envelope | `Resume`, `ResumeStart`, `ResumeTurn`, `ResumeSingle`, `Pending` |
| crashes in the middle of a turn | `Crash`, `ResumeReview` |
| concrete runs, and the answers they are given | `Instances`, `Forgotten`, `AcceptRun`, `Calm` |
| replay of the envelope, healing the table on resume | `Replay`, `Replayer`, `ReplayDetails`, `Healing` |
| merging a wave of peers, boundaries | `WaveMerge`, `Boundary` |
| the repository lock | `Lock`, `LockOrphan`, `LockDir`, `LockProgress`, `LockFile` |
| canonical JSON, reading it, finding JSON in a reply | `Json`, `Canonical`, `JsonRead`, `JsonShort`, `JsonUtil` |
| secret scan over a diff | `DiffScan`, `DiffFindings` |
| strings, shared records | `Text`, `Types` |

The commander, the workers, the tests, the verifier plugins and git answer arbitrarily:
one turn of the loop takes a `TurnInput`, a whole run takes a sequence of them, and the
theorems hold for every such sequence. The loop is written twice. `Drive` says what a turn
does as a function on values; `Engine.Factory` does it step by step on an object, the way
`drive_factory` does, and each of its methods is proved to end where the function says.
The invariants are then proved about the function. Replay, the lock, the topological sort,
the two scanners, the table healing and the lock file reader follow the same pattern.

What turned out to differ from what the code or its comments suggest:

* A resumed run with a unit or a wave to dispatch fails unless it was found `dispatched`
  or `inner_working` (`ResumeStart.ResumeFailsExactly`). So every crash between the two
  state changes of a rework loses the run (`Crash.CrashInReworkLoses`), and so does a crash
  between an accept and the next dispatch, while the last unit of the DAG has no receipt
  (`ResumeReview.CrashAfterAcceptLoses`).
* A crash between a logged verdict and the state change it leads to leaves nothing pending
  in the envelope. The resume then takes the last unit's last receipt and has it judged
  again, so that one attempt can count as two reworks (`ResumeReview.JudgedTwice`,
  `ResumeReview.OneAttemptCountsTwice`).
* A resumed run without a DAG works on its unit at once, where the live loop would have
  asked the commander again (`ResumeSingle.SingleResumeExactly`).
* A run resumed from its envelope takes every unit it finds there for a unit of its DAG:
  one dispatched before the DAG was planned, or the master and peers of a wave, joins it
  (`Resume.ResumeExactly`, `Instances.ForeignUnitJoins`).
* The live loop forgets the reworks of a DAG unit dispatched by itself, the envelope counts
  them: after a resume the unit is judged with that count, and beyond MAX_REWORK it can
  never be accepted (`ResumeTurn.ResumedTurnExactly`, `ResumeTurn.TooOftenEnds`), which
  does happen (`Forgotten.ReworksRemembered`).
* Three guards of the drive loop can never fire: the accept check after enforcement and
  both rework-limit escapes (`Heads.GuardsAreDead`).
* Healing never repairs a row that differs in its title alone, so the divergence is
  reported on every resume (`Healing.TitleAloneNeverHeals`).
* `release_run_lock` does not look at whether the holder lives. It is safe exactly when the
  process was killed first (`Lock.DropExactly`, `LockProgress.DropOfALiveRun`).
* A crash between creating and filling a holder file blocks the lock for good, even for
  the repair command (`LockOrphan.OrphanExactly`, `LockOrphan.OrphanForever`).
* A peer that changed nothing hands in the commit it branched off. It fails its whole wave
  unless a file of that commit was changed since, and then it may undo that change
  (`WaveMerge.IdlePeerExactly`, `WaveMerge.IdlePeerUndoes`, `WaveMerge.IdlePeerAlone`).
* A worker that commits by itself and leaves a clean tree hands in a commit its boundary
  check never saw (`Boundary.StagesExactly`, `Boundary.UncheckedPeersOrderMatters`).
* An added line whose text starts with `++ ` is read as a file header: secrets on and below
  it in its hunk are missed, and those in later hunks of the file are reported under
  another path (`DiffFindings.ScanExactly`).
* A fence inside a string of a fenced JSON reply cuts the object short
  (`JsonUtil.FencedExactly`, `JsonUtil.TicksInAString`).
* Budget ticks can decrease, exactly through a negative charge after the first: a negative
  reported cost, a negative configured rate, or an estimate that wraps around even at
  positive rates (`Ticks.TicksGrowExactly`, `Ticks.LargeCallCostsLess`, `Instances.TicksFall`).

## Model

| member | source | states |
|---|---|---|
| WholeRun.NewRunEnds | crates/wanax-cli/src/engine.rs:801-834 | every new run ends, whatever it is answered: in one terminal state, by legal changes, books balanced, and with everything `FreshEnd` says below |
| WholeRun.FreshRunEnds | crates/wanax-cli/src/engine.rs:1056-1941 | however the run ends, nothing was dispatched before all its dependencies were shown accepted, single units had at most four reviews, wave members at most three reworks; an accepted run has its last review accepting under all gates, nothing charged after it, money and turns left, and every unit of a DAG accepted on an accepting review of it or its wave |
| WholeRun.TurnKeepsOrder | crates/wanax-cli/src/engine.rs:1079-1168 | no turn, not even one that fails half way, dispatches a unit whose dependencies the envelope does not show as accepted |
| WholeRun.TurnEnds | crates/wanax-cli/src/engine.rs:1576-1768 | the same guarantees for any single turn that ends a run |
| Turns.FreshTurn | crates/wanax-cli/src/engine.rs:1056-1941 | a turn that goes on re-establishes every invariant of a fresh loop head |
| Turns.SerialTurnAccepts | crates/wanax-cli/src/engine.rs:1740-1768 | accepting a unit dispatched by itself keeps the DAG closed under dependencies, replay in step and the wave counter meaningful |
| Turns.SerialTurnReworks | crates/wanax-cli/src/engine.rs:1869-1885 | reworking it leaves the DAG unchanged and the unit next in line |
| DagRun.WaveTurnAccepts | crates/wanax-cli/src/engine.rs:1749-1760 | accepting a wave accepts exactly its members, live and in replay |
| DagRun.WaveTurnReworks | crates/wanax-cli/src/engine.rs:1837-1868 | reworking a wave counts each member once, live and in replay, and makes the same wave next |
| DagRun.SeedTurn | crates/wanax-cli/src/engine.rs:2568-2636 | seeding a DAG reaches a head where every seeded unit is queued, replayed exactly, and listed after its dependencies |
| FreshRun.SingleTurn | crates/wanax-cli/src/engine.rs:1995-2125 | a rework of a unit outside a DAG leaves replay equal to the live unit and one more review than before |
| Heads.EveryHeadIsFresh | crates/wanax-cli/src/engine.rs:1056-1941 | the invariants hold at every loop head a new run can reach |
| Heads.ReplayRefinesRun | crates/wanax-cli/src/replay.rs:141-251 | at every head, folding the envelope gives one slot per unit and in it the live unit: state, plan, receipt of a single unit; and for every DAG unit, however it was dispatched, the number of rework verdicts given to it or to a wave it was in, which is also the live count unless the unit was dispatched by itself |
| Heads.EveryHeadCounts | crates/wanax-cli/src/replay.rs:121-139 | at every head the envelope counts each rework verdict once for the unit judged and once for every unit of its wave, and for nobody else |
| Counts.PassCounts | crates/wanax-cli/src/replay.rs:220-236 | one dispatch, receipt and verdict raise that count by one for exactly those units |
| Heads.HeadReplays | crates/wanax-cli/src/replay.rs:141-251 | the same for any state satisfying the head invariant |
| Heads.SchedulableThroughout | crates/wanax-cli/src/engine.rs:2520-2566 | while a DAG is open some unit is ready, so neither the cycle branch nor the all-accepted branch is taken; accepted units are closed under dependencies; wave members never depend on each other, even transitively |
| Heads.HeadIsSchedulable | crates/wanax-cli/src/engine.rs:2150-2155 | and the overlap check at the start of a batch cannot refuse the wave |
| Heads.WaveSetReworksBounded | crates/wanax-cli/src/engine.rs:1088-1094 | one wave set gets at most MAX_REWORK rework verdicts in a whole run although every attempt has a new master unit |
| Heads.GuardsAreDead | crates/wanax-cli/src/engine.rs:1726-1883 | from any state at all, dropping the accept guard after enforcement and both rework escapes changes nothing |
| Heads.BooksThroughout | crates/wanax-cli/src/engine.rs:3062-3120 | at every head spend is the saturating sum of the charges, ticks carry the running totals, no worker call began exhausted, and no state change was ever refused |
| Heads.OvershootThroughout | crates/wanax-cli/src/engine.rs:2694-2719 | turns spent stay below the cap plus the turns of the last worker call or peer batch |
| Heads.ExhaustedReviewAsksNobody | crates/wanax-cli/src/engine.rs:1607-1645 | a review reached exhausted does not depend on the commander's verdict and cannot accept |
| Resume.ResumeExactly | crates/wanax-cli/src/engine.rs:888-945 | a run that crashed at any loop head and is resumed from its envelope has the live units back, in the same order and state, each with the number of rework verdicts it was given, and with the same wave and next unit, if and only if nothing but its DAG units was ever dispatched; otherwise a foreign unit joins the DAG |
| Resume.DagTaken | crates/wanax-cli/src/engine.rs:942-945 | from any log, all replayed units become the DAG exactly if the log told of a key or a dependency of one of them |
| Resume.ReplayOrder | crates/wanax-cli/src/replay.rs:98-119 | for any log, replay returns exactly the units it seeds or dispatches, in the order it first names them |
| Resume.NamesThroughout | crates/wanax-cli/src/engine.rs:2568-2636 | at every head of a new run the log names the DAG's units and no others, unless something else was dispatched |
| ResumeTurn.ResumedTurnExactly | crates/wanax-cli/src/engine.rs:1115-1168 | such a resumed run makes the turn the live loop would have made, whatever it is answered, if and only if the budget is gone, a wave is next, or the next unit was sent back less than MAX_REWORK times: the live loop forgets those reworks, the envelope does not |
| ResumeTurn.TooOftenEnds | crates/wanax-core/src/accept.rs:72-131 | a resumed unit with more reworks than that ends the run, and never as accepted |
| Forgotten.ReworksRemembered | crates/wanax-cli/src/engine.rs:1115-1148 | a concrete new run whose only unit is sent back over and over: the live loop goes on every time, and from the fifth head on the run resumed from the envelope ends on its next turn, never accepted, whatever it is answered |
| ResumeStart.ResumeFailsExactly | crates/wanax-cli/src/engine.rs:1915-1919 | a resumed run with a unit or a wave to dispatch fails on its first turn whatever it is answered, if and only if it was found neither dispatched nor working |
| ResumeStart.ResumeFromReworkFails | crates/wanax-cli/src/engine.rs:1915-1919 | so a run found between the two state changes of a rework is lost, whether a single unit, a unit of a DAG or a wave is next, with the error named |
| Crash.TurnTraced | crates/wanax-cli/src/engine.rs:1761-1919 | whatever turn goes on after a rework verdict passed from the review through `rework` to `dispatched`, after an accept straight to `dispatched`, with the envelope unchanged meanwhile |
| Crash.CrashInReworkLoses | crates/wanax-cli/src/engine.rs:1915-1919 | a new run with budget left that crashes between those two changes of any of its reworks has work to dispatch when resumed from its envelope, and fails whatever it is answered |
| Crash.ReworksToCrashIn | crates/wanax-cli/src/engine.rs:1915-1919 | every rework of a concrete run is such a crash point, with the error named |
| ResumeReview.CrashAfterAcceptLoses | crates/wanax-cli/src/engine.rs:942-957 | a new run without batches that crashes after accepting a unit of its DAG and before it is dispatched again is lost as well, if the last unit has no receipt |
| AcceptRun.AnAcceptToCrashAfter | crates/wanax-cli/src/engine.rs:1761-1767 | a concrete run of two turns to which that happens |
| ResumeReview.JudgedTwice | crates/wanax-cli/src/engine.rs:946-957 | a new run without a DAG and without batches that crashes between its rework verdict and the state change: nothing is pending, the resume takes the receipt just judged, and its first turn, if it goes on, logs only a tick and a second rework verdict on it and counts a second rework |
| ResumeReview.OneAttemptCountsTwice | crates/wanax-cli/src/engine.rs:946-957 | a concrete run whose one attempt ends up counted as two reworks |
| ResumeSingle.SingleResumeExactly | crates/wanax-cli/src/engine.rs:1171-1199 | a new run that crashed at a head with one unit, no DAG and no batch gets that unit back and dispatches it at once; the turn equals the live one, which asks the commander first, if and only if the budget is gone |
| Instances.WaveJoins | crates/wanax-cli/src/engine.rs:2150-2215 | after every wave that leaves the run going the envelope names a unit the DAG does not have |
| Instances.ForeignUnitJoins | crates/wanax-cli/src/engine.rs:942-945 | a concrete new run of two turns from whose head a resume does not get the DAG back |
| Pending.PendingExactly | crates/wanax-cli/src/replay.rs:237-251 | the envelope of a new run without batches, cut between a receipt and its verdict, names the unit under review and its receipt as pending |
| AcceptedEnd.TurnAccepts | crates/wanax-cli/src/engine.rs:1576-1768 | from any state, a turn accepts the run only on the word of its own review under all gates and within the budget, or because every unit was accepted before it |
| AcceptedEnd.RunAccepts | crates/wanax-cli/src/engine.rs:1056-1941 | so a run, new or resumed, is accepted only on the word of the last review it had |
| Fate.ReviewExactly | crates/wanax-cli/src/engine.rs:1560-1921 | every review from any state comes to what a table over its input says: a failed plugin fails the run; what is not in order is sent back, escalated, rejected or stopped without asking the commander; where all is, the first usable of three verdicts decides, within the budget it leaves |
| Fate.OuterExactly | crates/wanax-cli/src/engine.rs:1298-1345 | a new receipt is recorded and logged with the unit's own test command; with all turns spent and nothing changed the run ends there, else it is reviewed |
| Fate.BudgetStops | crates/wanax-cli/src/engine.rs:1056-1059 | a run without budget ends before anything is asked, dispatched, charged or logged |
| Fate.StuckFails | crates/wanax-cli/src/engine.rs:1149-1168 | a DAG of which no unit may start and some unit is not accepted fails the run with `E_DAG_CYCLE`, with nothing asked, dispatched or charged |
| Choosing.DagExactly | crates/wanax-cli/src/engine.rs:1068-1148 | with a DAG and nothing pending, from any state: two or more units that can go together go as a batch, picked first come, first served, with their own tasks and globs, their reworks counted on as long as the same units make up the wave; else the first unit that may start goes alone |
| Choosing.MasterReads | crates/wanax-cli/src/engine.rs:2177-2198 | the master of a batch counts its peers and has one line for each, in order |
| Verdicts.ReviewLeaves | crates/wanax-cli/src/engine.rs:1683-1921 | what any review leaves: an accept accepts the unit and its wave, whose members share the receipt, and ends the wave's count; a rework queues the unit and counts one rework for every member of the wave; else only the verdict is noted; the verdict is the last event; without one only the books change and the run ends |
| Refused.BreachIsRefused | crates/wanax-cli/src/engine.rs:1607-1724 | a leaked secret or a file out of bounds is sent back only under a red test below the limit; else the run is rejected, or stopped where there is no budget left to reject a leak in |
| Refused.BreachNeverGoesOn | crates/wanax-cli/src/engine.rs:1576-1724 | no turn whose review sees either under a green test goes on |
| Refused.RejectedTurn | crates/wanax-cli/src/engine.rs:1694-1835 | after a turn that rejects, the unit judged and all it covers replay as rejected |
| Asking.PlanIsCharged | crates/wanax-cli/src/engine.rs:1205-1235 | the first plan of three that can be used is charged once, at the commander's rates, before anything is dispatched; an error fails the turn |
| Asking.VerdictIsCharged | crates/wanax-cli/src/engine.rs:1607-1656 | a verdict is charged once, at the commander's rates |
| Asking.PlanIsFirst | crates/wanax-llm/src/lib.rs:399-427 | the answer that counts is the first of three that is neither a schema error nor empty, and a schema error if there is none |
| Asking.VerdictIsFirst | crates/wanax-cli/src/engine.rs:1607-1633 | the same of verdicts |
| Asking.NoPlanFails | crates/wanax-cli/src/engine.rs:1211-1214 | where none of three answers can be used, the run fails with a schema error before anything is charged or dispatched |
| UnitRun.SingleExactly | crates/wanax-cli/src/engine.rs:1995-2125 | dispatching a unit or a new one, from any state: the event carries the planned task and what is fixed about the unit; the run fails if it may not start working; else the goal loop decides between its error, a budget stop on a crash, the commit's error and a receipt that says what was committed and what the last pass showed |
| BatchRun.BatchExactly | crates/wanax-cli/src/engine.rs:2127-2430 | a batch, from any state: refused in this order for size, overlap and boundaries with nothing logged; else its master, all peers with their tasks and globs, and the receipts of the peers up to the first that failed are logged, in order and with nothing else but ticks; it ends in the first error, or in the receipt of the merge |
| SeedRun.SeedExactly | crates/wanax-cli/src/engine.rs:2568-2636 | a DAG, from any state: one unit for every draft, with its task, waiting for exactly the units of the keys it depends on, in the order of the sort, and one event for every unit; or the sort's error with nothing logged |
| Safety.EveryRunEnds | crates/wanax-cli/src/engine.rs:1056-1941 | any run, new or resumed, ends: one terminal state, all changes legal, spend and ticks equal to the charges; the loop is a total function by unspent turns, then the one pending review, then the one seeding |
| Safety.TurnIsClean | crates/wanax-cli/src/engine.rs:1056-1941 | every turn keeps the books, ends legally or reaches a head with a smaller measure |
| Safety.ResumeAllAcceptedExactly | crates/wanax-cli/src/engine.rs:1149-1160 | a run resumed with every unit accepted finishes exactly if it was under outer review |
| Accounting.TotalsGrowExactly | crates/wanax-cli/src/engine.rs:3071-3085 | running totals never decrease if and only if no charge after the first is negative on a total above the bottom of the range |
| Ticks.TicksGrowExactly | crates/wanax-cli/src/engine.rs:3062-3120 | the same of the ticks in the envelope of any finished run |
| Ticks.FairTicksGrow | crates/wanax-core/src/budget.rs:25-94 | they never decrease if no usage reports a negative cost, no rate is negative and every estimate fits 64 bits |
| Ticks.LargeCallCostsLess | crates/wanax-core/src/money.rs:63-73 | a concrete call at positive rates whose estimate wraps to a negative cost |
| Instances.TicksFall | crates/wanax-cli/src/engine.rs:3062-3120 | a concrete turn that logs ticks of 5, 2 and 2 |
| Accounting.OvershootBounded | crates/wanax-cli/src/engine.rs:2353-2358 | the last burst of worker calls explains all turns above the cap |
| Accounting.GoalLoopGrows | crates/wanax-cli/src/engine.rs:2693-2783 | the goal loop only spends, logs nothing but ticks, keeps the books, and spends a turn whenever it returns a handle |
| Accounting.CollectGrows | crates/wanax-cli/src/engine.rs:2351-2390 | collecting a peer batch does the same and logs only receipts of the peers it seeded |
| Chronicle.PassViews | crates/wanax-cli/src/replay.rs:58-139 | what replay makes of one dispatch, quiet work, receipt and verdict, for every unit |
| Chronicle.PassOrdered | crates/wanax-cli/src/replay.rs:160-192 | such a pass keeps the dependency order of the log if its own dispatch respects it |
| Chronicle.RejectReplays | crates/wanax-cli/src/replay.rs:121-139 | after a logged reject the unit it names and all it covers replay as rejected whatever they were, and all others as before |
| ReplayDetails.ReceiptIsKept | crates/wanax-cli/src/replay.rs:187-218 | a receipt can be made up again from the envelope field by field |
| ReplayDetails.MasterReplays | crates/wanax-cli/src/replay.rs:38-56 | the master of a batch replays as a goal unit without a number |
| ReplayDetails.NamelessReceipt | crates/wanax-cli/src/replay.rs:187-194 | a receipt that names no unit is the last dispatched unit's |
| ReplayDetails.NamelessVerdict | crates/wanax-cli/src/replay.rs:220-226 | a reject that names no unit is on the last receipt |
| Passes.OuterRuled | crates/wanax-cli/src/engine.rs:1304-1334 | a review that leaves the run alive logged exactly a receipt, a tick and a verdict; an accept had all gates and money left, a rework left room for another |
| Engine.Factory.constructor | crates/wanax-cli/src/engine.rs:1023-1055 | a run enters the loop, reusing its unit exactly when nothing is pending and there is no DAG |
| Engine.Factory.SetState | crates/wanax-core/src/store.rs:242-271 | the state changes if and only if the transition is legal |
| Engine.Factory.ChargeAndTick | crates/wanax-cli/src/engine.rs:3062-3120 | a reported cost is charged exactly; else prompt and completion at the input and the output rate, within two micros of their price, or the characters sent and received where a count is missing, marked as an estimate; one tick with the new totals is logged, and nothing else changes |
| Engine.Factory.Book | crates/wanax-cli/src/engine.rs:3034-3060 | turns are booked before cost, and nothing is charged for a handle without usage |
| Charges.WorkIsCharged | crates/wanax-cli/src/engine.rs:3034-3060 | a worker call is charged at the inner rates after its turns are booked, on the fields of its handle |
| Charges.ReviewIsCharged | crates/wanax-cli/src/engine.rs:2740-2752 | so is a self review |
| Engine.Factory.RunGoalLoop | crates/wanax-cli/src/engine.rs:2656-2785 | the loop makes exactly k passes that another follows and one more: a pass is followed if it ran to its end with a red test, changed something against the state before it and against the pass before, and left budget. It returns the handle of its last pass with that pass's own test exit, or that pass's error, and its ledger is that of these worker calls and self reviews |
| GoalRun.OnlyRun | crates/wanax-cli/src/engine.rs:2693-2783 | there is only one such k |
| GoalRun.RunsCalls | crates/wanax-cli/src/engine.rs:2714-2725 | exactly one worker call is booked for every pass, with the turns it reported |
| Engine.Factory.RunSingleUnit | crates/wanax-cli/src/engine.rs:1995-2125 | dispatch, state change, goal loop and receipt as `Drive.RunSingle` says, on every path |
| Engine.Factory.RunBatch | crates/wanax-cli/src/engine.rs:2127-2430 | a batch is refused below two peers or on overlap; else it seeds, books and collects its peers in order |
| Engine.Factory.SeedDagUnits | crates/wanax-cli/src/engine.rs:2568-2636 | units are created and logged in topological order with dependency keys resolved to ids, or the error is the sort's |
| Engine.Factory.MarkAccepted | crates/wanax-cli/src/engine.rs:1740-1761 | the finished unit replaces its copy, wave members take its verdict, receipt and commit, and the wave counter is cleared |
| Engine.Factory.ReworkUnit | crates/wanax-cli/src/engine.rs:1837-1921 | wave counter, members and unit are counted up, and the run goes back to dispatching |
| Engine.Factory.JudgeUnit | crates/wanax-cli/src/engine.rs:1560-1768 | gates, proposal, charge, enforcement, record and decision in this order |
| Engine.Factory.TakeTurn | crates/wanax-cli/src/engine.rs:1056-1941 | one iteration of the loop equals `Drive.Turn` |
| Engine.Factory.DriveFactory | crates/wanax-cli/src/engine.rs:1056-1941 | the loop terminates, in the state the whole-run theorems speak about |
| Engine.CreateUnits | crates/wanax-cli/src/engine.rs:2576-2610 | fails exactly when a key has no draft, and its key table resolves dependencies to the ids of the order |
| State.TerminalIsForever | crates/wanax-core/src/state.rs:5-34 | a legal history never leaves a terminal state |
| State.MilestonesExactly | crates/wanax-core/src/state.rs:5-34 | a run passed the milestones of every state it reaches, in their order, whatever else it went through |
| State.MilestonesAreAWay | crates/wanax-core/src/state.rs:5-34 | and the milestones alone are a legal way there |
| State.AlwaysAWayOut | crates/wanax-core/src/state.rs:5-34 | a live run can always be cancelled, fail, escalate or run out of budget |
| Accept.EnforceDecision | crates/wanax-core/src/accept.rs:88-131 | over the gates alone: with a green test and budget left a proposed accept stands if and only if all gates hold, is rejected if and only if files are out of bounds, a secret leaks, nothing changed, another command was tested or the commit is off the base, and else is sent back or, at the limit, escalated; with a red test it is always sent back or escalated; other proposals stand but for a rework at the limit; each with its note |
| Accept.AcceptIffGates | crates/wanax-core/src/accept.rs:72-131 | an acceptance that is no budget stop means it was proposed and every gate held, and conversely |
| Accept.ReworkLeavesRoom | crates/wanax-core/src/accept.rs:126-129 | an enforced rework is always below the limit |
| Accept.OneRuling | crates/wanax-core/src/accept.rs:88-131 | and no other decision or note meets these conditions |
| Budget.FactoryRun.ChargeUnits | crates/wanax-core/src/budget.rs:40-56 | saturating charge of the estimate, and a tick of the state after it |
| Budget.CostIsPriced | crates/wanax-llm/src/lib.rs:109-114 | which units are charged, at which rate, and when the charge counts as an estimate |
| Budget.FactoryRun.ChargeUsdMicros | crates/wanax-core/src/budget.rs:76-84 | the same for a reported cost |
| Budget.FactoryRun.AddTurns | crates/wanax-core/src/budget.rs:86-94 | saturating turns, spending untouched |
| Budget.SatSumIsExact | crates/wanax-core/src/budget.rs:40-84 | with non-negative charges the spend is their exact sum, or the top of the range |
| Scheduler.DagWave | crates/wanax-cli/src/engine.rs:2534-2549 | the greedy loop computes the wave |
| Scheduler.WaveIsMaximalAndDisjoint | crates/wanax-cli/src/engine.rs:2534-2549 | wave members are ready, declare pairwise disjoint globs, and no other ready unit could join |
| Scheduler.WaveInTurn | crates/wanax-cli/src/engine.rs:2534-2549 | members are picked first come, first served: a ready unit is passed over exactly without globs or for overlapping one picked before it |
| Scheduler.ReadyExactly | crates/wanax-cli/src/engine.rs:2520-2530 | ready are exactly the units that are neither accepted, rejected nor blocked and wait for accepted units only |
| Scheduler.NextIsFirst | crates/wanax-cli/src/engine.rs:2551-2566 | the next unit is the first one listed that is |
| Scheduler.WavePassesRecheck | crates/wanax-cli/src/engine.rs:2150-2155 | the overlap check of a batch passes for every wave |
| Scheduler.WaveMembersIndependent | crates/wanax-cli/src/engine.rs:2520-2549 | no member depends on another through any chain of units |
| Scheduler.SomeUnitIsReady | crates/wanax-cli/src/engine.rs:2551-2566 | no deadlock: an open DAG in dependency order has a ready unit |
| Scheduler.ScheduleIgnoresHistory | crates/wanax-cli/src/engine.rs:2520-2566 | rework counts, receipts, commits and verdicts influence neither the wave nor the next unit |
| Dag.TopoSort | crates/wanax-core/src/dag.rs:5-56 | in-degree counting with a sorted queue computes the order or error that the next three rows pin down |
| Dag.SortedExactly | crates/wanax-core/src/dag.rs:5-56 | it succeeds if and only if ids are unique, dependencies known and the graph acyclic; then the order is a permutation of the ids with dependencies first; the schema error means exactly an unknown dependency |
| DagOrder.SortedIsTheOrder | crates/wanax-core/src/dag.rs:32-56 | a list is what the sort returns if and only if it holds every node once after its dependencies, and nodes stand as they are released: first those without dependencies, and those released together in code-point order |
| Order.StrLeExactly | crates/wanax-core/src/dag.rs:37-42 | the order of strings: a prefix comes first, else the smaller code point where they first differ |
| Dag.StuckMeansCycle | crates/wanax-core/src/dag.rs:50-55 | nodes that keep waiting for each other contain a cycle |
| Dag.SortedIgnoresPresentation | crates/wanax-core/src/dag.rs:5-56 | the order depends only on the graph, not on repeated dependencies |
| Dag.SortedIgnoresNodeOrder | crates/wanax-core/src/dag.rs:5-56 | nor on the order of the nodes |
| GlobOverlap.PeerGlobSetsOverlap | crates/wanax-core/src/glob_overlap.rs:16-36 | early exits and probe loop decide the specified overlap |
| GlobOverlap.FindPeerOverlap | crates/wanax-core/src/glob_overlap.rs:39-48 | none exactly when all sets are pairwise disjoint, else the first overlapping pair |
| GlobOverlap.OverlapSymmetric | crates/wanax-core/src/glob_overlap.rs:16-36 | the test does not depend on which set comes first |
| GlobOverlap.OverlapExact | crates/wanax-core/src/glob_overlap.rs:60-77 | on literal paths, `P/**` and `**` the finite probes answer true if and only if some path matches both sets |
| GlobOverlap.StarIsTried | crates/wanax-core/src/glob_overlap.rs:60-77 | for any pattern with a star: which paths are tried |
| GlobOverlap.OverlapTries | crates/wanax-core/src/glob_overlap.rs:16-36 | and sets overlap exactly on a tried path both match, a shared pattern or one that does not compile |
| Replay.ReplayMirrorsLog | crates/wanax-cli/src/replay.rs:141-251 | for any log, replay keeps one slot per unit under a consistent index, holding exactly what the log says about that unit alone |
| Replayer.EnvelopeSnapshot | crates/wanax-cli/src/replay.rs:141-251 | the event loop over mutable state equals the fold, with the pending receipt found from the end |
| Replayer.ReplayOutcome.Upsert | crates/wanax-cli/src/replay.rs:98-119 | creates or updates the unit's one slot, keeping the index |
| Replayer.ReplayOutcome.ApplyVerdictTo | crates/wanax-cli/src/replay.rs:121-139 | touches at most the judged unit's slot |
| Healing.WorkUnits.Heal | crates/wanax-cli/src/engine.rs:905-918 | the loop leaves the specified table and writes exactly the rows that were not settled |
| Healing.HealingConverges | crates/wanax-cli/src/engine.rs:888-920 | afterwards every replayed unit has a row with its state, rework count and receipt |
| Healing.HealedRows | crates/wanax-cli/src/engine.rs:905-918 | row by row: what is inserted, left alone and overwritten, and which columns an update keeps |
| Healing.SecondPassWritesNothing | crates/wanax-cli/src/engine.rs:905-918 | healing again changes and writes nothing |
| Healing.HealedExactly | crates/wanax-cli/src/replay.rs:255-269 | no divergence remains if and only if there were no extra rows and every row left alone agreed on the title |
| Healing.TitleAloneNeverHeals | crates/wanax-cli/src/engine.rs:905-918 | a difference in title alone is reported on every resume |
| Healing.ReplayedUnitsDistinct | crates/wanax-cli/src/replay.rs:98-119 | replay never returns a unit twice |
| WaveMerge.Worktree.MergePeers | crates/wanax-cli/src/engine.rs:2392-2399 | the commits are picked in order, up to the first failure |
| WaveMerge.Worktree.ReworkedAttempts | crates/wanax-cli/src/engine.rs:1842-1845 | every attempt of a reworked wave starts from the same tree and merges as it would have there |
| WaveMerge.MergeIsOverlay | crates/wanax-git/src/lib.rs:272-282 | merging commits that touch different files succeeds exactly when each pick alone would, and each file ends as its one commit left it |
| WaveMerge.MergeOrderFree | crates/wanax-cli/src/engine.rs:2392-2399 | in any order of the peers the merge fails alike or gives the same tree |
| WaveMerge.MergeIsPlainOverlay | crates/wanax-cli/src/engine.rs:2392-2399 | where nobody else changed a file since the peers branched off, the peer's content is what remains |
| WaveMerge.WaveIsApart | crates/wanax-cli/src/engine.rs:2476-2485 | peers of disjoint simple globs that stay inside them touch different files |
| WaveMerge.PickExactly | crates/wanax-git/src/lib.rs:272-282 | a pick goes through if and only if every file its commit touches combines and one of them to something new |
| WaveMerge.MergeExactly | crates/wanax-cli/src/engine.rs:2392-2399 | commits on different files nobody else changed merge if and only if every one of them changes something |
| WaveMerge.IdlePeerExactly | crates/wanax-cli/src/engine.rs:2476-2485 | a wave with a peer that staged nothing, and so hands in the commit all branched off, merges if and only if the peers before it do, that commit brings something back that was changed since, and the rest merges on top |
| WaveMerge.IdlePeerBlocks | crates/wanax-cli/src/engine.rs:2476-2485 | so it blocks the wave wherever it stands, unless an earlier unit or an earlier peer changed a file of that commit |
| WaveMerge.IdlePeerUndoes | crates/wanax-git/src/lib.rs:272-282 | where files of that commit were put back as they were before it, the idle peer goes through if and only if there is one, and undoes that |
| WaveMerge.IdlePeerAlone | crates/wanax-git/src/lib.rs:272-282 | a concrete idle peer that blocks its wave, and that goes through after a peer that puts the file back, leaving nothing of that peer's work, whatever the merger |
| Boundary.CheckBoundaries | crates/wanax-verify/src/lib.rs:185-217 | passes if and only if every changed file but the factory's own is allowed and not forbidden, and reports exactly the others |
| Boundary.MetaExactly | crates/wanax-verify/src/lib.rs:67-69 | which files are the factory's own |
| Boundary.CheckedPeersMergeInAnyOrder | crates/wanax-cli/src/engine.rs:2450-2505 | peers whose boundary checks passed, and saw all their commits change, can be merged in any order |
| Boundary.StagesExactly | crates/wanax-cli/src/engine.rs:2461-2486 | the check saw all a handed-in commit changes if and only if there was something to commit or the commit the peer stood on changes nothing |
| Boundary.UncheckedPeersOrderMatters | crates/wanax-cli/src/engine.rs:2476-2480 | two concrete workers, one of which commits a change and its reversal by itself: in one order they merge and the checked change of the other is gone, in the other order the merge is refused, whatever the merger |
| Lock.StepKeepsInv | crates/wanax-core/src/lock.rs:72-388 | every step of every process keeps the lock invariant |
| Lock.AlwaysExclusive | crates/wanax-core/src/lock.rs:72-130 | from an empty repository, after any interleaving of starts, resumes, releases, crashes, repairs and cancels that kill first, holders never conflict and an exclusive one is alone |
| Lock.LiveHoldersStay | crates/wanax-core/src/lock.rs:109-117 | no live holder disappears except by its own release |
| Lock.StartRemovesNothing | crates/wanax-core/src/lock.rs:212-229 | a start removes no holder, stale or not |
| Lock.RemovalsAreJustified | crates/wanax-core/src/lock.rs:346-388 | a holder file is removed only by its owner, as a dead holder of the resuming run, as a dead one by repair, or with its run |
| Lock.NoSharedPath | crates/wanax-core/src/lock.rs:125-130 | two processes with path locks share no writable path |
| Lock.DropExactly | crates/wanax-core/src/lock.rs:378-388 | dropping the files of a run keeps every live process's hold if and only if the holder was dead |
| LockOrphan.OrphanExactly | crates/wanax-core/src/lock.rs:132-189 | an empty holder file nobody will fill comes about if and only if a process dies, or fails to write, between creating its file and filling it |
| LockOrphan.CrashLeavesOrphan | crates/wanax-core/src/lock.rs:132-189 | a concrete interleaving from an empty repository that leaves one and no live process |
| LockOrphan.OrphanForever | crates/wanax-core/src/lock.rs:132-189 | from then on, in any interleaving in which cancels kill first, the file stays and no holder file ever appears or is filled |
| LockOrphan.OrphanStaysExactly | crates/wanax-core/src/lock.rs:109-117 | without that discipline too, until a process releases a file of that name which it had lost, and exactly until then |
| LockOrphan.OrphanFreed | crates/wanax-core/src/lock.rs:109-117 | a concrete interleaving in which that happens |
| LockDir.LockSet.AcquireWith | crates/wanax-core/src/lock.rs:72-107 | a start is refused unless all files are readable, its run has no live holder and its file is free; then one for the whole repository is granted exactly when the sweep leaves no holder, and one for literal or subtree paths exactly when no holder it leaves has the whole repository or shares a path with it; a refused start changes nothing |
| LockDir.PathsGrantedExactly | crates/wanax-core/src/lock.rs:125-130 | path locks are granted side by side if and only if no path matches both |
| LockDir.WholeGrantedExactly | crates/wanax-core/src/lock.rs:125-130 | the whole repository is granted if and only if nobody is left |
| LockDir.LockSet.RemoveStaleHolderForRun | crates/wanax-core/src/lock.rs:212-229 | removes all dead holders of the run, or stops at a live one having removed only dead ones |
| LockDir.LockSet.ListHolders | crates/wanax-core/src/lock.rs:231-250 | lists exactly the holders, and fails if one file is unreadable |
| LockDir.LockSet.CreateHolder | crates/wanax-core/src/lock.rs:132-189 | creates the file only if it is free |
| LockDir.LockSet.ClearStaleLock | crates/wanax-core/src/lock.rs:346-376 | removes exactly the dead holders, with the three errors told apart |
| LockDir.LockSet.ReleaseRunLock | crates/wanax-core/src/lock.rs:378-388 | removes all files of the run, living or not |
| LockDir.LockSet.Release | crates/wanax-core/src/lock.rs:109-117 | removes the own file and nothing else |
| LockProgress.GrantedWhenAlone | crates/wanax-core/src/lock.rs:72-107 | what the acquiring method grants, the protocol grants to a process left alone, with the same files |
| LockProgress.EditsWhenAlone | crates/wanax-core/src/lock.rs:346-388 | a repair or a cancel left alone removes exactly the holders the methods remove |
| LockProgress.DropOfALiveRun | crates/wanax-core/src/lock.rs:378-388 | a concrete interleaving in which dropping a live run's files gives two processes the whole repository |
| LockFile.WriteLock | crates/wanax-core/src/lock.rs:303-318 | writes one `key=value` line per field |
| LockFile.ReadLock | crates/wanax-core/src/lock.rs:256-301 | the line loop equals the fold over trimmed fields, with the default for a missing exclusive line |
| LockFile.LockFileRoundTrip | crates/wanax-core/src/lock.rs:256-318 | reading gives back what was written if and only if the run id is non-empty and all values are trimmed, on one line and, for paths, non-empty |
| LockFile.OldFileIsRead | crates/wanax-core/src/lock.rs:256-301 | a file without an exclusive line holds the repository if and only if it names no path |
| Json.CompactInjective | crates/wanax-llm/src/provider.rs:297-297 | compact JSON text determines the value |
| Json.CharsReading | crates/wanax-tombstone/src/canonical.rs:9-9 | an escaped string and what follows it can be read apart in one way only |
| Canonical.CanonicalExactly | crates/wanax-tombstone/src/canonical.rs:4-30 | two values print the same if and only if they are equal as JSON values, member order aside |
| Canonical.CanonicalInOrder | crates/wanax-tombstone/src/canonical.rs:4-30 | the canonical text is the compact text of exactly one value: the same as JSON, with the keys of every object, at every depth, in strictly increasing code-point order |
| Canonical.SameIffNormal | crates/wanax-tombstone/src/canonical.rs:14-29 | equality as JSON values is equality after sorting keys |
| Canonical.DigestsExactly | crates/wanax-tombstone/src/lib.rs:116-121 | under a hash without collisions equal digests mean equal payloads |
| JsonRead.CompactIsRead | crates/wanax-llm/src/provider.rs:297-297 | a reader after the grammar of RFC 8259 reads the compact text of any value as that value |
| JsonRead.CanonicalIsRead | crates/wanax-tombstone/src/canonical.rs:4-30 | and canonical text as the same value, keys in order |
| JsonShort.CompactIsShortest | crates/wanax-tombstone/src/canonical.rs:3-30 | no text that reads as a value is shorter than its compact text: no white space, no leading zero, no escape that is not needed |
| JsonShort.EscIsShortest | crates/wanax-tombstone/src/canonical.rs:4-30 | a character of a string has the shortest of all texts that read as it, in small letters where there are two |
| JsonUtil.ExtractJsonObject | crates/wanax-llm/src/jsonutil.rs:2-44 | returns the shortest balanced slice from the first brace, and none only if there is none |
| Text.WhiteSpace | crates/wanax-llm/src/jsonutil.rs:3-6 | the 25 characters a trim drops, those of the White_Space property of Unicode |
| JsonUtil.ScannerUndoesPrinter | crates/wanax-llm/src/jsonutil.rs:17-43 | for any brace-free unfenced prefix, any object and any suffix, that slice is the object's text and nothing else is |
| JsonUtil.ExtractPrinted | crates/wanax-llm/src/jsonutil.rs:2-44 | so the scanner returns it |
| JsonUtil.FencedExactly | crates/wanax-llm/src/jsonutil.rs:3-16 | in a fence, with any brace-free text such as a label before the object and anything after it, the object is found if and only if neither that text nor the object has three back-ticks in a row |
| JsonUtil.TicksInAString | crates/wanax-llm/src/jsonutil.rs:5-7 | a concrete object with back-ticks in a string that is not found |
| DiffScan.ScanDiffAdded | crates/wanax-verify/src/lib.rs:131-176 | the line loop equals the fold over positions |
| DiffScan.ScanReads | crates/wanax-verify/src/lib.rs:131-176 | what is found in any diff rendered from files and hunks, added lines that look like file headers included |
| DiffScan.StartUnread | crates/wanax-verify/src/lib.rs:145-154 | a hunk header without a plus leaves the line number, one without a number starts at zero |
| DiffFindings.ScanExactly | crates/wanax-verify/src/lib.rs:131-176 | the findings are exactly the added lines with a secret, with path and new-file line, if and only if no secret stands on or below an added `++ ` line of its hunk, or in a later hunk of the file while such a line seemed to name another path |
| DiffFindings.ScanFindsExactly | crates/wanax-verify/src/lib.rs:131-176 | in particular in every diff without such a line |
| DiffFindings.SecretBelowPlusesMissed | crates/wanax-verify/src/lib.rs:138-144 | a concrete diff with a secret that is not found |
| DiffFindings.SecretBelowPlusesMisfiled | crates/wanax-verify/src/lib.rs:138-144 | a concrete diff with a secret that is reported under a path that is no file |
| Money.ParseUsdDecimal | crates/wanax-core/src/money.rs:4-40 | the parser with its padding loop computes the value or the error the text denotes |
| Money.AmountIsParsed | crates/wanax-core/src/money.rs:4-40 | any sign, digits and fraction of one to six digits parse as the whole part in millions plus the fraction written out to six places, or overflow |
| Money.WholeIsParsed | crates/wanax-core/src/money.rs:4-40 | the same of amounts without a point |
| Money.ParseFormat | crates/wanax-core/src/money.rs:4-52 | parsing the six-digit form gives the amount back if and only if it is not the smallest 64-bit amount |
| Money.ParseFormat4 | crates/wanax-core/src/money.rs:54-61 | the four-digit form loses under 100 micros and only toward zero |
| Money.TextOfAmount | crates/wanax-core/src/money.rs:42-61 | the text of any amount: a minus where it is negative, the whole part without leading zeros, a point, and six or the first four fraction digits |
| Money.EstimateNearTrueCost | crates/wanax-core/src/money.rs:63-73 | an estimate that fits is less than two micros off, and never above for non-negative rates |
| Money.SplitNeverCostsMore | crates/wanax-core/src/money.rs:63-73 | splitting a charge never costs more |

## Left out

- Heads.ReplayRefinesRun: does not say that the live loop has the replayed rework count of a DAG unit that was dispatched by itself, because the code counts that rework on `unit` and the next turn clones from `dag_units` (engine.rs:1123, 1869-1885); nor does it give the verdict id, which replay does not read, nor the number and role of a batch master, which its dispatch does not log.
- WholeRun.FreshRunEnds: bounds no rework of DAG units dispatched by themselves, for the same reason; the turn budget bounds them.
- Lock.AlwaysExclusive: assumes that cancel killed the run's process before it drops its files, which `release_run_lock` itself does not check; `Lock.DropExactly` says what happens otherwise.
- DiffFindings.ScanExactly: assumes header parts without line breaks or a plus in the old range, and a first line number below 2^32; line numbers do not wrap.
- Canonical.CanonicalExactly: numbers are integers; floats are not modelled.
- Safety.EveryRunEnds: starts where no state change can be refused, which holds for every new run and for a resumed one found dispatching, working or under review with something left to do; `ResumeStart.ResumeFailsExactly` and `Safety.ResumeAllAcceptedExactly` say when the others fail.
- Pending.PendingExactly: leaves out runs with peer batches, where the last peer may be named instead of the master.
- ResumeTurn.ResumedTurnExactly: keeps the history the resumed process cannot see (past charges and reviews) in the compared state; only its envelope, its run record and its end are compared.
- Boundary.StagesExactly: assumes the worker left nothing of its own in the index.
- WaveMerge.IdlePeerExactly: a start commit with two parents, which cannot be picked at all, is not modelled.
- Resume.ResumeExactly: speaks of crashes at a loop head. A crash inside a turn finds its unit implementing before the receipt, waiting for review up to the verdict event (`Pending.PendingExactly`), and queued, accepted or rejected after it (`ResumeReview.JudgedTwice`, `ResumeReview.CrashAfterAcceptLoses`, `Crash.CrashInReworkLoses`); what a resume does with a unit it finds implementing is not stated beyond `ResumeStart.ResumeFailsExactly`.
- ResumeReview.JudgedTwice: leaves out DAGs, where the last unit that is judged then need not be the one judged before, and envelopes that name no unit, where the table of units is used.
- ResumeSingle.SingleResumeExactly: leaves out runs that dispatched a batch, whose peers a resume takes for a DAG.
- Infrastructure errors (database, git, file system, sandbox setup) that leave the drive loop early through `?`, except where they are part of the inner phase and fail the run.
- Events that change no unit and no total: test started and finished, plan and self-review notes, warnings, run started.
- Identifiers and commits are numbers drawn from a counter; the wave key is the set of ids instead of their sorted, joined text.
- Process ids are not reused, and a holder file is written in one piece.
- The glob engine beyond literal paths, `P/**` and `**`; other patterns are an abstract matcher. Probe paths are not sorted or deduplicated, which the answer does not depend on.
- The secret rules are an abstract predicate; `missing_must_have`, bound tests and plugins appear as arbitrary gate inputs.
- Redaction of secrets in logged payloads; timestamps; SHA-256 beyond being free of collisions.
- The scanner's depth counter is unbounded, as is the DAG sequence number below 2^32.
- Untracked files in the inner worktree, which a hard reset keeps.
- Configuration, contract parsing, reports, learnings, notifications, provider clients, worker command lines, the egress proxy.
