/** The vocabulary shared by every component: run and unit records, verdicts,
    error codes and the two integer widths the control plane stores. */
module Types {

  datatype Option<+T> = None | Some(value: T)

  datatype Result<+T, +E> = Ok(value: T) | Err(error: E)

  const U32_MAX: int := 0xFFFF_FFFF
  const U64_MAX: int := 0xFFFF_FFFF_FFFF_FFFF
  const I64_MIN: int := -0x8000_0000_0000_0000
  const I64_MAX: int := 0x7FFF_FFFF_FFFF_FFFF

  type U32 = n: int | 0 <= n <= U32_MAX
  type U64 = n: int | 0 <= n <= U64_MAX
  type I64 = n: int | I64_MIN <= n <= I64_MAX

  /** Identifiers are ULIDs in the program; only their freshness matters, so
      they are drawn from a counter here. */
  type Id = nat

  /** A commit. */
  type Sha = nat

  const MAX_REWORK: nat := 3
  const MAX_GOAL_ITERS: nat := 8

  datatype RunState =
    | Draft
    | ContractReady
    | Dispatched
    | InnerWorking
    | ReceiptReady
    | OuterReviewing
    | Accepted
    | Rejected
    | Rework
    | Escalate
    | Canceling
    | Cancelled
    | BudgetExhausted
    | Failed
  {
    predicate IsTerminal() {
      Accepted? || Rejected? || Cancelled? || BudgetExhausted? || Failed? || Escalate?
    }
  }

  datatype UnitState =
    | UQueued
    | UAssigned
    | UImplementing
    | USelfVerifying
    | UReceiptReady
    | UOuterTesting
    | UAccepted
    | URejected
    | UBlocked

  datatype Role = RMaster | RGoal | RPeer

  datatype Decision = DAccept | DReject | DRework | DEscalate

  datatype ErrorCode =
    | EDb
    | ERepoLocked
    | ELockStale
    | EWorkerCrash
    | EWorkerTimeout
    | EAdapterMissing
    | EBoundary
    | EAcceptOverride
    | ECommanderSchema
    | EBudget
    | EReworkLimit
    | EPeerOverlap
    | EResume
    | EDagCycle
    | EPlugin
    | ERejected
    | EEscalated
    | ESecretLeak

  /** The fields of a FactoryRun that the drive loop reads or writes. */
  datatype Run = Run(
    state: RunState,
    maxUsd: I64,
    maxTurns: U32,
    spentUsd: I64,
    spentTurns: U32)

  datatype WorkUnit = WorkUnit(
    id: Id,
    seqNo: nat,
    title: string,
    instruction: string,
    state: UnitState,
    role: Role,
    parent: Option<Id>,
    globs: Option<seq<string>>,
    dependsOn: seq<Id>,
    testCommand: Option<string>,
    localKey: Option<string>,
    rework: nat,
    commit: Option<Sha>,
    receiptId: Option<Id>,
    verdictId: Option<Id>)

  datatype Receipt = Receipt(
    id: Id,
    unitId: Id,
    changedFiles: seq<string>,
    commit: Sha,
    testCommand: string,
    exitCode: int,
    claimedPass: bool)
}
