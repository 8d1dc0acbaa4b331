/** The append-only envelope of a run: the events replay reads and the budget
    ticks. Events replay ignores carry no state and are not represented. */
module Events {
  import opened Types
  import opened Budget

  /** An event payload; every field may be absent. */
  datatype Payload = Payload(
    workUnitId: Option<Id>,
    seqNo: Option<nat>,
    title: Option<string>,
    instruction: Option<string>,
    role: Option<Role>,
    parent: Option<Id>,
    localKey: Option<string>,
    globs: Option<seq<string>>,
    dependsOn: Option<seq<Id>>,
    testCommand: Option<string>,
    covers: Option<seq<Id>>,
    receiptId: Option<Id>,
    commit: Option<Sha>,
    changed: Option<seq<string>>,
    exitCode: Option<int>,
    claimed: Option<bool>,
    decision: Option<Decision>)

  const NO_FIELDS := Payload(None, None, None, None, None, None, None, None, None, None, None,
                             None, None, None, None, None, None)

  datatype Event =
    | UnitSeeded(p: Payload)
    | UnitDispatched(p: Payload)
    | ReceiptSubmitted(p: Payload)
    | Verdict(p: Payload)
    | Tick(tick: BudgetTick)

  /** The static fields of a unit, as `unit_seeded` and `unit_dispatched` carry them. */
  function UnitPayload(u: WorkUnit): Payload {
    NO_FIELDS.(
      workUnitId := Some(u.id),
      seqNo := Some(u.seqNo),
      title := Some(u.title),
      instruction := Some(u.instruction),
      role := Some(u.role),
      parent := u.parent,
      localKey := u.localKey,
      globs := u.globs,
      dependsOn := Some(u.dependsOn),
      testCommand := u.testCommand)
  }

  /** The shorter payload a peer batch logs for its master. */
  function MasterPayload(master: WorkUnit, covers: seq<Id>): Payload {
    NO_FIELDS.(
      workUnitId := Some(master.id),
      title := Some(master.title),
      instruction := Some(master.instruction),
      covers := Some(covers))
  }

  function ReceiptPayload(r: Receipt, unitId: Id): Payload {
    NO_FIELDS.(
      workUnitId := Some(unitId),
      receiptId := Some(r.id),
      commit := Some(r.commit),
      changed := Some(r.changedFiles),
      exitCode := Some(r.exitCode),
      claimed := Some(r.claimedPass))
  }

  function VerdictPayload(unitId: Id, d: Decision): Payload {
    NO_FIELDS.(workUnitId := Some(unitId), decision := Some(d))
  }
}
