/** Rebuilding the units of a run from its envelope (crates/wanax-cli/src/replay.rs). */
module Replay {
  import opened Types
  import opened Events

  datatype ReceiptStub = ReceiptStub(
    receiptId: Option<Id>,
    unitId: Id,
    commit: Option<Sha>,
    changed: seq<string>,
    exitCode: int,
    claimed: bool)

  /** What later events may refer back to. */
  datatype Context = Context(
    covers: map<Id, seq<Id>>,
    lastDispatched: Option<Id>,
    lastReceiptUnit: Option<Id>)

  datatype Snapshot = Snapshot(
    units: seq<WorkUnit>,
    byId: map<Id, nat>,
    receipts: map<Id, ReceiptStub>,
    ctx: Context,
    sawUnits: bool)

  function BlankUnit(id: Id): WorkUnit {
    WorkUnit(id, 0, "", "", UQueued, RGoal, None, None, [], None, None, 0, None, None, None)
  }

  function Or<T>(a: Option<T>, b: T): T { if a.Some? then a.value else b }

  function OrElse<T>(a: Option<T>, b: Option<T>): Option<T> { if a.Some? then a else b }

  /** `as u32` on a payload number. */
  function TruncU32(n: nat): nat { n % (U32_MAX + 1) }

  function ApplyUnitFields(u: WorkUnit, p: Payload): WorkUnit {
    u.(id := Or(p.workUnitId, u.id),
       seqNo := if p.seqNo.Some? then TruncU32(p.seqNo.value) else u.seqNo,
       title := Or(p.title, u.title),
       instruction := Or(p.instruction, u.instruction),
       role := Or(p.role, u.role),
       localKey := OrElse(p.localKey, u.localKey),
       globs := OrElse(p.globs, u.globs),
       dependsOn := Or(p.dependsOn, u.dependsOn),
       testCommand := OrElse(p.testCommand, u.testCommand),
       parent := OrElse(p.parent, u.parent))
  }

  function Upserted(s: Snapshot, p: Payload, state: UnitState): Snapshot
    requires IndexOk(s)
  {
    if p.workUnitId.None? then s
    else
      var id := p.workUnitId.value;
      if id in s.byId then
        var i := s.byId[id];
        s.(units := s.units[i := ApplyUnitFields(s.units[i], p).(state := state)], sawUnits := true)
      else
        s.(units := s.units + [ApplyUnitFields(BlankUnit(id), p).(state := state)],
           byId := s.byId[id := |s.units|],
           sawUnits := true)
  }

  predicate IndexOk(s: Snapshot) {
    forall id :: id in s.byId ==> s.byId[id] < |s.units|
  }

  function Judged(u: WorkUnit, d: Option<Decision>): WorkUnit {
    match d
    case Some(DAccept) => u.(state := UAccepted)
    case Some(DReject) => u.(state := URejected)
    case Some(DRework) => u.(state := UQueued, rework := u.rework + 1)
    case _ => u
  }

  function VerdictTo(s: Snapshot, id: Id, d: Option<Decision>): (r: Snapshot)
    requires IndexOk(s)
    ensures |r.units| == |s.units| && r == s.(units := r.units)
  {
    if id in s.byId then s.(units := s.units[s.byId[id] := Judged(s.units[s.byId[id]], d)]) else s
  }

  function VerdictToAll(s: Snapshot, ids: seq<Id>, d: Option<Decision>): (r: Snapshot)
    requires IndexOk(s)
    ensures |r.units| == |s.units| && r == s.(units := r.units)
    decreases |ids|
  {
    if ids == [] then s else VerdictToAll(VerdictTo(s, ids[0], d), ids[1..], d)
  }

  function Received(u: WorkUnit, p: Payload): WorkUnit {
    u.(state := UReceiptReady, receiptId := p.receiptId, commit := p.commit)
  }

  function StubOf(p: Payload, unitId: Id): ReceiptStub {
    ReceiptStub(p.receiptId, unitId, p.commit, Or(p.changed, []), Or(p.exitCode, 0), Or(p.claimed, false))
  }

  function ContextStep(c: Context, e: Event): Context {
    match e
    case UnitDispatched(p) =>
      if p.workUnitId.None? then c
      else c.(lastDispatched := p.workUnitId,
              covers := if p.covers.Some? then c.covers[p.workUnitId.value := p.covers.value] else c.covers)
    case ReceiptSubmitted(p) =>
      var unit := OrElse(p.workUnitId, c.lastDispatched);
      if unit.None? then c else c.(lastReceiptUnit := unit)
    case _ => c
  }

  function SnapshotStep(s: Snapshot, e: Event): Snapshot
    requires IndexOk(s)
  {
    var ctx := ContextStep(s.ctx, e);
    match e
    case UnitSeeded(p) => Upserted(s, p, UQueued)
    case UnitDispatched(p) => Upserted(s, p, UImplementing).(ctx := ctx)
    case ReceiptSubmitted(p) =>
      var unit := OrElse(p.workUnitId, s.ctx.lastDispatched);
      if unit.None? then s
      else
        var id := unit.value;
        s.(units := if id in s.byId then s.units[s.byId[id] := Received(s.units[s.byId[id]], p)] else s.units,
           receipts := s.receipts[id := StubOf(p, id)],
           ctx := ctx)
    case Verdict(p) =>
      var target := OrElse(p.workUnitId, s.ctx.lastReceiptUnit);
      if target.None? then s
      else VerdictToAll(VerdictTo(s, target.value, p.decision), Covered(s.ctx, target.value), p.decision)
    case Tick(_) => s
  }

  function Covered(c: Context, target: Id): seq<Id> {
    if target in c.covers then c.covers[target] else []
  }

  const EMPTY_CONTEXT := Context(map[], None, None)
  const EMPTY_SNAPSHOT := Snapshot([], map[], map[], EMPTY_CONTEXT, false)

  lemma StepKeepsIndex(s: Snapshot, e: Event)
    requires IndexOk(s)
    ensures IndexOk(SnapshotStep(s, e))
  {}

  /** The snapshot after a log: the left fold of SnapshotStep. */
  function Replayed(log: seq<Event>): (s: Snapshot)
    ensures IndexOk(s)
  {
    if log == [] then EMPTY_SNAPSHOT
    else
      var s := Replayed(log[..|log| - 1]);
      StepKeepsIndex(s, log[|log| - 1]);
      SnapshotStep(s, log[|log| - 1])
  }

  /** The last unit still waiting for the verdict on its receipt. */
  function PendingFrom(s: Snapshot, n: nat): Option<(Id, Id)>
    requires n <= |s.units|
  {
    if n == 0 then None
    else
      var u := s.units[n - 1];
      if u.state == UReceiptReady && u.receiptId.Some? && u.id in s.receipts
      then Some((u.id, u.receiptId.value))
      else PendingFrom(s, n - 1)
  }

  /** `envelope_snapshot`: nothing when the log names no unit. */
  function EnvelopeSnapshot(log: seq<Event>): Option<(Snapshot, Option<(Id, Id)>)> {
    var s := Replayed(log);
    if s.sawUnits then Some((s, PendingFrom(s, |s.units|))) else None
  }

  // ---- the same history, read for one unit at a time ----

  function ContextOf(log: seq<Event>): Context {
    if log == [] then EMPTY_CONTEXT else ContextStep(ContextOf(log[..|log| - 1]), log[|log| - 1])
  }

  function JudgedTimes(u: WorkUnit, ids: seq<Id>, d: Option<Decision>): WorkUnit
    decreases |ids|
  {
    if ids == [] then u else JudgedTimes(if ids[0] == u.id then Judged(u, d) else u, ids[1..], d)
  }

  function ViewStep(v: Option<WorkUnit>, c: Context, e: Event, id: Id): Option<WorkUnit> {
    match e
    case UnitSeeded(p) =>
      if p.workUnitId == Some(id) then Some(ApplyUnitFields(Or(v, BlankUnit(id)), p).(state := UQueued)) else v
    case UnitDispatched(p) =>
      if p.workUnitId == Some(id) then Some(ApplyUnitFields(Or(v, BlankUnit(id)), p).(state := UImplementing)) else v
    case ReceiptSubmitted(p) =>
      if v.Some? && OrElse(p.workUnitId, c.lastDispatched) == Some(id) then Some(Received(v.value, p)) else v
    case Verdict(p) =>
      var target := OrElse(p.workUnitId, c.lastReceiptUnit);
      if v.None? || target.None? then v
      else Some(JudgedTimes(v.value, [target.value] + Covered(c, target.value), p.decision))
    case Tick(_) => v
  }

  /** What a log says about unit `id`, ignoring everything said about others. */
  function View(log: seq<Event>, id: Id): Option<WorkUnit> {
    if log == [] then None
    else
      var before := log[..|log| - 1];
      ViewStep(View(before, id), ContextOf(before), log[|log| - 1], id)
  }

  lemma {:induction false} ViewSnoc(log: seq<Event>, e: Event, id: Id)
    ensures View(log + [e], id) == ViewStep(View(log, id), ContextOf(log), e, id)
    ensures ContextOf(log + [e]) == ContextStep(ContextOf(log), e)
  {
    assert (log + [e])[..|log + [e]| - 1] == log;
  }

  lemma {:induction false} ViewHasItsId(log: seq<Event>, id: Id)
    ensures View(log, id).Some? ==> View(log, id).value.id == id
  {
    if log != [] {
      var before := log[..|log| - 1];
      ViewHasItsId(before, id);
      var e := log[|log| - 1];
      if e.Verdict? && View(before, id).Some? {
        var c := ContextOf(before);
        var target := OrElse(e.p.workUnitId, c.lastReceiptUnit);
        if target.Some? {
          JudgedKeepsId(View(before, id).value, [target.value] + Covered(c, target.value), e.p.decision);
        }
      }
    }
  }

  lemma {:induction false} JudgedKeepsId(u: WorkUnit, ids: seq<Id>, d: Option<Decision>)
    ensures JudgedTimes(u, ids, d) == u.(state := JudgedTimes(u, ids, d).state, rework := JudgedTimes(u, ids, d).rework)
    decreases |ids|
  {
    if ids != [] { JudgedKeepsId(if ids[0] == u.id then Judged(u, d) else u, ids[1..], d); }
  }

  function SlotOf(s: Snapshot, id: Id): Option<WorkUnit>
    requires IndexOk(s)
  {
    if id in s.byId then Some(s.units[s.byId[id]]) else None
  }

  /** The index and the slots agree: every slot is indexed under its own id, and
      no id has two slots. */
  ghost predicate Slots(s: Snapshot) {
    && (forall id :: id in s.byId ==> s.byId[id] < |s.units| && s.units[s.byId[id]].id == id)
    && (forall i :: 0 <= i < |s.units| ==> s.units[i].id in s.byId && s.byId[s.units[i].id] == i)
    && (s.sawUnits <==> s.units != [])
  }

  /** A snapshot holds one slot per unit named in the log, and each slot holds
      exactly what the log says about its unit. */
  ghost predicate Mirrors(s: Snapshot, log: seq<Event>) {
    && Slots(s)
    && s.ctx == ContextOf(log)
    && forall id :: SlotOf(s, id) == View(log, id)
  }

  lemma UpsertOldSlot(s: Snapshot, p: Payload, state: UnitState)
    requires Slots(s) && p.workUnitId.Some? && p.workUnitId.value in s.byId
    ensures Slots(Upserted(s, p, state))
  {
    var r, k := Upserted(s, p, state), s.byId[p.workUnitId.value];
    assert forall i :: 0 <= i < |s.units| && i != k ==> r.units[i] == s.units[i];
  }

  lemma UpsertNewSlot(s: Snapshot, p: Payload, state: UnitState)
    requires Slots(s) && p.workUnitId.Some? && p.workUnitId.value !in s.byId
    ensures Slots(Upserted(s, p, state))
  {
    var r := Upserted(s, p, state);
    assert forall i :: 0 <= i < |s.units| ==> r.units[i] == s.units[i];
  }

  lemma UpsertSlots(s: Snapshot, p: Payload, state: UnitState, id: Id)
    requires Slots(s)
    ensures Slots(Upserted(s, p, state))
    ensures SlotOf(Upserted(s, p, state), id) ==
            if p.workUnitId == Some(id) then Some(ApplyUnitFields(Or(SlotOf(s, id), BlankUnit(id)), p).(state := state))
            else SlotOf(s, id)
  {
    hide ApplyUnitFields;
    if p.workUnitId.Some? {
      if p.workUnitId.value in s.byId { UpsertOldSlot(s, p, state); } else { UpsertNewSlot(s, p, state); }
    }
  }

  lemma VerdictToSlots(s: Snapshot, target: Id, d: Option<Decision>, id: Id)
    requires Slots(s)
    ensures Slots(VerdictTo(s, target, d))
    ensures SlotOf(VerdictTo(s, target, d), id) ==
            if target == id && id in s.byId then Some(Judged(s.units[s.byId[id]], d)) else SlotOf(s, id)
  {}

  lemma {:induction false} VerdictToAllSlots(s: Snapshot, ids: seq<Id>, d: Option<Decision>, id: Id)
    requires Slots(s)
    ensures Slots(VerdictToAll(s, ids, d))
    ensures SlotOf(VerdictToAll(s, ids, d), id) ==
            if id in s.byId then Some(JudgedTimes(s.units[s.byId[id]], ids, d)) else None
    decreases |ids|
  {
    if ids != [] {
      VerdictToSlots(s, ids[0], d, id);
      VerdictToAllSlots(VerdictTo(s, ids[0], d), ids[1..], d, id);
    }
  }

  lemma ReceiptSlots(s: Snapshot, p: Payload, id: Id)
    requires Slots(s)
    ensures var r := SnapshotStep(s, ReceiptSubmitted(p));
            Slots(r) && SlotOf(r, id) == ViewStep(SlotOf(s, id), s.ctx, ReceiptSubmitted(p), id)
  {}

  lemma VerdictSlots(s: Snapshot, p: Payload, id: Id)
    requires Slots(s)
    ensures var r := SnapshotStep(s, Verdict(p));
            Slots(r) && SlotOf(r, id) == ViewStep(SlotOf(s, id), s.ctx, Verdict(p), id)
  {
    var target := OrElse(p.workUnitId, s.ctx.lastReceiptUnit);
    if target.Some? {
      var ids := [target.value] + Covered(s.ctx, target.value);
      assert ids[1..] == Covered(s.ctx, target.value);
      VerdictToAllSlots(s, ids, p.decision, id);
    }
  }

  lemma StepSlots(s: Snapshot, e: Event, id: Id)
    requires Slots(s)
    ensures Slots(SnapshotStep(s, e))
    ensures SlotOf(SnapshotStep(s, e), id) == ViewStep(SlotOf(s, id), s.ctx, e, id)
  {
    match e
    case UnitSeeded(p) => UpsertSlots(s, p, UQueued, id);
    case UnitDispatched(p) => UpsertSlots(s, p, UImplementing, id);
    case ReceiptSubmitted(p) => ReceiptSlots(s, p, id);
    case Verdict(p) => VerdictSlots(s, p, id);
    case Tick(_) =>
  }

  lemma StepContext(s: Snapshot, e: Event)
    requires IndexOk(s)
    ensures SnapshotStep(s, e).ctx == ContextStep(s.ctx, e)
  {}

  /** Replay of any log: exactly one slot per id, holding that unit's own history. */
  lemma {:induction false} ReplayMirrorsLog(log: seq<Event>)
    ensures Mirrors(Replayed(log), log)
  {
    if log != [] {
      var before, e := log[..|log| - 1], log[|log| - 1];
      var s := Replayed(before);
      ReplayMirrorsLog(before);
      StepContext(s, e);
      forall id ensures Slots(Replayed(log)) && SlotOf(Replayed(log), id) == View(log, id) {
        StepSlots(s, e, id);
      }
      StepSlots(s, e, 0);
    }
  }
}
