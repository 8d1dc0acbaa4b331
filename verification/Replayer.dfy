/** Replay in its own form: one outcome object filled event by event
    (envelope_snapshot, upsert and apply_verdict_to in crates/wanax-cli/src/replay.rs). */
module Replayer {
  import opened Types
  import opened Events
  import opened Replay

  class ReplayOutcome {
    var units: seq<WorkUnit>
    var byId: map<Id, nat>
    var receipts: map<Id, ReceiptStub>
    var covers: map<Id, seq<Id>>
    var lastDispatched: Option<Id>
    var lastReceiptUnit: Option<Id>
    var sawUnits: bool

    function View(): Snapshot
      reads this
    {
      Snapshot(units, byId, receipts, Context(covers, lastDispatched, lastReceiptUnit), sawUnits)
    }

    constructor ()
      ensures View() == EMPTY_SNAPSHOT
    {
      units, byId, receipts, covers := [], map[], map[], map[];
      lastDispatched, lastReceiptUnit, sawUnits := None, None, false;
    }

    method Upsert(p: Payload, state: UnitState) returns (idx: Option<nat>)
      requires IndexOk(View())
      modifies this`units, this`byId, this`sawUnits
      ensures View() == Upserted(old(View()), p, state)
      ensures idx.None? <==> p.workUnitId.None?
      ensures idx.Some? ==> idx.value < |units| && units[idx.value].id == p.workUnitId.value
    {
      if p.workUnitId.None? { return None; }
      var id := p.workUnitId.value;
      var i: nat;
      if id in byId {
        i := byId[id];
      } else {
        units := units + [BlankUnit(id)];
        i := |units| - 1;
        byId := byId[id := i];
      }
      units := units[i := ApplyUnitFields(units[i], p).(state := state)];
      sawUnits := true;
      idx := Some(i);
    }

    method ApplyVerdictTo(id: Id, decision: Option<Decision>)
      requires IndexOk(View())
      modifies this`units
      ensures View() == VerdictTo(old(View()), id, decision)
    {
      if id in byId {
        var i := byId[id];
        var u := units[i];
        match decision {
          case Some(DAccept) => units := units[i := u.(state := UAccepted)];
          case Some(DReject) => units := units[i := u.(state := URejected)];
          case Some(DRework) => units := units[i := u.(state := UQueued, rework := u.rework + 1)];
          case _ => assert units[i := u] == units;
        }
      }
    }

    method Receive(p: Payload)
      requires IndexOk(View())
      modifies this`units, this`receipts, this`lastReceiptUnit
      ensures View() == SnapshotStep(old(View()), ReceiptSubmitted(p))
    {
      var unitId := OrElse(p.workUnitId, lastDispatched);
      if unitId.None? { return; }
      var id := unitId.value;
      lastReceiptUnit := Some(id);
      if id in byId { units := units[byId[id] := Received(units[byId[id]], p)]; }
      receipts := receipts[id := StubOf(p, id)];
    }

    method Rule(p: Payload)
      requires IndexOk(View())
      modifies this`units
      ensures View() == SnapshotStep(old(View()), Verdict(p))
    {
      hide VerdictTo;
      var target := OrElse(p.workUnitId, lastReceiptUnit);
      if target.None? { return; }
      var covered := if target.value in covers then covers[target.value] else [];
      ApplyVerdictTo(target.value, p.decision);
      ghost var first := View();
      for i := 0 to |covered|
        invariant IndexOk(View())
        invariant VerdictToAll(View(), covered[i..], p.decision) == VerdictToAll(first, covered, p.decision)
      {
        assert covered[i..][0] == covered[i] && covered[i..][1..] == covered[i + 1..];
        ApplyVerdictTo(covered[i], p.decision);
      }
    }

    method Step(e: Event)
      requires IndexOk(View())
      modifies this
      ensures View() == SnapshotStep(old(View()), e) && IndexOk(View())
    {
      hide VerdictTo, VerdictToAll, ApplyUnitFields;
      StepKeepsIndex(View(), e);
      match e
      case UnitSeeded(p) => var _ := Upsert(p, UQueued);
      case UnitDispatched(p) =>
        var idx := Upsert(p, UImplementing);
        if idx.Some? {
          var id := units[idx.value].id;
          lastDispatched := Some(id);
          if p.covers.Some? { covers := covers[id := p.covers.value]; }
        }
      case ReceiptSubmitted(p) => Receive(p);
      case Verdict(p) => Rule(p);
      case Tick(_) =>
    }

    /** The latest receipt whose unit never reached a verdict. */
    method FindPending() returns (pending: Option<(Id, Id)>)
      ensures pending == PendingFrom(View(), |units|)
    {
      var n: nat := |units|;
      while n > 0
        invariant n <= |units|
        invariant PendingFrom(View(), |units|) == PendingFrom(View(), n)
      {
        var u := units[n - 1];
        if u.state == UReceiptReady && u.receiptId.Some? && u.id in receipts { return Some((u.id, u.receiptId.value)); }
        n := n - 1;
      }
      pending := None;
    }
  }

  method EnvelopeSnapshot(log: seq<Event>) returns (r: Option<(Snapshot, Option<(Id, Id)>)>)
    ensures r == Replay.EnvelopeSnapshot(log)
  {
    var out := new ReplayOutcome();
    for i := 0 to |log|
      invariant out.View() == Replayed(log[..i])
    {
      assert log[..i + 1][..i] == log[..i];
      out.Step(log[i]);
    }
    assert log[..|log|] == log;
    if !out.sawUnits { return None; }
    var pending := out.FindPending();
    r := Some((out.View(), pending));
  }
}
