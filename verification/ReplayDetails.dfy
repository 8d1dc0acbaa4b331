/** What replay makes of sparse events: receipts with fields missing, the master of a
    batch, and events of older envelopes that name no unit (envelope_snapshot in
    crates/wanax-cli/src/replay.rs). */
module ReplayDetails {
  import opened Types
  import opened Events
  import opened Replay
  import opened Chronicle

  // ---- receipts ----

  lemma {:induction false} ReceiptStep(log: seq<Event>, p: Payload, id: Id)
    requires p.workUnitId == Some(id)
    ensures id in Replayed(log + [ReceiptSubmitted(p)]).receipts
    ensures var stub := Replayed(log + [ReceiptSubmitted(p)]).receipts[id];
            && stub.unitId == id && stub.receiptId == p.receiptId && stub.commit == p.commit
            && (if p.changed.Some? then stub.changed == p.changed.value else stub.changed == [])
            && (if p.exitCode.Some? then stub.exitCode == p.exitCode.value else stub.exitCode == 0)
            && (if p.claimed.Some? then stub.claimed == p.claimed.value else !stub.claimed)
  {
    var e := ReceiptSubmitted(p);
    assert (log + [e])[..|log + [e]| - 1] == log;
  }

  /** A receipt can be made up again from the envelope as it was handed in. */
  lemma {:induction false} ReceiptIsKept(log: seq<Event>, r: Receipt, id: Id)
    ensures var rs := Replayed(log + [ReceiptSubmitted(ReceiptPayload(r, id))]).receipts;
            && id in rs
            && rs[id] == ReceiptStub(Some(r.id), id, Some(r.commit), r.changedFiles, r.exitCode, r.claimedPass)
  {
    hide Replayed;
    ReceiptStep(log, ReceiptPayload(r, id), id);
  }

  // ---- the master of a batch ----

  /** A master, which no event announced before, replays as a goal unit without a number,
      whatever it was live. */
  lemma {:induction false} MasterReplays(log: seq<Event>, master: WorkUnit, covers: seq<Id>)
    requires View(log, master.id).None?
    ensures View(log + [UnitDispatched(MasterPayload(master, covers))], master.id)
            == Some(WorkUnit(master.id, 0, master.title, master.instruction, UImplementing, RGoal, None, None, [], None,
                             None, 0, None, None, None))
  {
    hide View, ContextOf;
    ViewSnoc(log, UnitDispatched(MasterPayload(master, covers)), master.id);
  }

  // ---- events that name no unit ----

  /** The last dispatch in the log that names a unit. */
  ghost predicate LastDispatch(log: seq<Event>, i: nat) {
    && i < |log| && log[i].UnitDispatched? && log[i].p.workUnitId.Some?
    && forall j :: i < j < |log| && log[j].UnitDispatched? ==> log[j].p.workUnitId == None
  }

  /** The last receipt in the log, which names a unit. */
  ghost predicate LastReceipt(log: seq<Event>, i: nat) {
    && i < |log| && log[i].ReceiptSubmitted? && log[i].p.workUnitId.Some?
    && forall j :: i < j < |log| ==> !log[j].ReceiptSubmitted?
  }

  lemma {:induction false} DispatchIsRemembered(log: seq<Event>, i: nat)
    requires LastDispatch(log, i)
    ensures ContextOf(log).lastDispatched == log[i].p.workUnitId
  {
    if i < |log| - 1 { DispatchIsRemembered(log[..|log| - 1], i); }
  }

  lemma {:induction false} ReceiptIsRemembered(log: seq<Event>, i: nat)
    requires LastReceipt(log, i)
    ensures ContextOf(log).lastReceiptUnit == log[i].p.workUnitId
  {
    if i < |log| - 1 { ReceiptIsRemembered(log[..|log| - 1], i); }
  }

  /** A receipt without a unit is the last dispatched unit's. */
  lemma {:induction false} NamelessReceipt(log: seq<Event>, i: nat, p: Payload)
    requires LastDispatch(log, i) && p.workUnitId == None
    ensures var id := log[i].p.workUnitId.value;
            View(log, id).Some? ==>
              var v := View(log + [ReceiptSubmitted(p)], id);
              && v.Some? && v.value.state == UReceiptReady && v.value.receiptId == p.receiptId
              && v.value.commit == p.commit
  {
    hide View, ContextOf;
    DispatchIsRemembered(log, i);
    ViewSnoc(log, ReceiptSubmitted(p), log[i].p.workUnitId.value);
  }

  /** A verdict without one is on the last receipt. */
  lemma {:induction false} NamelessVerdict(log: seq<Event>, i: nat, p: Payload)
    requires LastReceipt(log, i) && p.workUnitId == None && p.decision == Some(DReject)
    ensures var id := log[i].p.workUnitId.value;
            View(log, id).Some? ==> View(log + [Verdict(p)], id) == Some(View(log, id).value.(state := URejected))
  {
    hide View, ContextOf;
    var id := log[i].p.workUnitId.value;
    ReceiptIsRemembered(log, i);
    ViewSnoc(log, Verdict(p), id);
    if View(log, id).Some? {
      ViewHasItsId(log, id);
      RejectedStays(View(log, id).value, [id] + Covered(ContextOf(log), id));
    }
  }
}
