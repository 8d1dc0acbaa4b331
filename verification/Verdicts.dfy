/** What a review leaves: of the unit it judged, of the DAG, of the wave's counter and in
    the envelope (the last part of a turn of drive_factory in crates/wanax-cli/src/engine.rs). */
module Verdicts {
  import opened Types
  import opened State
  import opened Accept
  import opened Budget
  import opened Events
  import opened Scheduler
  import opened Drive
  import opened Fate

  /** One verdict was recorded, on this unit and wave, and is the last thing logged. */
  predicate RecordsOne(s: Loop, t: Loop, u: Id, wave: seq<Id>) {
    && |t.reviews| == |s.reviews| + 1 && t.reviews[..|s.reviews|] == s.reviews
    && t.reviews[|s.reviews|].unitId == u && t.reviews[|s.reviews|].covers == wave
    && |t.ledger.log| > |s.ledger.log|
    && var e := t.ledger.log[|t.ledger.log| - 1];
       e.Verdict? && e.p.workUnitId == Some(u) && e.p.decision == Some(t.reviews[|s.reviews|].decision)
  }

  /** Accepted with the rest of its wave: the receipt is that of the wave. */
  predicate SharesReceipt(d: WorkUnit, e: WorkUnit, r: Receipt) {
    && e.state.UAccepted? && e.receiptId == Some(r.id) && e.commit == Some(r.commit)
    && d == e.(state := d.state, receiptId := d.receiptId, commit := d.commit)
  }

  /** The unit and its wave are accepted, the others stay, and the wave's count is over. */
  predicate AcceptLeft(s: Loop, t: Loop, r: Receipt, wave: seq<Id>)
    requires s.unit.Some?
  {
    && t.unit == Some(s.unit.value.(verdictId := Some(s.nextId), state := UAccepted))
    && (s.dag.None? ==> t.dag.None? && t.waveRework == s.waveRework)
    && (s.dag.Some? ==>
          && t.dag.Some? && |t.dag.value| == |s.dag.value|
          && t.waveRework == (if wave == [] then s.waveRework else 0)
          && forall i :: 0 <= i < |s.dag.value| ==>
               var d, e := s.dag.value[i], t.dag.value[i];
               var was := if d.id == t.unit.value.id then t.unit.value else d;
               if d.id in wave then SharesReceipt(was, e, r) else e == was)
  }

  /** The unit is back in the queue, and every member of the wave has one rework more. */
  predicate ReworkLeft(s: Loop, t: Loop, wave: seq<Id>)
    requires s.unit.Some?
  {
    && t.unit.Some? && t.unit.value.state.UQueued? && t.unit.value.rework == s.unit.value.rework + 1
    && t.unit.value.verdictId == Some(s.nextId)
    && s.unit.value == t.unit.value.(state := s.unit.value.state, rework := s.unit.value.rework,
                                     verdictId := s.unit.value.verdictId)
    && t.waveRework - s.waveRework == (if wave == [] then 0 else 1)
    && (s.dag.None? ==> t.dag.None?)
    && (s.dag.Some? ==>
          && t.dag.Some? && |t.dag.value| == |s.dag.value|
          && forall i :: 0 <= i < |s.dag.value| ==>
               var d, e := s.dag.value[i], t.dag.value[i];
               e.rework - d.rework == (if d.id in wave then 1 else 0) && d == e.(rework := d.rework))
  }

  /** Only the verdict is noted. */
  predicate NoteLeft(s: Loop, t: Loop)
    requires s.unit.Some?
  {
    t.unit == Some(s.unit.value.(verdictId := Some(s.nextId))) && t.dag == s.dag && t.waveRework == s.waveRework
  }

  predicate Left(s: Loop, t: Loop, d: Decision, r: Receipt, wave: seq<Id>)
    requires s.unit.Some?
  {
    && t.pending == s.pending && t.reuse == s.reuse && t.waveKey == s.waveKey && t.nextId == s.nextId + 1
    && match d
       case DAccept => AcceptLeft(s, t, r, wave)
       case DRework => ReworkLeft(s, t, wave)
       case _ => NoteLeft(s, t)
  }

  /** The loop once a verdict is recorded: x, of s. */
  predicate Notes(s: Loop, x: Loop) {
    && s.outcome.Running? && s.ledger.run.state == OuterReviewing && s.unit.Some?
    && x == WithVerdict(s).(ledger := x.ledger, reviews := x.reviews) && x.ledger.run.state == OuterReviewing
  }

  lemma {:induction false} AcceptedLeaves(s: Loop, x: Loop, r: Receipt, wave: seq<Id>)
    requires Notes(s, x)
    ensures var y := AcceptedLoop(x, r, wave);
            AcceptLeft(s, y, r, wave) && y == x.(unit := y.unit, dag := y.dag, waveRework := y.waveRework)
  {
    hide AcceptMembers;
  }

  lemma BooksMoveOnly(s: Loop, y: Loop, t: Loop, r: Receipt, wave: seq<Id>)
    requires s.unit.Some? && AcceptLeft(s, y, r, wave) && t == y.(ledger := t.ledger, outcome := t.outcome)
    ensures AcceptLeft(s, t, r, wave)
  {}

  lemma {:induction false} AcceptLeaves(s: Loop, x: Loop, gates: AcceptGates, r: Receipt, wave: seq<Id>)
    requires Notes(s, x) && gates.CanAccept()
    ensures var t := OnAccept(x, gates, r, wave);
            Left(s, t, DAccept, r, wave) && t.ledger.log == x.ledger.log && t.reviews == x.reviews
  {
    hide AcceptGates.CanAccept, AllAccepted, CanTransition, AcceptLeft, AcceptedLoop;
    AcceptedLeaves(s, x, r, wave);
    var y, t := AcceptedLoop(x, r, wave), OnAccept(x, gates, r, wave);
    assert t == y.(ledger := t.ledger, outcome := t.outcome);
    BooksMoveOnly(s, y, t, r, wave);
  }

  lemma {:induction false} CountedLeaves(s: Loop, x: Loop, wave: seq<Id>)
    requires Notes(s, x)
    ensures var y := ReworkedLoop(x, wave);
            ReworkLeft(s, y, wave) && y == x.(unit := y.unit, dag := y.dag, waveRework := y.waveRework)
  {
    hide ReworkMembers;
  }

  lemma NotOver(s: Loop, x: Loop)
    requires Notes(s, x) && ReworkSoFar(s) < MAX_REWORK
    ensures x.unit.value.rework < MAX_REWORK && x.waveRework < MAX_REWORK
  {}

  lemma OnlyBooksMove(s: Loop, y: Loop, t: Loop, wave: seq<Id>)
    requires s.unit.Some? && ReworkLeft(s, y, wave) && t == y.(ledger := t.ledger, outcome := t.outcome)
    ensures ReworkLeft(s, t, wave)
  {}

  lemma {:induction false} ReworkLeaves(s: Loop, x: Loop, wave: seq<Id>)
    requires Notes(s, x) && ReworkSoFar(s) < MAX_REWORK
    ensures var t := OnRework(x, wave);
            t.unit.Some? && ReworkLeft(s, t, wave) && t.ledger.log == x.ledger.log && t.reviews == x.reviews
    ensures var t := OnRework(x, wave); t == x.(ledger := t.ledger, unit := t.unit, dag := t.dag,
                                                waveRework := t.waveRework, outcome := t.outcome)
  {
    hide CanTransition, ReworkLeft, ReworkedLoop;
    CountedLeaves(s, x, wave);
    var y, t := ReworkedLoop(x, wave), OnRework(x, wave);
    NotOver(s, x);
    assert t == y.(ledger := t.ledger, outcome := t.outcome);
    OnlyBooksMove(s, y, t, wave);
  }

  lemma {:induction false} DecidedLeaves(s: Loop, x: Loop, d: Decision, gates: AcceptGates, r: Receipt, wave: seq<Id>)
    requires Notes(s, x)
    requires d == DAccept ==> gates.CanAccept()
    requires d == DRework ==> ReworkSoFar(s) < MAX_REWORK
    ensures var t := Decided(x, d, gates, r, wave);
            Left(s, t, d, r, wave) && t.ledger.log == x.ledger.log && t.reviews == x.reviews
  {
    hide AcceptGates.CanAccept, OnAccept, OnRework, AcceptLeft, ReworkLeft, ReworkSoFar;
    if d == DAccept {
      AcceptLeaves(s, x, gates, r, wave);
    } else if d == DRework {
      ReworkLeaves(s, x, wave);
    }
  }

  /** What every review leaves, by the decision it records; a review that records none
      changes only the books and ends the run. */
  lemma {:induction false} ReviewLeaves(c: Config, s: Loop, u: WorkUnit, r: Receipt, wave: seq<Id>, v: ReviewInput)
    requires s.outcome.Running? && s.ledger.run.state == OuterReviewing && s.unit.Some?
    ensures var t := Judge(c, s, u, r, wave, v);
            if t.reviews == s.reviews then t.outcome.Ended? && t == s.(ledger := t.ledger, outcome := t.outcome)
            else RecordsOne(s, t, u.id, wave) && Left(s, t, t.reviews[|s.reviews|].decision, r, wave)
  {
    hide CostOf, Enforced, Decided, ChargeAndTick, AcceptGates.CanAccept, ReworkSoFar, Left, AskVerdict, GatesOf,
         MechanicalDecision;
    if v.plugin.Ok? {
      var gates := GatesOf(c, s, u, r, v.plugin.value, v);
      var proposal := Proposal(gates, v);
      if proposal.Ok? {
        var (proposed, usage) := proposal.value;
        var charged := s.(ledger := ChargeAndTick(s.ledger, usage, c.commanderIn, c.commanderOut));
        ChargingKeeps(c, s.ledger, usage);
        ChargingLogs(c, s.ledger, usage);
        EnforcedRules(proposed, gates);
        AcceptIffGates(proposed, gates);
        var (d, note) := Enforced(proposed, gates);
        var x := Recorded(charged, u.id, wave, gates, d);
        if d == DRework { RoomForRework(c, s, u, r, wave, v, proposed); }
        if !(note == Some(EBudget) || (d == DAccept && Exhausted(charged.ledger.run))) {
          DecidedLeaves(s, x, d, gates, r, wave);
        }
      }
    }
  }

  lemma ChargingLogs(c: Config, l: Ledger, u: Usage)
    ensures |ChargeAndTick(l, u, c.commanderIn, c.commanderOut).log| > |l.log|
  {
    hide CostOf;
  }

  lemma RoomForRework(c: Config, s: Loop, u: WorkUnit, r: Receipt, wave: seq<Id>, v: ReviewInput, proposed: Decision)
    requires v.plugin.Ok? && Enforced(proposed, GatesOf(c, s, u, r, v.plugin.value, v)).0 == DRework
    ensures ReworkSoFar(s) < MAX_REWORK
  {
    hide ReworkSoFar;
  }
}
