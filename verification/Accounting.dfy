/** Conservation of the ledger: what every step of the drive loop does to
    spending, to the budget ticks, to the history of states and to the envelope. */
module Accounting {
  import opened Types
  import opened State
  import opened Budget
  import opened Events
  import opened Drive

  // ---- budget ticks carry the running total ----

  /** The totals printed by the ticks of a log, in order. */
  function TickTotals(log: seq<Event>): seq<I64> {
    if log == [] then []
    else
      TickTotals(log[..|log| - 1])
      + (if log[|log| - 1].Tick? then [log[|log| - 1].tick.spentUsd] else [])
  }

  /** The running totals of a list of charges. */
  function RunningTotals(start: I64, charges: seq<I64>): seq<I64> {
    if charges == [] then []
    else RunningTotals(start, charges[..|charges| - 1]) + [SatSum(start, charges)]
  }

  lemma {:induction false} TickTotalsSnoc(log: seq<Event>, e: Event)
    ensures TickTotals(log + [e]) == TickTotals(log) + (if e.Tick? then [e.tick.spentUsd] else [])
  {
    assert (log + [e])[..|log + [e]| - 1] == log;
  }

  lemma {:induction false} RunningTotalsSnoc(start: I64, charges: seq<I64>, c: I64)
    ensures RunningTotals(start, charges + [c])
            == RunningTotals(start, charges) + [SatAddI64(SatSum(start, charges), c)]
  {
    assert (charges + [c])[..|charges + [c]| - 1] == charges;
    SatSumSnoc(start, charges, c);
  }

  ghost predicate NeverDecreases(totals: seq<I64>) {
    forall i :: 0 <= i < |totals| - 1 ==> totals[i] <= totals[i + 1]
  }

  lemma {:induction false} RunningTotalsAt(start: I64, charges: seq<I64>, i: nat)
    requires i < |charges|
    ensures |RunningTotals(start, charges)| == |charges|
    ensures RunningTotals(start, charges)[i] == SatSum(start, charges[..i + 1])
  {
    var init := charges[..|charges| - 1];
    if i < |init| {
      RunningTotalsAt(start, init, i);
      assert init[..i + 1] == charges[..i + 1];
    } else {
      if init != [] { RunningTotalsAt(start, init, 0); }
      assert charges[..i + 1] == charges;
    }
  }

  lemma {:induction false} RunningTotalsLength(start: I64, charges: seq<I64>)
    ensures |RunningTotals(start, charges)| == |charges|
  {
    if charges != [] { RunningTotalsLength(start, charges[..|charges| - 1]); }
  }

  /** Exactly when they do: a negative charge on a total above the bottom of the
      range is the one thing that makes two consecutive ticks decrease. */
  lemma {:induction false} TotalsGrowExactly(start: I64, charges: seq<I64>)
    ensures NeverDecreases(RunningTotals(start, charges)) <==>
            forall i :: 1 <= i < |charges| ==> charges[i] >= 0 || SatSum(start, charges[..i]) == I64_MIN
  {
    RunningTotalsLength(start, charges);
    forall i | 1 <= i < |charges|
      ensures RunningTotals(start, charges)[i - 1] == SatSum(start, charges[..i])
      ensures RunningTotals(start, charges)[i] == SatAddI64(SatSum(start, charges[..i]), charges[i])
    {
      RunningTotalsAt(start, charges, i - 1);
      RunningTotalsAt(start, charges, i);
      assert charges[..i + 1] == charges[..i] + [charges[i]];
      SatSumSnoc(start, charges[..i], charges[i]);
    }
    if NeverDecreases(RunningTotals(start, charges)) {
      forall i | 1 <= i < |charges| ensures charges[i] >= 0 || SatSum(start, charges[..i]) == I64_MIN {
        assert RunningTotals(start, charges)[i - 1] <= RunningTotals(start, charges)[(i - 1) + 1];
      }
    }
  }

  // ---- the ledger invariant ----

  /** Bursts: none started once exhausted, and the last one explains the turns
      spent since it started. */
  ghost predicate BurstsOk(l: Ledger) {
    && (forall b :: b in l.bursts ==> !Exhausted(b.before) && b.before.maxTurns == l.run.maxTurns)
    && (l.bursts != [] ==>
          var b := l.bursts[|l.bursts| - 1];
          l.run.spentTurns == if b.before.spentTurns + b.turns > U32_MAX then U32_MAX
                              else b.before.spentTurns + b.turns)
  }

  /** The account books balance against the run the loop started with. */
  ghost predicate Balanced(l: Ledger, start: Run) {
    && l.path != [] && l.path[0] == start.state
    && l.run.maxUsd == start.maxUsd && l.run.maxTurns == start.maxTurns
    && l.run.spentUsd == SatSum(start.spentUsd, l.charges)
    && TickTotals(l.log) == RunningTotals(start.spentUsd, l.charges)
    && BurstsOk(l)
  }

  /** The recorded history of states is legal, ends in the present one and had no
      terminal state before it. */
  ghost predicate Historic(l: Ledger) {
    && l.path != [] && l.path[|l.path| - 1] == l.run.state && LegalPath(l.path)
    && forall i :: 0 <= i < |l.path| - 1 ==> !l.path[i].IsTerminal()
  }

  /** A tick, or the seeding or receipt of a unit with an id in from..to. */
  predicate Quiet(e: Event, from: Id, to: Id) {
    match e
    case Tick(_) => true
    case UnitSeeded(p) => p.workUnitId.Some? && from <= p.workUnitId.value < to && p.covers.None?
    case ReceiptSubmitted(p) => p.workUnitId.Some? && from <= p.workUnitId.value < to && p.covers.None?
    case _ => false
  }

  ghost predicate QuietlyExtends(a: seq<Event>, b: seq<Event>, from: Id, to: Id) {
    a <= b && forall i :: |a| <= i < |b| ==> Quiet(b[i], from, to)
  }

  /** What workers and models can do to a ledger. */
  ghost predicate Grew(l: Ledger, m: Ledger, from: Id, to: Id) {
    && m.run == l.run.(spentUsd := m.run.spentUsd, spentTurns := m.run.spentTurns)
    && m.run.spentTurns >= l.run.spentTurns
    && m.path == l.path
    && QuietlyExtends(l.log, m.log, from, to)
  }

  lemma GrewTwice(a: Ledger, b: Ledger, c: Ledger, from: Id, to: Id)
    requires Grew(a, b, from, to) && Grew(b, c, from, to)
    ensures Grew(a, c, from, to)
  {}

  lemma {:induction false} TickBalances(log: seq<Event>, charges: seq<I64>, start: I64, cost: I64, tick: BudgetTick)
    requires TickTotals(log) == RunningTotals(start, charges)
    requires tick.spentUsd == SatAddI64(SatSum(start, charges), cost)
    ensures TickTotals(log + [Tick(tick)]) == RunningTotals(start, charges + [cost])
    ensures SatSum(start, charges + [cost]) == tick.spentUsd
  {
    hide TickTotals, RunningTotals, SatSum, SatAddI64;
    TickTotalsSnoc(log, Tick(tick));
    RunningTotalsSnoc(start, charges, cost);
    SatSumSnoc(start, charges, cost);
  }

  lemma ChargeGrows(l: Ledger, u: Usage, rateIn: I64, rateOut: I64, start: Run, from: Id, to: Id)
    ensures var m := ChargeAndTick(l, u, rateIn, rateOut);
            Grew(l, m, from, to) && m.run.spentTurns == l.run.spentTurns && m.bursts == l.bursts
            && (Balanced(l, start) ==> Balanced(m, start))
  {
    hide CostOf, TickTotals, RunningTotals, SatSum, SatAddI64, Exhausted;
    var (cost, estimated) := CostOf(u, rateIn, rateOut);
    if Balanced(l, start) {
      TickBalances(l.log, l.charges, start.spentUsd, cost, TickOf(Charge(l.run, cost), estimated));
    }
  }

  lemma LogBalances(l: Ledger, e: Event, start: Run)
    requires Balanced(l, start) && !e.Tick?
    ensures Balanced(Logged(l, e), start)
  {
    TickTotalsSnoc(l.log, e);
  }

  lemma OpenBalances(l: Ledger, start: Run)
    requires !Exhausted(l.run)
    ensures Balanced(l, start) ==> Balanced(Opened(l), start)
    ensures forall from, to :: Grew(l, Opened(l), from, to)
  {}

  /** A booked handle moves the turn count up, strictly while turns remain. */
  lemma BookGrows(l: Ledger, h: Handle, start: Run, from: Id, to: Id)
    requires l.bursts != []
    ensures var m := Booked(l, h);
            Grew(l, m, from, to) && m.bursts != []
            && (l.run.spentTurns < l.run.maxTurns ==> m.run.spentTurns > l.run.spentTurns)
            && (Balanced(l, start) ==> Balanced(m, start))
  {
    var m := Booked(l, h);
    if Balanced(l, start) {
      forall b | b in m.bursts ensures !Exhausted(b.before) && b.before.maxTurns == m.run.maxTurns {
        var i :| 0 <= i < |m.bursts| && m.bursts[i] == b;
        assert l.bursts[i] in l.bursts;
      }
    }
  }

  lemma HandleGrows(c: Config, l: Ledger, h: Handle, start: Run, from: Id, to: Id)
    requires l.bursts != []
    ensures var m := ChargeHandle(c, Booked(l, h), h);
            Grew(l, m, from, to) && m.bursts != []
            && (l.run.spentTurns < l.run.maxTurns ==> m.run.spentTurns > l.run.spentTurns)
            && (Balanced(l, start) ==> Balanced(m, start))
  {
    BookGrows(l, h, start, from, to);
    ChargeGrows(Booked(l, h), HandleUsage(h), c.innerIn, c.innerOut, start, from, to);
  }

  lemma WorkGrows(c: Config, l: Ledger, h: Handle, start: Run, from: Id, to: Id)
    requires !Exhausted(l.run)
    ensures var m := Worked(c, l, h);
            Grew(l, m, from, to) && m.run.spentTurns > l.run.spentTurns
            && (Balanced(l, start) ==> Balanced(m, start))
  {
    OpenBalances(l, start);
    HandleGrows(c, Opened(l), h, start, from, to);
  }

  lemma ReviewGrows(c: Config, l: Ledger, review: Option<Usage>, start: Run, from: Id, to: Id)
    ensures var m := Reviewing(c, l, review);
            Grew(l, m, from, to) && m.run.spentTurns == l.run.spentTurns
            && (Balanced(l, start) ==> Balanced(m, start))
  {
    if review.Some? { ChargeGrows(l, review.value, c.innerIn, c.innerOut, start, from, to); }
  }

  /** The goal loop only spends; when it returns a handle, it spent a turn. */
  lemma {:induction false} GoalLoopGrows(c: Config, l: Ledger, passes: GoalPasses, i: nat, last: Option<Handle>,
                                         prev: Option<seq<string>>, start: Run, from: Id, to: Id)
    ensures var (m, result) := GoalLoop(c, l, passes, i, last, prev);
            Grew(l, m, from, to)
            && (result.Ok? && last.None? ==> m.run.spentTurns > l.run.spentTurns)
            && (Balanced(l, start) ==> Balanced(m, start))
    decreases MAX_GOAL_ITERS - i
  {
    hide Balanced, Grew, Worked, Reviewing;
    if i >= MAX_GOAL_ITERS || Exhausted(l.run) || passes[i].before.Err? || passes[i].adapter.Err? {
      GrewNothing(l, from, to);
    } else {
      var p := passes[i];
      var worked := Worked(c, l, p.adapter.value);
      WorkGrows(c, l, p.adapter.value, start, from, to);
      if !p.adapter.value.crashed && p.test.Ok? && p.changed.Ok? {
        var reviewed := Reviewing(c, worked, p.review);
        ReviewGrows(c, worked, p.review, start, from, to);
        GrewTwice(l, worked, reviewed, from, to);
        var h := p.adapter.value.(testExit := p.test.value);
        GoalLoopGrows(c, reviewed, passes, i + 1, Some(h), Some(p.changed.value), start, from, to);
        var (m, _) := GoalLoop(c, reviewed, passes, i + 1, Some(h), Some(p.changed.value));
        GrewTwice(l, reviewed, m, from, to);
        GrewTurns(reviewed, m, from, to);
      }
    }
  }

  lemma GrewNothing(l: Ledger, from: Id, to: Id)
    ensures Grew(l, l, from, to)
  {}

  lemma GrewTurns(l: Ledger, m: Ledger, from: Id, to: Id)
    requires Grew(l, m, from, to)
    ensures m.run.spentTurns >= l.run.spentTurns && m.run.state == l.run.state && m.path == l.path
    ensures m.run.maxTurns == l.run.maxTurns && m.run.maxUsd == l.run.maxUsd
  {}

  lemma LogGrows(l: Ledger, e: Event, from: Id, to: Id, start: Run)
    requires Quiet(e, from, to)
    ensures Grew(l, Logged(l, e), from, to)
    ensures !e.Tick? && Balanced(l, start) ==> Balanced(Logged(l, e), start)
  {
    TickTotalsSnoc(l.log, e);
  }

  lemma {:induction false} SeedPeersGrows(l: Ledger, first: Id, master: Id, peers: seq<PeerDraft>, idx: nat,
                                          start: Run, from: Id, to: Id)
    requires idx <= |peers| && from <= first && first + |peers| <= to
    ensures var m := SeedPeers(l, first, master, peers, idx);
            Grew(l, m, from, to) && m.run == l.run && m.bursts == l.bursts
            && (Balanced(l, start) ==> Balanced(m, start))
    decreases |peers| - idx
  {
    hide Balanced, Grew, UnitPayload;
    if idx == |peers| {
      GrewNothing(l, from, to);
    } else {
      var u := NewPeer(first + idx, idx, master, peers[idx]);
      PayloadId(u);
      LogGrows(l, UnitSeeded(UnitPayload(u)), from, to, start);
      var l1 := Logged(l, UnitSeeded(UnitPayload(u)));
      SeedPeersGrows(l1, first, master, peers, idx + 1, start, from, to);
      GrewTwice(l, l1, SeedPeers(l1, first, master, peers, idx + 1), from, to);
    }
  }

  lemma PayloadId(u: WorkUnit)
    ensures UnitPayload(u).workUnitId == Some(u.id) && UnitPayload(u).covers.None?
  {}

  lemma {:induction false} CollectGrows(c: Config, l: Ledger, b: BatchInput, first: Id, receipts: Id, i: nat, n: nat,
                                        start: Run, from: Id, to: Id)
    requires i <= n && l.bursts != [] && from <= first && first + n <= to
    ensures var (m, error) := Collect(c, l, b, first, receipts, i, n);
            Grew(l, m, from, to)
            && (error.None? && i < n && l.run.spentTurns < l.run.maxTurns ==> m.run.spentTurns > l.run.spentTurns)
            && (Balanced(l, start) ==> Balanced(m, start))
    decreases n - i
  {
    hide Balanced, Grew, ChargeHandle, ReceiptPayload, Quiet;
    if i == n || PeerAt(b, i).adapter.Err? {
      GrewNothing(l, from, to);
    } else {
      var p := PeerAt(b, i);
      HandleGrows(c, l, p.adapter.value, start, from, to);
      var worked := ChargeHandle(c, Booked(l, p.adapter.value), p.adapter.value);
      if p.committed.Ok? {
        var r := PeerReceipt(c, receipts + i, first + i, p.adapter.value, p.committed.value);
        var e := ReceiptSubmitted(ReceiptPayload(r, first + i));
        ReceiptIsQuiet(r, first + i, from, to);
        LogGrows(worked, e, from, to, start);
        var l1 := Logged(worked, e);
        GrewTwice(l, worked, l1, from, to);
        CollectGrows(c, l1, b, first, receipts, i + 1, n, start, from, to);
        var (m, _) := Collect(c, l1, b, first, receipts, i + 1, n);
        GrewTwice(l, l1, m, from, to);
        GrewTurns(l1, m, from, to);
      }
    }
  }

  lemma ReceiptIsQuiet(r: Receipt, unitId: Id, from: Id, to: Id)
    requires from <= unitId < to
    ensures Quiet(ReceiptSubmitted(ReceiptPayload(r, unitId)), from, to)
  {}

  /** A permitted state change keeps the books and the history. */
  lemma MoveKeeps(l: Ledger, to: RunState, start: Run)
    requires CanTransition(l.run.state, to)
    ensures Moved(l, to).Some? && Moved(l, to).value.run == l.run.(state := to)
    ensures Historic(l) && !l.run.state.IsTerminal() ==> Historic(Moved(l, to).value)
    ensures Balanced(l, start) ==> Balanced(Moved(l, to).value, start)
  {
    if Historic(l) { LegalPathExtends(l.path, to); }
  }

  lemma GrewHistoric(l: Ledger, m: Ledger, from: Id, to: Id)
    requires Grew(l, m, from, to) && Historic(l)
    ensures Historic(m)
  {}

  /** At any moment the turns spent stay below the cap plus the turns of the last
      burst of worker calls. */
  lemma OvershootBounded(l: Ledger)
    requires BurstsOk(l) && l.bursts != []
    ensures l.run.spentTurns < l.run.maxTurns + l.bursts[|l.bursts| - 1].turns
  {
    assert l.bursts[|l.bursts| - 1] in l.bursts;
  }
}
