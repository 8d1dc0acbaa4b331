/** What the calls of a run cost, and at whose rates (charge_and_tick and
    charge_handle_usage in crates/wanax-cli/src/engine.rs). */
module Charges {
  import opened Types
  import opened Budget
  import opened Events
  import opened Drive

  /** From l to m one usage was charged: one charge at its price, one tick with the new
      total, and nothing else. */
  ghost predicate ChargedFor(l: Ledger, m: Ledger, u: Usage, rateIn: I64, rateOut: I64) {
    && |m.charges| == |l.charges| + 1 && |m.log| == |l.log| + 1
    && m.charges[..|l.charges|] == l.charges && m.log[..|l.log|] == l.log && m.log[|l.log|].Tick?
    && var cost, tick := m.charges[|l.charges|], m.log[|l.log|].tick;
       && Priced(u, rateIn, rateOut, cost, tick.costEstimated)
       && m.run == l.run.(spentUsd := SatAddI64(l.run.spentUsd, cost))
       && tick.spentUsd == m.run.spentUsd && tick.spentTurns == m.run.spentTurns
       && (tick.exhausted <==> m.run.spentUsd >= m.run.maxUsd || m.run.spentTurns >= m.run.maxTurns)
       && m.path == l.path && m.bursts == l.bursts
  }

  lemma ChargeIsPriced(l: Ledger, u: Usage, rateIn: I64, rateOut: I64)
    ensures ChargedFor(l, ChargeAndTick(l, u, rateIn, rateOut), u, rateIn, rateOut)
  {
    hide CostOf, Priced;
    CostIsPriced(u, rateIn, rateOut);
  }

  // ---- the worker and its self review, at the inner rates ----

  /** A call without any usage is free; one with a cost is charged that; one with both token
      counts at their price; one with a single count as an estimate of nothing. */
  ghost predicate WorkerCharged(c: Config, l: Ledger, m: Ledger, h: Handle) {
    if h.costUsd.None? && h.usageIn.None? && h.usageOut.None? then m == l
    else
      && ChargedFor(l, m, Usage(h.costUsd, h.usageIn, h.usageOut, 0, 0), c.innerIn, c.innerOut)
      && var cost := m.charges[|l.charges|];
         if h.costUsd.Some? then cost == h.costUsd.value
         else if h.usageIn.Some? && h.usageOut.Some? then
           NearPrice(h.usageIn.value, h.usageOut.value, c.innerIn, c.innerOut, cost)
         else cost == 0
  }

  /** The turns of a worker are booked before its usage is charged. */
  lemma WorkIsCharged(c: Config, l: Ledger, h: Handle)
    ensures var b := Booked(Opened(l), h);
            b.charges == l.charges && b.log == l.log && b.run == WithTurns(l.run, h.turns)
            && WorkerCharged(c, b, Worked(c, l, h), h)
  {
    HandleIsCharged(c, Booked(Opened(l), h), h);
  }

  lemma HandleIsCharged(c: Config, l: Ledger, h: Handle)
    ensures WorkerCharged(c, l, ChargeHandle(c, l, h), h)
  {
    hide Priced, NearPrice;
    ChargeIsPriced(l, HandleUsage(h), c.innerIn, c.innerOut);
    PricedParts(HandleUsage(h), c.innerIn, c.innerOut, CostOf(HandleUsage(h), c.innerIn, c.innerOut).0,
                CostOf(HandleUsage(h), c.innerIn, c.innerOut).1);
  }

  lemma PricedParts(u: Usage, rateIn: I64, rateOut: I64, cost: I64, estimated: bool)
    requires Priced(u, rateIn, rateOut, cost, estimated)
    ensures u.usdMicros.Some? ==> cost == u.usdMicros.value
    ensures u.usdMicros.None? && u.promptTokens.Some? && u.completionTokens.Some? ==>
              NearPrice(u.promptTokens.value, u.completionTokens.value, rateIn, rateOut, cost)
  {}

  lemma ReviewIsCharged(c: Config, l: Ledger, review: Option<Usage>)
    ensures if review.None? then Reviewing(c, l, review) == l
            else ChargedFor(l, Reviewing(c, l, review), review.value, c.innerIn, c.innerOut)
  {
    if review.Some? { ChargeIsPriced(l, review.value, c.innerIn, c.innerOut); }
  }
}
