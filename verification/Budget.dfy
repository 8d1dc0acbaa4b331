/** Spending: the two caps of a run and the operations that charge it
    (crates/wanax-core/src/budget.rs). */
module Budget {
  import opened Types
  import Money

  datatype BudgetTick = BudgetTick(spentUsd: I64, spentTurns: U32, costEstimated: bool, exhausted: bool)

  /** What a model call or a worker call reports about its own cost. */
  datatype Usage = Usage(
    usdMicros: Option<I64>,
    promptTokens: Option<U64>,
    completionTokens: Option<U64>,
    charsIn: U64,
    charsOut: U64)

  function SatAddI64(a: I64, b: I64): I64 {
    if a + b > I64_MAX then I64_MAX else if a + b < I64_MIN then I64_MIN else a + b
  }

  function SatAddU32(a: U32, b: U32): U32 {
    if a + b > U32_MAX then U32_MAX else a + b
  }

  predicate UsdExhausted(r: Run) { r.spentUsd >= r.maxUsd }

  predicate TurnsExhausted(r: Run) { r.spentTurns >= r.maxTurns }

  predicate Exhausted(r: Run) { UsdExhausted(r) || TurnsExhausted(r) }

  function Charge(r: Run, micros: I64): Run { r.(spentUsd := SatAddI64(r.spentUsd, micros)) }

  function WithTurns(r: Run, n: U32): Run { r.(spentTurns := SatAddU32(r.spentTurns, n)) }

  function TickOf(r: Run, estimated: bool): BudgetTick {
    BudgetTick(r.spentUsd, r.spentTurns, estimated, Exhausted(r))
  }

  /** Provider tokens when both sides are known, else characters. */
  function ChargeUnitsOf(u: Usage): (U64, U64, bool) {
    if u.promptTokens.Some? && u.completionTokens.Some?
    then (u.promptTokens.value, u.completionTokens.value, false)
    else (u.charsIn, u.charsOut, true)
  }

  /** What one reported usage costs, and whether that is an estimate. */
  function CostOf(u: Usage, rateIn: I64, rateOut: I64): (I64, bool) {
    if u.usdMicros.Some? then (u.usdMicros.value, false)
    else
      var (i, o, estimated) := ChargeUnitsOf(u);
      (Money.EstimateCostMicros(i, o, rateIn, rateOut), estimated)
  }

  /** Within two micros of that many units in and out at these rates per million, unless
      that leaves the 64-bit range. */
  predicate NearPrice(unitsIn: U64, unitsOut: U64, rateIn: I64, rateOut: I64, cost: I64) {
    Money.EstimateFits(unitsIn, unitsOut, rateIn, rateOut) ==>
      -2_000_000 < unitsIn * rateIn + unitsOut * rateOut - 1_000_000 * cost < 2_000_000
  }

  /** A reported cost is charged as it is. Else the prompt is charged at the rate for input
      and the completion at the rate for output; where a token count is missing, so are
      the characters sent and received, and the charge is marked as an estimate. */
  predicate Priced(u: Usage, rateIn: I64, rateOut: I64, cost: I64, estimated: bool) {
    if u.usdMicros.Some? then cost == u.usdMicros.value && !estimated
    else if u.promptTokens.Some? && u.completionTokens.Some? then
      !estimated && NearPrice(u.promptTokens.value, u.completionTokens.value, rateIn, rateOut, cost)
    else estimated && NearPrice(u.charsIn, u.charsOut, rateIn, rateOut, cost)
  }

  lemma CostIsPriced(u: Usage, rateIn: I64, rateOut: I64)
    ensures var (cost, estimated) := CostOf(u, rateIn, rateOut); Priced(u, rateIn, rateOut, cost, estimated)
  {
    if u.usdMicros.None? {
      var (i, o, _) := ChargeUnitsOf(u);
      if Money.EstimateFits(i, o, rateIn, rateOut) { Money.EstimateNearTrueCost(i, o, rateIn, rateOut); }
    }
  }

  /** The run's spend after a list of charges, in order. */
  function SatSum(start: I64, charges: seq<I64>): I64 {
    if charges == [] then start
    else SatAddI64(SatSum(start, charges[..|charges| - 1]), charges[|charges| - 1])
  }

  lemma {:induction false} SatSumSnoc(start: I64, charges: seq<I64>, c: I64)
    ensures SatSum(start, charges + [c]) == SatAddI64(SatSum(start, charges), c)
  {
    assert (charges + [c])[..|charges + [c]| - 1] == charges;
  }

  function PlainSum(charges: seq<I64>): int {
    if charges == [] then 0 else PlainSum(charges[..|charges| - 1]) + charges[|charges| - 1]
  }

  /** Saturation loses nothing while real charges stay in range. */
  lemma {:induction false} SatSumIsExact(start: I64, charges: seq<I64>)
    requires start >= 0 && forall c :: c in charges ==> c >= 0
    ensures SatSum(start, charges) ==
            if start + PlainSum(charges) <= I64_MAX then start + PlainSum(charges) else I64_MAX
    ensures PlainSum(charges) >= 0
  {
    if charges != [] {
      var init := charges[..|charges| - 1];
      assert forall c :: c in init ==> c in charges;
      assert charges[|charges| - 1] in charges;
      SatSumIsExact(start, init);
    }
  }

  class FactoryRun {
    var state: RunState
    const maxUsd: I64
    const maxTurns: U32
    var spentUsd: I64
    var spentTurns: U32

    constructor (r: Run)
      ensures View() == r
    {
      state, maxUsd, maxTurns := r.state, r.maxUsd, r.maxTurns;
      spentUsd, spentTurns := r.spentUsd, r.spentTurns;
    }

    function View(): Run
      reads this
    {
      Run(state, maxUsd, maxTurns, spentUsd, spentTurns)
    }

    method ChargeUnits(unitsIn: U64, unitsOut: U64, rateIn: I64, rateOut: I64, estimated: bool)
      returns (tick: BudgetTick)
      modifies this`spentUsd
      ensures View() == Charge(old(View()), Money.EstimateCostMicros(unitsIn, unitsOut, rateIn, rateOut))
      ensures tick == TickOf(View(), estimated)
    {
      var add := Money.EstimateCostMicros(unitsIn, unitsOut, rateIn, rateOut);
      spentUsd := SatAddI64(spentUsd, add);
      tick := BudgetTick(spentUsd, spentTurns, estimated, Exhausted(View()));
    }

    method ChargeUsdMicros(micros: I64) returns (tick: BudgetTick)
      modifies this`spentUsd
      ensures View() == Charge(old(View()), micros)
      ensures tick == TickOf(View(), false)
    {
      spentUsd := SatAddI64(spentUsd, micros);
      tick := BudgetTick(spentUsd, spentTurns, false, Exhausted(View()));
    }

    method AddTurns(n: U32) returns (tick: BudgetTick)
      modifies this`spentTurns
      ensures View() == WithTurns(old(View()), n)
      ensures tick == TickOf(View(), false)
    {
      spentTurns := SatAddU32(spentTurns, n);
      tick := BudgetTick(spentUsd, spentTurns, false, Exhausted(View()));
    }
  }
}
