/** When the goal loop stops, and with what (run_goal_loop in
    crates/wanax-cli/src/engine.rs), said of the passes alone. */
module GoalRun {
  import opened Types
  import opened Budget
  import opened Drive

  /** The first n passes called a worker. */
  predicate Called(passes: GoalPasses, n: nat) {
    n <= MAX_GOAL_ITERS && forall i :: 0 <= i < n ==> passes[i].adapter.Ok?
  }

  /** The ledger after n whole passes, each a worker call and a self review. */
  function After(c: Config, l: Ledger, passes: GoalPasses, n: nat): Ledger
    requires Called(passes, n)
  {
    if n == 0 then l
    else Reviewing(c, Worked(c, After(c, l, passes, n - 1), passes[n - 1].adapter.value), passes[n - 1].review)
  }

  /** The pass ran to its end: nothing failed and the worker did not crash. */
  predicate Whole(p: GoalPass) {
    p.before.Ok? && p.adapter.Ok? && !p.adapter.value.crashed && p.test.Ok? && p.changed.Ok?
  }

  /** Another pass follows pass i: its test is red, it changed something against the state
      before it and against the pass before, and there is budget left. */
  ghost predicate GoesOn(c: Config, l: Ledger, passes: GoalPasses, i: nat)
    requires i < MAX_GOAL_ITERS && Called(passes, i)
  {
    var p := passes[i];
    && Whole(p) && p.test.value != 0
    && p.changed.value != p.before.value
    && (i > 0 ==> p.changed != passes[i - 1].changed)
    && !Exhausted(After(c, l, passes, i + 1).run)
  }

  /** Exactly the first k passes are followed by another one. */
  ghost predicate Reaches(c: Config, l: Ledger, passes: GoalPasses, k: nat) {
    && Called(passes, k)
    && (k > 0 ==> !Exhausted(l.run))
    && (forall i :: 0 <= i < k ==> GoesOn(c, l, passes, i))
    && (k < MAX_GOAL_ITERS && !Exhausted(l.run) ==> !GoesOn(c, l, passes, k))
  }

  /** What pass k, the one none follows, ends the loop with. */
  ghost predicate LastPass(c: Config, l: Ledger, passes: GoalPasses, k: nat, t: Ledger, r: Result<Handle, ErrorCode>)
    requires k < MAX_GOAL_ITERS && Called(passes, k)
  {
    var p, before := passes[k], After(c, l, passes, k);
    if p.before.Err? then t == before && r == Err(p.before.error)
    else if p.adapter.Err? then t == before && r == Err(p.adapter.error)
    else
      var h, worked := p.adapter.value, Worked(c, before, p.adapter.value);
      if h.crashed then t == worked && r == Ok(h)
      else if p.test.Err? then t == worked && r == Err(p.test.error)
      else if p.changed.Err? then t == worked && r == Err(p.changed.error)
      else t == After(c, l, passes, k + 1) && r == Ok(h.(testExit := p.test.value))
  }

  /** The loop makes k passes that are followed by another, and one more unless there are
      no more or no budget to begin with. The handle it returns is that of its last pass,
      with that pass's own test exit. */
  ghost predicate Runs(c: Config, l: Ledger, passes: GoalPasses, k: nat, t: Ledger, r: Result<Handle, ErrorCode>) {
    && Reaches(c, l, passes, k)
    && if k == 0 && Exhausted(l.run) then t == l && r == Err(EWorkerCrash)
       else if k == MAX_GOAL_ITERS then
         && Whole(passes[k - 1]) && t == After(c, l, passes, k)
         && r == Ok(passes[k - 1].adapter.value.(testExit := passes[k - 1].test.value))
       else LastPass(c, l, passes, k, t, r)
  }

  /** What the loop has in hand before pass i. */
  function LastOf(passes: GoalPasses, i: nat): Option<Handle>
    requires i <= MAX_GOAL_ITERS && (i > 0 ==> Whole(passes[i - 1]))
  {
    if i == 0 then None else Some(passes[i - 1].adapter.value.(testExit := passes[i - 1].test.value))
  }

  function PrevOf(passes: GoalPasses, i: nat): Option<seq<string>>
    requires i <= MAX_GOAL_ITERS && (i > 0 ==> Whole(passes[i - 1]))
  {
    if i == 0 then None else Some(passes[i - 1].changed.value)
  }

  /** Every pass before i was followed by another. */
  ghost predicate Before(c: Config, l: Ledger, passes: GoalPasses, i: nat) {
    && Called(passes, i) && (i > 0 ==> !Exhausted(l.run) && Whole(passes[i - 1]))
    && forall j :: 0 <= j < i ==> GoesOn(c, l, passes, j)
  }

  lemma {:induction false} LoopRuns(c: Config, l: Ledger, passes: GoalPasses, i: nat) returns (k: nat)
    requires Before(c, l, passes, i)
    ensures var (t, r) := GoalLoop(c, After(c, l, passes, i), passes, i, LastOf(passes, i), PrevOf(passes, i));
            Runs(c, l, passes, k, t, r)
    decreases MAX_GOAL_ITERS - i
  {
    hide Worked, Reviewing, Exhausted;
    k := i;
    if i > 0 { assert GoesOn(c, l, passes, i - 1); }
    if i < MAX_GOAL_ITERS && !Exhausted(After(c, l, passes, i).run) && GoesOn(c, l, passes, i) {
      k := LoopRuns(c, l, passes, i + 1);
    }
  }

  /** The specified loop makes these passes. */
  lemma {:induction false} GoalLoopRuns(c: Config, l: Ledger, passes: GoalPasses) returns (k: nat)
    ensures var (t, r) := GoalLoop(c, l, passes, 0, None, None); Runs(c, l, passes, k, t, r)
  {
    hide GoalLoop;
    k := LoopRuns(c, l, passes, 0);
  }

  /** And no other number of them. */
  lemma OnlyRun(c: Config, l: Ledger, passes: GoalPasses, k: nat, j: nat)
    requires Reaches(c, l, passes, k) && Reaches(c, l, passes, j)
    ensures k == j
  {
    hide GoesOn, Exhausted;
  }

  /** The worker calls of a run with k passes that are followed by another. */
  function Calls(passes: GoalPasses, k: nat): nat {
    k + if k < MAX_GOAL_ITERS && passes[k].before.Ok? && passes[k].adapter.Ok? then 1 else 0
  }

  lemma {:induction false} AfterCalls(c: Config, l: Ledger, passes: GoalPasses, n: nat)
    requires Called(passes, n)
    ensures |After(c, l, passes, n).bursts| == |l.bursts| + n
    ensures forall i :: 0 <= i < n
                        ==> After(c, l, passes, n).bursts[|l.bursts| + i].turns == passes[i].adapter.value.turns
    decreases n
  {
    if n > 0 {
      AfterCalls(c, l, passes, n - 1);
      CallsOne(c, After(c, l, passes, n - 1), passes[n - 1].adapter.value, passes[n - 1].review);
    }
  }

  /** One worker call adds one burst, with the turns it reported. */
  lemma CallsOne(c: Config, l: Ledger, h: Handle, review: Option<Usage>)
    ensures var b := Worked(c, l, h).bursts; |b| == |l.bursts| + 1 && b[..|l.bursts|] == l.bursts
                                             && b[|l.bursts|].turns == h.turns
    ensures Reviewing(c, Worked(c, l, h), review).bursts == Worked(c, l, h).bursts
  {
    hide CostOf;
  }

  /** Every pass the loop makes is one worker call, booked with the turns it reported, and
      nothing else is. */
  lemma {:induction false} RunsCalls(c: Config, l: Ledger, passes: GoalPasses, k: nat, t: Ledger,
                                     r: Result<Handle, ErrorCode>)
    requires Runs(c, l, passes, k, t, r)
    ensures var calls := if Exhausted(l.run) then 0 else Calls(passes, k);
            && Called(passes, calls) && |t.bursts| == |l.bursts| + calls
            && forall i :: 0 <= i < calls ==> t.bursts[|l.bursts| + i].turns == passes[i].adapter.value.turns
  {
    hide Worked, Reviewing, Exhausted, GoesOn;
    AfterCalls(c, l, passes, k);
    if k < MAX_GOAL_ITERS && passes[k].adapter.Ok? {
      CallsOne(c, After(c, l, passes, k), passes[k].adapter.value, passes[k].review);
      AfterCalls(c, l, passes, k + 1);
    }
  }
}
