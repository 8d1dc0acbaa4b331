/** The legal life of a factory run. */
module State {
  import opened Types

  predicate CanTransition(from: RunState, to: RunState) {
    if from == to then true
    else if from.IsTerminal() then false
    else match (from, to)
      case (Draft, ContractReady) => true
      case (ContractReady, Dispatched) => true
      case (Dispatched, InnerWorking) => true
      case (InnerWorking, ReceiptReady) => true
      case (ReceiptReady, OuterReviewing) => true
      case (OuterReviewing, Accepted) => true
      case (OuterReviewing, Rejected) => true
      case (OuterReviewing, Rework) => true
      case (OuterReviewing, Escalate) => true
      case (OuterReviewing, Dispatched) => true
      case (Rework, Dispatched) => true
      case (_, Canceling) => true
      case (Canceling, Cancelled) => true
      case (_, BudgetExhausted) => true
      case (_, Failed) => true
      case (_, Escalate) => true
      case _ => false
  }

  /** A history in which every step is a legal transition. */
  predicate LegalPath(path: seq<RunState>) {
    forall i :: 0 <= i < |path| - 1 ==> CanTransition(path[i], path[i + 1])
  }

  lemma LegalPathExtends(path: seq<RunState>, to: RunState)
    requires LegalPath(path) && path != [] && CanTransition(path[|path| - 1], to)
    ensures LegalPath(path + [to])
  {}

  /** A legal history never leaves a terminal state: from the first terminal
      state on, it only repeats that state. */
  lemma {:induction false} TerminalIsForever(path: seq<RunState>, i: nat, j: nat)
    requires LegalPath(path) && i <= j < |path| && path[i].IsTerminal()
    ensures path[j] == path[i]
    decreases j - i
  {
    if i < j {
      assert CanTransition(path[i], path[i + 1]);
      TerminalIsForever(path, i + 1, j);
    }
  }

  // ---- what a state takes to reach ----

  /** The states on the shortest way from a draft to a state. */
  function Milestones(to: RunState): seq<RunState> {
    match to
    case Draft => []
    case ContractReady => [Draft]
    case Dispatched => [Draft, ContractReady]
    case InnerWorking => [Draft, ContractReady, Dispatched]
    case ReceiptReady => [Draft, ContractReady, Dispatched, InnerWorking]
    case OuterReviewing => [Draft, ContractReady, Dispatched, InnerWorking, ReceiptReady]
    case Accepted | Rejected | Rework =>
      [Draft, ContractReady, Dispatched, InnerWorking, ReceiptReady, OuterReviewing]
    case Cancelled => [Draft, Canceling]
    case Escalate | Canceling | BudgetExhausted | Failed => [Draft]
  }

  /** a occurs in b, in that order. */
  predicate Within(a: seq<RunState>, b: seq<RunState>)
    decreases |b|
  {
    a == [] || (b != [] && (|| Within(a, b[..|b| - 1])
                            || (a[|a| - 1] == b[|b| - 1] && Within(a[..|a| - 1], b[..|b| - 1]))))
  }

  lemma {:induction false} WithinTwice(a: seq<RunState>, b: seq<RunState>, c: seq<RunState>)
    requires Within(a, b) && Within(b, c)
    ensures Within(a, c)
    decreases |c|
  {
    if a != [] {
      var d := c[..|c| - 1];
      if Within(b, d) {
        WithinTwice(a, b, d);
      } else if Within(a, b[..|b| - 1]) {
        WithinTwice(a, b[..|b| - 1], d);
      } else {
        WithinTwice(a[..|a| - 1], b[..|b| - 1], d);
      }
    }
  }

  lemma {:induction false} PrefixWithin(a: seq<RunState>, b: seq<RunState>)
    requires a <= b
    ensures Within(a, b)
    decreases |b|
  {
    if a != [] {
      var d := b[..|b| - 1];
      if |a| < |b| { PrefixWithin(a, d); } else { PrefixWithin(a[..|a| - 1], d); }
    }
  }

  lemma {:induction false} WithinSnoc(a: seq<RunState>, b: seq<RunState>, x: RunState)
    requires Within(a, b)
    ensures Within(a + [x], b + [x]) && Within(a, b + [x])
  {
    assert (a + [x])[..|a|] == a && (b + [x])[..|b|] == b;
  }

  /** A legal step passes no milestone over. */
  lemma StepPassesNone(from: RunState, to: RunState)
    requires CanTransition(from, to) && from != to
    ensures Within(Milestones(to), Milestones(from) + [from])
  {
    hide Within;
    assert Milestones(to) <= Milestones(from) + [from];
    PrefixWithin(Milestones(to), Milestones(from) + [from]);
  }

  /** Whatever a run went through, it passed the milestones of every state it was in
      before it was there, in their order; and the milestones alone are a legal way there. */
  lemma {:induction false} MilestonesExactly(path: seq<RunState>, i: nat)
    requires LegalPath(path) && i < |path| && path[0] == Draft
    ensures Within(Milestones(path[i]), path[..i])
    decreases i
  {
    hide Milestones;
    if i == 0 {
      StartsBare();
    } else {
      MilestonesExactly(path, i - 1);
      assert CanTransition(path[i - 1], path[i]);
      assert path[..i] == path[..i - 1] + [path[i - 1]];
      WithinSnoc(Milestones(path[i - 1]), path[..i - 1], path[i - 1]);
      if path[i] != path[i - 1] {
        StepPassesNone(path[i - 1], path[i]);
        WithinTwice(Milestones(path[i]), Milestones(path[i - 1]) + [path[i - 1]], path[..i]);
      }
    }
  }

  lemma StartsBare()
    ensures Milestones(Draft) == []
  {}

  lemma MilestonesAreAWay(to: RunState)
    ensures LegalPath(Milestones(to) + [to]) && (Milestones(to) + [to])[0] == Draft
  {}

  /** Every live run can be cancelled, fail, escalate or run out of budget at any time,
      and a reviewed one can be dispatched again. */
  lemma AlwaysAWayOut(from: RunState)
    requires !from.IsTerminal()
    ensures CanTransition(from, Canceling) && CanTransition(from, Failed) && CanTransition(from, Escalate)
            && CanTransition(from, BudgetExhausted)
    ensures CanTransition(from, Dispatched) <==> from in {Dispatched, ContractReady, OuterReviewing, Rework}
  {}
}
