/** What holds at every loop head a fresh run can reach, read off the invariants. */
module Heads {
  import opened Types
  import opened Accept
  import opened Budget
  import opened Events
  import opened GlobOverlap
  import opened Scheduler
  import opened Drive
  import opened Replay
  import opened Chronicle
  import opened FreshRun
  import opened DagRun
  import opened Turns
  import opened Counts
  import opened WholeRun
  import opened Safety
  import opened Accounting

  /** The run after k turns; a run that has ended stays as it is. */
  ghost function HeadAt(c: Config, run: Run, first: Id, env: nat -> TurnInput, k: nat): Loop
    requires run.state == Dispatched
  {
    if k == 0 then Fresh(run, first)
    else
      var s := HeadAt(c, run, first, env, k - 1);
      if s.outcome.Running? then Turn(c, s, env(k - 1)) else s
  }

  lemma {:induction false} EveryHeadIsFresh(c: Config, run: Run, first: Id, env: nat -> TurnInput, k: nat)
    requires run.state == Dispatched
    ensures var s := HeadAt(c, run, first, env, k); s.outcome.Running? ==> FreshHead(c, s)
  {
    hide Turn, FreshHead;
    if k == 0 {
      FreshIsHead(c, run, first);
    } else {
      EveryHeadIsFresh(c, run, first, env, k - 1);
      var s := HeadAt(c, run, first, env, k - 1);
      if s.outcome.Running? && Turn(c, s, env(k - 1)).outcome.Running? { FreshTurn(c, s, env(k - 1)); }
    }
  }

  lemma {:induction false} EveryHeadCounts(c: Config, run: Run, first: Id, env: nat -> TurnInput, k: nat)
    requires run.state == Dispatched
    ensures var s := HeadAt(c, run, first, env, k); s.outcome.Running? ==> FreshHead(c, s) && CountOk(s)
  {
    hide Turn, FreshHead, CountOk;
    EveryHeadIsFresh(c, run, first, env, k);
    if k == 0 {
      FreshCounts(run, first);
    } else {
      EveryHeadCounts(c, run, first, env, k - 1);
      var s := HeadAt(c, run, first, env, k - 1);
      if s.outcome.Running? && Turn(c, s, env(k - 1)).outcome.Running? { TurnCounts(c, s, env(k - 1)); }
    }
  }

  lemma FreshCounts(run: Run, first: Id)
    requires run.state == Dispatched
    ensures CountOk(Fresh(run, first))
  {}

  // ---- replay refines the run ----

  /** Replaying the envelope gives one slot per unit, and in it the live unit: for
      a unit outside a DAG everything but the verdict id, for a unit of a DAG its
      plan and state, and as its rework count the number of rework verdicts it or a
      wave of its was given. The live unit has that count too, unless it was
      dispatched by itself. */
  ghost predicate ReplayAgrees(s: Loop) {
    var snap := Replayed(s.ledger.log);
    && Slots(snap)
    && (s.dag.None? && s.unit.Some? ==>
          var v := SlotOf(snap, s.unit.value.id); v.Some? && Mirrored(v.value, s.unit.value))
    && (s.dag.Some? ==>
          forall d :: d in s.dag.value ==>
            var v := SlotOf(snap, d.id);
            v.Some? && SameStatic(v.value, d) && v.value.state == d.state
            && v.value.rework == ReworkVerdicts(s.reviews, d.id)
            && (!Serial(s.ledger.log, d.id) ==> v.value.rework == d.rework))
  }

  lemma HeadReplays(c: Config, s: Loop)
    requires FreshHead(c, s) && CountOk(s)
    ensures ReplayAgrees(s)
  {
    hide Slots, View, Replayed, Serial, Below, OrderedLog, Honest, Stable, WaveCounted, Shape, ReworkVerdicts;
    if s.dag.Some? {
      forall d | d in s.dag.value ensures Counted(s.ledger.log, s.reviews, d.id) { IdIsListed(s.dag.value, d); }
    }
    ReplayMirrorsLog(s.ledger.log);
    forall id ensures SlotOf(Replayed(s.ledger.log), id) == View(s.ledger.log, id) {
      MirrorsAt(s.ledger.log, id);
    }
    MirrorsAt(s.ledger.log, 0);
  }

  lemma {:induction false} IdIsListed(ds: seq<WorkUnit>, d: WorkUnit)
    requires d in ds
    ensures d.id in Ids(ds)
  {
    var i :| 0 <= i < |ds| && ds[i] == d;
    assert Ids(ds)[i] == d.id;
  }

  lemma {:induction false} MirrorsAt(log: seq<Event>, id: Id)
    ensures Slots(Replayed(log)) && SlotOf(Replayed(log), id) == View(log, id)
  {
    hide Slots, View, Replayed;
    ReplayMirrorsLog(log);
  }

  /** At every head of every fresh run, the envelope tells exactly what the loop holds. */
  lemma {:induction false} ReplayRefinesRun(c: Config, run: Run, first: Id, env: nat -> TurnInput, k: nat)
    requires run.state == Dispatched && HeadAt(c, run, first, env, k).outcome.Running?
    ensures ReplayAgrees(HeadAt(c, run, first, env, k))
  {
    hide HeadAt, FreshHead, ReplayAgrees, CountOk;
    EveryHeadCounts(c, run, first, env, k);
    HeadReplays(c, HeadAt(c, run, first, env, k));
  }

  // ---- the scheduler at a head ----

  /** Progress and order of a DAG: something is ready, the accepted units are closed
      under dependencies, and the batch check cannot refuse the wave. */
  ghost predicate Schedulable(c: Config, ds: seq<WorkUnit>) {
    && NextReady(ds).Some? && !AllAccepted(ds)
    && AcceptedClosed(ds)
    && PairwiseDisjoint(c.matcher, DraftGlobs(WaveDrafts(Wave(c.matcher, ReadyUnits(ds)))))
    && forall u, v :: u in Wave(c.matcher, ReadyUnits(ds)) && v in Wave(c.matcher, ReadyUnits(ds))
                      ==> !DependsOn(ds, u, v.id)
  }

  lemma HeadIsSchedulable(c: Config, s: Loop)
    requires FreshHead(c, s) && s.dag.Some?
    ensures Schedulable(c, s.dag.value)
  {
    hide Wave, ReadyAmong, Overlap, PairwiseDisjoint, DepsFirst, QueuedOrAccepted, AllAccepted;
    var ds := s.dag.value;
    HeadRuns(c, s);
    HeadDag(c, s, ds);
    ShapeParts(ds, s.nextId);
    var wave := Wave(c.matcher, ReadyUnits(ds));
    WavePassesRecheck(c.matcher, ReadyUnits(ds));
    assert GlobSets(wave) == DraftGlobs(WaveDrafts(wave));
    forall u, v | u in wave && v in wave ensures !DependsOn(ds, u, v.id) {
      WaveMembersIndependent(c.matcher, ds, u, v);
    }
  }

  lemma ShapeParts(ds: seq<WorkUnit>, n: Id)
    requires Shape(ds, n)
    ensures DistinctIds(ds) && AcceptedClosed(ds)
  {}

  lemma {:induction false} SchedulableThroughout(c: Config, run: Run, first: Id, env: nat -> TurnInput, k: nat)
    requires run.state == Dispatched
    requires var s := HeadAt(c, run, first, env, k); s.outcome.Running? && s.dag.Some?
    ensures Schedulable(c, HeadAt(c, run, first, env, k).dag.value)
  {
    hide HeadAt, FreshHead, Schedulable;
    EveryHeadIsFresh(c, run, first, env, k);
    HeadIsSchedulable(c, HeadAt(c, run, first, env, k));
  }

  // ---- rework ----

  /** Rework verdicts on one wave set. */
  function SetReworks(reviews: seq<Reviewed>, members: set<Id>): nat {
    if reviews == [] then 0
    else
      var r := reviews[|reviews| - 1];
      SetReworks(reviews[..|reviews| - 1], members) + if r.decision.DRework? && IdSet(r.covers) == members then 1 else 0
  }

  lemma {:induction false} SetReworksBelow(reviews: seq<Reviewed>, members: set<Id>, id: Id)
    requires id in members
    ensures SetReworks(reviews, members) <= WaveReworks(reviews, id)
  {
    if reviews != [] {
      var r := reviews[|reviews| - 1];
      SetReworksBelow(reviews[..|reviews| - 1], members, id);
      assert IdSet(r.covers) == members ==> id in r.covers;
    }
  }

  /** A wave set is reworked at most MAX_REWORK times in a whole run, although every
      attempt has a new master unit. */
  lemma {:induction false} WaveSetReworksBounded(t: Loop, members: set<Id>, d: WorkUnit)
    requires FreshEnd(t) && t.dag.Some? && d in t.dag.value && d.id in members
    ensures SetReworks(t.reviews, members) <= MAX_REWORK
  {
    hide OrderedLog, Honest, WaveReworks;
    SetReworksBelow(t.reviews, members, d.id);
  }

  // ---- guards that are never hit ----

  function LeanDecided(s: Loop, d: Decision, gates: AcceptGates, r: Receipt, wave: seq<Id>): Loop
    requires s.unit.Some?
  {
    match d
    case DAccept =>
      var s1 := AcceptedLoop(s, r, wave);
      if s1.dag.Some? && !AllAccepted(s1.dag.value) then Continue(s1, Dispatched) else End(s1, Accepted, None)
    case DReject => End(s, Rejected, Some(if gates.boundaryOk then ERejected else EBoundary))
    case DEscalate => End(s, Escalate, Some(EEscalated))
    case DRework =>
      var s1 := Continue(ReworkedLoop(s, wave), Rework);
      if s1.outcome.Refused? then s1 else Continue(s1, Dispatched)
  }

  /** The review without the accept guard after enforcement and without the two
      rework escapes. */
  function LeanJudge(c: Config, s: Loop, u: WorkUnit, r: Receipt, wave: seq<Id>, v: ReviewInput): Loop
    requires s.unit.Some?
  {
    if v.plugin.Err? then FailRun(s, v.plugin.error)
    else
      var gates := GatesOf(c, s, u, r, v.plugin.value, v);
      var proposal := Proposal(gates, v);
      if proposal.Err? then FailRun(s, proposal.error)
      else
        var (proposed, usage) := proposal.value;
        var charged := s.(ledger := ChargeAndTick(s.ledger, usage, c.commanderIn, c.commanderOut));
        var (d, note) := Enforced(proposed, gates);
        if note == Some(EBudget) || (d == DAccept && Exhausted(charged.ledger.run)) then FailBudget(charged)
        else LeanDecided(Recorded(charged, u.id, wave, gates, d), d, gates, r, wave)
  }

  /** For any loop state at all, fresh or resumed, those three guards never fire. */
  lemma GuardsAreDead(c: Config, s: Loop, u: WorkUnit, r: Receipt, wave: seq<Id>, v: ReviewInput)
    requires s.unit.Some?
    ensures Judge(c, s, u, r, wave, v) == LeanJudge(c, s, u, r, wave, v)
  {
    hide Exhausted, Enforced, ChargeAndTick, AcceptGates.CanAccept, AskVerdict, AllAccepted, AcceptedLoop,
         ReworkedLoop, VerdictPayload, Continue, End;
    if v.plugin.Ok? {
      var gates := GatesOf(c, s, u, r, v.plugin.value, v);
      var proposal := Proposal(gates, v);
      if proposal.Ok? {
        ReworkLeavesRoom(proposal.value.0, gates);
        AcceptIffGates(proposal.value.0, gates);
      }
    }
  }

  // ---- the budget ----

  /** At every head the spending is the sum of all charges, the ticks in the envelope
      carry its running totals, and no burst of worker calls began exhausted. */
  lemma {:induction false} BooksThroughout(c: Config, run: Run, first: Id, env: nat -> TurnInput, k: nat)
    requires run.state == Dispatched
    ensures var s := HeadAt(c, run, first, env, k);
            Books(s.ledger, run) && (s.outcome.Running? ==> CleanHead(s)) && !s.outcome.Refused?
  {
    hide Turn, FreshHead, CleanHead, Books;
    if k == 0 {
      FreshIsHead(c, run, first);
      HeadIsClean(c, Fresh(run, first));
      EntryBalances(Fresh(run, first));
    } else {
      BooksThroughout(c, run, first, env, k - 1);
      var s := HeadAt(c, run, first, env, k - 1);
      if s.outcome.Running? {
        TurnIsClean(c, s, env(k - 1), run);
        CleanOutcome(Turn(c, s, env(k - 1)));
      }
    }
  }

  lemma CleanOutcome(t: Loop)
    requires CleanAfter(t)
    ensures !t.outcome.Refused? && (t.outcome.Running? ==> CleanHead(t))
  {}

  /** Turns never overshoot the cap by as much as the last worker call, or the last
      batch of them, reported. */
  lemma {:induction false} OvershootThroughout(c: Config, run: Run, first: Id, env: nat -> TurnInput, k: nat)
    requires run.state == Dispatched && HeadAt(c, run, first, env, k).ledger.bursts != []
    ensures var l := HeadAt(c, run, first, env, k).ledger;
            l.run.spentTurns < run.maxTurns + l.bursts[|l.bursts| - 1].turns
  {
    hide HeadAt, Exhausted;
    BooksThroughout(c, run, first, env, k);
    OvershootBounded(HeadAt(c, run, first, env, k).ledger);
  }

  /** Once the budget is gone the commander's verdict is not asked for, even in the
      middle of a turn, and so the review cannot accept. */
  lemma ExhaustedReviewAsksNobody(c: Config, s: Loop, u: WorkUnit, r: Receipt, wave: seq<Id>, v: ReviewInput,
                                  verdicts: seq<Result<(Decision, Usage), ErrorCode>>)
    requires s.unit.Some? && s.outcome.Running? && s.ledger.run.state == OuterReviewing && Exhausted(s.ledger.run)
    ensures Judge(c, s, u, r, wave, v) == Judge(c, s, u, r, wave, v.(verdicts := verdicts))
    ensures Judge(c, s, u, r, wave, v).ledger.run.state != Accepted
  {
    hide Exhausted, Enforced, CostOf, AskVerdict, Decided, VerdictPayload;
    if v.plugin.Ok? {
      var gates := GatesOf(c, s, u, r, v.plugin.value, v);
      AcceptIffGates(MechanicalDecision(v.outerCode, v.boundaryOk, v.changed), gates);
      NoAcceptNoAccept(c, s, u, r, wave, v, gates);
    }
  }

  lemma NoAcceptNoAccept(c: Config, s: Loop, u: WorkUnit, r: Receipt, wave: seq<Id>, v: ReviewInput, gates: AcceptGates)
    requires s.unit.Some? && s.outcome.Running? && s.ledger.run.state == OuterReviewing
    requires v.plugin.Ok? && gates == GatesOf(c, s, u, r, v.plugin.value, v) && !gates.CanAccept()
    ensures Judge(c, s, u, r, wave, v).ledger.run.state != Accepted
  {
    hide Exhausted, AcceptGates.CanAccept, Enforced, CostOf, AskVerdict, VerdictPayload, OnRework, MechanicalDecision;
    var proposed := MechanicalDecision(v.outerCode, v.boundaryOk, v.changed);
    AcceptIffGates(proposed, gates);
    var charged := s.(ledger := ChargeAndTick(s.ledger, v.mechanicalUsage, c.commanderIn, c.commanderOut));
    ReworkNeverAccepts(Recorded(charged, u.id, wave, gates, Enforced(proposed, gates).0), wave);
  }

  lemma ReworkNeverAccepts(s: Loop, wave: seq<Id>)
    requires s.unit.Some? && s.ledger.run.state == OuterReviewing
    ensures OnRework(s, wave).ledger.run.state != Accepted
  {
    hide ReworkMembers;
  }
}
