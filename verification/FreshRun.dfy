/** Invariants of a run started from scratch, at every loop head: the scheduler
    respects the DAG, rework stays bounded, every accepted unit was accepted under
    the gates, and replaying the envelope gives back what the loop holds. */
module FreshRun {
  import opened Types
  import opened Accept
  import opened Budget
  import opened Events
  import opened Scheduler
  import opened Drive
  import opened Replay
  import opened Accounting
  import opened Chronicle
  import opened Passes

  // ---- counting the reworks of a wave ----

  /** How many rework verdicts were given to waves with unit `id` in them. */
  function WaveReworks(reviews: seq<Reviewed>, id: Id): nat {
    if reviews == [] then 0
    else
      var r := reviews[|reviews| - 1];
      WaveReworks(reviews[..|reviews| - 1], id) + if r.decision.DRework? && id in r.covers then 1 else 0
  }

  lemma {:induction false} OneMoreReview(reviews: seq<Reviewed>, r: Reviewed, id: Id)
    ensures WaveReworks(reviews + [r], id) ==
            WaveReworks(reviews, id) + if r.decision.DRework? && id in r.covers then 1 else 0
  {
    assert (reviews + [r])[..|reviews + [r]| - 1] == reviews;
  }

  ghost predicate NoWaves(reviews: seq<Reviewed>) { forall r :: r in reviews ==> r.covers == [] }

  lemma {:induction false} NoWavesNoReworks(reviews: seq<Reviewed>, id: Id)
    requires NoWaves(reviews)
    ensures WaveReworks(reviews, id) == 0
  {
    if reviews != [] {
      assert reviews[|reviews| - 1] in reviews;
      assert forall r :: r in reviews[..|reviews| - 1] ==> r in reviews;
      NoWavesNoReworks(reviews[..|reviews| - 1], id);
    }
  }

  /** The rework count of a DAG unit is the number of rework verdicts of its waves. */
  ghost predicate Recounted(reviews: seq<Reviewed>, ds: seq<WorkUnit>) {
    forall d :: d in ds ==> WaveReworks(reviews, d.id) == d.rework
  }

  // ---- single units ----

  ghost predicate Bare(u: WorkUnit) {
    u.parent.None? && u.localKey.None? && u.globs.None? && u.testCommand.None? && u.dependsOn == []
  }

  /** Replay gives the unit back, but for the verdict id it does not read and, for
      the master of a peer batch, the number and role its dispatch does not log. */
  ghost predicate Mirrored(v: WorkUnit, u: WorkUnit) {
    && Bare(u)
    && v == u.(verdictId := None, seqNo := v.seqNo, role := v.role)
    && (u.role.RGoal? ==> v.seqNo == u.seqNo && v.role == u.role)
  }

  /** A head without a DAG: at most one unit, queued for rework. */
  ghost predicate SingleHead(s: Loop) {
    && s.waveRework == 0 && s.waveKey == {}
    && NoWaves(s.reviews)
    && if s.unit.None? then s.reviews == []
       else
         var u, log := s.unit.value, s.ledger.log;
         && u.state == UQueued && u.seqNo == 1 && |s.reviews| == u.rework
         && Covered(ContextOf(log), u.id) == []
         && View(log, u.id).Some? && Mirrored(View(log, u.id).value, u)
  }

  // ---- DAG units ----

  ghost predicate SameStatic(v: WorkUnit, d: WorkUnit) {
    v == d.(state := v.state, rework := v.rework, commit := v.commit, receiptId := v.receiptId,
            verdictId := v.verdictId)
  }

  /** Replay gives a DAG unit its live state, and its live rework count unless it
      was ever dispatched by itself. */
  ghost predicate Tracked(log: seq<Event>, d: WorkUnit) {
    var v := View(log, d.id);
    && v.Some? && SameStatic(v.value, d) && v.value.state == d.state
    && (!Serial(log, d.id) ==> v.value.rework == d.rework)
    && Covered(ContextOf(log), d.id) == []
  }

  ghost predicate DagUnit(d: WorkUnit, n: Id) {
    && d.id < n && d.role.RGoal? && d.seqNo <= U32_MAX && d.parent.None?
    && d.rework <= MAX_REWORK && d.localKey.Some?
  }

  ghost predicate Shape(ds: seq<WorkUnit>, n: Id) {
    && DistinctIds(ds) && DepsFirst(ds) && AcceptedClosed(ds) && QueuedOrAccepted(ds)
    && forall d :: d in ds ==> DagUnit(d, n)
  }

  ghost predicate SerialTarget(c: Config, ds: seq<WorkUnit>, id: Id) {
    && |Wave(c.matcher, ReadyUnits(ds))| < 2
    && NextReady(ds).Some? && NextReady(ds).value.id == id
  }

  ghost predicate WaveTarget(c: Config, ds: seq<WorkUnit>, id: Id) {
    && |Wave(c.matcher, ReadyUnits(ds))| >= 2
    && id in Ids(Wave(c.matcher, ReadyUnits(ds)))
  }

  /** Whatever was dispatched and is not accepted yet is dispatched again next, in
      the same way; nothing is ever dispatched both ways. */
  ghost predicate Stable(c: Config, log: seq<Event>, ds: seq<WorkUnit>) {
    && (forall d :: d in ds && d.state != UAccepted && Serial(log, d.id) ==> SerialTarget(c, ds, d.id))
    && (forall d :: d in ds && d.state != UAccepted && InWave(log, d.id) ==> WaveTarget(c, ds, d.id))
    && (forall d :: d in ds ==> !(Serial(log, d.id) && InWave(log, d.id)))
  }

  /** The wave counter is the rework count of the wave being retried, and of nothing else. */
  ghost predicate WaveCounted(c: Config, key: set<Id>, count: nat, ds: seq<WorkUnit>) {
    && count <= MAX_REWORK
    && (forall d :: d in ds && d.state != UAccepted ==> d.rework == if d.id in key then count else 0)
    && (forall d :: d in ds && d.state != UAccepted && d.id in key ==>
                      |Wave(c.matcher, ReadyUnits(ds))| >= 2 && key == IdSet(Ids(Wave(c.matcher, ReadyUnits(ds)))))
  }

  ghost predicate CreditedBy(r: Reviewed, id: Id) {
    r.decision.DAccept? && (r.unitId == id || id in r.covers)
  }

  /** Every accepted unit, or the wave it ran in, had an accepting review. */
  ghost predicate Credited(reviews: seq<Reviewed>, ds: seq<WorkUnit>) {
    forall d :: d in ds && d.state == UAccepted ==> exists r :: r in reviews && CreditedBy(r, d.id)
  }

  ghost predicate DagHead(c: Config, s: Loop, ds: seq<WorkUnit>) {
    && Shape(ds, s.nextId) && !AllAccepted(ds)
    && (forall d :: d in ds ==> Tracked(s.ledger.log, d))
    && Stable(c, s.ledger.log, ds)
    && WaveCounted(c, s.waveKey, s.waveRework, ds)
    && Credited(s.reviews, ds) && Recounted(s.reviews, ds)
  }

  /** An accepting review had every gate and money and turns to spare, even after
      its own charge. */
  ghost predicate Honest(reviews: seq<Reviewed>) {
    forall r :: r in reviews && r.decision.DAccept? ==> r.gates.CanAccept() && !Exhausted(r.run)
  }

  ghost predicate FreshHead(c: Config, s: Loop) {
    && s.outcome.Running? && s.ledger.run.state == Dispatched && s.pending.None? && !s.reuse
    && Below(s.ledger.log, s.nextId) && OrderedLog(s.ledger.log)
    && Honest(s.reviews)
    && (s.unit.Some? ==> s.unit.value.id < s.nextId && s.unit.value.rework <= MAX_REWORK)
    && (if s.dag.None? then SingleHead(s) else DagHead(c, s, s.dag.value))
  }

  // ---- building the pass of a turn ----

  function PassOf(s: Loop, asked: Loop, g: Loop, u: WorkUnit, p: Payload, k: Ruling): Pass {
    Pass(s.ledger.log, asked.ledger.log, g.ledger.log, u.id, p, ReceiptPayload(k.receipt, u.id), k.tick, k.decision,
         s.nextId, g.nextId)
  }

  lemma PassFits(s: Loop, asked: Loop, g: Phase, u: WorkUnit, p: Payload, wave: seq<Id>, k: Ruling)
    requires Below(s.ledger.log, s.nextId) && u.id <= s.nextId && asked.nextId == s.nextId
    requires QuietlyExtends(s.ledger.log, asked.ledger.log, s.nextId, s.nextId)
    requires p.workUnitId == Some(u.id) && (p.covers.Some? ==> forall id :: id in p.covers.value ==> id < s.nextId)
    requires Performed(asked, g, u, p, wave) && Ruled(g.s, u, wave, k)
    ensures var x := PassOf(s, asked, g.s, u, p, k);
            x.Ok() && x.Log() == k.recorded.ledger.log && x.start == s.ledger.log && x.u == u.id && x.p == p
            && x.n == s.nextId && x.m == g.s.nextId && x.decision == k.decision
               && x.receipt == ReceiptPayload(k.receipt, u.id)
  {
    hide QuietlyExtends, Below;
  }

  /** A rework ruling leaves the loop dispatching, with the unit queued again. */
  lemma AfterRework(k: Ruling, g: Loop, u: WorkUnit, wave: seq<Id>)
    requires Ruled(g, u, wave, k) && k.decision.DRework? && g.outcome.Running?
    ensures var t := After(k, wave);
            t == ReworkedLoop(k.recorded, wave).(ledger := t.ledger)
            && t.ledger.log == k.recorded.ledger.log && t.ledger.run.state == Dispatched
            && t.unit == Some(UnderReview(u, k.receipt, g.nextId).(rework := u.rework + 1, state := UQueued))
            && u.rework + 1 <= MAX_REWORK && g.waveRework + 1 <= MAX_REWORK
  {
    hide ReworkMembers;
  }

  lemma AfterAccept(k: Ruling, g: Loop, u: WorkUnit, wave: seq<Id>)
    requires Ruled(g, u, wave, k) && k.decision.DAccept? && g.outcome.Running?
    ensures var t := After(k, wave);
            t == AcceptedLoop(k.recorded, k.receipt, wave).(ledger := t.ledger)
            && t.ledger.log == k.recorded.ledger.log && t.ledger.run.state == Dispatched
            && t.unit == Some(UnderReview(u, k.receipt, g.nextId).(state := UAccepted))
  {
    hide AcceptMembers;
  }

  lemma HonestGrows(reviews: seq<Reviewed>, r: Reviewed)
    requires Honest(reviews) && (r.decision.DAccept? ==> r.gates.CanAccept() && !Exhausted(r.run))
    ensures Honest(reviews + [r])
  {}

  // ---- a turn without a DAG ----

  /** The view of a single unit after its pass. */
  lemma SinglePassMirrors(x: Pass, u: WorkUnit, r: Receipt, before: WorkUnit, verdict: Id)
    requires x.Ok() && x.u == u.id && x.CoveredUnits() == [] && x.decision.DRework?
             && x.receipt == ReceiptPayload(r, u.id)
    requires Bare(u) && u.seqNo == 1 && u.rework == before.rework && before.id == u.id
    requires Or(View(x.start, u.id), BlankUnit(u.id)) == before
    requires Bare(before) && before.verdictId.None?
    requires x.p == UnitPayload(u) || (x.p == MasterPayload(u, []) && u.role.RMaster?)
    ensures View(x.Log(), u.id).Some?
    ensures Mirrored(View(x.Log(), u.id).value, UnderReview(u, r, verdict).(rework := u.rework + 1, state := UQueued))
  {
    hide View, Pass.Ok, Pass.Log, Pass.CoveredUnits;
    UnitsInRange(x);
    PassViews(x, u.id);
    var v1 := Received(ApplyUnitFields(before, x.p).(state := UImplementing), x.receipt);
    assert v1.id == u.id;
    assert [x.u] + [] == [u.id];
    JudgedOnce(v1, [u.id], Some(DRework));
  }

  lemma UnitsInRange(x: Pass)
    requires x.Ok()
    ensures x.u <= x.n
  {}

  /** The unit a dispatch without a DAG works on, and what the log says of it before. */
  lemma SingleBefore(c: Config, s: Loop, u: WorkUnit)
    requires FreshHead(c, s) && s.dag.None?
    requires if s.unit.Some?
             then u == s.unit.value.(title := u.title, instruction := u.instruction, role := RGoal,
                                     state := UImplementing)
             else u.id == s.nextId && Bare(u) && u.rework == 0
    ensures var before := Or(View(s.ledger.log, u.id), BlankUnit(u.id));
            Bare(before) && before.verdictId.None? && before.rework == u.rework && before.id == u.id
    ensures Bare(u) && u.id <= s.nextId && Covered(ContextOf(s.ledger.log), u.id) == []
    ensures |s.reviews| == u.rework
  {
    if s.unit.None? { NothingAbove(s.ledger.log, s.nextId, u.id); }
  }

  lemma SingleOrdered(s: Loop, u: WorkUnit, p: Payload)
    requires p.workUnitId == Some(u.id) && (p.covers.Some? ==> p.covers.value == [])
    requires Or(View(s.ledger.log, u.id), BlankUnit(u.id)).dependsOn == []
    ensures DepsShown(s.ledger.log, p)
  {
    hide View;
  }

  /** Charging the commander for a plan, before anything is dispatched. */
  lemma AskedQuietly(c: Config, s: Loop, usage: Usage)
    ensures var b := ChargeAndTick(s.ledger, usage, c.commanderIn, c.commanderOut);
            QuietlyExtends(s.ledger.log, b.log, s.nextId, s.nextId) && b.run.state == s.ledger.run.state
  {
    hide CostOf;
  }

  lemma SingleTurn(c: Config, s: Loop, asked: Loop, g: Phase, u: WorkUnit, p: Payload, k: Ruling)
    requires FreshHead(c, s) && s.dag.None? && asked == s.(ledger := asked.ledger)
    requires QuietlyExtends(s.ledger.log, asked.ledger.log, s.nextId, s.nextId)
    requires Performed(asked, g, u, p, []) && Ruled(g.s, u, [], k) && After(k, []).outcome.Running?
    requires k.decision.DRework?
    requires if s.unit.Some?
             then u == s.unit.value.(title := u.title, instruction := u.instruction, role := RGoal,
                                     state := UImplementing)
             else u.id == s.nextId && Bare(u) && u.rework == 0
    requires u.seqNo == 1 && (p == UnitPayload(u) || (p == MasterPayload(u, []) && u.role.RMaster?))
    ensures FreshHead(c, After(k, []))
  {
    hide QuietlyExtends, Below, OrderedLog, View, ContextOf, Performed, Ruled, After, Bare, Exhausted, DepsShown,
         Pass.Ok, Pass.Log, Mirrored, NoWaves;
    var x := PassOf(s, asked, g.s, u, p, k);
    SingleBefore(c, s, u);
    SinglePayload(u, p);
    PassFits(s, asked, g, u, p, [], k);
    WorkedShape(asked, g, u, p, []);
    RuledShape(g.s, u, [], k);
    AfterRework(k, g.s, u, []);
    SinglePassMirrors(x, u, k.receipt, Or(View(x.start, u.id), BlankUnit(u.id)), g.s.nextId);
    SingleCovers(x, u);
    BareDeps(Or(View(s.ledger.log, u.id), BlankUnit(u.id)));
    SingleOrdered(s, u, p);
    PassOrdered(x);
    PassDispatches(x, g.s.nextId + 1);
    HonestGrows(s.reviews, Reviewed(u.id, [], k.gates, k.decision, k.recorded.ledger.run));
    NoWavesGrows(s.reviews, Reviewed(u.id, [], k.gates, k.decision, k.recorded.ledger.run));
  }

  lemma NoWavesGrows(reviews: seq<Reviewed>, r: Reviewed)
    requires NoWaves(reviews) && r.covers == []
    ensures NoWaves(reviews + [r])
  {}

  lemma BareDeps(u: WorkUnit)
    requires Bare(u)
    ensures u.dependsOn == []
  {}

  lemma SinglePayload(u: WorkUnit, p: Payload)
    requires p == UnitPayload(u) || p == MasterPayload(u, [])
    ensures p.workUnitId == Some(u.id) && (p.covers.Some? ==> p.covers.value == [])
  {}

  lemma SingleCovers(x: Pass, u: WorkUnit)
    requires x.Ok() && x.u == u.id && (x.p.covers.Some? ==> x.p.covers.value == [])
    requires Covered(ContextOf(x.start), u.id) == []
    ensures x.CoveredUnits() == [] && Covered(ContextOf(x.Log()), u.id) == []
  {
    hide Pass.Ok, Pass.Log, ContextOf;
    PassCovers(x);
  }

  lemma WorkedShape(s: Loop, g: Phase, u: WorkUnit, p: Payload, wave: seq<Id>)
    requires Performed(s, g, u, p, wave)
    ensures g.Got? && g.s == s.(ledger := g.s.ledger, nextId := g.s.nextId) && g.s.nextId > s.nextId
  {}

  lemma RuledShape(s: Loop, u: WorkUnit, wave: seq<Id>, k: Ruling)
    requires Ruled(s, u, wave, k)
    ensures k.recorded == s.(ledger := k.recorded.ledger, nextId := s.nextId + 1,
                             unit := Some(UnderReview(u, k.receipt, s.nextId)),
                             reviews := s.reviews + [Reviewed(u.id, wave, k.gates, k.decision, k.recorded.ledger.run)])
    ensures k.decision.DAccept? ==> k.gates.CanAccept() && !Exhausted(k.recorded.ledger.run)
    ensures k.decision.DAccept? || k.decision.DRework?
    ensures k.decision.DRework? ==> u.rework < MAX_REWORK && s.waveRework < MAX_REWORK
  {}
}
