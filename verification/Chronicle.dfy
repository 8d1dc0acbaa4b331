/** What one pass through the loop writes into the envelope, and what replay
    reads out of it: a dispatch, the quiet work in between, a receipt, a charge
    and a verdict. */
module Chronicle {
  import opened Types
  import opened Budget
  import opened Events
  import opened Replay
  import opened Accounting

  /** Every unit named in the log has an id below n. */
  predicate EventBelow(e: Event, n: Id) {
    match e
    case Tick(_) => true
    case _ => e.p.workUnitId.Some? && e.p.workUnitId.value < n
              && (e.p.covers.Some? ==> forall id :: id in e.p.covers.value ==> id < n)
  }

  predicate Below(log: seq<Event>, n: Id) { forall e :: e in log ==> EventBelow(e, n) }

  /** The unit was dispatched by itself. */
  predicate Serial(log: seq<Event>, id: Id) {
    exists e :: e in log && e.UnitDispatched? && e.p.workUnitId == Some(id)
  }

  /** The unit was dispatched as a member of a wave. */
  predicate InWave(log: seq<Event>, id: Id) {
    exists e :: e in log && e.UnitDispatched? && e.p.covers.Some? && id in e.p.covers.value
  }

  /** Replay of the log shows the unit as accepted. */
  predicate ShownAccepted(log: seq<Event>, id: Id) {
    var v := View(log, id);
    v.Some? && v.value.state == UAccepted
  }

  predicate IsTarget(p: Payload, id: Id) {
    p.workUnitId == Some(id) || (p.covers.Some? && id in p.covers.value)
  }

  /** All dependencies of everything this dispatch starts are shown as accepted. */
  ghost predicate DepsShown(log: seq<Event>, p: Payload) {
    forall id, dep :: IsTarget(p, id) && View(log, id).Some? && dep in View(log, id).value.dependsOn ==>
                        ShownAccepted(log, dep)
  }

  /** No unit is ever dispatched before all its dependencies are accepted, as told
      by the log alone. */
  ghost predicate OrderedLog(log: seq<Event>) {
    forall i :: 0 <= i < |log| && log[i].UnitDispatched? ==> DepsShown(log[..i], log[i].p)
  }

  // ---- quiet stretches ----

  lemma {:induction false} NothingAbove(log: seq<Event>, n: Id, id: Id)
    requires Below(log, n) && id >= n
    ensures View(log, id).None? && id !in ContextOf(log).covers && !Serial(log, id) && !InWave(log, id)
  {
    if log != [] {
      var before, e := log[..|log| - 1], log[|log| - 1];
      assert forall x :: x in before ==> x in log;
      assert e in log;
      NothingAbove(before, n, id);
    }
  }

  lemma {:induction false} QuietStep(log: seq<Event>, e: Event, from: Id, to: Id, id: Id)
    requires Quiet(e, from, to) && (id < from || id >= to)
    ensures View(log + [e], id) == View(log, id)
    ensures ContextOf(log + [e]).covers == ContextOf(log).covers
  {
    ViewSnoc(log, e, id);
  }

  lemma {:induction false} QuietViews(a: seq<Event>, b: seq<Event>, from: Id, to: Id, id: Id)
    requires QuietlyExtends(a, b, from, to) && (id < from || id >= to)
    ensures View(b, id) == View(a, id) && ContextOf(b).covers == ContextOf(a).covers
    decreases |b|
  {
    if |b| > |a| {
      var before, e := b[..|b| - 1], b[|b| - 1];
      QuietViews(a, before, from, to, id);
      QuietStep(before, e, from, to, id);
      assert before + [e] == b;
    } else {
      assert a == b;
    }
  }

  lemma QuietDispatches(a: seq<Event>, b: seq<Event>, from: Id, to: Id)
    requires QuietlyExtends(a, b, from, to)
    ensures forall e :: e in b && e.UnitDispatched? ==> e in a
    ensures forall id :: Serial(b, id) == Serial(a, id) && InWave(b, id) == InWave(a, id)
    ensures forall n :: n >= to && Below(a, n) ==> Below(b, n)
    ensures OrderedLog(a) ==> OrderedLog(b)
  {
    forall i | |a| <= i < |b| ensures !b[i].UnitDispatched? { assert Quiet(b[i], from, to); }
    forall e | e in b && e.UnitDispatched? ensures e in a {
      var i :| 0 <= i < |b| && b[i] == e;
      assert a[i] == e;
    }
    assert forall e :: e in a ==> e in b by {
      forall e | e in a ensures e in b { var i :| 0 <= i < |a| && a[i] == e; assert b[i] == e; }
    }
    forall id ensures Serial(b, id) == Serial(a, id) && InWave(b, id) == InWave(a, id) {}
    forall n | n >= to && Below(a, n) ensures Below(b, n) {
      forall e | e in b ensures EventBelow(e, n) {
        var i :| 0 <= i < |b| && b[i] == e;
        if i < |a| { assert a[i] == e && e in a; } else { QuietBelow(e, from, to, n); }
      }
    }
    if OrderedLog(a) {
      forall i | 0 <= i < |b| && b[i].UnitDispatched? ensures DepsShown(b[..i], b[i].p) {
        assert i < |a| && a[i] == b[i] && a[..i] == b[..i];
      }
    }
  }

  lemma QuietKeeps(a: seq<Event>, b: seq<Event>, from: Id, to: Id)
    requires QuietlyExtends(a, b, from, to) && Below(a, to) && OrderedLog(a)
    ensures Below(b, to) && OrderedLog(b)
  {
    hide QuietlyExtends, Below, OrderedLog, Serial, InWave;
    QuietDispatches(a, b, from, to);
  }

  lemma QuietBelow(e: Event, from: Id, to: Id, n: Id)
    requires Quiet(e, from, to) && n >= to
    ensures EventBelow(e, n)
  {}

  // ---- one pass ----

  /** A dispatch of `u` by payload p, quiet work on fresh ids, its receipt, a tick
      and its verdict, appended to log `start`. */
  datatype Pass = Pass(
    start: seq<Event>,
    asked: seq<Event>,
    worked: seq<Event>,
    u: Id,
    p: Payload,
    receipt: Payload,
    tick: BudgetTick,
    decision: Decision,
    n: Id,
    m: Id)
  {
    /** The log when the pass is over. */
    function Log(): seq<Event> {
      worked + [ReceiptSubmitted(receipt), Tick(tick), Verdict(VerdictPayload(u, decision))]
    }

    /** `n` is the first id unused before the pass, `m` the first unused after. */
    ghost predicate Ok() {
      && Below(start, n) && n < m && u <= n
      && QuietlyExtends(start, asked, n, n)
      && p.workUnitId == Some(u) && (p.covers.Some? ==> forall id :: id in p.covers.value ==> id < n)
      && QuietlyExtends(asked + [UnitDispatched(p)], worked, n + 1, m)
      && receipt.workUnitId == Some(u) && receipt.covers.None?
    }

    /** The units the verdict also applies to. */
    function CoveredUnits(): seq<Id> {
      if p.covers.Some? then p.covers.value else Covered(ContextOf(start), u)
    }
  }

  /** What the pass makes of a unit's view. */
  function PassView(x: Pass, id: Id): Option<WorkUnit> {
    var v0 := View(x.start, id);
    var v2 := if id == x.u
              then Some(Received(ApplyUnitFields(Or(v0, BlankUnit(id)), x.p).(state := UImplementing), x.receipt))
              else v0;
    if v2.None? then None else Some(JudgedTimes(v2.value, [x.u] + x.CoveredUnits(), Some(x.decision)))
  }

  lemma {:induction false} DispatchView(x: Pass, id: Id)
    requires x.Ok() && id <= x.n
    ensures View(x.worked, id) ==
            if id == x.u then Some(ApplyUnitFields(Or(View(x.start, id), BlankUnit(id)), x.p).(state := UImplementing))
            else View(x.start, id)
    ensures Covered(ContextOf(x.worked), x.u) == x.CoveredUnits()
  {
    hide Quiet, ApplyUnitFields;
    var e := UnitDispatched(x.p);
    QuietViews(x.start, x.asked, x.n, x.n, id);
    ViewSnoc(x.asked, e, id);
    QuietViews(x.asked + [e], x.worked, x.n + 1, x.m, id);
  }

  /** Only the dispatch of a batch changes what is covered. */
  lemma PassCovers(x: Pass)
    requires x.Ok()
    ensures ContextOf(x.Log()).covers ==
            if x.p.covers.Some? then ContextOf(x.start).covers[x.u := x.p.covers.value] else ContextOf(x.start).covers
  {
    hide Quiet, View;
    var e := UnitDispatched(x.p);
    QuietViews(x.start, x.asked, x.n, x.n, 0);
    ViewSnoc(x.asked, e, 0);
    QuietViews(x.asked + [e], x.worked, x.n + 1, x.m, 0);
    ThreeMore(x);
    var r, t, v := ReceiptSubmitted(x.receipt), Tick(x.tick), Verdict(VerdictPayload(x.u, x.decision));
    ViewSnoc(x.worked, r, 0);
    ViewSnoc(x.worked + [r], t, 0);
    ViewSnoc((x.worked + [r]) + [t], v, 0);
  }

  lemma ThreeMore(x: Pass)
    ensures var r, t, v := ReceiptSubmitted(x.receipt), Tick(x.tick), Verdict(VerdictPayload(x.u, x.decision));
            x.Log() == ((x.worked + [r]) + [t]) + [v]
  {}

  /** Replay after the pass, for every unit known by then. */
  lemma {:induction false} PassViews(x: Pass, id: Id)
    requires x.Ok() && id <= x.n
    ensures View(x.Log(), id) == PassView(x, id)
  {
    hide Quiet, ApplyUnitFields, JudgedTimes, Received, Pass.Ok, Pass.CoveredUnits, View;
    DispatchView(x, id);
    ThreeMore(x);
    var r, t, v := ReceiptSubmitted(x.receipt), Tick(x.tick), Verdict(VerdictPayload(x.u, x.decision));
    ReceiptNamesUnit(x);
    ViewSnoc(x.worked, r, id);
    ViewSnoc(x.worked + [r], t, id);
    ViewSnoc((x.worked + [r]) + [t], v, id);
  }

  lemma ReceiptNamesUnit(x: Pass)
    requires x.Ok()
    ensures x.receipt.workUnitId == Some(x.u)
  {}

  lemma OneMore(log: seq<Event>, e: Event, id: Id)
    ensures Serial(log + [e], id) <==> Serial(log, id) || (e.UnitDispatched? && e.p.workUnitId == Some(id))
    ensures InWave(log + [e], id) <==>
            InWave(log, id) || (e.UnitDispatched? && e.p.covers.Some? && id in e.p.covers.value)
    ensures Below(log + [e], id) <==> Below(log, id) && EventBelow(e, id)
  {
    var b := log + [e];
    assert e in b;
    assert forall y :: y in b <==> y in log || y == e;
  }

  /** Dispatches and id bounds after the pass. */
  lemma PassDispatches(x: Pass, id: Id)
    requires x.Ok()
    ensures Serial(x.Log(), id) <==> Serial(x.start, id) || id == x.u
    ensures InWave(x.Log(), id) <==> InWave(x.start, id) || (x.p.covers.Some? && id in x.p.covers.value)
    ensures id >= x.m ==> Below(x.Log(), id)
  {
    hide Quiet, QuietlyExtends, Serial, InWave, Below, OrderedLog;
    var e := UnitDispatched(x.p);
    PassQuiet(x);
    QuietDispatches(x.start, x.asked, x.n, x.n);
    OneMore(x.asked, e, id);
    QuietDispatches(x.asked + [e], x.worked, x.n + 1, x.m);
    ThreeMore(x);
    var r, t, v := ReceiptSubmitted(x.receipt), Tick(x.tick), Verdict(VerdictPayload(x.u, x.decision));
    OneMore(x.worked, r, id);
    OneMore(x.worked + [r], t, id);
    OneMore((x.worked + [r]) + [t], v, id);
    if id >= x.m { BelowGrows(x.start, x.n, id); }
  }

  lemma PassQuiet(x: Pass)
    requires x.Ok()
    ensures QuietlyExtends(x.start, x.asked, x.n, x.n)
    ensures QuietlyExtends(x.asked + [UnitDispatched(x.p)], x.worked, x.n + 1, x.m)
  {}

  lemma BelowGrows(log: seq<Event>, n: Id, m: Id)
    requires Below(log, n) && n <= m
    ensures Below(log, m)
  {
    forall e | e in log ensures EventBelow(e, m) {}
  }

  lemma DispatchOrdered(log: seq<Event>, p: Payload)
    requires OrderedLog(log) && DepsShown(log, p)
    ensures OrderedLog(log + [UnitDispatched(p)])
  {
    var b := log + [UnitDispatched(p)];
    forall i | 0 <= i < |b| && b[i].UnitDispatched? ensures DepsShown(b[..i], b[i].p) {
      if i < |log| { assert b[..i] == log[..i] && b[i] == log[i]; } else { assert b[..i] == log; }
    }
  }

  lemma OtherOrdered(log: seq<Event>, e: Event)
    requires OrderedLog(log) && !e.UnitDispatched?
    ensures OrderedLog(log + [e])
  {
    var b := log + [e];
    forall i | 0 <= i < |b| && b[i].UnitDispatched? ensures DepsShown(b[..i], b[i].p) {
      assert b[..i] == log[..i] && b[i] == log[i];
    }
  }

  lemma {:induction false} SameDepsShown(a: seq<Event>, b: seq<Event>, p: Payload)
    requires DepsShown(a, p) && forall id :: View(a, id) == View(b, id)
    ensures DepsShown(b, p)
  {
    hide View;
    forall id, dep | IsTarget(p, id) && View(b, id).Some? && dep in View(b, id).value.dependsOn
      ensures ShownAccepted(b, dep)
    {
      assert View(a, id) == View(b, id) && View(a, dep) == View(b, dep);
      assert ShownAccepted(a, dep);
    }
  }

  /** The pass keeps the dependency order if its own dispatch respects it. */
  lemma PassOrdered(x: Pass)
    requires x.Ok() && OrderedLog(x.start) && DepsShown(x.start, x.p)
    ensures OrderedLog(x.Log())
  {
    hide Quiet, QuietlyExtends, OrderedLog;
    PassQuiet(x);
    forall id ensures View(x.asked, id) == View(x.start, id) {
      QuietViews(x.start, x.asked, x.n, x.n, id);
    }
    SameDepsShown(x.start, x.asked, x.p);
    QuietDispatches(x.start, x.asked, x.n, x.n);
    DispatchOrdered(x.asked, x.p);
    QuietDispatches(x.asked + [UnitDispatched(x.p)], x.worked, x.n + 1, x.m);
    ThreeMore(x);
    var r, t, v := ReceiptSubmitted(x.receipt), Tick(x.tick), Verdict(VerdictPayload(x.u, x.decision));
    OtherOrdered(x.worked, r);
    OtherOrdered(x.worked + [r], t);
    OtherOrdered((x.worked + [r]) + [t], v);
  }

  // ---- applying a verdict to a list of units ----

  lemma {:induction false} JudgedNone(u: WorkUnit, ids: seq<Id>, d: Option<Decision>)
    requires u.id !in ids
    ensures JudgedTimes(u, ids, d) == u
    decreases |ids|
  {
    if ids != [] { JudgedNone(u, ids[1..], d); }
  }

  ghost predicate Distinct(ids: seq<Id>) { forall i, j :: 0 <= i < j < |ids| ==> ids[i] != ids[j] }

  lemma {:induction false} JudgedOnce(u: WorkUnit, ids: seq<Id>, d: Option<Decision>)
    requires u.id in ids && Distinct(ids)
    ensures JudgedTimes(u, ids, d) == Judged(u, d)
    decreases |ids|
  {
    if ids[0] == u.id {
      JudgedNone(Judged(u, d), ids[1..], d);
    } else {
      JudgedOnce(u, ids[1..], d);
    }
  }

  // ---- a reject ----

  lemma {:induction false} RejectedStays(u: WorkUnit, ids: seq<Id>)
    ensures JudgedTimes(u, ids, Some(DReject)) == if u.id in ids then u.(state := URejected) else u
    decreases |ids|
  {
    if ids != [] { RejectedStays(if ids[0] == u.id then Judged(u, Some(DReject)) else u, ids[1..]); }
  }

  /** Once a reject is logged, the unit it names and every unit that one covers replay as
      rejected, whatever they were before, and all other units as before. */
  lemma {:induction false} RejectReplays(log: seq<Event>, u: Id, id: Id)
    ensures var v, w := View(log, id), View(log + [Verdict(VerdictPayload(u, DReject))], id);
            if v.None? then w.None?
            else if id == u || id in Covered(ContextOf(log), u) then w == Some(v.value.(state := URejected))
            else w == v
  {
    hide View, ContextOf;
    ViewSnoc(log, Verdict(VerdictPayload(u, DReject)), id);
    if View(log, id).Some? {
      ViewHasItsId(log, id);
      RejectedStays(View(log, id).value, [u] + Covered(ContextOf(log), u));
    }
  }
}
