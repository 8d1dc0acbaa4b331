/** Which units of a DAG may run next, and which may run together
    (dag_ready, dag_wave and next_ready_dag in crates/wanax-cli/src/engine.rs). */
module Scheduler {
  import opened Types
  import opened GlobOverlap

  predicate HasAccepted(units: seq<WorkUnit>, id: Id) {
    exists u :: u in units && u.id == id && u.state == UAccepted
  }

  predicate Open(u: WorkUnit) {
    u.state != UAccepted && u.state != URejected && u.state != UBlocked
  }

  predicate Ready(u: WorkUnit, all: seq<WorkUnit>) {
    Open(u) && forall d :: d in u.dependsOn ==> HasAccepted(all, d)
  }

  /** The ready units among `rest`, in order. */
  function ReadyAmong(rest: seq<WorkUnit>, all: seq<WorkUnit>): (r: seq<WorkUnit>)
    ensures forall u :: u in r <==> u in rest && Ready(u, all)
  {
    if rest == [] then []
    else (if Ready(rest[0], all) then [rest[0]] else []) + ReadyAmong(rest[1..], all)
  }

  function ReadyUnits(all: seq<WorkUnit>): seq<WorkUnit> { ReadyAmong(all, all) }

  /** The first ready unit. */
  function NextReady(all: seq<WorkUnit>): (r: Option<WorkUnit>)
    ensures r.None? <==> forall u :: u in all ==> !Ready(u, all)
    ensures r.Some? ==> r.value in all && Ready(r.value, all)
  {
    var ready := ReadyUnits(all);
    if ready == [] then None else assert ready[0] in ready; Some(ready[0])
  }

  ghost predicate FitsWave(m: Matcher, wave: seq<WorkUnit>, u: WorkUnit) {
    && u.globs.Some?
    && forall w :: w in wave ==> !Overlap(m, u.globs.value, GlobsOf(w))
  }

  function GlobsOf(u: WorkUnit): seq<string> { if u.globs.Some? then u.globs.value else [] }

  /** Greedy extension of `wave` by the members of `rest` that fit. */
  ghost function WaveFrom(m: Matcher, wave: seq<WorkUnit>, rest: seq<WorkUnit>): seq<WorkUnit>
    decreases |rest|
  {
    if rest == [] then wave
    else WaveFrom(m, if FitsWave(m, wave, rest[0]) then wave + [rest[0]] else wave, rest[1..])
  }

  ghost function Wave(m: Matcher, ready: seq<WorkUnit>): seq<WorkUnit> { WaveFrom(m, [], ready) }

  method DagWave(m: Matcher, ready: seq<WorkUnit>) returns (wave: seq<WorkUnit>)
    ensures wave == Wave(m, ready)
  {
    wave := [];
    for i := 0 to |ready|
      invariant WaveFrom(m, wave, ready[i..]) == Wave(m, ready)
    {
      var u := ready[i];
      assert ready[i..][0] == u && ready[i..][1..] == ready[i + 1..];
      if u.globs.Some? {
        var disjoint := true;
        for k := 0 to |wave|
          invariant disjoint <==> forall w :: w in wave[..k] ==> !Overlap(m, u.globs.value, GlobsOf(w))
        {
          assert forall w :: w in wave[..k + 1] <==> w in wave[..k] || w == wave[k];
          var o := PeerGlobSetsOverlap(m, u.globs.value, GlobsOf(wave[k]));
          if o { disjoint := false; }
        }
        assert wave[..|wave|] == wave;
        if disjoint { wave := wave + [u]; }
      }
    }
  }

  // ---- what a wave is ----

  ghost predicate DisjointGlobs(m: Matcher, wave: seq<WorkUnit>) {
    && (forall w :: w in wave ==> w.globs.Some?)
    && (forall i, j :: 0 <= i < j < |wave| ==> !Overlap(m, GlobsOf(wave[j]), GlobsOf(wave[i])))
  }

  lemma {:induction false} WaveFromIsDisjoint(m: Matcher, wave: seq<WorkUnit>, rest: seq<WorkUnit>)
    requires DisjointGlobs(m, wave)
    ensures DisjointGlobs(m, WaveFrom(m, wave, rest))
    ensures wave <= WaveFrom(m, wave, rest)
    ensures forall u :: u in WaveFrom(m, wave, rest) ==> u in wave || u in rest
    decreases |rest|
  {
    if rest != [] {
      var next := if FitsWave(m, wave, rest[0]) then wave + [rest[0]] else wave;
      WaveFromIsDisjoint(m, next, rest[1..]);
    }
  }

  /** Everything passed over conflicts with a member. */
  lemma {:induction false} WaveFromIsMaximal(m: Matcher, wave: seq<WorkUnit>, rest: seq<WorkUnit>, u: WorkUnit)
    requires DisjointGlobs(m, wave) && u in rest && u.globs.Some?
    ensures var w := WaveFrom(m, wave, rest);
            u in w || exists x :: x in w && Overlap(m, u.globs.value, GlobsOf(x))
    decreases |rest|
  {
    var next := if FitsWave(m, wave, rest[0]) then wave + [rest[0]] else wave;
    WaveFromIsDisjoint(m, next, rest[1..]);
    if u == rest[0] {
      if !FitsWave(m, wave, u) {
        var x :| x in wave && Overlap(m, u.globs.value, GlobsOf(x));
        assert x in WaveFrom(m, wave, rest);
      } else {
        assert u in next;
      }
    } else {
      WaveFromIsMaximal(m, next, rest[1..], u);
    }
  }

  /** The wave consists of ready units with pairwise disjoint declared globs,
      and no further ready unit could join it. */
  lemma WaveIsMaximalAndDisjoint(m: Matcher, ready: seq<WorkUnit>)
    ensures DisjointGlobs(m, Wave(m, ready))
    ensures forall u :: u in Wave(m, ready) ==> u in ready
    ensures forall u :: u in ready && u.globs.Some? && u !in Wave(m, ready) ==>
                          exists x :: x in Wave(m, ready) && Overlap(m, u.globs.value, GlobsOf(x))
  {
    WaveFromIsDisjoint(m, [], ready);
    forall u | u in ready && u.globs.Some? && u !in Wave(m, ready)
      ensures exists x :: x in Wave(m, ready) && Overlap(m, u.globs.value, GlobsOf(x))
    {
      WaveFromIsMaximal(m, [], ready, u);
    }
  }

  /** Positions in increasing order. */
  predicate Rising(at: seq<nat>, n: nat) {
    (forall k :: 0 <= k < |at| ==> at[k] < n) && forall j, k :: 0 <= j < k < |at| ==> at[j] < at[k]
  }

  /** These positions of the first n are picked first come, first served: a unit is passed
      over only without globs or for one picked before it. */
  ghost predicate PickedInTurn(m: Matcher, ready: seq<WorkUnit>, n: nat, at: seq<nat>) {
    && n <= |ready| && Rising(at, n)
    && forall i :: 0 <= i < n ==>
         (i in at <==> ready[i].globs.Some? && forall j :: j in at && j < i ==>
                                                             !Overlap(m, ready[i].globs.value, GlobsOf(ready[j])))
  }

  function Members(ready: seq<WorkUnit>, at: seq<nat>): (w: seq<WorkUnit>)
    requires forall k :: 0 <= k < |at| ==> at[k] < |ready|
    ensures |w| == |at| && forall k :: 0 <= k < |w| ==> w[k] == ready[at[k]]
  {
    if at == [] then [] else [ready[at[0]]] + Members(ready, at[1..])
  }

  lemma {:induction false} FitsPicked(m: Matcher, ready: seq<WorkUnit>, n: nat, at: seq<nat>)
    requires n < |ready| && Rising(at, n)
    ensures FitsWave(m, Members(ready, at), ready[n]) <==>
            ready[n].globs.Some?
            && forall j :: j in at && j < n ==> !Overlap(m, ready[n].globs.value, GlobsOf(ready[j]))
  {
    hide Overlap;
    var wave := Members(ready, at);
    forall j | j in at ensures ready[j] in wave {
      var k :| 0 <= k < |at| && at[k] == j;
      assert wave[k] == ready[j];
    }
    forall w | w in wave ensures exists j :: j in at && ready[j] == w {
      var k :| 0 <= k < |wave| && wave[k] == w;
      assert at[k] in at;
    }
  }

  lemma {:induction false} MembersSnoc(ready: seq<WorkUnit>, at: seq<nat>, n: nat)
    requires n < |ready| && forall k :: 0 <= k < |at| ==> at[k] < |ready|
    ensures Members(ready, at + [n]) == Members(ready, at) + [ready[n]]
  {}

  lemma {:induction false} NextPicked(m: Matcher, ready: seq<WorkUnit>, n: nat, at: seq<nat>)
    requires PickedInTurn(m, ready, n, at) && n < |ready| && FitsWave(m, Members(ready, at), ready[n])
    ensures PickedInTurn(m, ready, n + 1, at + [n])
  {
    hide Overlap, FitsWave, Members;
    FitsPicked(m, ready, n, at);
  }

  lemma {:induction false} PassedOver(m: Matcher, ready: seq<WorkUnit>, n: nat, at: seq<nat>)
    requires PickedInTurn(m, ready, n, at) && n < |ready| && !FitsWave(m, Members(ready, at), ready[n])
    ensures PickedInTurn(m, ready, n + 1, at)
  {
    hide Overlap, FitsWave, Members;
    FitsPicked(m, ready, n, at);
    assert n !in at;
  }

  lemma PicksAreMembers(m: Matcher, ready: seq<WorkUnit>, n: nat, at: seq<nat>)
    requires PickedInTurn(m, ready, n, at)
    ensures n <= |ready| && forall k :: 0 <= k < |at| ==> at[k] < |ready|
  {}

  lemma {:induction false} PicksFrom(m: Matcher, ready: seq<WorkUnit>, n: nat, at: seq<nat>) returns (all: seq<nat>)
    requires PickedInTurn(m, ready, n, at)
    ensures PickedInTurn(m, ready, |ready|, all) && Members(ready, all) == WaveFrom(m, Members(ready, at), ready[n..])
    decreases |ready| - n
  {
    hide Overlap, FitsWave, Members, PickedInTurn;
    PicksAreMembers(m, ready, n, at);
    if n == |ready| {
      all := at;
    } else {
      assert ready[n..][0] == ready[n] && ready[n..][1..] == ready[n + 1..];
      if FitsWave(m, Members(ready, at), ready[n]) {
        MembersSnoc(ready, at, n);
        NextPicked(m, ready, n, at);
        all := PicksFrom(m, ready, n + 1, at + [n]);
      } else {
        PassedOver(m, ready, n, at);
        all := PicksFrom(m, ready, n + 1, at);
      }
    }
  }

  /** The wave is picked first come, first served, in the order of the units. */
  lemma {:induction false} WaveInTurn(m: Matcher, ready: seq<WorkUnit>) returns (at: seq<nat>)
    ensures PickedInTurn(m, ready, |ready|, at) && Wave(m, ready) == Members(ready, at)
  {
    hide Overlap;
    assert ready[0..] == ready && Members(ready, []) == [];
    at := PicksFrom(m, ready, 0, []);
  }

  lemma {:induction false} ReadyInOrder(rest: seq<WorkUnit>, all: seq<WorkUnit>, i: nat)
    requires i < |rest| && Ready(rest[i], all) && forall j :: 0 <= j < i ==> !Ready(rest[j], all)
    ensures ReadyAmong(rest, all) != [] && ReadyAmong(rest, all)[0] == rest[i]
    decreases i
  {
    hide Ready;
    if i > 0 { ReadyInOrder(rest[1..], all, i - 1); }
  }

  /** Nobody has settled the unit yet, and all it depends on is accepted. */
  predicate MayStart(u: WorkUnit, all: seq<WorkUnit>) {
    && (u.state.UQueued? || u.state.UAssigned? || u.state.UImplementing? || u.state.USelfVerifying?
        || u.state.UReceiptReady? || u.state.UOuterTesting?)
    && (forall d :: d in u.dependsOn ==> d in set v | v in all && v.state.UAccepted? :: v.id)
  }

  lemma {:induction false} ReadyExactly(all: seq<WorkUnit>, u: WorkUnit)
    ensures u in ReadyUnits(all) <==> u in all && MayStart(u, all)
  {
    var done := set v | v in all && v.state.UAccepted? :: v.id;
    forall id ensures id in done <==> HasAccepted(all, id) {}
  }

  /** The next unit is the first one listed that may start. */
  lemma {:induction false} NextIsFirst(all: seq<WorkUnit>, i: nat)
    requires i < |all| && MayStart(all[i], all) && forall j :: 0 <= j < i ==> !MayStart(all[j], all)
    ensures NextReady(all) == Some(all[i])
  {
    hide Ready, MayStart;
    forall j | 0 <= j <= i ensures Ready(all[j], all) <==> MayStart(all[j], all) { ReadyExactly(all, all[j]); }
    ReadyInOrder(all, all, i);
  }

  function GlobSets(units: seq<WorkUnit>): (g: seq<seq<string>>)
    ensures |g| == |units| && forall i :: 0 <= i < |g| ==> g[i] == GlobsOf(units[i])
  {
    if units == [] then [] else [GlobsOf(units[0])] + GlobSets(units[1..])
  }

  /** The overlap re-check before a batch starts never refuses a wave. */
  lemma WavePassesRecheck(m: Matcher, ready: seq<WorkUnit>)
    ensures PairwiseDisjoint(m, GlobSets(Wave(m, ready)))
  {
    hide Overlap, Wave;
    WaveIsMaximalAndDisjoint(m, ready);
    var wave := Wave(m, ready);
    var g := GlobSets(wave);
    forall i, j | 0 <= i < j < |g| ensures !Overlap(m, g[i], g[j]) {
      OverlapSymmetric(m, g[i], g[j]);
    }
  }

  // ---- dependency structure ----

  ghost predicate DistinctIds(units: seq<WorkUnit>) {
    forall i, j :: 0 <= i < j < |units| ==> units[i].id != units[j].id
  }

  predicate ListedBefore(units: seq<WorkUnit>, k: nat, id: Id)
    requires k <= |units|
  {
    exists j :: 0 <= j < k && units[j].id == id
  }

  /** Every dependency is an earlier unit of the list. */
  ghost predicate DepsFirst(units: seq<WorkUnit>) {
    forall i, d :: 0 <= i < |units| && d in units[i].dependsOn ==> ListedBefore(units, i, d)
  }

  /** An accepted unit has only accepted dependencies. */
  ghost predicate AcceptedClosed(units: seq<WorkUnit>) {
    forall u, d :: u in units && u.state == UAccepted && d in u.dependsOn ==> HasAccepted(units, d)
  }

  ghost predicate QueuedOrAccepted(units: seq<WorkUnit>) {
    forall u :: u in units ==> u.state == UQueued || u.state == UAccepted
  }

  predicate AllAccepted(units: seq<WorkUnit>) {
    forall u :: u in units ==> u.state == UAccepted
  }

  /** While any unit is unaccepted, some unit is ready: no deadlock. */
  lemma SomeUnitIsReady(units: seq<WorkUnit>)
    requires DepsFirst(units) && QueuedOrAccepted(units) && !AllAccepted(units)
    ensures NextReady(units).Some?
  {
    var k := FirstUnaccepted(units, 0);
    forall d | d in units[k].dependsOn ensures HasAccepted(units, d) {
      var j :| 0 <= j < k && units[j].id == d;
      assert units[j] in units;
    }
    assert units[k] in units && Ready(units[k], units);
  }

  lemma FirstUnaccepted(units: seq<WorkUnit>, from: nat) returns (k: nat)
    requires from <= |units| && !AllAccepted(units)
    requires forall i :: 0 <= i < from ==> units[i].state == UAccepted
    ensures k < |units| && units[k].state != UAccepted
    ensures forall i :: 0 <= i < k ==> units[i].state == UAccepted
    decreases |units| - from
  {
    if from < |units| && units[from].state == UAccepted {
      k := FirstUnaccepted(units, from + 1);
    } else {
      k := from;
    }
  }

  /** `id` is reached from `u` by following one or more dependencies through `units`. */
  least predicate DependsOn[nat](units: seq<WorkUnit>, u: WorkUnit, id: Id) {
    || id in u.dependsOn
    || exists v :: v in units && v.id in u.dependsOn && DependsOn(units, v, id)
  }

  lemma {:induction false} TransitiveDepsAccepted(n: nat, units: seq<WorkUnit>, u: WorkUnit, id: Id)
    requires DistinctIds(units) && AcceptedClosed(units)
    requires forall d :: d in u.dependsOn ==> HasAccepted(units, d)
    requires DependsOn#[n](units, u, id)
    ensures HasAccepted(units, id)
    decreases n
  {
    if id !in u.dependsOn {
      var v :| v in units && v.id in u.dependsOn && DependsOn#[n - 1](units, v, id);
      var a :| a in units && a.id == v.id && a.state == UAccepted;
      TransitiveDepsAccepted(n - 1, units, v, id);
    }
  }

  lemma OpenIsUnaccepted(units: seq<WorkUnit>, v: WorkUnit)
    requires DistinctIds(units) && v in units && Open(v)
    ensures !HasAccepted(units, v.id)
  {
    forall a | a in units && a.id == v.id ensures a == v {
      var i :| 0 <= i < |units| && units[i] == a;
      var j :| 0 <= j < |units| && units[j] == v;
    }
  }

  /** No member of a wave depends on another, even through other units. */
  lemma {:induction false} WaveMembersIndependent(m: Matcher, units: seq<WorkUnit>, u: WorkUnit, v: WorkUnit)
    requires DistinctIds(units) && AcceptedClosed(units)
    requires u in Wave(m, ReadyUnits(units)) && v in Wave(m, ReadyUnits(units))
    ensures !DependsOn(units, u, v.id)
  {
    WaveIsMaximalAndDisjoint(m, ReadyUnits(units));
    OpenIsUnaccepted(units, v);
    if DependsOn(units, u, v.id) {
      var n: nat :| DependsOn#[n](units, u, v.id);
      TransitiveDepsAccepted(n, units, u, v.id);
    }
  }

  // ---- what scheduling does not look at ----

  /** The same units, except for their rework counts. */
  ghost predicate SameButRework(a: seq<WorkUnit>, b: seq<WorkUnit>) {
    |a| == |b| && forall i :: 0 <= i < |a| ==> b[i] == a[i].(rework := b[i].rework)
  }

  /** The same units in everything the scheduler reads. */
  ghost predicate SamePlan(a: seq<WorkUnit>, b: seq<WorkUnit>) {
    |a| == |b| && forall i :: 0 <= i < |a| ==> SameTask(a[i], b[i])
  }

  predicate SameTask(u: WorkUnit, v: WorkUnit) {
    u.id == v.id && u.state == v.state && u.globs == v.globs && u.dependsOn == v.dependsOn
  }

  lemma SameAccepted(a: seq<WorkUnit>, b: seq<WorkUnit>, id: Id)
    requires SamePlan(a, b)
    ensures HasAccepted(a, id) == HasAccepted(b, id)
  {
    if HasAccepted(a, id) {
      var u :| u in a && u.id == id && u.state == UAccepted;
      var i :| 0 <= i < |a| && a[i] == u;
      assert b[i] in b;
    }
    if HasAccepted(b, id) {
      var u :| u in b && u.id == id && u.state == UAccepted;
      var i :| 0 <= i < |b| && b[i] == u;
      assert a[i] in a;
    }
  }

  lemma {:induction false} SameReady(restA: seq<WorkUnit>, restB: seq<WorkUnit>, a: seq<WorkUnit>, b: seq<WorkUnit>)
    requires SamePlan(a, b) && SamePlan(restA, restB)
    ensures SamePlan(ReadyAmong(restA, a), ReadyAmong(restB, b))
    decreases |restA|
  {
    if restA != [] {
      forall id ensures HasAccepted(a, id) == HasAccepted(b, id) { SameAccepted(a, b, id); }
      SameReady(restA[1..], restB[1..], a, b);
    }
  }

  lemma {:induction false} SameWaveFrom(m: Matcher, waveA: seq<WorkUnit>, waveB: seq<WorkUnit>, restA: seq<WorkUnit>,
                                        restB: seq<WorkUnit>)
    requires SamePlan(waveA, waveB) && SamePlan(restA, restB)
    ensures SamePlan(WaveFrom(m, waveA, restA), WaveFrom(m, waveB, restB))
    decreases |restA|
  {
    if restA != [] {
      var fa, fb := FitsWave(m, waveA, restA[0]), FitsWave(m, waveB, restB[0]);
      SameFits(m, waveA, waveB, restA[0], restB[0]);
      SameWaveFrom(m, if fa then waveA + [restA[0]] else waveA, if fb then waveB + [restB[0]] else waveB,
                   restA[1..], restB[1..]);
    }
  }

  lemma FitsAgain(m: Matcher, waveA: seq<WorkUnit>, waveB: seq<WorkUnit>, u: WorkUnit, v: WorkUnit)
    requires SamePlan(waveA, waveB) && SameTask(u, v) && FitsWave(m, waveA, u)
    ensures FitsWave(m, waveB, v)
  {
    hide Overlap;
    forall w | w in waveB ensures !Overlap(m, v.globs.value, GlobsOf(w)) {
      var i :| 0 <= i < |waveB| && waveB[i] == w;
      assert SameTask(waveA[i], waveB[i]) && waveA[i] in waveA;
    }
  }

  lemma SameFits(m: Matcher, waveA: seq<WorkUnit>, waveB: seq<WorkUnit>, u: WorkUnit, v: WorkUnit)
    requires SamePlan(waveA, waveB) && SameTask(u, v)
    ensures FitsWave(m, waveA, u) == FitsWave(m, waveB, v)
  {
    hide FitsWave;
    if FitsWave(m, waveA, u) { FitsAgain(m, waveA, waveB, u, v); }
    if FitsWave(m, waveB, v) { FitsAgain(m, waveB, waveA, v, u); }
  }

  /** Rework counts, receipts, commits and verdicts change neither the wave nor the
      next unit. */
  lemma ScheduleIgnoresHistory(m: Matcher, a: seq<WorkUnit>, b: seq<WorkUnit>)
    requires SamePlan(a, b)
    ensures SamePlan(Wave(m, ReadyUnits(a)), Wave(m, ReadyUnits(b)))
    ensures NextReady(a).Some? == NextReady(b).Some?
    ensures NextReady(a).Some? ==> NextReady(a).value.id == NextReady(b).value.id
  {
    SameReady(a, b, a, b);
    SameWaveFrom(m, [], [], ReadyUnits(a), ReadyUnits(b));
  }

  lemma {:induction false} ReadyDistinct(rest: seq<WorkUnit>, all: seq<WorkUnit>)
    requires DistinctIds(rest)
    ensures DistinctIds(ReadyAmong(rest, all))
  {
    if rest != [] {
      ReadyDistinct(rest[1..], all);
      var tail := ReadyAmong(rest[1..], all);
      forall j | 0 <= j < |tail| ensures tail[j].id != rest[0].id {
        assert tail[j] in rest[1..];
        var k :| 0 <= k < |rest[1..]| && rest[1..][k] == tail[j];
        assert rest[k + 1] == tail[j];
      }
    }
  }

  lemma {:induction false} WaveFromDistinct(m: Matcher, wave: seq<WorkUnit>, rest: seq<WorkUnit>)
    requires DistinctIds(wave + rest)
    ensures DistinctIds(WaveFrom(m, wave, rest))
    decreases |rest|
  {
    if rest == [] {
      assert wave + rest == wave;
    } else {
      assert wave + rest == (wave + [rest[0]]) + rest[1..];
      if !FitsWave(m, wave, rest[0]) { SkipOne(wave, rest); }
      WaveFromDistinct(m, if FitsWave(m, wave, rest[0]) then wave + [rest[0]] else wave, rest[1..]);
    }
  }

  lemma SkipOne(wave: seq<WorkUnit>, rest: seq<WorkUnit>)
    requires rest != [] && DistinctIds(wave + rest)
    ensures DistinctIds(wave + rest[1..])
  {
    var a, b := wave + rest, wave + rest[1..];
    forall i, j | 0 <= i < j < |b| ensures b[i].id != b[j].id {
      assert b[i] == a[if i < |wave| then i else i + 1];
      assert b[j] == a[if j < |wave| then j else j + 1];
    }
  }

  lemma WaveDistinct(m: Matcher, units: seq<WorkUnit>)
    requires DistinctIds(units)
    ensures DistinctIds(Wave(m, ReadyUnits(units)))
  {
    ReadyDistinct(units, units);
    assert [] + ReadyUnits(units) == ReadyUnits(units);
    WaveFromDistinct(m, [], ReadyUnits(units));
  }
}
