/** Healing the work_units table from the replayed envelope on resume
    (continue_factory in crates/wanax-cli/src/engine.rs, units_diverged in
    crates/wanax-cli/src/replay.rs, update_work_unit in crates/wanax-core/src/store.rs).
    The rows of the run are a map keyed by unit id. */
module Healing {
  import opened Types
  import opened Events
  import opened Replay

  type Rows = map<Id, WorkUnit>

  /** The row has the replayed state, rework count and receipt. */
  predicate Settled(row: WorkUnit, u: WorkUnit) {
    row.state == u.state && row.rework == u.rework && row.receiptId == u.receiptId
  }

  /** `units_diverged`. */
  predicate Diverged(rows: Rows, units: seq<WorkUnit>) {
    |rows| != |units|
    || exists u :: u in units && (u.id !in rows || !Settled(rows[u.id], u) || rows[u.id].title != u.title)
  }

  /** What an update statement leaves of the old row: the columns it does not set. */
  function UpdatedRow(row: WorkUnit, u: WorkUnit): WorkUnit {
    u.(id := row.id, seqNo := row.seqNo, parent := row.parent, globs := row.globs)
  }

  function HealedRow(rows: Rows, u: WorkUnit): WorkUnit {
    if u.id !in rows then u
    else if Settled(rows[u.id], u) then rows[u.id]
    else UpdatedRow(rows[u.id], u)
  }

  /** The table after healing the first n units, one after the other. */
  function Healed(rows: Rows, units: seq<WorkUnit>, n: nat): Rows
    requires n <= |units|
  {
    if n == 0 then rows
    else
      var before := Healed(rows, units, n - 1);
      before[units[n - 1].id := HealedRow(before, units[n - 1])]
  }

  /** The table once resume is done with it. */
  function Resumed(rows: Rows, units: seq<WorkUnit>): Rows {
    if Diverged(rows, units) then Healed(rows, units, |units|) else rows
  }

  ghost predicate DistinctUnits(units: seq<WorkUnit>) {
    forall i, j :: 0 <= i < j < |units| ==> units[i].id != units[j].id
  }

  predicate KeyedById(rows: Rows) { forall id :: id in rows ==> rows[id].id == id }

  class WorkUnits {
    var rows: Rows
    var writes: nat

    constructor (rows: Rows)
      ensures this.rows == rows && writes == 0
    {
      this.rows, writes := rows, 0;
    }

    method Update(u: WorkUnit)
      requires u.id in rows && KeyedById(rows)
      modifies this
      ensures rows == old(rows)[u.id := UpdatedRow(old(rows)[u.id], u)] && writes == old(writes) + 1
    {
      var row := rows[u.id];
      rows := rows[u.id := row.(title := u.title, instruction := u.instruction, state := u.state, role := u.role,
                                rework := u.rework, commit := u.commit, receiptId := u.receiptId,
                                verdictId := u.verdictId,
                                dependsOn := u.dependsOn, testCommand := u.testCommand, localKey := u.localKey)];
      writes := writes + 1;
    }

    method Insert(u: WorkUnit)
      requires u.id !in rows
      modifies this
      ensures rows == old(rows)[u.id := u] && writes == old(writes) + 1
    {
      rows := rows[u.id := u];
      writes := writes + 1;
    }

    /** The healing loop. */
    method Heal(units: seq<WorkUnit>)
      requires KeyedById(rows)
      modifies this
      ensures rows == Healed(old(rows), units, |units|) && KeyedById(rows)
      ensures writes == old(writes) + Writes(old(rows), units, |units|)
    {
      for i := 0 to |units|
        invariant rows == Healed(old(rows), units, i) && KeyedById(rows)
        invariant writes == old(writes) + Writes(old(rows), units, i)
      {
        var u := units[i];
        if u.id in rows {
          if !Settled(rows[u.id], u) { Update(u); } else { assert rows[u.id := rows[u.id]] == rows; }
        } else {
          Insert(u);
        }
      }
    }

    method Resume(units: seq<WorkUnit>)
      requires KeyedById(rows)
      modifies this
      ensures rows == Resumed(old(rows), units) && KeyedById(rows)
    {
      if Diverged(rows, units) { Heal(units); }
    }
  }

  /** Rows the loop writes while healing the first n units. */
  function Writes(rows: Rows, units: seq<WorkUnit>, n: nat): nat
    requires n <= |units|
  {
    if n == 0 then 0
    else
      var before, u := Healed(rows, units, n - 1), units[n - 1];
      Writes(rows, units, n - 1) + if u.id in before && Settled(before[u.id], u) then 0 else 1
  }

  // ---- what the table looks like afterwards ----

  lemma {:induction false} HealedAt(rows: Rows, units: seq<WorkUnit>, n: nat, id: Id)
    requires n <= |units| && DistinctUnits(units)
    ensures var after := Healed(rows, units, n);
            id in after <==> id in rows || exists i :: 0 <= i < n && units[i].id == id
    ensures var after := Healed(rows, units, n);
            && (forall i :: 0 <= i < n && units[i].id == id ==> id in after && after[id] == HealedRow(rows, units[i]))
            && ((forall i :: 0 <= i < n ==> units[i].id != id) && id in rows ==> id in after && after[id] == rows[id])
  {
    if n > 0 { HealedAt(rows, units, n - 1, id); }
  }

  /** After a resume every replayed unit has a row with the replayed state, rework
      count and receipt. */
  lemma HealingConverges(rows: Rows, units: seq<WorkUnit>)
    requires DistinctUnits(units)
    ensures forall u :: u in units ==> u.id in Resumed(rows, units) && Settled(Resumed(rows, units)[u.id], u)
    ensures forall u :: u in units ==>
              var row := Resumed(rows, units)[u.id];
              row.state == u.state && row.rework == u.rework && row.receiptId == u.receiptId
  {
    forall u | u in units ensures u.id in Resumed(rows, units) && Settled(Resumed(rows, units)[u.id], u) {
      var i :| 0 <= i < |units| && units[i] == u;
      HealedAt(rows, units, |units|, u.id);
    }
  }

  /** Row by row, where the table was found to differ: a unit without a row gets one; a row
      with the unit's state, rework count and receipt is left alone; any other takes
      everything from the unit but its id, number, parent and globs. And no other row is
      touched. */
  lemma {:induction false} HealedRows(rows: Rows, units: seq<WorkUnit>, id: Id)
    requires DistinctUnits(units) && KeyedById(rows)
    ensures var after := Healed(rows, units, |units|);
            && (id in rows && (forall u :: u in units ==> u.id != id) ==> id in after && after[id] == rows[id])
            && (forall u :: u in units && u.id == id && id !in rows ==> id in after && after[id] == u)
            && (forall u :: u in units && u.id == id && id in rows ==>
                  var row := rows[id];
                  && id in after
                  && if row.state == u.state && row.rework == u.rework && row.receiptId == u.receiptId
                     then after[id] == row
                     else after[id] == u.(seqNo := row.seqNo, parent := row.parent, globs := row.globs))
  {
    HealedAt(rows, units, |units|, id);
    forall u | u in units && u.id == id ensures id in Healed(rows, units, |units|)
                                                && Healed(rows, units, |units|)[id] == HealedRow(rows, u) {
      var i :| 0 <= i < |units| && units[i] == u;
    }
    if forall u :: u in units ==> u.id != id { assert forall i :: 0 <= i < |units| ==> units[i] in units; }
  }

  lemma {:induction false} SettledIsStill(rows: Rows, units: seq<WorkUnit>, n: nat)
    requires n <= |units| && forall u :: u in units ==> u.id in rows && Settled(rows[u.id], u)
    ensures Healed(rows, units, n) == rows && Writes(rows, units, n) == 0
  {
    if n > 0 {
      SettledIsStill(rows, units, n - 1);
      assert units[n - 1] in units;
    }
  }

  /** A second pass writes nothing. */
  lemma {:induction false} SecondPassWritesNothing(rows: Rows, units: seq<WorkUnit>)
    requires DistinctUnits(units)
    ensures var after := Resumed(rows, units);
            Resumed(after, units) == after && Writes(after, units, |units|) == 0
  {
    HealingConverges(rows, units);
    SettledIsStill(Resumed(rows, units), units, |units|);
  }

  function IdSetOf(units: seq<WorkUnit>): (r: set<Id>)
    ensures forall id :: id in r <==> exists u :: u in units && u.id == id
  {
    set u | u in units :: u.id
  }

  lemma IdSetSnoc(units: seq<WorkUnit>, last: WorkUnit)
    ensures IdSetOf(units + [last]) == IdSetOf(units) + {last.id}
  {
    hide IdSetOf;
    forall id ensures id in IdSetOf(units + [last]) <==> id in IdSetOf(units) || id == last.id {
      if id == last.id { assert last in units + [last]; }
      if id in IdSetOf(units) {
        var u :| u in units && u.id == id;
        assert u in units + [last];
      }
    }
  }

  lemma LastIsNew(units: seq<WorkUnit>)
    requires DistinctUnits(units) && units != []
    ensures DistinctUnits(units[..|units| - 1]) && units[|units| - 1].id !in IdSetOf(units[..|units| - 1])
  {
    hide IdSetOf;
    var init, last := units[..|units| - 1], units[|units| - 1];
    forall u | u in init ensures u.id != last.id {
      var i :| 0 <= i < |init| && init[i] == u;
      assert units[i] == u;
    }
  }

  lemma NoIds()
    ensures IdSetOf([]) == {}
  {
    hide IdSetOf;
    assert forall id :: id !in IdSetOf([]);
  }

  lemma {:induction false} IdSetSize(units: seq<WorkUnit>)
    requires DistinctUnits(units)
    ensures |IdSetOf(units)| == |units|
  {
    hide IdSetOf, DistinctUnits;
    if units == [] {
      NoIds();
    } else {
      var init, last := units[..|units| - 1], units[|units| - 1];
      LastIsNew(units);
      IdSetSize(init);
      IdSetSnoc(init, last);
      assert init + [last] == units;
    }
  }

  /** Rows of the run that replay knows nothing of. */
  predicate NoExtraRows(rows: Rows, units: seq<WorkUnit>) { rows.Keys <= IdSetOf(units) }

  /** Rows that are otherwise settled also have the replayed title. */
  predicate SettledTitlesAgree(rows: Rows, units: seq<WorkUnit>) {
    forall u :: u in units && u.id in rows && Settled(rows[u.id], u) ==> rows[u.id].title == u.title
  }

  lemma NotDivergedKeys(rows: Rows, units: seq<WorkUnit>)
    requires DistinctUnits(units) && forall u :: u in units ==> u.id in rows
    ensures |rows| == |units| <==> NoExtraRows(rows, units)
  {
    IdSetSize(units);
    assert IdSetOf(units) <= rows.Keys;
    assert |rows.Keys| == |rows|;
    if |rows| == |units| { SameSizeSubset(IdSetOf(units), rows.Keys); }
    if NoExtraRows(rows, units) { assert rows.Keys == IdSetOf(units); }
  }

  lemma SameSizeSubset(a: set<Id>, b: set<Id>)
    requires a <= b && |a| == |b|
    ensures a == b
  {
    assert b == a + (b - a);
    assert |b| == |a| + |b - a|;
  }

  /** Resume leaves no divergence exactly when the table had no rows beside the
      replayed units and every row it had no reason to touch agreed on the title. */
  lemma HealedExactly(rows: Rows, units: seq<WorkUnit>)
    requires DistinctUnits(units)
    ensures !Diverged(Resumed(rows, units), units) <==> NoExtraRows(rows, units) && SettledTitlesAgree(rows, units)
  {
    var after := Resumed(rows, units);
    HealingConverges(rows, units);
    NotDivergedKeys(after, units);
    if Diverged(rows, units) {
      forall id ensures id in after <==> id in rows || id in IdSetOf(units) { KeysAfter(rows, units, id); }
      assert NoExtraRows(after, units) <==> NoExtraRows(rows, units);
      forall u | u in units ensures after[u.id] == HealedRow(rows, u) {
        var i :| 0 <= i < |units| && units[i] == u;
        HealedAt(rows, units, |units|, u.id);
      }
    } else {
      NotDivergedKeys(rows, units);
    }
  }

  lemma {:induction false} KeysAfter(rows: Rows, units: seq<WorkUnit>, id: Id)
    requires DistinctUnits(units)
    ensures id in Healed(rows, units, |units|) <==> id in rows || id in IdSetOf(units)
  {
    HealedAt(rows, units, |units|, id);
    if id in IdSetOf(units) {
      var u :| u in units && u.id == id;
      var i :| 0 <= i < |units| && units[i] == u;
    }
    if exists i :: 0 <= i < |units| && units[i].id == id {
      var i :| 0 <= i < |units| && units[i].id == id;
      assert units[i] in units;
    }
  }

  /** A row that differs in its title alone is reported on every resume, forever. */
  lemma TitleAloneNeverHeals(row: WorkUnit, u: WorkUnit)
    requires Settled(row, u) && row.id == u.id && row.title != u.title
    ensures var rows := map[u.id := row];
            Diverged(rows, [u]) && Resumed(rows, [u]) == rows && Diverged(Resumed(rows, [u]), [u])
  {
    var rows := map[u.id := row];
    assert u in [u];
    assert Healed(rows, [u], 1) == Healed(rows, [u], 0)[u.id := HealedRow(Healed(rows, [u], 0), u)];
    assert rows[u.id := row] == rows;
  }

  /** Replay never names a unit twice, so all of this applies to what it returns. */
  lemma {:induction false} ReplayedUnitsDistinct(log: seq<Event>)
    ensures DistinctUnits(Replayed(log).units)
  {
    ReplayMirrorsLog(log);
    var s := Replayed(log);
    forall i, j | 0 <= i < j < |s.units| ensures s.units[i].id != s.units[j].id {
      assert s.byId[s.units[i].id] == i && s.byId[s.units[j].id] == j;
    }
  }
}
