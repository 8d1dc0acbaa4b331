/** Canonical JSON, whose text is hashed into the envelope
    (crates/wanax-tombstone/src/canonical.rs). */
module Canonical {
  import opened Json
  import Order

  // ---- objects as maps ----

  function Keys(ms: seq<Member>): set<string> { set m | m in ms :: m.key }

  /** Where a key is found first. */
  function IndexOf(ms: seq<Member>, key: string): (i: nat)
    requires key in Keys(ms)
    ensures i < |ms| && ms[i].key == key
  {
    if ms[0].key == key then 0 else 1 + IndexOf(ms[1..], key)
  }

  function SortedKeys(v: Value): (ks: seq<string>)
    requires v.Obj?
    ensures forall k :: k in ks <==> k in Keys(v.ms)
    ensures forall i :: 0 <= i < |ks| ==> ks[i] in Keys(v.ms)
  {
    Order.SortedSet(Keys(v.ms))
  }

  function Field(v: Value, key: string): (w: Value)
    requires v.Obj? && key in Keys(v.ms)
    ensures w < v
  {
    v.ms[IndexOf(v.ms, key)].value
  }

  // ---- the printer ----

  function Join(parts: seq<string>, sep: string): string {
    if parts == [] then ""
    else if |parts| == 1 then parts[0]
    else parts[0] + sep + Join(parts[1..], sep)
  }

  function CanonicalJson(v: Value): string
    decreases v, 1, 0
  {
    match v
    case Null => "null"
    case Bool(b) => if b then "true" else "false"
    case Number(n) => IntText(n)
    case Str(s) => Quoted(s, "")
    case Arr(_) => ['['] + Join(ItemTexts(v, 0), [',']) + [']']
    case Obj(_) => ['{'] + Join(MemberTexts(v, 0), [',']) + ['}']
  }

  function ItemTexts(v: Value, i: nat): (texts: seq<string>)
    requires v.Arr? && i <= |v.xs|
    ensures |texts| == |v.xs| - i
    decreases v, 0, |v.xs| - i
  {
    if i == |v.xs| then [] else [CanonicalJson(v.xs[i])] + ItemTexts(v, i + 1)
  }

  function MemberTexts(v: Value, i: nat): (texts: seq<string>)
    requires v.Obj? && i <= |SortedKeys(v)|
    ensures |texts| == |SortedKeys(v)| - i
    decreases v, 0, |SortedKeys(v)| - i
  {
    var ks := SortedKeys(v);
    if i == |ks| then []
    else [Quoted(ks[i], "") + [':'] + CanonicalJson(Field(v, ks[i]))] + MemberTexts(v, i + 1)
  }

  // ---- the normal form it prints ----

  /** Keys sorted at every level. */
  function Normal(v: Value): Value
    decreases v, 1, 0
  {
    match v
    case Arr(_) => Arr(NormalItems(v, 0))
    case Obj(_) => Obj(NormalMembers(v, 0))
    case _ => v
  }

  function NormalItems(v: Value, i: nat): (xs: seq<Value>)
    requires v.Arr? && i <= |v.xs|
    ensures |xs| == |v.xs| - i && forall j :: 0 <= j < |xs| ==> xs[j] == Normal(v.xs[i + j])
    decreases v, 0, |v.xs| - i
  {
    if i == |v.xs| then [] else [Normal(v.xs[i])] + NormalItems(v, i + 1)
  }

  function NormalMembers(v: Value, i: nat): (ms: seq<Member>)
    requires v.Obj? && i <= |SortedKeys(v)|
    ensures |ms| == |SortedKeys(v)| - i
    ensures forall j :: 0 <= j < |ms| ==> ms[j] == Member(SortedKeys(v)[i + j], Normal(Field(v, SortedKeys(v)[i + j])))
    decreases v, 0, |SortedKeys(v)| - i
  {
    var ks := SortedKeys(v);
    if i == |ks| then [] else [Member(ks[i], Normal(Field(v, ks[i])))] + NormalMembers(v, i + 1)
  }

  /** The keys of a list of members, as they stand. */
  function KeyList(ms: seq<Member>): (ks: seq<string>)
    ensures |ks| == |ms| && forall i :: 0 <= i < |ks| ==> ks[i] == ms[i].key
  {
    if ms == [] then [] else [ms[0].key] + KeyList(ms[1..])
  }

  /** In every object, at every depth, the keys stand in strictly increasing code-point
      order. */
  ghost predicate KeysInOrder(v: Value)
    decreases v
  {
    match v
    case Arr(xs) => forall i :: 0 <= i < |xs| ==> KeysInOrder(xs[i])
    case Obj(ms) =>
      Order.InCodePointOrder(KeyList(ms)) && forall i :: 0 <= i < |ms| ==> KeysInOrder(ms[i].value)
    case _ => true
  }

  lemma {:induction false} NormalInOrder(v: Value)
    ensures KeysInOrder(Normal(v))
    decreases v
  {
    hide SortedKeys, Keys, IndexOf, Order.InCodePointOrder;
    match v
    case Arr(xs) =>
      forall i | 0 <= i < |xs| ensures KeysInOrder(NormalItems(v, 0)[i]) { NormalInOrder(xs[i]); }
    case Obj(ms) =>
      var ns, ks := NormalMembers(v, 0), SortedKeys(v);
      SortedInOrder(v);
      assert KeyList(ns) == ks;
      forall i | 0 <= i < |ns| ensures KeysInOrder(ns[i].value) { NormalInOrder(Field(v, ks[i])); }
    case _ =>
  }

  lemma {:induction false} SortedInOrder(v: Value)
    requires v.Obj?
    ensures Order.InCodePointOrder(SortedKeys(v))
  {
    Order.SortedSetIncreasing(Keys(v.ms));
    Order.IncreasingExactly(SortedKeys(v));
  }

  /** Items after the first are each preceded by a comma. */
  function Commas(i: nat, parts: seq<string>): string
    decreases |parts|
  {
    if parts == [] then "" else Comma(i) + parts[0] + Commas(i + 1, parts[1..])
  }

  lemma {:induction false} JoinIsCommas(parts: seq<string>, i: nat)
    ensures Commas(i, parts) == if parts == [] then "" else Comma(i) + Join(parts, [','])
    decreases |parts|
  {
    if parts != [] {
      JoinIsCommas(parts[1..], i + 1);
      if |parts| > 1 {
        var tail := Join(parts[1..], [',']);
        assert (Comma(i) + parts[0]) + ([','] + tail) == Comma(i) + ((parts[0] + [',']) + tail);
      } else {
        assert (Comma(i) + parts[0]) + "" == Comma(i) + parts[0];
      }
    }
  }

  lemma {:induction false} JoinStart(parts: seq<string>)
    ensures Commas(0, parts) == Join(parts, [','])
  {
    JoinIsCommas(parts, 0);
    assert "" + Join(parts, [',']) == Join(parts, [',']);
  }

  /** The canonical text is the compact text of the normal form. */
  lemma {:induction false} CanonicalIsCompact(v: Value, rest: string)
    ensures Emit(Normal(v), rest) == CanonicalJson(v) + rest
    decreases v, 1, 0
  {
    hide IntText, Join, NormalItems, NormalMembers, EmitItems, EmitMembers, ItemTexts, MemberTexts, SortedKeys, Quoted;
    match v
    case Number(n) =>
    case Str(s) =>
      QuotedAppend(s, "", rest);
      assert "" + rest == rest;
    case Arr(_) =>
      ItemsAreCompact(v, 0, [']'] + rest);
      JoinStart(ItemTexts(v, 0));
      var inner := Join(ItemTexts(v, 0), [',']);
      assert ['['] + (inner + ([']'] + rest)) == ((['['] + inner) + [']']) + rest;
    case Obj(_) =>
      MembersAreCompact(v, 0, ['}'] + rest);
      JoinStart(MemberTexts(v, 0));
      var inner := Join(MemberTexts(v, 0), [',']);
      assert ['{'] + (inner + (['}'] + rest)) == ((['{'] + inner) + ['}']) + rest;
    case _ =>
  }

  lemma {:induction false} ItemsAreCompact(v: Value, i: nat, rest: string)
    requires v.Arr? && i <= |v.xs|
    ensures EmitItems(Normal(v), i, rest) == Commas(i, ItemTexts(v, i)) + rest
    decreases v, 0, |v.xs| - i
  {
    hide Emit, CanonicalJson;
    var n := Normal(v);
    if i == |v.xs| {
      assert "" + rest == rest;
    } else {
      ItemsAreCompact(v, i + 1, rest);
      var tail := EmitItems(n, i + 1, rest);
      CanonicalIsCompact(v.xs[i], tail);
      var t, c := CanonicalJson(v.xs[i]), Commas(i + 1, ItemTexts(v, i + 1));
      assert ItemTexts(v, i)[0] == t && ItemTexts(v, i)[1..] == ItemTexts(v, i + 1);
      assert Comma(i) + (t + (c + rest)) == ((Comma(i) + t) + c) + rest;
    }
  }

  lemma {:induction false} MembersAreCompact(v: Value, i: nat, rest: string)
    requires v.Obj? && i <= |SortedKeys(v)|
    ensures EmitMembers(Normal(v), i, rest) == Commas(i, MemberTexts(v, i)) + rest
    decreases v, 0, |SortedKeys(v)| - i
  {
    hide Emit, CanonicalJson, Quoted, SortedKeys;
    var n, ks := Normal(v), SortedKeys(v);
    if i == |ks| {
      assert "" + rest == rest;
    } else {
      MembersAreCompact(v, i + 1, rest);
      var tail := EmitMembers(n, i + 1, rest);
      CanonicalIsCompact(Field(v, ks[i]), tail);
      var t, c := CanonicalJson(Field(v, ks[i])), Commas(i + 1, MemberTexts(v, i + 1));
      QuotedAppend(ks[i], "", [':'] + (t + tail));
      assert "" + ([':'] + (t + tail)) == [':'] + (t + tail);
      assert MemberTexts(v, i)[0] == Quoted(ks[i], "") + [':'] + t && MemberTexts(v, i)[1..] == MemberTexts(v, i + 1);
      KeyThenValue(Comma(i), Quoted(ks[i], ""), t, c, rest);
    }
  }

  lemma KeyThenValue(comma: string, key: string, t: string, c: string, rest: string)
    ensures comma + (key + ([':'] + (t + (c + rest)))) == ((comma + ((key + [':']) + t)) + c) + rest
  {}

  // ---- equality of JSON values ----

  /** Equal as JSON values: member order does not matter. */
  ghost predicate Same(u: Value, v: Value)
    decreases u
  {
    match u
    case Arr(xs) => v.Arr? && |v.xs| == |xs| && forall i :: 0 <= i < |xs| ==> Same(xs[i], v.xs[i])
    case Obj(ms) =>
      && v.Obj? && Keys(v.ms) == Keys(ms)
      && forall key :: key in Keys(ms) ==> Same(Field(u, key), Field(v, key))
    case _ => u == v
  }

  lemma {:induction false} SameIffNormal(u: Value, v: Value)
    ensures Same(u, v) <==> Normal(u) == Normal(v)
    decreases u
  {
    hide SortedKeys, Keys;
    match u
    case Arr(xs) => if v.Arr? { SameItems(u, v); }
    case Obj(ms) => if v.Obj? { SameMembers(u, v); }
    case _ =>
  }

  lemma {:induction false} SameItems(u: Value, v: Value)
    requires u.Arr? && v.Arr?
    ensures Same(u, v) <==> Normal(u) == Normal(v)
    decreases u, 0
  {
    var a, b := NormalItems(u, 0), NormalItems(v, 0);
    if |u.xs| == |v.xs| {
      forall i | 0 <= i < |u.xs| ensures Same(u.xs[i], v.xs[i]) <==> a[i] == b[i] {
        SameIffNormal(u.xs[i], v.xs[i]);
      }
    } else {
      assert |a| != |b|;
    }
  }

  lemma {:induction false} SameMembers(u: Value, v: Value)
    requires u.Obj? && v.Obj?
    ensures Same(u, v) <==> Normal(u) == Normal(v)
    decreases u, 0
  {
    hide Keys, IndexOf, Normal;
    NormalObj(u);
    NormalObj(v);
    if Keys(u.ms) == Keys(v.ms) {
      KeysDetermineOrder(u, v);
      forall key | key in Keys(u.ms) ensures Same(Field(u, key), Field(v, key))
          <==> Normal(Field(u, key)) == Normal(Field(v, key)) {
        SameIffNormal(Field(u, key), Field(v, key));
      }
      SameKeysSame(u, v);
    } else {
      if Normal(u) == Normal(v) { NormalKeys(u, v); }
    }
  }

  lemma {:induction false} NormalObj(u: Value)
    requires u.Obj?
    ensures Normal(u) == Obj(NormalMembers(u, 0))
  {}

  lemma KeysDetermineOrder(u: Value, v: Value)
    requires u.Obj? && v.Obj? && Keys(u.ms) == Keys(v.ms)
    ensures SortedKeys(u) == SortedKeys(v)
  {}

  /** With the same keys, the normal forms agree exactly when the fields do. */
  lemma {:induction false} SameKeysSame(u: Value, v: Value)
    requires u.Obj? && v.Obj? && Keys(u.ms) == Keys(v.ms) && SortedKeys(u) == SortedKeys(v)
    ensures NormalMembers(u, 0) == NormalMembers(v, 0) <==>
            forall key :: key in Keys(u.ms) ==> Normal(Field(u, key)) == Normal(Field(v, key))
  {
    hide Keys, IndexOf, Normal, SortedKeys, Field;
    var a, b, ks := NormalMembers(u, 0), NormalMembers(v, 0), SortedKeys(u);
    if a == b {
      forall key | key in Keys(u.ms) ensures Normal(Field(u, key)) == Normal(Field(v, key)) {
        var i :| 0 <= i < |ks| && ks[i] == key;
        assert a[i] == b[i];
      }
    }
    if forall key :: key in Keys(u.ms) ==> Normal(Field(u, key)) == Normal(Field(v, key)) {
      forall i | 0 <= i < |ks| ensures a[i] == b[i] {}
    }
  }

  lemma {:induction false} NormalKeys(u: Value, v: Value)
    requires u.Obj? && v.Obj? && NormalMembers(u, 0) == NormalMembers(v, 0)
    ensures Keys(u.ms) == Keys(v.ms)
  {
    hide Keys, SortedKeys, Normal;
    var a, b := NormalMembers(u, 0), NormalMembers(v, 0);
    assert |SortedKeys(u)| == |SortedKeys(v)|;
    forall i | 0 <= i < |SortedKeys(u)| ensures SortedKeys(u)[i] == SortedKeys(v)[i] { assert a[i] == b[i]; }
    assert SortedKeys(u) == SortedKeys(v);
    assert forall k :: k in Keys(u.ms) <==> k in Keys(v.ms);
  }

  /** Two values print the same exactly when they are equal as JSON values. */
  lemma {:induction false} CanonicalExactly(u: Value, v: Value)
    ensures CanonicalJson(u) == CanonicalJson(v) <==> Same(u, v)
  {
    CanonicalIsCompact(u, "");
    CanonicalIsCompact(v, "");
    assert CanonicalJson(u) + "" == CanonicalJson(u) && CanonicalJson(v) + "" == CanonicalJson(v);
    SameIffNormal(u, v);
    if CanonicalJson(u) == CanonicalJson(v) { CompactInjective(Normal(u), Normal(v)); }
  }

  /** The canonical text is the compact text of a value that is equal as JSON and has its
      keys in order at every level, and there is only one such value. */
  lemma {:induction false} CanonicalInOrder(v: Value)
    ensures CanonicalJson(v) == Compact(Normal(v)) && Same(v, Normal(v)) && KeysInOrder(Normal(v))
    ensures forall w :: CanonicalJson(v) == Compact(w) ==> w == Normal(v)
  {
    hide Compact, Emit, Same, CanonicalJson;
    NormalInOrder(v);
    CompactOfNormal(v);
    NormalIsSame(v);
    forall w | Compact(Normal(v)) == Compact(w) ensures w == Normal(v) { CompactInjective(Normal(v), w); }
  }

  lemma {:induction false} NormalIsSame(v: Value)
    ensures Same(v, Normal(v))
    decreases v
  {
    hide SortedKeys, IndexOf, Keys;
    match v
    case Arr(xs) => forall i | 0 <= i < |xs| ensures Same(xs[i], NormalItems(v, 0)[i]) { NormalIsSame(xs[i]); }
    case Obj(ms) =>
      NormalFields(v);
      forall key | key in Keys(ms) ensures Same(Field(v, key), Field(Normal(v), key)) { NormalIsSame(Field(v, key)); }
    case _ => SameLeaf(v);
  }

  lemma {:induction false} SameLeaf(v: Value)
    requires !v.Arr? && !v.Obj?
    ensures Same(v, v)
  {}

  lemma {:induction false} NormalFields(v: Value)
    requires v.Obj?
    ensures Normal(v).Obj? && Keys(Normal(v).ms) == Keys(v.ms)
    ensures forall key :: key in Keys(v.ms) ==> Field(Normal(v), key) == Normal(Field(v, key))
  {
    hide IndexOf, Normal, SortedKeys, Keys, NormalMembers;
    NormalObj(v);
    NormalHasKeys(v);
    forall key | key in Keys(v.ms) ensures Field(Normal(v), key) == Normal(Field(v, key)) {
      var i := IndexOf(NormalMembers(v, 0), key);
      assert NormalMembers(v, 0)[i] == Member(SortedKeys(v)[i], Normal(Field(v, SortedKeys(v)[i])));
    }
  }

  lemma {:induction false} NormalHasKeys(v: Value)
    requires v.Obj?
    ensures Keys(NormalMembers(v, 0)) == Keys(v.ms)
  {
    hide SortedKeys, Normal, Field, NormalMembers;
    var ns, ks := NormalMembers(v, 0), SortedKeys(v);
    forall key ensures key in Keys(ns) <==> key in ks {
      if key in ks {
        var i :| 0 <= i < |ks| && ks[i] == key;
        assert ns[i] in ns && ns[i].key == key;
      }
    }
  }

  lemma {:induction false} CompactOfNormal(v: Value)
    ensures CanonicalJson(v) == Compact(Normal(v))
  {
    CanonicalIsCompact(v, "");
    assert CanonicalJson(v) + "" == CanonicalJson(v);
  }

  /** With a hash without collisions, equal digests mean equal payloads and back. */
  lemma {:induction false} DigestsExactly<D>(hash: string -> D, u: Value, v: Value)
    requires forall s, t :: hash(s) == hash(t) ==> s == t
    ensures hash(CanonicalJson(u)) == hash(CanonicalJson(v)) <==> Same(u, v)
  {
    CanonicalExactly(u, v);
  }
}
