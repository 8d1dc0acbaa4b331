/** No text is shorter than the compact one: any text that reads as a value is at least as
    long, so the printer writes no white space, no leading zero and no escape that is not
    needed. */
module JsonShort {
  import opened Types
  import opened Text
  import opened Json
  import opened JsonRead

  // ---- characters and strings ----

  /** Where a character has several texts, it gets the shortest, in small letters. */
  lemma {:induction false} EscIsShortest(c: char, t: string, a: string)
    requires ReadChar(t) == Some((c, a))
    ensures |Esc(c)| + |a| <= |t|
    ensures |Esc(c)| + |a| == |t| && (forall k :: 0 <= k < |t| - |a| ==> !('A' <= t[k] <= 'F') || t[k] == c)
            ==> t == Esc(c) + a
  {
    hide HexDigit, HexValue;
    var n := |t| - |a|;
    assert t == t[..n] + a;
    if t[0] == '\\' && t[1] == 'u' && n == |Esc(c)| {
      ControlText(c, t[2..]);
    }
  }

  /** Four digits without capitals that denote a control character are those printed. */
  lemma {:induction false} ControlText(c: char, h: string)
    requires c < ' ' && ReadHex(h) == Some(c)
    ensures (forall k :: 0 <= k < 4 ==> !('A' <= h[k] <= 'F'))
            ==> h[..4] == ['0', '0', HexDigit(c as int / 16), HexDigit(c as int % 16)]
  {
    hide HexDigit, HexValue;
    HexText(h[0]);
    HexText(h[1]);
    HexText(h[2]);
    HexText(h[3]);
    assert HexDigit(0) == '0' by { ZeroDigit(); }
    var x, y := HexValue(h[2]).value, HexValue(h[3]).value;
    assert c as int == 16 * x + y && HexValue(h[0]).value == 0 && HexValue(h[1]).value == 0;
  }

  lemma ZeroDigit()
    ensures HexDigit(0) == '0'
  {}

  /** A hexadecimal digit that is no capital is the one that is printed. */
  lemma HexText(c: char)
    requires HexValue(c).Some?
    ensures HexValue(c).value < 16
    ensures !('A' <= c <= 'F') ==> HexDigit(HexValue(c).value) == c
  {}

  lemma {:induction false} CharsLength(s: string, a: string, b: string)
    ensures |Chars(s, a)| + |b| == |Chars(s, b)| + |a|
  {
    hide Esc;
    if s != "" { CharsLength(s[1..], a, b); }
  }

  lemma {:induction false} CharsAreShortest(t: string)
    ensures var r := ReadChars(t); r.Some? ==> |Chars(r.value.0, ['"'] + r.value.1)| <= |t|
    decreases |t|
  {
    hide Esc, ReadChar;
    var r := ReadChars(t);
    if r.Some? && t[0] != '"' {
      var c := ReadChar(t).value;
      EscIsShortest(c.0, t, c.1);
      CharsAreShortest(c.1);
      assert r.value.0[1..] == ReadChars(c.1).value.0;
    }
  }

  lemma {:induction false} StringIsShortest(t: string)
    ensures var r := ReadString(t); r.Some? ==> |Quoted(r.value.0, r.value.1)| <= |t|
  {
    hide Chars, ReadChars;
    if ReadString(t).Some? { CharsAreShortest(t[1..]); }
  }

  // ---- numbers ----

  lemma {:induction false} LastDigit(s: string)
    requires s != "" && AllDigits(s)
    ensures Decimal(s[..|s| - 1]) == Decimal(s) / 10
    ensures |s| == 1 ==> Decimal(s) < 10
  {
    if |s| == 1 { assert s[..|s| - 1] == ""; }
  }

  lemma {:induction false} DigitsAreShortest(s: string)
    requires s != "" && AllDigits(s)
    ensures |Digits(Decimal(s))| <= |s|
    decreases |s|
  {
    var n := Decimal(s);
    if n >= 10 {
      LastDigit(s);
      DigitsAreShortest(s[..|s| - 1]);
    }
  }

  lemma {:induction false} NaturalIsShortest(t: string)
    ensures var r := ReadNatural(t); r.Some? ==> |Digits(r.value.0)| + |r.value.1| <= |t|
  {
    hide Digits, Decimal, DigitRun;
    if ReadNatural(t).Some? { DigitsAreShortest(t[..DigitRun(t)]); }
  }

  lemma {:induction false} NumberIsShortest(t: string)
    ensures var r := ReadNumber(t);
            r.Some? ==> r.value.0.Number? && |IntText(r.value.0.n)| + |r.value.1| <= |t|
  {
    hide ReadNatural;
    if t != "" && t[0] == '-' { NaturalIsShortest(t[1..]); } else { NaturalIsShortest(t); }
  }

  // ---- values ----

  lemma {:induction false} WsShrinks(t: string)
    ensures |Ws(t)| <= |t|
  {}

  lemma {:induction false} EmitLength(v: Value, a: string, b: string)
    ensures |Emit(v, a)| + |b| == |Emit(v, b)| + |a|
  {
    EmitAppend(v, "", a);
    EmitAppend(v, "", b);
    assert "" + a == a && "" + b == b;
  }

  lemma {:induction false} LiteralLength(t: string)
    requires var w := Ws(t); StartsWith(w, "null") || StartsWith(w, "true") || StartsWith(w, "false")
    ensures var (v, a) := ReadValue(t).value; |Emit(v, a)| == |Ws(t)|
  {
    hide Ws;
  }

  lemma {:induction false} ArrayText(v: Value, a: string)
    requires v.Arr?
    ensures Emit(v, a) == ['['] + EmitItems(v, 0, [']'] + a)
  {
    hide EmitItems;
  }

  lemma {:induction false} ObjectText(v: Value, a: string)
    requires v.Obj?
    ensures Emit(v, a) == ['{'] + EmitMembers(v, 0, ['}'] + a)
  {
    hide EmitMembers;
  }

  lemma {:induction false} ValueIsShortest(t: string)
    ensures var r := ReadValue(t); r.Some? ==> |Emit(r.value.0, r.value.1)| <= |t|
    decreases |t|, 1
  {
    hide Ws, ReadItems, ReadMembers, ReadMember, ReadNumber, ReadString, StartsWith, EmitItems, EmitMembers, IntText,
         Quoted;
    var r, w := ReadValue(t), Ws(t);
    WsShrinks(t);
    if r.Some? {
      if StartsWith(w, "null") || StartsWith(w, "true") || StartsWith(w, "false") {
        LiteralLength(t);
      } else if w[0] == '"' {
        StringIsShortest(w);
      } else if w[0] == '[' {
        ArrayIsShortest(t);
      } else if w[0] == '{' {
        ObjectIsShortest(t);
      } else {
        NumberIsShortest(w);
      }
    }
  }

  lemma {:induction false} ArrayIsShortest(t: string)
    requires ReadValue(t).Some? && Ws(t) != "" && Ws(t)[0] == '['
    ensures var (v, a) := ReadValue(t).value; |Emit(v, a)| <= |t|
    decreases |t|, 0
  {
    hide Ws, ReadItems, ReadMembers, ReadMember, ReadNumber, ReadString, Emit;
    var w := Ws(t);
    WsShrinks(t);
    NoLiteral(w);
    var (v, a) := ReadValue(t).value;
    var start := Ws(w[1..]);
    WsShrinks(w[1..]);
    assert Emit(v, a) == ['['] + EmitItems(v, 0, [']'] + a) by { ArrayText(v, a); }
    if v.xs != [] {
      var x := ReadValue(start).value;
      ValueIsShortest(start);
      ItemsAreShortest(x.1, v, 1);
      EmitLength(x.0, x.1, EmitItems(v, 1, [']'] + a));
    }
  }

  lemma {:induction false} ItemsAreShortest(t: string, v: Value, i: nat)
    requires ReadItems(t).Some? && v.Arr? && 0 < i <= |v.xs| && v.xs[i..] == ReadItems(t).value.0
    ensures |EmitItems(v, i, [']'] + ReadItems(t).value.1)| <= |t|
    decreases |t|
  {
    hide Ws, ReadValue, Emit;
    var w, a := Ws(t), ReadItems(t).value.1;
    WsShrinks(t);
    if w[0] != ']' {
      var x := ReadValue(w[1..]).value;
      ValueIsShortest(w[1..]);
      assert v.xs[i + 1..] == v.xs[i..][1..] == ReadItems(x.1).value.0;
      ItemsAreShortest(x.1, v, i + 1);
      EmitLength(x.0, x.1, EmitItems(v, i + 1, [']'] + a));
    }
  }

  lemma {:induction false} ObjectIsShortest(t: string)
    requires ReadValue(t).Some? && Ws(t) != "" && Ws(t)[0] == '{'
    ensures var (v, a) := ReadValue(t).value; |Emit(v, a)| <= |t|
    decreases |t|, 0
  {
    hide Ws, ReadItems, ReadMembers, ReadMember, ReadNumber, ReadString, Emit, Quoted;
    var w := Ws(t);
    WsShrinks(t);
    NoLiteral(w);
    var (v, a) := ReadValue(t).value;
    var start := Ws(w[1..]);
    WsShrinks(w[1..]);
    assert Emit(v, a) == ['{'] + EmitMembers(v, 0, ['}'] + a) by { ObjectText(v, a); }
    if v.ms != [] {
      var m := ReadMember(start).value;
      MembersAreShortest(m.1, v, 1);
      MemberIsShortest(start, EmitMembers(v, 1, ['}'] + a));
    }
  }

  lemma {:induction false} MemberIsShortest(t: string, rest: string)
    requires ReadMember(t).Some? && |rest| <= |ReadMember(t).value.1|
    ensures var m := ReadMember(t).value.0; |Quoted(m.key, [':'] + Emit(m.value, rest))| <= |t|
    decreases |t|, 0
  {
    hide Ws, ReadValue, Emit, ReadString, Quoted;
    WsShrinks(t);
    var key := ReadString(Ws(t)).value;
    StringIsShortest(Ws(t));
    WsShrinks(key.1);
    var w := Ws(key.1);
    var x := ReadValue(w[1..]).value;
    ValueIsShortest(w[1..]);
    EmitLength(x.0, x.1, rest);
    QuotedLength(key.0, key.1, [':'] + Emit(x.0, rest));
  }

  lemma {:induction false} QuotedLength(s: string, a: string, b: string)
    ensures |Quoted(s, a)| + |b| == |Quoted(s, b)| + |a|
  {
    CharsLength(s, ['"'] + a, ['"'] + b);
  }

  lemma {:induction false} MembersAreShortest(t: string, v: Value, i: nat)
    requires ReadMembers(t).Some? && v.Obj? && 0 < i <= |v.ms| && v.ms[i..] == ReadMembers(t).value.0
    ensures |EmitMembers(v, i, ['}'] + ReadMembers(t).value.1)| <= |t|
    decreases |t|
  {
    hide Ws, ReadMember, Emit, Quoted;
    var w, a := Ws(t), ReadMembers(t).value.1;
    WsShrinks(t);
    if w[0] != '}' {
      var m := ReadMember(w[1..]).value;
      assert v.ms[i + 1..] == v.ms[i..][1..] == ReadMembers(m.1).value.0;
      MembersAreShortest(m.1, v, i + 1);
      MemberIsShortest(w[1..], EmitMembers(v, i + 1, ['}'] + a));
    }
  }

  /** No text that reads as a value is shorter than its compact text. */
  lemma {:induction false} CompactIsShortest(t: string, v: Value)
    requires ReadText(t) == Some(v)
    ensures |Compact(v)| <= |t|
  {
    hide ReadValue, Emit;
    ValueIsShortest(t);
    EmitLength(v, "", ReadValue(t).value.1);
  }
}
