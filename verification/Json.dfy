/** JSON values and their compact text (RFC 8259, sections 4 and 7, as serde_json
    prints it: no white space, integers only). */
module Json {
  import opened Text

  datatype Member = Member(key: string, value: Value)

  /** An object keeps the order of its members. */
  datatype Value =
    | Null
    | Bool(b: bool)
    | Number(n: int)
    | Str(s: string)
    | Arr(xs: seq<Value>)
    | Obj(ms: seq<Member>)

  // ---- printing ----

  function HexDigit(d: nat): char
    requires d < 16
  {
    if d < 10 then DigitChar(d) else ('a' as int + (d - 10)) as char
  }

  /** One character inside a string. */
  function Esc(c: char): string {
    if c == '"' then ['\\', '"']
    else if c == '\\' then ['\\', '\\']
    else if c == '\U{0008}' then ['\\', 'b']
    else if c == '\U{000C}' then ['\\', 'f']
    else if c == '\n' then ['\\', 'n']
    else if c == '\r' then ['\\', 'r']
    else if c == '\t' then ['\\', 't']
    else if c < ' ' then ['\\', 'u', '0', '0', HexDigit(c as int / 16), HexDigit(c as int % 16)]
    else [c]
  }

  /** The escaped characters of s, and what follows them. */
  function Chars(s: string, rest: string): string {
    if s == "" then rest else Esc(s[0]) + Chars(s[1..], rest)
  }

  function Quoted(s: string, rest: string): string { ['"'] + Chars(s, ['"'] + rest) }

  function IntText(n: int): (t: string)
    ensures t != ""
  {
    if n < 0 then ['-'] + Digits(-n) else Digits(n)
  }

  function Literal(v: Value): string
    requires v.Null? || v.Bool?
  {
    if v.Null? then "null" else if v.b then "true" else "false"
  }

  function Comma(i: nat): string { if i == 0 then "" else [','] }

  /** The text of v, and what follows it. */
  function Emit(v: Value, rest: string): string
    decreases v, 2, 0
  {
    match v
    case Number(n) => IntText(n) + rest
    case Str(s) => Quoted(s, rest)
    case Arr(_) => ['['] + EmitItems(v, 0, [']'] + rest)
    case Obj(_) => ['{'] + EmitMembers(v, 0, ['}'] + rest)
    case _ => Literal(v) + rest
  }

  function EmitItems(v: Value, i: nat, rest: string): string
    requires v.Arr? && i <= |v.xs|
    decreases v, 1, |v.xs| - i
  {
    if i == |v.xs| then rest else Comma(i) + Emit(v.xs[i], EmitItems(v, i + 1, rest))
  }

  function EmitMembers(v: Value, i: nat, rest: string): string
    requires v.Obj? && i <= |v.ms|
    decreases v, 1, |v.ms| - i
  {
    if i == |v.ms| then rest
    else Comma(i) + Quoted(v.ms[i].key, [':'] + Emit(v.ms[i].value, EmitMembers(v, i + 1, rest)))
  }

  function Compact(v: Value): string { Emit(v, "") }

  // ---- reading strings back ----

  lemma Cancel(p: string, a: string, b: string)
    requires p + a == p + b
    ensures a == b
  {
    assert (p + a)[|p|..] == a && (p + b)[|p|..] == b;
  }

  /** No escape is a prefix of another, or of the closing quote. */
  lemma EscPrefixFree(c: char, d: char, a: string, b: string)
    requires Esc(c) + a == Esc(d) + b
    ensures c == d && a == b
  {
    var x, y := Esc(c) + a, Esc(d) + b;
    assert x[0] == Esc(c)[0] && y[0] == Esc(d)[0];
    if Esc(c)[0] == '\\' {
      assert |Esc(c)| > 1 && |Esc(d)| > 1 && x[1] == Esc(c)[1] && y[1] == Esc(d)[1];
      if Esc(c)[1] == 'u' {
        assert |Esc(c)| > 5 && |Esc(d)| > 5;
        assert x[4] == Esc(c)[4] && y[4] == Esc(d)[4] && x[5] == Esc(c)[5] && y[5] == Esc(d)[5];
        HexInjective(c as int / 16, d as int / 16);
        HexInjective(c as int % 16, d as int % 16);
      }
    }
    Cancel(Esc(c), a, b);
  }

  lemma HexInjective(a: nat, b: nat)
    requires a < 16 && b < 16 && HexDigit(a) == HexDigit(b)
    ensures a == b
  {}

  lemma EscNotQuote(c: char, a: string)
    ensures Esc(c) + a != "" && (Esc(c) + a)[0] != '"'
  {}

  /** Only the end of the string starts with a bare quote. */
  lemma {:induction false} CharsEnd(s: string, a: string)
    ensures var t := Chars(s, ['"'] + a); t != "" && (t[0] == '"' <==> s == "")
  {
    hide Esc;
    if s != "" { EscNotQuote(s[0], Chars(s[1..], ['"'] + a)); }
  }

  lemma {:induction false} CharsReading(s: string, t: string, a: string, b: string)
    requires Chars(s, ['"'] + a) == Chars(t, ['"'] + b)
    ensures s == t && a == b
    decreases |s|
  {
    hide Esc;
    CharsEnd(s, a);
    CharsEnd(t, b);
    if s != "" {
      EscPrefixFree(s[0], t[0], Chars(s[1..], ['"'] + a), Chars(t[1..], ['"'] + b));
      CharsReading(s[1..], t[1..], a, b);
      assert s == [s[0]] + s[1..] && t == [t[0]] + t[1..];
    } else {
      Cancel(['"'], a, b);
    }
  }

  lemma QuotedReading(s: string, t: string, a: string, b: string)
    requires Quoted(s, a) == Quoted(t, b)
    ensures s == t && a == b
  {
    Cancel(['"'], Chars(s, ['"'] + a), Chars(t, ['"'] + b));
    CharsReading(s, t, a, b);
  }

  // ---- reading numbers back ----

  /** What may follow a number. */
  predicate Stops(rest: string) { rest == "" || !IsDigit(rest[0]) }

  lemma DigitsRunOn(s: string, t: string, a: string, b: string)
    requires AllDigits(t) && s + a == t + b && |s| < |t|
    ensures !Stops(a)
  {
    assert (s + a)[|s|] == a[0] && (t + b)[|s|] == t[|s|];
  }

  lemma DigitsReading(s: string, t: string, a: string, b: string)
    requires AllDigits(s) && AllDigits(t) && Stops(a) && Stops(b) && s + a == t + b
    ensures s == t && a == b
  {
    if |s| < |t| {
      DigitsRunOn(s, t, a, b);
    } else if |t| < |s| {
      DigitsRunOn(t, s, b, a);
    } else {
      assert (s + a)[..|s|] == s && (t + b)[..|t|] == t;
      Cancel(s, a, b);
    }
  }

  lemma SignShows(n: int, a: string)
    ensures var t := IntText(n) + a; t != "" && (t[0] == '-' <==> n < 0)
  {
    assert (IntText(n) + a)[0] == IntText(n)[0];
  }

  lemma IntReading(m: int, n: int, a: string, b: string)
    requires Stops(a) && Stops(b) && IntText(m) + a == IntText(n) + b
    ensures m == n && a == b
  {
    hide Digits, Stops, AllDigits;
    SignShows(m, a);
    SignShows(n, b);
    if m < 0 {
      var x, y := Digits(-m), Digits(-n);
      assert (['-'] + x) + a == ['-'] + (x + a) && (['-'] + y) + b == ['-'] + (y + b);
      Cancel(['-'], x + a, y + b);
      DigitsReading(x, y, a, b);
      DigitsInjective(-m, -n);
    } else {
      DigitsReading(Digits(m), Digits(n), a, b);
      DigitsInjective(m, n);
    }
  }

  // ---- reading values back ----

  /** The first character says what kind of value follows. */
  function First(v: Value): char {
    match v
    case Number(n) => IntText(n)[0]
    case Str(_) => '"'
    case Arr(_) => '['
    case Obj(_) => '{'
    case _ => Literal(v)[0]
  }

  lemma {:induction false} EmitStarts(v: Value, rest: string)
    ensures Emit(v, rest) != "" && Emit(v, rest)[0] == First(v)
  {
    hide IntText, Chars, EmitItems, EmitMembers;
    LiteralChars();
  }

  lemma LiteralChars()
    ensures "null"[0] == 'n' && "true"[0] == 't' && "false"[0] == 'f'
  {}

  lemma FirstDistinct(u: Value, v: Value)
    ensures First(u) == First(v) ==>
              (u.Null? <==> v.Null?) && (u.Bool? <==> v.Bool?) && (u.Bool? && v.Bool? ==> u == v)
              && (u.Number? <==> v.Number?) && (u.Str? <==> v.Str?) && (u.Arr? <==> v.Arr?) && (u.Obj? <==> v.Obj?)
    ensures First(u) !in [']', '}', ',']
  {
    hide Digits;
    LiteralChars();
    if u.Number? { NumberChar(u.n); }
    if v.Number? { NumberChar(v.n); }
  }

  lemma NumberChar(n: int)
    ensures IntText(n)[0] == '-' || IsDigit(IntText(n)[0])
  {}

  lemma {:induction false} ValueReading(u: Value, v: Value, a: string, b: string)
    requires Emit(u, a) == Emit(v, b) && Stops(a) && Stops(b)
    ensures u == v && a == b
    decreases u, 2, 0
  {
    hide First, IntText, Quoted, EmitItems, EmitMembers, Literal;
    EmitStarts(u, a);
    EmitStarts(v, b);
    FirstDistinct(u, v);
    match u
    case Number(n) => IntReading(n, v.n, a, b);
    case Str(s) => QuotedReading(s, v.s, a, b);
    case Arr(_) =>
      Cancel(['['], EmitItems(u, 0, [']'] + a), EmitItems(v, 0, [']'] + b));
      ItemsReading(u, v, 0, a, b);
    case Obj(_) =>
      Cancel(['{'], EmitMembers(u, 0, ['}'] + a), EmitMembers(v, 0, ['}'] + b));
      MembersReading(u, v, 0, a, b);
    case _ => Cancel(Literal(u), a, b);
  }

  lemma {:induction false} ItemsReading(u: Value, v: Value, i: nat, a: string, b: string)
    requires u.Arr? && v.Arr? && i <= |u.xs| && i <= |v.xs| && u.xs[..i] == v.xs[..i]
    requires EmitItems(u, i, [']'] + a) == EmitItems(v, i, [']'] + b)
    ensures u == v && a == b
    decreases u, 1, |u.xs| - i
  {
    hide Emit;
    if i == |u.xs| && i == |v.xs| {
      assert u.xs == u.xs[..i] && v.xs == v.xs[..i];
      Cancel([']'], a, b);
    } else if i < |u.xs| && i < |v.xs| {
      var p, q := EmitItems(u, i + 1, [']'] + a), EmitItems(v, i + 1, [']'] + b);
      Cancel(Comma(i), Emit(u.xs[i], p), Emit(v.xs[i], q));
      ItemsStop(u, i + 1, a);
      ItemsStop(v, i + 1, b);
      ValueReading(u.xs[i], v.xs[i], p, q);
      assert u.xs[..i + 1] == u.xs[..i] + [u.xs[i]] && v.xs[..i + 1] == v.xs[..i] + [v.xs[i]];
      ItemsReading(u, v, i + 1, a, b);
    } else {
      ItemsEnd(u, i, a);
      ItemsEnd(v, i, b);
    }
  }

  lemma {:induction false} ItemsStop(v: Value, i: nat, a: string)
    requires v.Arr? && 0 < i <= |v.xs|
    ensures Stops(EmitItems(v, i, [']'] + a))
  {
    hide Emit;
  }

  /** Only the end of the array starts with its bracket. */
  lemma {:induction false} ItemsEnd(v: Value, i: nat, a: string)
    requires v.Arr? && i <= |v.xs|
    ensures var t := EmitItems(v, i, [']'] + a); t != "" && (t[0] == ']' <==> i == |v.xs|)
  {
    hide First, Emit;
    if i < |v.xs| {
      EmitStarts(v.xs[i], EmitItems(v, i + 1, [']'] + a));
      FirstDistinct(v.xs[i], v.xs[i]);
    }
  }

  lemma {:induction false} MembersReading(u: Value, v: Value, i: nat, a: string, b: string)
    requires u.Obj? && v.Obj? && i <= |u.ms| && i <= |v.ms| && u.ms[..i] == v.ms[..i]
    requires EmitMembers(u, i, ['}'] + a) == EmitMembers(v, i, ['}'] + b)
    ensures u == v && a == b
    decreases u, 1, |u.ms| - i
  {
    hide Emit, Quoted;
    if i == |u.ms| && i == |v.ms| {
      assert u.ms == u.ms[..i] && v.ms == v.ms[..i];
      Cancel(['}'], a, b);
    } else if i < |u.ms| && i < |v.ms| {
      var p, q := EmitMembers(u, i + 1, ['}'] + a), EmitMembers(v, i + 1, ['}'] + b);
      var x, y := Emit(u.ms[i].value, p), Emit(v.ms[i].value, q);
      Cancel(Comma(i), Quoted(u.ms[i].key, [':'] + x), Quoted(v.ms[i].key, [':'] + y));
      QuotedReading(u.ms[i].key, v.ms[i].key, [':'] + x, [':'] + y);
      Cancel([':'], x, y);
      MembersStop(u, i + 1, a);
      MembersStop(v, i + 1, b);
      ValueReading(u.ms[i].value, v.ms[i].value, p, q);
      assert u.ms[..i + 1] == u.ms[..i] + [u.ms[i]] && v.ms[..i + 1] == v.ms[..i] + [v.ms[i]];
      MembersReading(u, v, i + 1, a, b);
    } else {
      MembersEnd(u, i, a);
      MembersEnd(v, i, b);
    }
  }

  lemma {:induction false} MembersStop(v: Value, i: nat, a: string)
    requires v.Obj? && 0 < i <= |v.ms|
    ensures Stops(EmitMembers(v, i, ['}'] + a))
  {
    hide Emit;
  }

  lemma {:induction false} MembersEnd(v: Value, i: nat, a: string)
    requires v.Obj? && i <= |v.ms|
    ensures var t := EmitMembers(v, i, ['}'] + a); t != "" && (t[0] == '}' <==> i == |v.ms|)
  {
    hide Emit, Chars;
  }

  /** Two values have the same compact text only if they are the same. */
  lemma CompactInjective(u: Value, v: Value)
    requires Compact(u) == Compact(v)
    ensures u == v
  {
    ValueReading(u, v, "", "");
  }

  // ---- what follows is only appended ----

  lemma {:induction false} CharsAppend(s: string, a: string, b: string)
    ensures Chars(s, a + b) == Chars(s, a) + b
  {
    hide Esc;
    if s != "" {
      CharsAppend(s[1..], a, b);
      assert Esc(s[0]) + (Chars(s[1..], a) + b) == (Esc(s[0]) + Chars(s[1..], a)) + b;
    }
  }

  lemma QuotedAppend(s: string, a: string, b: string)
    ensures Quoted(s, a + b) == Quoted(s, a) + b
  {
    CharsAppend(s, ['"'] + a, b);
    assert ['"'] + (a + b) == (['"'] + a) + b;
    assert ['"'] + (Chars(s, ['"'] + a) + b) == (['"'] + Chars(s, ['"'] + a)) + b;
  }

  lemma {:induction false} EmitAppend(v: Value, a: string, b: string)
    ensures Emit(v, a + b) == Emit(v, a) + b
    decreases v, 2, 0
  {
    hide IntText, Literal, EmitItems, EmitMembers, Quoted;
    match v
    case Number(n) => assert IntText(n) + (a + b) == (IntText(n) + a) + b;
    case Str(s) => QuotedAppend(s, a, b);
    case Arr(_) =>
      ItemsAppend(v, 0, [']'] + a, b);
      assert [']'] + (a + b) == ([']'] + a) + b;
      assert ['['] + (EmitItems(v, 0, [']'] + a) + b) == (['['] + EmitItems(v, 0, [']'] + a)) + b;
    case Obj(_) =>
      MembersAppend(v, 0, ['}'] + a, b);
      assert ['}'] + (a + b) == (['}'] + a) + b;
      assert ['{'] + (EmitMembers(v, 0, ['}'] + a) + b) == (['{'] + EmitMembers(v, 0, ['}'] + a)) + b;
    case _ => assert Literal(v) + (a + b) == (Literal(v) + a) + b;
  }

  lemma {:induction false} ItemsAppend(v: Value, i: nat, a: string, b: string)
    requires v.Arr? && i <= |v.xs|
    ensures EmitItems(v, i, a + b) == EmitItems(v, i, a) + b
    decreases v, 1, |v.xs| - i
  {
    hide Emit;
    if i < |v.xs| {
      var rest := EmitItems(v, i + 1, a);
      ItemsAppend(v, i + 1, a, b);
      EmitAppend(v.xs[i], rest, b);
      assert Comma(i) + (Emit(v.xs[i], rest) + b) == (Comma(i) + Emit(v.xs[i], rest)) + b;
    }
  }

  lemma {:induction false} MembersAppend(v: Value, i: nat, a: string, b: string)
    requires v.Obj? && i <= |v.ms|
    ensures EmitMembers(v, i, a + b) == EmitMembers(v, i, a) + b
    decreases v, 1, |v.ms| - i
  {
    hide Emit, Quoted;
    if i < |v.ms| {
      var rest := EmitMembers(v, i + 1, a);
      var x := Emit(v.ms[i].value, rest);
      MembersAppend(v, i + 1, a, b);
      EmitAppend(v.ms[i].value, rest, b);
      assert [':'] + (x + b) == ([':'] + x) + b;
      QuotedAppend(v.ms[i].key, [':'] + x, b);
      assert Comma(i) + (Quoted(v.ms[i].key, [':'] + x) + b) == (Comma(i) + Quoted(v.ms[i].key, [':'] + x)) + b;
    }
  }

  lemma {:induction false} EmitIsCompact(v: Value, rest: string)
    ensures Emit(v, rest) == Compact(v) + rest
  {
    EmitAppend(v, "", rest);
    assert "" + rest == rest;
  }
}
