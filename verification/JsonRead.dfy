/** Reading JSON by its grammar (RFC 8259, sections 2 to 7; numbers without fraction and
    exponent): the printers' text is read back as the value it was printed from. */
module JsonRead {
  import opened Types
  import opened Text
  import opened Json
  import Canonical

  /** Section 2: insignificant white space. */
  function Ws(t: string): (r: string)
    ensures |r| <= |t|
  {
    if t != "" && t[0] in [' ', '\t', '\n', '\r'] then Ws(t[1..]) else t
  }

  // ---- strings, section 7 ----

  function HexValue(c: char): Option<nat> {
    if '0' <= c <= '9' then Some(c as int - '0' as int)
    else if 'a' <= c <= 'f' then Some(c as int - 'a' as int + 10)
    else if 'A' <= c <= 'F' then Some(c as int - 'A' as int + 10)
    else None
  }

  /** Four hexadecimal digits; halves of a surrogate pair, which no printer here writes,
      are not read. */
  function ReadHex(t: string): Option<char> {
    if |t| < 4 || HexValue(t[0]).None? || HexValue(t[1]).None? || HexValue(t[2]).None? || HexValue(t[3]).None? then None
    else
      var n := ((HexValue(t[0]).value * 16 + HexValue(t[1]).value) * 16 + HexValue(t[2]).value) * 16
               + HexValue(t[3]).value;
      if 0 <= n < 0xD800 || 0xE000 <= n < 0x10000 then Some(n as char) else None
  }

  /** One character of a string, escaped or not. */
  function ReadChar(t: string): (r: Option<(char, string)>)
    ensures r.Some? ==> |r.value.1| < |t|
  {
    if t == "" || t[0] < ' ' || t[0] == '"' then None
    else if t[0] != '\\' then Some((t[0], t[1..]))
    else if |t| < 2 then None
    else match t[1]
      case '"' => Some(('"', t[2..]))
      case '\\' => Some(('\\', t[2..]))
      case '/' => Some(('/', t[2..]))
      case 'b' => Some(('\U{0008}', t[2..]))
      case 'f' => Some(('\U{000C}', t[2..]))
      case 'n' => Some(('\U{000A}', t[2..]))
      case 'r' => Some(('\U{000D}', t[2..]))
      case 't' => Some(('\U{0009}', t[2..]))
      case 'u' => if ReadHex(t[2..]).Some? then Some((ReadHex(t[2..]).value, t[6..])) else None
      case _ => None
  }

  /** The characters up to the closing quote. */
  function ReadChars(t: string): (r: Option<(string, string)>)
    ensures r.Some? ==> |r.value.1| < |t|
    decreases |t|
  {
    if t != "" && t[0] == '"' then Some(("", t[1..]))
    else
      var c := ReadChar(t);
      if c.None? then None
      else
        var s := ReadChars(c.value.1);
        if s.None? then None else Some(([c.value.0] + s.value.0, s.value.1))
  }

  function ReadString(t: string): (r: Option<(string, string)>)
    ensures r.Some? ==> |r.value.1| < |t|
  {
    if t != "" && t[0] == '"' then ReadChars(t[1..]) else None
  }

  // ---- numbers, section 6 ----

  /** The number decimal digits denote. */
  function Decimal(s: string): nat
    requires AllDigits(s)
  {
    if s == "" then 0 else 10 * Decimal(s[..|s| - 1]) + HexValue(s[|s| - 1]).value
  }

  function DigitRun(t: string): (n: nat)
    ensures n <= |t| && AllDigits(t[..n])
  {
    if t != "" && IsDigit(t[0]) then
      var n := 1 + DigitRun(t[1..]);
      assert t[..n] == [t[0]] + t[1..][..n - 1];
      n
    else 0
  }

  /** No leading zero, and nothing that would make it a fraction or a power. */
  function ReadNatural(t: string): (r: Option<(nat, string)>)
    ensures r.Some? ==> |r.value.1| < |t|
  {
    var n := DigitRun(t);
    if n == 0 || (n > 1 && t[0] == '0') || (n < |t| && t[n] in ['.', 'e', 'E']) then None
    else Some((Decimal(t[..n]), t[n..]))
  }

  function ReadNumber(t: string): (r: Option<(Value, string)>)
    ensures r.Some? ==> |r.value.1| < |t|
  {
    if t != "" && t[0] == '-' then
      var n := ReadNatural(t[1..]);
      if n.None? then None else Some((Number(0 - n.value.0 as int), n.value.1))
    else
      var n := ReadNatural(t);
      if n.None? then None else Some((Number(n.value.0), n.value.1))
  }

  // ---- values, sections 3 to 5 ----

  function ReadValue(text: string): (r: Option<(Value, string)>)
    ensures r.Some? ==> |r.value.1| < |text|
    decreases |text|, 1
  {
    var t := Ws(text);
    if t == "" then None
    else if StartsWith(t, "null") then Some((Null, t[4..]))
    else if StartsWith(t, "true") then Some((Bool(true), t[4..]))
    else if StartsWith(t, "false") then Some((Bool(false), t[5..]))
    else match t[0]
      case '"' =>
        var s := ReadString(t);
        if s.None? then None else Some((Str(s.value.0), s.value.1))
      case '[' =>
        var start := Ws(t[1..]);
        if start != "" && start[0] == ']' then Some((Arr([]), start[1..]))
        else
          var x := ReadValue(start);
          if x.None? then None
          else
            var xs := ReadItems(x.value.1);
            if xs.None? then None else Some((Arr([x.value.0] + xs.value.0), xs.value.1))
      case '{' =>
        var start := Ws(t[1..]);
        if start != "" && start[0] == '}' then Some((Obj([]), start[1..]))
        else
          var m := ReadMember(start);
          if m.None? then None
          else
            var ms := ReadMembers(m.value.1);
            if ms.None? then None else Some((Obj([m.value.0] + ms.value.0), ms.value.1))
      case _ => ReadNumber(t)
  }

  /** What follows an item of an array. */
  function ReadItems(text: string): (r: Option<(seq<Value>, string)>)
    ensures r.Some? ==> |r.value.1| < |text|
    decreases |text|, 0
  {
    var t := Ws(text);
    if t == "" then None
    else if t[0] == ']' then Some(([], t[1..]))
    else if t[0] != ',' then None
    else
      var x := ReadValue(t[1..]);
      if x.None? then None
      else
        var xs := ReadItems(x.value.1);
        if xs.None? then None else Some(([x.value.0] + xs.value.0, xs.value.1))
  }

  function ReadMember(text: string): (r: Option<(Member, string)>)
    ensures r.Some? ==> |r.value.1| < |text|
    decreases |text|, 0
  {
    var key := ReadString(Ws(text));
    if key.None? then None
    else
      var t := Ws(key.value.1);
      if t == "" || t[0] != ':' then None
      else
        var x := ReadValue(t[1..]);
        if x.None? then None else Some((Member(key.value.0, x.value.0), x.value.1))
  }

  function ReadMembers(text: string): (r: Option<(seq<Member>, string)>)
    ensures r.Some? ==> |r.value.1| < |text|
    decreases |text|, 0
  {
    var t := Ws(text);
    if t == "" then None
    else if t[0] == '}' then Some(([], t[1..]))
    else if t[0] != ',' then None
    else
      var m := ReadMember(t[1..]);
      if m.None? then None
      else
        var ms := ReadMembers(m.value.1);
        if ms.None? then None else Some(([m.value.0] + ms.value.0, ms.value.1))
  }

  /** A JSON text: one value, and white space around it. */
  function ReadText(text: string): Option<Value> {
    var r := ReadValue(text);
    if r.Some? && Ws(r.value.1) == "" then Some(r.value.0) else None
  }

  // ---- strings are read back ----

  lemma HexIsRead(d: nat)
    requires d < 16
    ensures HexValue(HexDigit(d)) == Some(d)
  {}

  lemma ControlIsRead(c: char, a: string)
    requires c < ' '
    ensures ReadHex(['0', '0', HexDigit(c as int / 16), HexDigit(c as int % 16)] + a) == Some(c)
  {
    hide HexDigit;
    var x, y := c as int / 16, c as int % 16;
    HexIsRead(x);
    HexIsRead(y);
    var t := ['0', '0', HexDigit(x), HexDigit(y)] + a;
    assert HexValue(t[0]) == Some(0) && HexValue(t[1]) == Some(0);
    assert 16 * x + y == c as int;
  }

  lemma {:induction false} CharIsRead(c: char, a: string)
    ensures ReadChar(Esc(c) + a) == Some((c, a))
  {
    hide ReadHex, HexDigit;
    var t := Esc(c) + a;
    assert t[|Esc(c)|..] == a;
    if Esc(c)[0] == '\\' && Esc(c)[1] == 'u' {
      ControlIsRead(c, a);
      assert t[2..] == ['0', '0', HexDigit(c as int / 16), HexDigit(c as int % 16)] + a;
    }
  }

  lemma {:induction false} CharsAreRead(s: string, a: string)
    ensures ReadChars(Chars(s, ['"'] + a)) == Some((s, a))
    decreases |s|
  {
    hide Esc, ReadChar;
    if s == "" {
      assert (['"'] + a)[1..] == a;
    } else {
      var rest := Chars(s[1..], ['"'] + a);
      EscNotQuote(s[0], rest);
      CharIsRead(s[0], rest);
      CharsAreRead(s[1..], a);
      assert [s[0]] + s[1..] == s;
    }
  }

  lemma StringIsRead(s: string, a: string)
    ensures ReadString(Quoted(s, a)) == Some((s, a))
  {
    CharsAreRead(s, a);
    assert Quoted(s, a)[1..] == Chars(s, ['"'] + a);
  }

  // ---- numbers are read back ----

  lemma {:induction false} DecimalOfDigits(n: nat)
    ensures Decimal(Digits(n)) == n
  {
    if n >= 10 {
      var s := Digits(n);
      assert s[..|s| - 1] == Digits(n / 10);
      DecimalOfDigits(n / 10);
    }
  }

  /** Nothing that would go on with a number. */
  predicate Ends(a: string) { a == "" || (!IsDigit(a[0]) && a[0] !in ['.', 'e', 'E']) }

  lemma {:induction false} RunIs(d: string, a: string)
    requires AllDigits(d) && (a == "" || !IsDigit(a[0]))
    ensures DigitRun(d + a) == |d|
    decreases |d|
  {
    if d == "" {
      assert d + a == a;
    } else {
      assert (d + a)[1..] == d[1..] + a;
      RunIs(d[1..], a);
    }
  }

  lemma {:induction false} NaturalIsRead(n: nat, a: string)
    requires Ends(a)
    ensures ReadNatural(Digits(n) + a) == Some((n, a))
  {
    hide Digits, Decimal, DigitRun;
    var d, t := Digits(n), Digits(n) + a;
    RunIs(d, a);
    DecimalOfDigits(n);
    NoLeadingZero(n);
    assert t[..|d|] == d && t[|d|..] == a && t[0] == d[0];
  }

  lemma {:induction false} NoLeadingZero(n: nat)
    ensures |Digits(n)| > 1 ==> Digits(n)[0] != '0'
  {}

  lemma {:induction false} NumberIsRead(n: int, a: string)
    requires Ends(a)
    ensures ReadNumber(IntText(n) + a) == Some((Number(n), a))
  {
    hide Digits, ReadNatural;
    var t := IntText(n) + a;
    if n < 0 {
      NaturalIsRead(-n, a);
      assert t[0] == '-' && t[1..] == Digits(-n) + a;
    } else {
      NaturalIsRead(n, a);
      assert t[0] == Digits(n)[0];
    }
  }

  // ---- values are read back ----

  /** A printed value starts with the character of its kind, and that is no space. */
  lemma {:induction false} StartsBare(v: Value, a: string)
    ensures var t := Emit(v, a);
            t != "" && Ws(t) == t && t[0] == First(v)
            && (t[0] == '"' <==> v.Str?) && (t[0] == '[' <==> v.Arr?) && (t[0] == '{' <==> v.Obj?)
            && (t[0] in ['n', 't', 'f'] <==> v.Null? || v.Bool?) && t[0] !in [']', '}', ',']
  {
    hide Emit, IntText, Ws;
    EmitStarts(v, a);
    LiteralChars();
    if v.Number? { NumberChar(v.n); }
    NoSpace(Emit(v, a));
  }

  lemma {:induction false} NoSpace(t: string)
    requires t != "" && t[0] !in [' ', '\t', '\n', '\r']
    ensures Ws(t) == t
  {}

  lemma NoLiteral(t: string)
    requires t != "" && t[0] !in ['n', 't', 'f']
    ensures !StartsWith(t, "null") && !StartsWith(t, "true") && !StartsWith(t, "false")
  {
    LiteralChars();
    assert |t| >= 4 ==> t[..4][0] == t[0];
    assert |t| >= 5 ==> t[..5][0] == t[0];
  }

  lemma {:induction false} LiteralIsRead(v: Value, a: string)
    requires v.Null? || v.Bool?
    ensures ReadValue(Literal(v) + a) == Some((v, a))
  {
    hide Ws, ReadItems, ReadMembers, ReadMember, ReadNumber, ReadString;
    var l, t := Literal(v), Literal(v) + a;
    LiteralChars();
    assert t[0] == l[0];
    NoSpace(t);
    assert t[..|l|] == l && t[|l|..] == a;
    assert t[..4][0] == t[0];
  }

  lemma {:induction false} ValueIsRead(v: Value, a: string)
    requires Ends(a)
    ensures ReadValue(Emit(v, a)) == Some((v, a))
    decreases v, 2, 0
  {
    hide Ws, ReadItems, ReadMembers, ReadMember, ReadNumber, ReadString, StartsWith, First, EmitItems, EmitMembers,
         IntText, Quoted, ReadValue;
    match v
    case Number(n) =>
      NumberIsRead(n, a);
      OtherwiseNumber(v, a);
    case Str(s) =>
      StringIsRead(s, a);
      ReadsString(v, a);
    case Arr(_) => ArrayIsRead(v, a);
    case Obj(_) => ObjectIsRead(v, a);
    case _ => LiteralIsRead(v, a);
  }

  lemma {:induction false} OtherwiseNumber(v: Value, a: string)
    requires v.Number?
    ensures ReadValue(Emit(v, a)) == ReadNumber(Emit(v, a))
  {
    hide Ws, ReadItems, ReadMembers, ReadMember, ReadNumber, ReadString, StartsWith, First, IntText, Emit;
    StartsBare(v, a);
    NoLiteral(Emit(v, a));
  }

  lemma {:induction false} ReadsString(v: Value, a: string)
    requires v.Str? && ReadString(Emit(v, a)) == Some((v.s, a))
    ensures ReadValue(Emit(v, a)) == Some((v, a))
  {
    hide Ws, ReadItems, ReadMembers, ReadMember, ReadNumber, ReadString, StartsWith, First, Emit;
    StartsBare(v, a);
    NoLiteral(Emit(v, a));
  }

  lemma {:induction false} ArrayIsRead(v: Value, a: string)
    requires v.Arr?
    ensures ReadValue(Emit(v, a)) == Some((v, a))
    decreases v, 1, |v.xs| + 1
  {
    hide Ws, ReadMembers, ReadMember, ReadNumber, ReadString, StartsWith, First, ReadItems;
    var t, inner := Emit(v, a), EmitItems(v, 0, [']'] + a);
    StartsBare(v, a);
    NoLiteral(t);
    assert t[1..] == inner;
    if v.xs == [] {
      NoSpace([']'] + a);
      assert ([']'] + a)[1..] == a;
    } else {
      var rest := EmitItems(v, 1, [']'] + a);
      assert "" + Emit(v.xs[0], rest) == Emit(v.xs[0], rest) && inner == Emit(v.xs[0], rest);
      StartsBare(v.xs[0], rest);
      ItemsLeave(v, 1, a);
      ValueIsRead(v.xs[0], rest);
      ItemsAreRead(v, 1, a);
      assert [v.xs[0]] + v.xs[1..] == v.xs;
    }
  }

  lemma {:induction false} ItemsLeave(v: Value, i: nat, a: string)
    requires v.Arr? && 0 < i <= |v.xs|
    ensures Ends(EmitItems(v, i, [']'] + a))
  {
    hide Emit;
  }

  lemma {:induction false} ItemsAreRead(v: Value, i: nat, a: string)
    requires v.Arr? && 0 < i <= |v.xs|
    ensures ReadItems(EmitItems(v, i, [']'] + a)) == Some((v.xs[i..], a))
    decreases v, 1, |v.xs| - i
  {
    hide Ws, Emit, ReadValue;
    var t := EmitItems(v, i, [']'] + a);
    NoSpace(t);
    if i == |v.xs| {
      assert t[1..] == a;
    } else {
      var rest := EmitItems(v, i + 1, [']'] + a);
      assert t[1..] == Emit(v.xs[i], rest);
      ItemsLeave(v, i + 1, a);
      ValueIsRead(v.xs[i], rest);
      ItemsAreRead(v, i + 1, a);
      assert [v.xs[i]] + v.xs[i + 1..] == v.xs[i..];
    }
  }

  lemma {:induction false} ObjectIsRead(v: Value, a: string)
    requires v.Obj?
    ensures ReadValue(Emit(v, a)) == Some((v, a))
    decreases v, 1, |v.ms| + 2
  {
    hide Ws, ReadItems, ReadMember, ReadMembers, ReadNumber, ReadString, StartsWith, First, Quoted;
    var t, inner := Emit(v, a), EmitMembers(v, 0, ['}'] + a);
    StartsBare(v, a);
    NoLiteral(t);
    assert t[1..] == inner;
    if v.ms == [] {
      NoSpace(['}'] + a);
      assert (['}'] + a)[1..] == a;
    } else {
      var m, rest := v.ms[0], EmitMembers(v, 1, ['}'] + a);
      assert inner == Quoted(m.key, [':'] + Emit(m.value, rest));
      QuoteStarts(m.key, [':'] + Emit(m.value, rest));
      MembersLeave(v, 1, a);
      MemberIsRead(v, 0, rest);
      MembersAreRead(v, 1, a);
      assert [m] + v.ms[1..] == v.ms;
    }
  }

  lemma QuoteStarts(s: string, a: string)
    ensures Quoted(s, a) != "" && Quoted(s, a)[0] == '"' && Ws(Quoted(s, a)) == Quoted(s, a)
  {
    NoSpace(Quoted(s, a));
  }

  lemma {:induction false} MembersLeave(v: Value, i: nat, a: string)
    requires v.Obj? && 0 < i <= |v.ms|
    ensures Ends(EmitMembers(v, i, ['}'] + a))
  {
    hide Emit;
  }

  lemma {:induction false} MemberIsRead(v: Value, i: nat, rest: string)
    requires v.Obj? && i < |v.ms| && Ends(rest)
    ensures ReadMember(Quoted(v.ms[i].key, [':'] + Emit(v.ms[i].value, rest))) == Some((v.ms[i], rest))
    decreases v, 1, 0
  {
    hide Ws, Emit, ReadValue, ReadString, Quoted;
    var x := Emit(v.ms[i].value, rest);
    QuoteStarts(v.ms[i].key, [':'] + x);
    StringIsRead(v.ms[i].key, [':'] + x);
    NoSpace([':'] + x);
    assert ([':'] + x)[1..] == x;
    ValueIsRead(v.ms[i].value, rest);
  }

  lemma {:induction false} MembersAreRead(v: Value, i: nat, a: string)
    requires v.Obj? && 0 < i <= |v.ms|
    ensures ReadMembers(EmitMembers(v, i, ['}'] + a)) == Some((v.ms[i..], a))
    decreases v, 1, |v.ms| - i + 1
  {
    hide Ws, Emit, ReadMember, Quoted;
    var t := EmitMembers(v, i, ['}'] + a);
    NoSpace(t);
    if i == |v.ms| {
      assert t[1..] == a;
    } else {
      var m, rest := v.ms[i], EmitMembers(v, i + 1, ['}'] + a);
      assert t[1..] == Quoted(m.key, [':'] + Emit(m.value, rest));
      MembersLeave(v, i + 1, a);
      MemberIsRead(v, i, rest);
      MembersAreRead(v, i + 1, a);
      assert [m] + v.ms[i + 1..] == v.ms[i..];
    }
  }

  /** The compact text of a value is JSON, and reads as that value. */
  lemma {:induction false} CompactIsRead(v: Value)
    ensures ReadText(Compact(v)) == Some(v)
  {
    hide ReadValue, Emit;
    ValueIsRead(v, "");
  }

  /** The canonical text reads as a value that is the same as JSON, with its keys in order. */
  lemma {:induction false} CanonicalIsRead(v: Value)
    ensures var w := ReadText(Canonical.CanonicalJson(v));
            w.Some? && Canonical.Same(v, w.value) && Canonical.KeysInOrder(w.value)
  {
    hide ReadText, Compact, Canonical.Same, Canonical.KeysInOrder, Canonical.CanonicalJson;
    Canonical.CanonicalInOrder(v);
    CompactIsRead(Canonical.Normal(v));
  }
}
