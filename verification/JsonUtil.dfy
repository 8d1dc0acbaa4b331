/** Finding the first JSON object in a model reply (crates/wanax-llm/src/jsonutil.rs).
    The scanner only looks at ASCII bytes, which in UTF-8 never occur inside
    another character, so characters stand for bytes. */
module JsonUtil {
  import opened Types
  import opened Text
  import opened Json

  // ---- the part of the reply that is searched ----

  const FENCE := ['`', '`', '`']
  const JSON_FENCE := FENCE + "json"

  /** First position of `p` in s, or |s| if there is none. */
  function FindText(s: string, p: string): (k: nat)
    ensures k <= |s|
  {
    if s == "" || StartsWith(s, p) then 0 else 1 + FindText(s[1..], p)
  }

  /** What a fence encloses; everything after it when it is not closed. */
  function Fenced(rest: string): string {
    Trim(rest[..FindText(rest, FENCE)])
  }

  function BodyOf(text: string): string {
    var trimmed := Trim(text);
    if StartsWith(trimmed, JSON_FENCE) then Fenced(trimmed[|JSON_FENCE|..])
    else if StartsWith(trimmed, FENCE) then Fenced(trimmed[|FENCE|..])
    else trimmed
  }

  // ---- what the scanner keeps track of ----

  datatype Scan = Scan(depth: int, inStr: bool, escape: bool)

  function Next(s: Scan, c: char): Scan {
    if s.inStr then
      if s.escape then s.(escape := false)
      else if c == '\\' then s.(escape := true)
      else if c == '"' then s.(inStr := false)
      else s
    else if c == '"' then s.(inStr := true)
    else if c == '{' then s.(depth := s.depth + 1)
    else if c == '}' then s.(depth := s.depth - 1)
    else s
  }

  function Run(s: Scan, t: string): Scan {
    if t == "" then s else Next(Run(s, t[..|t| - 1]), t[|t| - 1])
  }

  const AT_START := Scan(0, false, false)

  /** Braces outside strings balance over t, and t does not end inside a string. */
  predicate Balanced(t: string) { t != "" && Run(AT_START, t).depth == 0 && !Run(AT_START, t).inStr }

  /** r is the shortest balanced beginning of t. */
  predicate ShortestBalanced(t: string, r: string) {
    r <= t && Balanced(r) && forall k :: 0 < k < |r| ==> !Balanced(t[..k])
  }

  /** The first opening brace and everything after it. */
  function FromBrace(body: string): string { body[Find(body, '{')..] }

  lemma {:induction false} RunSnoc(s: Scan, t: string, k: nat)
    requires k < |t|
    ensures Run(s, t[..k + 1]) == Next(Run(s, t[..k]), t[k])
  {
    assert t[..k + 1][..k] == t[..k];
  }

  method ExtractJsonObject(text: string) returns (r: Option<string>)
    ensures r.Some? ==> ShortestBalanced(FromBrace(BodyOf(text)), r.value)
    ensures r.None? ==> forall k :: 0 <= k <= |FromBrace(BodyOf(text))| ==> !Balanced(FromBrace(BodyOf(text))[..k])
  {
    hide BodyOf, Run, Next;
    var body := BodyOf(text);
    var start := Find(body, '{');
    ghost var t := FromBrace(body);
    NothingBalanced();
    if start == |body| { return None; }
    var depth, inStr, escape := 0, false, false;
    OpeningBrace(t);
    for i := start to |body|
      invariant Scan(depth, inStr, escape) == Run(AT_START, t[..i - start])
      invariant i > start ==> depth > 0
      invariant forall k :: 0 <= k <= i - start ==> !Balanced(t[..k])
    {
      var b := body[i];
      var n := i - start;
      assert t[n] == b;
      RunSnoc(AT_START, t, n);
      NextCases(Run(AT_START, t[..n]), b);
      if inStr {
        if escape {
          escape := false;
        } else if b == '\\' {
          escape := true;
        } else if b == '"' {
          inStr := false;
        }
        continue;
      }
      match b
      case '"' => inStr := true;
      case '{' => depth := depth + 1;
      case '}' =>
        depth := depth - 1;
        if depth == 0 {
          assert body[start..i + 1] == t[..n + 1];
          return Some(body[start..i + 1]);
        }
      case _ =>
    }
    return None;
  }

  lemma NextCases(s: Scan, c: char)
    ensures Next(s, c) == if s.inStr then s.(escape := !s.escape && c == '\\', inStr := s.escape || c != '"')
                          else s.(inStr := c == '"',
                                  depth := s.depth + (if c == '{' then 1 else if c == '}' then -1 else 0))
  {}

  lemma NothingBalanced()
    ensures !Balanced("")
  {}

  lemma OpeningBrace(t: string)
    requires t != "" && t[0] == '{'
    ensures t[..0] == "" && Run(AT_START, "") == AT_START
  {}

  // ---- the scanner undoes the printer ----

  /** Reading n characters of t leads from state a to state b before u, never below
      the floor. */
  predicate Reach(a: Scan, t: string, b: Scan, u: string, floor: int, n: nat)
    decreases n
  {
    && a.depth >= floor
    && if n == 0 then a == b && t == u else t != "" && Reach(Next(a, t[0]), t[1..], b, u, floor, n - 1)
  }

  lemma {:induction false} ReachTwice(a: Scan, t: string, b: Scan, u: string, c: Scan, w: string, floor: int, m: nat,
                                      n: nat)
    requires Reach(a, t, b, u, floor, m) && Reach(b, u, c, w, floor, n)
    ensures Reach(a, t, c, w, floor, m + n)
    decreases m
  {
    hide Next;
    if m > 0 { ReachTwice(Next(a, t[0]), t[1..], b, u, c, w, floor, m - 1, n); }
  }

  lemma {:induction false} LowerFloor(a: Scan, t: string, b: Scan, u: string, floor: int, lower: int, n: nat)
    requires Reach(a, t, b, u, floor, n) && lower <= floor
    ensures Reach(a, t, b, u, lower, n)
    decreases n
  {
    hide Next;
    if n > 0 { LowerFloor(Next(a, t[0]), t[1..], b, u, floor, lower, n - 1); }
  }

  lemma {:induction false} ReachOne(a: Scan, c: char, u: string, floor: int)
    requires a.depth >= floor && Next(a, c).depth >= floor
    ensures Reach(a, [c] + u, Next(a, c), u, floor, 1)
  {
    hide Next;
    var t := [c] + u;
    assert t[0] == c && t[1..] == u;
    assert Reach(Next(a, c), u, Next(a, c), u, floor, 0);
  }

  function Outside(d: int): Scan { Scan(d, false, false) }
  function Inside(d: int): Scan { Scan(d, true, false) }

  predicate NoMarks(p: string) { '"' !in p && '{' !in p && '}' !in p }

  lemma {:induction false} PlainReach(d: int, p: string, u: string)
    requires NoMarks(p)
    ensures Reach(Outside(d), p + u, Outside(d), u, d, |p|)
  {
    if p == "" {
      assert p + u == u;
    } else {
      assert p[0] in p;
      assert forall c :: c in p[1..] ==> c in p;
      PlainReach(d, p[1..], u);
      assert (p + u)[1..] == p[1..] + u;
    }
  }

  lemma {:induction false} EscReach(d: int, c: char, u: string)
    ensures Reach(Inside(d), Esc(c) + u, Inside(d), u, d, |Esc(c)|)
  {
    var e := Esc(c);
    if |e| == 1 {
      InsidePlain(d, e, u);
    } else {
      var escaped := Scan(d, true, true);
      ReachOne(Inside(d), e[0], e[1..] + u, d);
      ReachOne(escaped, e[1], e[2..] + u, d);
      assert [e[0]] + (e[1..] + u) == e + u && [e[1]] + (e[2..] + u) == e[1..] + u;
      InsidePlain(d, e[2..], u);
      ReachTwice(escaped, e[1..] + u, Inside(d), e[2..] + u, Inside(d), u, d, 1, |e| - 2);
      ReachTwice(Inside(d), e + u, escaped, e[1..] + u, Inside(d), u, d, 1, |e| - 1);
    }
  }

  lemma {:induction false} InsidePlain(d: int, p: string, u: string)
    requires '"' !in p && '\\' !in p
    ensures Reach(Inside(d), p + u, Inside(d), u, d, |p|)
  {
    if p == "" {
      assert p + u == u;
    } else {
      assert p[0] in p;
      assert forall c :: c in p[1..] ==> c in p;
      InsidePlain(d, p[1..], u);
      assert (p + u)[1..] == p[1..] + u;
    }
  }

  lemma {:induction false} CharsReach(d: int, s: string, u: string) returns (n: nat)
    ensures Reach(Inside(d), Chars(s, u), Inside(d), u, d, n)
  {
    hide Esc, Next;
    if s == "" {
      n := 0;
    } else {
      var rest := Chars(s[1..], u);
      var k := CharsReach(d, s[1..], u);
      EscReach(d, s[0], rest);
      ReachTwice(Inside(d), Chars(s, u), Inside(d), rest, Inside(d), u, d, |Esc(s[0])|, k);
      n := |Esc(s[0])| + k;
    }
  }

  lemma QuotedReach(d: int, s: string, u: string) returns (n: nat)
    ensures Reach(Outside(d), Quoted(s, u), Outside(d), u, d, n)
  {
    var close := ['"'] + u;
    var body := Chars(s, close);
    ReachOne(Outside(d), '"', body, d);
    var k := CharsReach(d, s, close);
    ReachOne(Inside(d), '"', u, d);
    ReachTwice(Inside(d), body, Inside(d), close, Outside(d), u, d, k, 1);
    ReachTwice(Outside(d), Quoted(s, u), Inside(d), body, Outside(d), u, d, 1, k + 1);
    n := 1 + (k + 1);
  }

  lemma NumbersPlain(n: int)
    ensures NoMarks(IntText(n))
  {
    var t := IntText(n);
    forall i | 0 <= i < |t| ensures t[i] == '-' || IsDigit(t[i]) {
      if n < 0 { assert t[0] == '-'; if i > 0 { assert t[i] == Digits(-n)[i - 1]; } }
    }
  }

  lemma LiteralsPlain(v: Value)
    requires v.Null? || v.Bool?
    ensures NoMarks(Literal(v))
  {}

  /** Any printed value is passed over, and never drops below where it started. */
  lemma {:induction false} ValueReach(d: int, v: Value, u: string) returns (n: nat)
    ensures Reach(Outside(d), Emit(v, u), Outside(d), u, d, n)
    decreases v, 2, 0
  {
    hide Reach, Next, IntText, Literal, Quoted, EmitItems, EmitMembers, NoMarks;
    match v
    case Number(m) =>
      NumbersPlain(m);
      PlainReach(d, IntText(m), u);
      n := |IntText(m)|;
    case Str(s) => n := QuotedReach(d, s, u);
    case Arr(_) =>
      var k := ItemsReach(d, v, 0, [']'] + u);
      BracketReach(d, '[', EmitItems(v, 0, [']'] + u));
      BracketReach(d, ']', u);
      ReachTwice(Outside(d), EmitItems(v, 0, [']'] + u), Outside(d), [']'] + u, Outside(d), u, d, k, 1);
      ReachTwice(Outside(d), Emit(v, u), Outside(d), EmitItems(v, 0, [']'] + u), Outside(d), u, d, 1, k + 1);
      n := 1 + (k + 1);
    case Obj(_) => n := ObjectReach(d, v, u);
    case _ =>
      LiteralsPlain(v);
      PlainReach(d, Literal(v), u);
      n := |Literal(v)|;
  }

  lemma {:induction false} BracketReach(d: int, c: char, u: string)
    requires c == '[' || c == ']' || c == ',' || c == ':'
    ensures Reach(Outside(d), [c] + u, Outside(d), u, d, 1)
  {
    ReachOne(Outside(d), c, u, d);
  }

  lemma {:induction false} ItemsReach(d: int, v: Value, i: nat, u: string) returns (n: nat)
    requires v.Arr? && i <= |v.xs|
    ensures Reach(Outside(d), EmitItems(v, i, u), Outside(d), u, d, n)
    decreases v, 1, |v.xs| - i
  {
    hide Next, Emit;
    if i == |v.xs| {
      n := 0;
    } else {
      var rest := EmitItems(v, i + 1, u);
      var k := ItemsReach(d, v, i + 1, u);
      var m := ValueReach(d, v.xs[i], rest);
      ReachTwice(Outside(d), Emit(v.xs[i], rest), Outside(d), rest, Outside(d), u, d, m, k);
      n := CommaReach(d, i, Emit(v.xs[i], rest), u, m + k);
    }
  }

  lemma CommaReach(d: int, i: nat, t: string, u: string, k: nat) returns (n: nat)
    requires Reach(Outside(d), t, Outside(d), u, d, k)
    ensures Reach(Outside(d), Comma(i) + t, Outside(d), u, d, n)
  {
    hide Next, Reach;
    if i == 0 {
      assert Comma(i) + t == t;
      n := k;
    } else {
      BracketReach(d, ',', t);
      ReachTwice(Outside(d), [','] + t, Outside(d), t, Outside(d), u, d, 1, k);
      n := 1 + k;
    }
  }

  lemma {:induction false} MembersReach(d: int, v: Value, i: nat, u: string) returns (n: nat)
    requires v.Obj? && i <= |v.ms|
    ensures Reach(Outside(d), EmitMembers(v, i, u), Outside(d), u, d, n)
    decreases v, 1, |v.ms| - i
  {
    hide Next, Emit, Quoted;
    if i == |v.ms| {
      n := 0;
    } else {
      var rest := EmitMembers(v, i + 1, u);
      var x := Emit(v.ms[i].value, rest);
      var k := MembersReach(d, v, i + 1, u);
      var m := ValueReach(d, v.ms[i].value, rest);
      ReachTwice(Outside(d), x, Outside(d), rest, Outside(d), u, d, m, k);
      BracketReach(d, ':', x);
      ReachTwice(Outside(d), [':'] + x, Outside(d), x, Outside(d), u, d, 1, m + k);
      var q := QuotedReach(d, v.ms[i].key, [':'] + x);
      ReachTwice(Outside(d), Quoted(v.ms[i].key, [':'] + x), Outside(d), [':'] + x, Outside(d), u, d, q, 1 + (m + k));
      n := CommaReach(d, i, Quoted(v.ms[i].key, [':'] + x), u, q + (1 + (m + k)));
    }
  }

  /** The inside of an object stays one level deeper. */
  lemma {:induction false} InnerReach(d: int, v: Value, u: string) returns (n: nat)
    requires v.Obj?
    ensures Reach(Outside(d + 1), EmitMembers(v, 0, ['}'] + u), Outside(d + 1), ['}'] + u, d + 1, n)
    decreases v, 1, |v.ms| + 1
  {
    n := MembersReach(d + 1, v, 0, ['}'] + u);
  }

  lemma {:induction false} ObjectReach(d: int, v: Value, u: string) returns (n: nat)
    requires v.Obj?
    ensures Reach(Outside(d), Emit(v, u), Outside(d), u, d, n)
    decreases v, 1, |v.ms| + 2
  {
    hide EmitMembers, Reach;
    var body := EmitMembers(v, 0, ['}'] + u);
    var k := InnerReach(d, v, u);
    LowerFloor(Outside(d + 1), body, Outside(d + 1), ['}'] + u, d + 1, d, k);
    ReachOne(Outside(d), '{', body, d);
    ReachOne(Outside(d + 1), '}', u, d);
    ReachTwice(Outside(d + 1), body, Outside(d + 1), ['}'] + u, Outside(d), u, d, k, 1);
    ReachTwice(Outside(d), Emit(v, u), Outside(d + 1), body, Outside(d), u, d, 1, k + 1);
    n := 1 + (k + 1);
  }

  lemma {:induction false} RunCons(s: Scan, t: string, k: nat)
    requires 0 < k <= |t|
    ensures Run(s, t[..k]) == Run(Next(s, t[0]), t[1..][..k - 1])
    decreases k
  {
    hide Next;
    RunSnoc(s, t, k - 1);
    if k > 1 {
      RunCons(s, t, k - 1);
      RunSnoc(Next(s, t[0]), t[1..], k - 2);
    }
  }

  /** What reaching says about every beginning of the text. */
  lemma {:induction false} ReachRuns(a: Scan, t: string, b: Scan, u: string, floor: int, n: nat, k: nat)
    requires Reach(a, t, b, u, floor, n) && k <= n
    ensures n <= |t| && t[n..] == u && Run(a, t[..k]).depth >= floor && (k == n ==> Run(a, t[..k]) == b)
    decreases n
  {
    hide Next;
    if n > 0 {
      ReachRuns(Next(a, t[0]), t[1..], b, u, floor, n - 1, if k == 0 then 0 else k - 1);
      if k > 0 { RunCons(a, t, k); }
      assert t[n..] == t[1..][n - 1..];
    }
  }

  /** A printed object is the shortest balanced beginning of anything that starts with it. */
  lemma ObjectIsShortest(v: Value, rest: string)
    requires v.Obj?
    ensures ShortestBalanced(Compact(v) + rest, Compact(v))
  {
    hide EmitMembers, Reach, Next, Run;
    EmitIsCompact(v, rest);
    var t, r := Emit(v, rest), Compact(v);
    var body := EmitMembers(v, 0, ['}'] + rest);
    var n := InnerReach(0, v, rest);
    OpenThenBody(t, body);
    ReachRuns(Outside(1), body, Outside(1), ['}'] + rest, 1, n, n);
    assert |r| == n + 2;
    assert body[n..] == ['}'] + rest;
    BodyCloses(t, body, n);
    assert t[..n + 2] == r;
    forall k | 0 < k < |r| ensures !Balanced((r + rest)[..k]) && r[..k] == t[..k] {
      ReachRuns(Outside(1), body, Outside(1), ['}'] + rest, 1, n, k - 1);
      BodyAt(t, body, k);
    }
  }

  lemma OpenThenBody(t: string, body: string)
    requires t == ['{'] + body
    ensures t[0] == '{' && t[1..] == body && |t| == |body| + 1
  {}

  lemma BodyAt(t: string, body: string, k: nat)
    requires t == ['{'] + body && 0 < k <= |t|
    ensures Run(AT_START, t[..k]) == Run(Outside(1), body[..k - 1])
  {
    hide Run;
    RunCons(AT_START, t, k);
    assert t[1..] == body;
  }

  lemma BodyCloses(t: string, body: string, n: nat)
    requires t == ['{'] + body && n < |body| && body[n] == '}' && Run(Outside(1), body[..n]) == Outside(1)
    ensures Balanced(t[..n + 2])
  {
    hide Run;
    BodyAt(t, body, n + 2);
    RunSnoc(Outside(1), body, n);
  }

  lemma ShortestIsUnique(t: string, r: string, q: string)
    requires ShortestBalanced(t, r) && ShortestBalanced(t, q)
    ensures r == q
  {
    hide Balanced;
    if |r| < |q| { assert q[..|r|] == t[..|r|] == r; NothingBalanced(); }
    if |q| < |r| { assert r[..|q|] == t[..|q|] == q; NothingBalanced(); }
  }

  // ---- the whole reply ----

  lemma {:induction false} TrimStartAround(a: string, m: string)
    requires m != "" && !IsSpace(m[0])
    ensures TrimStart(a + m) == TrimStart(a) + m
  {
    hide IsSpace;
    if a == "" {
      assert a + m == m;
    } else if IsSpace(a[0]) {
      assert (a + m)[1..] == a[1..] + m;
      TrimStartAround(a[1..], m);
    }
  }

  lemma {:induction false} TrimEndAround(m: string, b: string)
    requires m != "" && !IsSpace(m[|m| - 1])
    ensures TrimEnd(m + b) == m + TrimEnd(b)
    decreases |b|
  {
    hide IsSpace;
    if b == "" {
      assert m + b == m;
    } else if IsSpace(b[|b| - 1]) {
      assert (m + b)[..|m + b| - 1] == m + b[..|b| - 1];
      TrimEndAround(m, b[..|b| - 1]);
    }
  }

  lemma {:induction false} TrimAround(a: string, m: string, b: string)
    requires m != "" && !IsSpace(m[0]) && !IsSpace(m[|m| - 1])
    ensures Trim(a + m + b) == TrimStart(a) + m + TrimEnd(b)
  {
    hide IsSpace, TrimStart, TrimEnd;
    var mb := m + b;
    assert mb[0] == m[0] && a + m + b == a + mb;
    TrimStartAround(a, mb);
    var am := TrimStart(a) + m;
    assert am[|am| - 1] == m[|m| - 1] && TrimStart(a) + mb == am + b;
    TrimEndAround(am, b);
  }

  lemma ObjectEnds(v: Value)
    requires v.Obj?
    ensures var r := Compact(v); |r| >= 2 && r[0] == '{' && r[|r| - 1] == '}' && !IsSpace(r[0]) && !IsSpace(r[|r| - 1])
  {
    hide EmitMembers, Reach, Next;
    var body := EmitMembers(v, 0, ['}'] + "");
    var n := InnerReach(0, v, "");
    ReachRuns(Outside(1), body, Outside(1), ['}'] + "", 1, n, n);
    assert Compact(v)[|Compact(v)| - 1] == body[|body| - 1] == body[n..][0];
  }

  lemma {:induction false} FirstBrace(a: string, m: string)
    requires '{' !in a && m != "" && m[0] == '{'
    ensures FromBrace(a + m) == m
  {
    assert forall i :: 0 <= i < |a| ==> (a + m)[i] == a[i] && a[i] in a;
    FindAt(a + m, '{', |a|);
  }

  /** For any prefix without a brace, any object and any suffix, as long as the reply
      is not fenced, exactly the object's text is found. */
  lemma ScannerUndoesPrinter(prefix: string, v: Value, suffix: string)
    requires v.Obj? && '{' !in prefix && !StartsWith(Trim(prefix + Compact(v) + suffix), FENCE)
    ensures ShortestBalanced(FromBrace(BodyOf(prefix + Compact(v) + suffix)), Compact(v))
    ensures forall r :: ShortestBalanced(FromBrace(BodyOf(prefix + Compact(v) + suffix)), r) ==> r == Compact(v)
  {
    hide Compact, ShortestBalanced, TrimStart, TrimEnd, Trim, IsSpace, FromBrace, Fenced;
    var r := Compact(v);
    ObjectEnds(v);
    TrimAround(prefix, r, suffix);
    FenceFirst(Trim(prefix + r + suffix));
    var head, tail := TrimStart(prefix), r + TrimEnd(suffix);
    assert TrimStart(prefix) + r + TrimEnd(suffix) == head + tail;
    assert tail[0] == '{';
    StartStaysFree(prefix);
    FirstBrace(head, tail);
    ObjectIsShortest(v, TrimEnd(suffix));
    forall q | ShortestBalanced(tail, q) ensures q == r { ShortestIsUnique(tail, r, q); }
  }

  lemma FenceFirst(t: string)
    ensures StartsWith(t, JSON_FENCE) ==> StartsWith(t, FENCE)
  {
    if StartsWith(t, JSON_FENCE) { assert t[..3] == t[..|JSON_FENCE|][..3] == FENCE; }
  }

  lemma {:induction false} StartStaysFree(prefix: string)
    requires '{' !in prefix
    ensures '{' !in TrimStart(prefix)
  {
    var t := TrimStart(prefix);
    TrimStartIsSuffix(prefix);
    assert forall i :: 0 <= i < |t| ==> t[i] == prefix[|prefix| - |t|..][i] == prefix[|prefix| - |t| + i];
  }

  /** So the method returns it. */
  method ExtractPrinted(text: string, ghost prefix: string, ghost v: Value, ghost suffix: string)
    returns (r: Option<string>)
    requires v.Obj? && '{' !in prefix && text == prefix + Compact(v) + suffix && !StartsWith(Trim(text), FENCE)
    ensures r == Some(Compact(v))
  {
    hide Compact, ShortestBalanced, BodyOf, FromBrace, Balanced;
    ScannerUndoesPrinter(prefix, v, suffix);
    r := ExtractJsonObject(text);
    SomethingBalanced(FromBrace(BodyOf(text)), Compact(v));
  }

  lemma SomethingBalanced(t: string, r: string)
    requires ShortestBalanced(t, r)
    ensures |r| <= |t| && Balanced(t[..|r|])
  {
    assert t[..|r|] == r;
  }

  // ---- a fenced reply ----

  /** Three back-ticks at i. */
  predicate Ticks(s: string, i: nat) {
    i + 3 <= |s| && s[i] == '`' && s[i + 1] == '`' && s[i + 2] == '`'
  }

  predicate NoTicks(s: string) { forall i :: 0 <= i < |s| ==> !Ticks(s, i) }

  lemma TicksStart(s: string)
    ensures StartsWith(s, FENCE) <==> Ticks(s, 0)
  {
    if Ticks(s, 0) { assert s[..3] == FENCE; }
    if StartsWith(s, FENCE) { assert s[0] == s[..3][0] && s[1] == s[..3][1] && s[2] == s[..3][2]; }
  }

  lemma {:induction false} FirstTicks(s: string, k: nat)
    requires Ticks(s, k) && forall i :: 0 <= i < k ==> !Ticks(s, i)
    ensures FindText(s, FENCE) == k
    decreases k
  {
    TicksStart(s);
    if k > 0 {
      assert !Ticks(s, 0);
      forall i | 0 <= i < k - 1 ensures !Ticks(s[1..], i) { assert !Ticks(s, i + 1); }
      FirstTicks(s[1..], k - 1);
    }
  }

  predicate AllSpace(s: string) { forall c :: c in s ==> IsSpace(c) }

  lemma {:induction false} SpacesTrimAway(s: string)
    requires AllSpace(s)
    ensures TrimStart(s) == ""
    decreases |s|
  {
    hide IsSpace;
    if s != "" {
      assert s[0] in s;
      assert forall c :: c in s[1..] ==> c in s;
      SpacesTrimAway(s[1..]);
    }
  }

  /** The reply: a fence, anything without a brace such as a label, an object, anything. */
  function FencedReply(lead: string, pre: string, r: string, post: string): string { lead + (FENCE + pre + r) + post }

  /** What is left of the text before the object once the fence is stripped. */
  function Unlabelled(pre: string): string { if StartsWith(pre, "json") then pre[4..] else pre }

  lemma JsonLabel(pre: string, more: string)
    ensures StartsWith(FENCE + pre + ['{'] + more, JSON_FENCE) <==> StartsWith(pre, "json")
  {
    var t := FENCE + pre + ['{'] + more;
    if StartsWith(pre, "json") { assert t[..7] == FENCE + pre[..4]; }
    if StartsWith(t, JSON_FENCE) {
      assert t[..7] == FENCE + "json" && t[6] == "json"[3] && t[5] == "json"[2] && t[4] == "json"[1]
             && t[3] == "json"[0];
      assert |pre| >= 4 && pre[..4] == t[..7][3..];
    }
  }

  /** The part of a fenced reply that is searched. */
  lemma {:induction false} FencedBody(lead: string, pre: string, r: string, post: string)
    requires AllSpace(lead) && r != "" && r[0] == '{' && !IsSpace(r[|r| - 1])
    ensures BodyOf(FencedReply(lead, pre, r, post)) == Fenced(Unlabelled(pre) + r + TrimEnd(post))
  {
    hide Fenced, TrimEnd, TrimStart, IsSpace, AllSpace;
    var m, tail := FENCE + pre + r, TrimEnd(post);
    TickIsNoSpace();
    assert m[0] == '`' && m[|m| - 1] == r[|r| - 1];
    TrimAround(lead, m, post);
    SpacesTrimAway(lead);
    var t := m + tail;
    assert "" + m + tail == t;
    var more := r[1..] + tail;
    assert t == FENCE + pre + ['{'] + more;
    JsonLabel(pre, more);
    assert t[..3] == FENCE && t[3..] == pre + r + tail;
    if StartsWith(pre, "json") { assert t[7..] == pre[4..] + r + tail; }
  }

  lemma TickIsNoSpace()
    ensures !IsSpace('`')
  {}

  lemma UnlabelledTicks(pre: string)
    ensures NoTicks(Unlabelled(pre)) <==> NoTicks(pre)
    ensures '{' !in pre ==> '{' !in Unlabelled(pre)
  {
    if StartsWith(pre, "json") {
      assert pre[..4] == "json" && pre[0] == "json"[0] && pre[1] == "json"[1] && pre[2] == "json"[2]
             && pre[3] == "json"[3];
      assert forall i :: 4 <= i < |pre| ==> (Ticks(pre, i) <==> Ticks(pre[4..], i - 4));
      if NoTicks(pre) {
        forall i | 0 <= i < |pre[4..]| ensures !Ticks(pre[4..], i) { assert !Ticks(pre, i + 4); }
      }
    }
  }

  /** Ticks before the end of the object stand in the text before it or inside it. */
  lemma WhereTicks(a: string, r: string, b: string, i: nat)
    requires r != "" && r[0] == '{' && r[|r| - 1] == '}' && i < |a| + |r|
    ensures Ticks(a + r + b, i) <==> if i < |a| then Ticks(a, i) else Ticks(r, i - |a|)
  {
    var t := a + r + b;
    assert t[|a|] == '{' && t[|a| + |r| - 1] == '}';
    assert forall j :: 0 <= j < |a| ==> t[j] == a[j];
    assert forall j :: |a| <= j < |a| + |r| ==> t[j] == r[j - |a|];
  }

  /** Nothing is cut off before the end of the object. */
  lemma {:induction false} LateFence(a: string, r: string, b: string)
    requires r != "" && r[0] == '{' && r[|r| - 1] == '}' && NoTicks(a) && NoTicks(r)
    ensures FindText(a + r + b, FENCE) >= |a| + |r|
  {
    hide Ticks;
    var k := FindText(a + r + b, FENCE);
    FoundTicks(a + r + b);
    if k < |a| + |r| { WhereTicks(a, r, b, k); }
  }

  lemma {:induction false} FoundTicks(s: string)
    ensures FindText(s, FENCE) < |s| ==> Ticks(s, FindText(s, FENCE))
  {
    TicksStart(s);
    if s != "" && !StartsWith(s, FENCE) { FoundTicks(s[1..]); }
  }

  lemma FirstTickIn(r: string) returns (k: nat)
    requires !NoTicks(r)
    ensures k < |r| && Ticks(r, k) && forall i :: 0 <= i < k ==> !Ticks(r, i)
  {
    k := 0;
    while k < |r| && !Ticks(r, k)
      invariant k <= |r| && forall i :: 0 <= i < k ==> !Ticks(r, i)
    {
      k := k + 1;
    }
  }

  /** With ticks in front of the object or inside it, the fence is cut before its end. */
  lemma {:induction false} EarlyFence(a: string, r: string, b: string)
    requires r != "" && r[0] == '{' && r[|r| - 1] == '}' && !(NoTicks(a) && NoTicks(r))
    ensures FindText(a + r + b, FENCE) < |a| + |r|
  {
    hide Ticks, FindText;
    var t := a + r + b;
    forall i | 0 <= i < |a| + |r| ensures Ticks(t, i) <==> if i < |a| then Ticks(a, i) else Ticks(r, i - |a|) {
      WhereTicks(a, r, b, i);
    }
    if NoTicks(a) {
      var k := FirstTickIn(r);
      FirstTicks(t, |a| + k);
    } else {
      var k := FirstTickIn(a);
      FirstTicks(t, k);
    }
  }

  /** Less than the object cannot hold it. */
  lemma {:induction false} CutShort(a: string, r: string, b: string, k: nat)
    requires '{' !in a && r != "" && k < |a| + |r|
    ensures |FromBrace(Trim((a + r + b)[..k]))| < |r|
  {
    hide IsSpace;
    var part := (a + r + b)[..k];
    TrimStartIsSuffix(part);
    TrimEndIsPrefix(TrimStart(part));
    var t, cut := Trim(part), |part| - |TrimStart(part)|;
    forall i | 0 <= i < |t| && cut + i < |a| ensures t[i] != '{' {
      assert t[i] == TrimStart(part)[i] == part[cut..][i] == part[cut + i] == a[cut + i];
    }
    if Find(t, '{') < |t| { assert cut + Find(t, '{') >= |a|; }
  }

  lemma ShortCannotHold(t: string, r: string)
    requires |t| < |r|
    ensures !ShortestBalanced(t, r)
  {}

  /** In a fence the object is found if and only if there are no three back-ticks in a
      row in front of it, after the fence, and none inside it: those of a string in the
      object cut the reply short. What comes after the object does not matter. */
  lemma {:induction false} FencedExactly(lead: string, pre: string, v: Value, post: string)
    requires v.Obj? && AllSpace(lead) && '{' !in pre
    ensures ShortestBalanced(FromBrace(BodyOf(FencedReply(lead, pre, Compact(v), post))), Compact(v)) <==>
            NoTicks(pre) && NoTicks(Compact(v))
  {
    hide Compact, ShortestBalanced, TrimStart, TrimEnd, Trim, IsSpace, FromBrace, FindText, FencedReply, BodyOf,
         NoTicks, AllSpace, Unlabelled;
    var r, a, b := Compact(v), Unlabelled(pre), TrimEnd(post);
    ObjectEnds(v);
    FencedBody(lead, pre, r, post);
    UnlabelledTicks(pre);
    var k := FindText(a + r + b, FENCE);
    if NoTicks(a) && NoTicks(r) {
      LateFence(a, r, b);
      WholeObject(a, v, b, k);
    } else {
      EarlyFence(a, r, b);
      CutShort(a, r, b, k);
      ShortCannotHold(FromBrace(Trim((a + r + b)[..k])), r);
    }
  }

  lemma {:induction false} WholeObject(a: string, v: Value, b: string, k: nat)
    requires v.Obj? && '{' !in a && |a| + |Compact(v)| <= k <= |a| + |Compact(v)| + |b|
    ensures ShortestBalanced(FromBrace(Trim((a + Compact(v) + b)[..k])), Compact(v))
  {
    hide Compact, ShortestBalanced, TrimStart, TrimEnd, Trim, IsSpace, FromBrace;
    var r := Compact(v);
    var w := b[..k - |a| - |r|];
    ObjectEnds(v);
    assert (a + r + b)[..k] == a + r + w;
    TrimAround(a, r, w);
    StartStaysFree(a);
    var head, tail := TrimStart(a), r + TrimEnd(w);
    assert head + r + TrimEnd(w) == head + tail;
    FirstBrace(head, tail);
    ObjectIsShortest(v, TrimEnd(w));
  }

  /** An object with three back-ticks in a string, in a fence: no search result is it. */
  lemma {:induction false} TicksInAString()
    ensures var v := Obj([Member("k", Str("```"))]);
            && !NoTicks(Compact(v))
            && !ShortestBalanced(FromBrace(BodyOf(FencedReply("", "json\n", Compact(v), "\n```"))), Compact(v))
  {
    hide ShortestBalanced, FromBrace, BodyOf, FencedReply;
    var v := Obj([Member("k", Str("```"))]);
    FencedExactly("", "json\n", v, "\n```");
    TickedText(v);
  }

  lemma {:induction false} TickedText(v: Value)
    requires v == Obj([Member("k", Str("```"))])
    ensures !NoTicks(Compact(v))
  {
    var close := ['}'] + "";
    assert Chars("```", ['"'] + close) == "```" + (['"'] + close) by { ThreeChars(['"'] + close); }
    var t := Compact(v);
    assert EmitMembers(v, 1, close) == close;
    assert Chars("k", ['"'] + ([':'] + Quoted("```", close))) == ['k'] + (['"'] + ([':'] + Quoted("```", close)));
    assert Ticks(t, 6);
  }

  lemma {:induction false} ThreeChars(rest: string)
    ensures Chars("```", rest) == "```" + rest
  {
    assert "```"[1..] == "``" && "``"[1..] == "`" && "`"[1..] == "";
    assert Chars("`", rest) == ['`'] + rest && Chars("``", rest) == ['`'] + Chars("`", rest);
  }
}
