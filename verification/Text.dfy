/** The string operations the control plane's hand-written parsers rely on. */
module Text {
  import opened Types

  predicate StartsWith(s: string, p: string) {
    |p| <= |s| && s[..|p|] == p
  }

  /** Unicode White_Space, the set `str::trim` strips. */
  predicate IsSpace(c: char) {
    || '\U{0009}' <= c <= '\U{000D}'
    || c == ' '
    || c == '\U{0085}'
    || c == '\U{00A0}'
    || c == '\U{1680}'
    || '\U{2000}' <= c <= '\U{200A}'
    || c == '\U{2028}'
    || c == '\U{2029}'
    || c == '\U{202F}'
    || c == '\U{205F}'
    || c == '\U{3000}'
  }

  /** The 25 code points of that property. */
  lemma WhiteSpace(c: char)
    ensures IsSpace(c) <==>
            var n := c as int;
            || 9 <= n <= 13 || 8192 <= n <= 8202
            || n in {32, 133, 160, 5760, 8232, 8233, 8239, 8287, 12288}
  {}

  function TrimStart(s: string): (r: string)
    ensures |r| <= |s|
    ensures r != [] ==> !IsSpace(r[0])
    ensures s != [] && !IsSpace(s[0]) ==> r == s
  {
    if s != [] && IsSpace(s[0]) then TrimStart(s[1..]) else s
  }

  function TrimEnd(s: string): (r: string)
    ensures |r| <= |s|
    ensures r != [] ==> !IsSpace(r[|r| - 1])
    ensures s != [] && !IsSpace(s[|s| - 1]) ==> r == s
  {
    if s != [] && IsSpace(s[|s| - 1]) then TrimEnd(s[..|s| - 1]) else s
  }

  lemma {:induction false} TrimStartIsSuffix(s: string)
    ensures s[|s| - |TrimStart(s)|..] == TrimStart(s)
  {
    if s != [] && IsSpace(s[0]) { TrimStartIsSuffix(s[1..]); }
  }

  lemma {:induction false} TrimEndIsPrefix(s: string)
    ensures s[..|TrimEnd(s)|] == TrimEnd(s)
  {
    if s != [] && IsSpace(s[|s| - 1]) { TrimEndIsPrefix(s[..|s| - 1]); }
  }

  function Trim(s: string): string { TrimEnd(TrimStart(s)) }

  /** No white space at either end. */
  predicate Trimmed(s: string) {
    s != [] ==> !IsSpace(s[0]) && !IsSpace(s[|s| - 1])
  }

  lemma TrimOfTrimmed(s: string)
    requires Trimmed(s)
    ensures Trim(s) == s
  {}

  lemma TrimTrims(s: string)
    ensures Trimmed(Trim(s)) && forall c :: c in Trim(s) ==> c in s
  {
    hide TrimStart, TrimEnd, IsSpace;
    var a := TrimStart(s);
    var b := TrimEnd(a);
    TrimStartIsSuffix(s);
    TrimEndIsPrefix(a);
    PartsAreWithin(s, |s| - |a|);
    if b != [] { assert b[0] == a[0]; }
    forall c | c in b ensures c in s { assert c in a; }
  }

  lemma PartsAreWithin(s: string, k: nat)
    requires k <= |s|
    ensures forall c :: c in s[k..] ==> c in s
  {}

  /** First position of c in s, or |s|. */
  function Find(s: string, c: char): (k: nat)
    ensures k <= |s|
    ensures k < |s| ==> s[k] == c
    ensures forall i :: 0 <= i < k ==> s[i] != c
  {
    if s == [] || s[0] == c then 0 else 1 + Find(s[1..], c)
  }

  lemma {:induction false} FindAt(s: string, c: char, k: nat)
    requires k < |s| && s[k] == c && forall i :: 0 <= i < k ==> s[i] != c
    ensures Find(s, c) == k
  {}

  // ---- decimal numerals ----

  predicate IsDigit(c: char) { '0' <= c <= '9' }

  predicate AllDigits(s: string) { forall i :: 0 <= i < |s| ==> IsDigit(s[i]) }

  function DigitChar(d: nat): (c: char)
    requires d < 10
    ensures IsDigit(c) && DigitValue(c) == d
  {
    ('0' as int + d) as char
  }

  function DigitValue(c: char): (d: nat)
    requires IsDigit(c)
    ensures d < 10
  {
    c as int - '0' as int
  }

  /** The decimal numeral of n, without leading zeros. */
  function Digits(n: nat): (s: string)
    ensures s != [] && AllDigits(s)
    ensures n > 0 ==> s[0] != '0'
  {
    if n < 10 then [DigitChar(n)] else Digits(n / 10) + [DigitChar(n % 10)]
  }

  function NumeralValue(s: string): nat
    requires AllDigits(s)
  {
    if s == [] then 0 else NumeralValue(s[..|s| - 1]) * 10 + DigitValue(s[|s| - 1])
  }

  lemma {:induction false} NumeralOfDigits(n: nat)
    ensures NumeralValue(Digits(n)) == n
  {
    if n >= 10 {
      var s := Digits(n);
      assert s[..|s| - 1] == Digits(n / 10);
      NumeralOfDigits(n / 10);
    }
  }

  /** Two numerals without leading zeros are equal when they denote the same number. */
  lemma {:induction false} DigitsInjective(m: nat, n: nat)
    requires Digits(m) == Digits(n)
    ensures m == n
  {
    NumeralOfDigits(m);
    NumeralOfDigits(n);
  }

  /** `u32::from_str`: digits, optionally after a plus sign, that fit. */
  function ParseU32(s: string): Option<U32> {
    var t := if s != [] && s[0] == '+' then s[1..] else s;
    if t == [] || !AllDigits(t) then None
    else if NumeralValue(t) > U32_MAX then None
    else Some(NumeralValue(t))
  }

  lemma {:induction false} ParseOfDigits(n: U32)
    ensures ParseU32(Digits(n)) == Some(n)
  {
    NumeralOfDigits(n);
    assert Digits(n)[0] != '+';
  }

  function Pow10(k: nat): nat { if k == 0 then 1 else 10 * Pow10(k - 1) }

  lemma {:induction false} DigitsLength(n: nat, k: nat)
    requires k > 0 && n < Pow10(k)
    ensures |Digits(n)| <= k
  {
    if n >= 10 {
      assert k > 1 by { assert Pow10(1) == 10; }
      DigitsLength(n / 10, k - 1);
    }
  }

  // ---- lines ----

  /** `str::lines`: split at line feeds, dropping one carriage return before each. */
  function Lines(s: string): seq<string> {
    if s == [] then []
    else
      var k := Find(s, '\n');
      if k == |s| then [s] else [DropCr(s[..k])] + Lines(s[k + 1..])
  }

  function DropCr(s: string): string {
    if s != [] && s[|s| - 1] == '\r' then s[..|s| - 1] else s
  }

  /** Every line followed by a line feed. */
  function Unlines(ls: seq<string>): string {
    if ls == [] then "" else ls[0] + "\n" + Unlines(ls[1..])
  }

  function DropCrs(ls: seq<string>): (r: seq<string>)
    ensures |r| == |ls| && forall i :: 0 <= i < |r| ==> r[i] == DropCr(ls[i])
  {
    if ls == [] then [] else [DropCr(ls[0])] + DropCrs(ls[1..])
  }

  /** Lines come back, except that one carriage return at the end of each is lost. */
  lemma {:induction false} LinesDropCrs(ls: seq<string>)
    requires forall l :: l in ls ==> '\n' !in l
    ensures Lines(Unlines(ls)) == DropCrs(ls)
  {
    hide DropCr;
    if ls != [] {
      assert ls[0] in ls;
      FirstLineEnds(ls[0], Unlines(ls[1..]));
      assert forall l :: l in ls[1..] ==> l in ls;
      LinesDropCrs(ls[1..]);
    }
  }

  predicate PlainLine(l: string) { '\n' !in l && (l != [] ==> l[|l| - 1] != '\r') }

  lemma {:induction false} LinesArePlain(s: string)
    ensures forall l :: l in Lines(s) ==> '\n' !in l
    decreases |s|
  {
    if s != [] {
      var k := Find(s, '\n');
      if k < |s| {
        LinesArePlain(s[k + 1..]);
        var cut := DropCr(s[..k]);
        assert forall i :: 0 <= i < |cut| ==> cut[i] == s[i];
      }
    }
  }

  lemma FirstLineEnds(l: string, rest: string)
    requires '\n' !in l
    ensures var s := l + "\n" + rest; Find(s, '\n') == |l| && s[..|l|] == l && s[|l| + 1..] == rest
  {
    var s := l + "\n" + rest;
    forall i | 0 <= i < |l| ensures s[i] != '\n' {
      assert s[i] == l[i] && l[i] in l;
    }
    FindAt(s, '\n', |l|);
  }

  lemma {:induction false} LinesOfUnlines(ls: seq<string>)
    requires forall l :: l in ls ==> PlainLine(l)
    ensures Lines(Unlines(ls)) == ls
  {
    LinesDropCrs(ls);
    forall i | 0 <= i < |ls| ensures DropCr(ls[i]) == ls[i] { assert ls[i] in ls; }
  }

  lemma {:induction false} UnlinesConcat(a: seq<string>, b: seq<string>)
    ensures Unlines(a + b) == Unlines(a) + Unlines(b)
  {
    if a == [] {
      assert a + b == b;
    } else {
      assert (a + b)[0] == a[0] && (a + b)[1..] == a[1..] + b;
      UnlinesConcat(a[1..], b);
    }
  }
}
