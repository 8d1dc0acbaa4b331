/** Money in integer micro-dollars: its decimal printer, its parser and the
    token-price estimate (crates/wanax-core/src/money.rs). */
module Money {
  import opened Types
  import opened Text

  const USD_MICROS_PER_UNIT: nat := 1_000_000

  // ---- printing ----

  function Abs(n: int): nat { if n < 0 then -n else n }

  function Zeros(k: nat): (z: string)
    ensures |z| == k && AllDigits(z)
  {
    if k == 0 then "" else Zeros(k - 1) + "0"
  }

  lemma {:induction false} ZerosInFront(k: nat, d: string)
    requires AllDigits(d)
    ensures AllDigits(Zeros(k) + d) && NumeralValue(Zeros(k) + d) == NumeralValue(d)
  {
    var s := Zeros(k) + d;
    if d != [] {
      assert s[..|s| - 1] == Zeros(k) + d[..|d| - 1];
      ZerosInFront(k, d[..|d| - 1]);
    } else if k > 0 {
      assert s == Zeros(k) && s[..|s| - 1] == Zeros(k - 1) + d;
      ZerosInFront(k - 1, d);
    }
  }

  /** `{:06}`: at least six digits. */
  function SixDigits(n: nat): string {
    var d := Digits(n);
    if |d| < 6 then Zeros(6 - |d|) + d else d
  }

  function FormatUsd(micros: I64): string {
    var m := Abs(micros);
    (if micros < 0 then "-" else "") + Digits(m / USD_MICROS_PER_UNIT) + "." + SixDigits(m % USD_MICROS_PER_UNIT)
  }

  function FormatUsd4(micros: I64): string {
    var s := FormatUsd(micros);
    var k := Find(s, '.');
    if k < |s| then
      var f := s[k + 1..];
      s[..k] + "." + f[..if |f| < 4 then |f| else 4]
    else s
  }

  // ---- parsing ----

  datatype UsdError = Empty | BadWhole | BadFraction | TooPrecise | Overflow

  function Unsigned(s: string): string {
    if s != [] && (s[0] == '-' || s[0] == '+') then s[1..] else s
  }

  function WholePart(s: string): string { s[..Find(s, '.')] }

  function FracPart(s: string): string {
    var k := Find(s, '.');
    if k < |s| then s[k + 1..] else ""
  }

  function Pad6(frac: string): (p: string)
    requires |frac| <= 6
    ensures AllDigits(frac) ==> AllDigits(p)
  {
    frac + Zeros(6 - |frac|)
  }

  /** What a sign, a whole part and a fraction denote together. */
  function PartsValue(neg: bool, w: string, f: string): Result<I64, UsdError> {
    if w == [] || !AllDigits(w) then Err(BadWhole)
    else if !AllDigits(f) then Err(BadFraction)
    else if |f| > 6 then Err(TooPrecise)
    else
      var m := NumeralValue(w) * USD_MICROS_PER_UNIT + NumeralValue(Pad6(f));
      if NumeralValue(w) > I64_MAX || m > I64_MAX then Err(Overflow) else Ok(if neg then -m else m)
  }

  /** What a decimal dollar amount denotes. */
  function UsdValue(text: string): Result<I64, UsdError> {
    var s := Trim(text);
    if s == [] then Err(Empty)
    else PartsValue(s[0] == '-', WholePart(Unsigned(s)), FracPart(Unsigned(s)))
  }

  method ParseUsdDecimal(text: string) returns (r: Result<I64, UsdError>)
    ensures r == UsdValue(text)
  {
    var s := Trim(text);
    if s == [] {
      r := Err(Empty);
    } else {
      r := ParseParts(s[0] == '-', WholePart(Unsigned(s)), FracPart(Unsigned(s)));
    }
  }

  method ParseParts(neg: bool, whole: string, frac: string) returns (r: Result<I64, UsdError>)
    ensures r == PartsValue(neg, whole, frac)
  {
    if whole == [] || !AllDigits(whole) { return Err(BadWhole); }
    if !AllDigits(frac) { return Err(BadFraction); }
    if |frac| > 6 { return Err(TooPrecise); }
    var wholeI := NumeralValue(whole);
    if wholeI > I64_MAX { return Err(Overflow); }
    var padded := frac;
    while |padded| < 6
      invariant |frac| <= |padded| <= 6
      invariant padded == frac + Zeros(|padded| - |frac|)
    {
      padded := padded + "0";
    }
    var micros := wholeI * USD_MICROS_PER_UNIT + NumeralValue(padded);
    if micros > I64_MAX { return Err(Overflow); }
    if neg { micros := -micros; }
    return Ok(micros);
  }

  // ---- the printer and the parser agree ----

  lemma PointAt(head: string, f: string)
    requires '.' !in head
    ensures var s := head + "." + f;
            Find(s, '.') == |head| && s[..|head|] == head && s[|head| + 1..] == f
  {
    var s := head + "." + f;
    forall i | 0 <= i < |head| ensures s[i] != '.' {
      assert s[i] == head[i] && head[i] in head;
    }
    FindAt(s, '.', |head|);
  }

  /** A printed magnitude, split at its point again. */
  lemma PointSplits(w: string, f: string)
    requires AllDigits(w)
    ensures WholePart(w + "." + f) == w && FracPart(w + "." + f) == f
  {
    PointAt(w, f);
  }

  function Sign(neg: bool): string { if neg then "-" else "" }

  /** The sign of a printed amount, read off again. */
  lemma SignStrips(neg: bool, u: string)
    requires u != [] && IsDigit(u[0])
    ensures Unsigned(Sign(neg) + u) == u
  {
    var s := Sign(neg) + u;
    if neg { assert s == "-" + u && s[1..] == u; } else { assert s == u; }
  }

  lemma SignedIsTrimmed(neg: bool, u: string)
    requires u != [] && IsDigit(u[0]) && IsDigit(u[|u| - 1])
    ensures var s := Sign(neg) + u; Trimmed(s) && s != [] && (s[0] == '-' <==> neg)
  {
    var s := Sign(neg) + u;
    assert s[|s| - 1] == u[|u| - 1];
    if neg { assert s[0] == '-'; } else { assert s == u; }
  }

  lemma ValueOfSigned(neg: bool, u: string)
    requires u != [] && IsDigit(u[0]) && IsDigit(u[|u| - 1])
    ensures UsdValue(Sign(neg) + u) == PartsValue(neg, WholePart(u), FracPart(u))
  {
    SignStrips(neg, u);
    SignedIsTrimmed(neg, u);
    TrimOfTrimmed(Sign(neg) + u);
  }

  lemma ValueOfPrinted(neg: bool, w: string, f: string)
    requires w != [] && f != [] && AllDigits(w) && AllDigits(f)
    ensures UsdValue(Sign(neg) + (w + "." + f)) == PartsValue(neg, w, f)
  {
    PrintedEnds(w, f);
    ValueOfSigned(neg, w + "." + f);
    PointSplits(w, f);
  }

  lemma PrintedEnds(w: string, f: string)
    requires w != [] && f != [] && AllDigits(w) && AllDigits(f)
    ensures var u := w + "." + f; u != [] && IsDigit(u[0]) && IsDigit(u[|u| - 1])
  {
    var u := w + "." + f;
    assert u[0] == w[0] && u[|u| - 1] == f[|f| - 1];
  }

  lemma SixDigitsValue(n: nat)
    requires n < USD_MICROS_PER_UNIT
    ensures |SixDigits(n)| == 6 && AllDigits(SixDigits(n)) && NumeralValue(SixDigits(n)) == n
  {
    PowerSix();
    DigitsLength(n, 6);
    NumeralOfDigits(n);
    var d := Digits(n);
    if |d| < 6 { ZerosInFront(6 - |d|, d); }
  }

  lemma PowerSix()
    ensures Pow10(6) == 1_000_000
  {
    assert Pow10(3) == 1000;
    assert Pow10(5) == 100_000;
  }

  lemma FormatUsdShape(m: I64)
    ensures var a := Abs(m);
            FormatUsd(m) == Sign(m < 0) + (Digits(a / USD_MICROS_PER_UNIT) + "." + SixDigits(a % USD_MICROS_PER_UNIT))
  {}

  /** Printing then parsing gives the amount back for every 64-bit amount but
      the smallest, whose magnitude does not fit. */
  lemma ParseFormat(m: I64)
    ensures UsdValue(FormatUsd(m)) == Ok(m) <==> m != I64_MIN
    ensures m == I64_MIN ==> UsdValue(FormatUsd(m)) == Err(Overflow)
  {
    hide UsdValue, FormatUsd, Digits, SixDigits;
    var whole, fraction := Abs(m) / USD_MICROS_PER_UNIT, Abs(m) % USD_MICROS_PER_UNIT;
    FormatUsdShape(m);
    PartsOfNumber(m < 0, whole, fraction);
  }

  lemma {:induction false} PartsOfNumber(neg: bool, whole: nat, fraction: nat)
    requires fraction < USD_MICROS_PER_UNIT
    ensures var m := whole * USD_MICROS_PER_UNIT + fraction;
            UsdValue(Sign(neg) + (Digits(whole) + "." + SixDigits(fraction))) ==
            if m > I64_MAX then Err(Overflow) else Ok(if neg then -m else m)
  {
    hide UsdValue, Digits, SixDigits, NumeralValue;
    var w, f := Digits(whole), SixDigits(fraction);
    SixDigitsValue(fraction);
    NumeralOfDigits(whole);
    ValueOfPrinted(neg, w, f);
    assert Pad6(f) == f;
  }

  /** A fraction of at most six digits counts in millionths of its last place. */
  lemma {:induction false} PaddedValue(f: string)
    requires |f| <= 6 && AllDigits(f)
    ensures NumeralValue(Pad6(f)) == NumeralValue(f) * Pow10(6 - |f|)
  {
    ZerosBehind(f, 6 - |f|);
  }

  lemma {:induction false} ZerosBehind(f: string, k: nat)
    requires AllDigits(f)
    ensures AllDigits(f + Zeros(k)) && NumeralValue(f + Zeros(k)) == NumeralValue(f) * Pow10(k)
    decreases k
  {
    if k == 0 {
      assert f + Zeros(0) == f;
    } else {
      ZerosBehind(f, k - 1);
      var s := f + Zeros(k);
      assert s[..|s| - 1] == f + Zeros(k - 1) && s[|s| - 1] == '0';
      TimesTen(NumeralValue(f), Pow10(k - 1));
    }
  }

  lemma TimesTen(a: nat, b: nat)
    ensures a * b * 10 == a * (10 * b)
  {}

  /** Any written amount: a sign or none, digits, and a point with up to six more digits
      or none. It is the whole part in millions plus the fraction as if written out to six
      places, if that fits. */
  lemma {:induction false} AmountIsParsed(sign: string, w: string, f: string)
    requires sign in {"", "-", "+"} && w != [] && AllDigits(w) && f != [] && AllDigits(f) && |f| <= 6
    ensures var m := NumeralValue(w) * 1_000_000 + NumeralValue(f) * Pow10(6 - |f|);
            UsdValue(sign + (w + "." + f)) == if m > I64_MAX then Err(Overflow) else Ok(if sign == "-" then -m else m)
  {
    hide UsdValue, NumeralValue, Pow10;
    PaddedValue(f);
    PrintedEnds(w, f);
    PointSplits(w, f);
    SignedAmount(sign, w + "." + f);
  }

  lemma {:induction false} WholeIsParsed(sign: string, w: string)
    requires sign in {"", "-", "+"} && w != [] && AllDigits(w)
    ensures var m := NumeralValue(w) * 1_000_000;
            UsdValue(sign + w) == if m > I64_MAX then Err(Overflow) else Ok(if sign == "-" then -m else m)
  {
    hide UsdValue, NumeralValue, Pow10;
    NoPoint(w);
    PaddedValue("");
    NothingIsZero();
    SignedAmount(sign, w);
  }

  lemma NothingIsZero()
    ensures NumeralValue("") == 0
  {}

  lemma NoPoint(w: string)
    requires AllDigits(w)
    ensures WholePart(w) == w && FracPart(w) == ""
  {
    assert Find(w, '.') == |w| && w[..|w|] == w;
  }

  lemma SignedAmount(sign: string, u: string)
    requires sign in {"", "-", "+"} && u != [] && IsDigit(u[0]) && IsDigit(u[|u| - 1])
    ensures UsdValue(sign + u) == PartsValue(sign == "-", WholePart(u), FracPart(u))
  {
    if sign == "+" {
      var s := sign + u;
      assert s[|s| - 1] == u[|u| - 1] && s[0] == '+' && s[1..] == u;
      TrimOfTrimmed(s);
    } else {
      ValueOfSigned(sign == "-", u);
    }
  }

  function TruncDiv(a: int, b: int): int
    requires b > 0
  {
    if a >= 0 then a / b else -(-a / b)
  }

  /** The four-digit form drops exactly the last two digits, toward zero. */
  lemma ParseFormat4(m: I64)
    ensures UsdValue(FormatUsd4(m)) == Ok(TruncDiv(m, 100) * 100)
    ensures Abs(TruncDiv(m, 100) * 100) <= Abs(m) < Abs(TruncDiv(m, 100) * 100) + 100
  {
    hide UsdValue, FormatUsd4, Digits, SixDigits;
    var whole, fraction := Abs(m) / USD_MICROS_PER_UNIT, Abs(m) % USD_MICROS_PER_UNIT;
    SixDigitsValue(fraction);
    FormatUsd4Shape(m);
    PartsOfShortNumber(m < 0, whole, fraction);
  }

  lemma {:induction false} PartsOfShortNumber(neg: bool, whole: nat, fraction: nat)
    requires fraction < USD_MICROS_PER_UNIT && whole * USD_MICROS_PER_UNIT + fraction <= I64_MAX + 1
    requires |SixDigits(fraction)| == 6
    ensures var m := whole * USD_MICROS_PER_UNIT + fraction;
            UsdValue(Sign(neg) + (Digits(whole) + "." + SixDigits(fraction)[..4])) ==
            Ok(if neg then -(m / 100 * 100) else m / 100 * 100)
  {
    hide UsdValue, Digits, SixDigits, NumeralValue;
    var w, f := Digits(whole), SixDigits(fraction);
    SixDigitsValue(fraction);
    NumeralOfDigits(whole);
    ValueOfPrinted(neg, w, f[..4]);
    TwoDigitsDropped(f);
    var hi := NumeralValue(f[..4]);
    LastTwoDigits(whole * USD_MICROS_PER_UNIT + fraction, hi, fraction - hi * 100);
  }

  lemma FormatUsd4Shape(m: I64)
    ensures var a := Abs(m);
            |SixDigits(a % USD_MICROS_PER_UNIT)| == 6
            && FormatUsd4(m) == Sign(m < 0) + (Digits(a / USD_MICROS_PER_UNIT) + "."
                                               + SixDigits(a % USD_MICROS_PER_UNIT)[..4])
  {
    hide Digits, SixDigits, Find;
    var a := Abs(m);
    var w, f := Digits(a / USD_MICROS_PER_UNIT), SixDigits(a % USD_MICROS_PER_UNIT);
    SixDigitsValue(a % USD_MICROS_PER_UNIT);
    assert FormatUsd(m) == Sign(m < 0) + w + "." + f;
    PointAt(Sign(m < 0) + w, f);
    assert Sign(m < 0) + w + "." + f[..4] == Sign(m < 0) + (w + "." + f[..4]);
  }

  lemma {:induction false} TwoDigitsDropped(f: string)
    requires |f| == 6 && AllDigits(f)
    ensures AllDigits(f[..4]) && NumeralValue(Pad6(f[..4])) == NumeralValue(f[..4]) * 100
    ensures 0 <= NumeralValue(f) - NumeralValue(f[..4]) * 100 < 100
  {
    assert f[..5][..4] == f[..4];
    assert NumeralValue(f) == NumeralValue(f[..5]) * 10 + DigitValue(f[5]);
    assert NumeralValue(f[..5]) == NumeralValue(f[..4]) * 10 + DigitValue(f[4]);
    var g, h := f[..4] + "0", f[..4] + "00";
    assert Zeros(1) == "0" && Zeros(2) == "00" && Pad6(f[..4]) == h;
    assert h[..5] == g && g[..4] == f[..4];
  }

  lemma LastTwoDigits(a: nat, hi: nat, lo: nat)
    requires a % USD_MICROS_PER_UNIT == hi * 100 + lo && lo < 100
    ensures a / 100 * 100 == a / USD_MICROS_PER_UNIT * USD_MICROS_PER_UNIT + hi * 100
  {
    assert a == (a / USD_MICROS_PER_UNIT * 10_000 + hi) * 100 + lo;
  }

  // ---- estimates ----

  function WrapI64(n: int): (r: I64)
    ensures I64_MIN <= n <= I64_MAX ==> r == n
  {
    (n - I64_MIN) % (U64_MAX + 1) + I64_MIN
  }

  /** Cost of one side of a call: units at a price per million, rounded toward zero. */
  function SideCost(units: U64, perMillion: I64): int { TruncDiv(units * perMillion, 1_000_000) }

  function EstimateCostMicros(unitsIn: U64, unitsOut: U64, rateIn: I64, rateOut: I64): I64 {
    WrapI64(SideCost(unitsIn, rateIn) + SideCost(unitsOut, rateOut))
  }

  /** The exact price, in millionths of a micro. */
  function TrueCost(unitsIn: U64, unitsOut: U64, rateIn: I64, rateOut: I64): int {
    unitsIn * rateIn + unitsOut * rateOut
  }

  predicate EstimateFits(unitsIn: U64, unitsOut: U64, rateIn: I64, rateOut: I64) {
    I64_MIN <= SideCost(unitsIn, rateIn) + SideCost(unitsOut, rateOut) <= I64_MAX
  }

  lemma SideCostNear(units: U64, rate: I64)
    ensures -1_000_000 < units * rate - 1_000_000 * SideCost(units, rate) < 1_000_000
    ensures rate >= 0 ==> units * rate - 1_000_000 * SideCost(units, rate) >= 0
  {
    TruncNear(units * rate);
    if rate >= 0 { assert units * rate >= 0; }
  }

  lemma TruncNear(p: int)
    ensures -1_000_000 < p - 1_000_000 * TruncDiv(p, 1_000_000) < 1_000_000
    ensures p >= 0 ==> p - 1_000_000 * TruncDiv(p, 1_000_000) >= 0
  {}

  /** Less than two micros off for any prices, and never above for real prices. */
  lemma EstimateNearTrueCost(unitsIn: U64, unitsOut: U64, rateIn: I64, rateOut: I64)
    requires EstimateFits(unitsIn, unitsOut, rateIn, rateOut)
    ensures var gap := TrueCost(unitsIn, unitsOut, rateIn, rateOut)
                       - 1_000_000 * EstimateCostMicros(unitsIn, unitsOut, rateIn, rateOut);
            && -2_000_000 < gap < 2_000_000
            && (rateIn >= 0 && rateOut >= 0 ==> gap >= 0)
  {
    SideCostNear(unitsIn, rateIn);
    SideCostNear(unitsOut, rateOut);
  }

  lemma SideCostSplit(a: U64, b: U64, rate: I64)
    requires a + b <= U64_MAX && rate >= 0
    ensures 0 <= SideCost(a, rate) && 0 <= SideCost(b, rate)
    ensures SideCost(a, rate) + SideCost(b, rate) <= SideCost(a + b, rate)
  {
    assert (a + b) * rate == a * rate + b * rate;
    assert a * rate >= 0 && b * rate >= 0;
    FloorSplit(a * rate, b * rate);
  }

  lemma FloorSplit(p: nat, q: nat)
    ensures p / 1_000_000 + q / 1_000_000 <= (p + q) / 1_000_000
  {}

  /** Splitting a charge in two never costs more. */
  lemma SplitNeverCostsMore(in1: U64, in2: U64, out1: U64, out2: U64, rateIn: I64, rateOut: I64)
    requires in1 + in2 <= U64_MAX && out1 + out2 <= U64_MAX && rateIn >= 0 && rateOut >= 0
    requires EstimateFits(in1 + in2, out1 + out2, rateIn, rateOut)
    ensures EstimateFits(in1, out1, rateIn, rateOut) && EstimateFits(in2, out2, rateIn, rateOut)
    ensures EstimateCostMicros(in1, out1, rateIn, rateOut) + EstimateCostMicros(in2, out2, rateIn, rateOut)
            <= EstimateCostMicros(in1 + in2, out1 + out2, rateIn, rateOut)
  {
    SideCostSplit(in1, in2, rateIn);
    SideCostSplit(out1, out2, rateOut);
  }

  // ---- what is printed ----

  /** A number has one numeral without leading zeros. */
  lemma {:induction false} DigitsOfNumeral(s: string)
    requires AllDigits(s) && s != "" && (|s| > 1 ==> s[0] != '0')
    ensures Digits(NumeralValue(s)) == s
    decreases |s|
  {
    var t, d := s[..|s| - 1], DigitValue(s[|s| - 1]);
    assert s == t + [s[|s| - 1]];
    assert NumeralValue(s) == NumeralValue(t) * 10 + d;
    if t != "" {
      DigitsOfNumeral(t);
      NumeralIsPositive(t);
    }
  }

  lemma {:induction false} NumeralIsPositive(s: string)
    requires AllDigits(s) && s != "" && s[0] != '0'
    ensures NumeralValue(s) > 0
  {
    if |s| > 1 { NumeralIsPositive(s[..|s| - 1]); }
  }

  lemma {:induction false} LastDigitApart(s: string, x: string, c: char)
    requires AllDigits(s) && s == x + [c]
    ensures AllDigits(x) && IsDigit(c)
    ensures NumeralValue(s) / 10 == NumeralValue(x) && NumeralValue(s) % 10 == DigitValue(c)
  {
    assert s[|s| - 1] == c && s[..|s| - 1] == x;
    assert forall i :: 0 <= i < |x| ==> s[i] == x[i];
  }

  /** And one of every length that is long enough. */
  lemma {:induction false} NumeralsOfOneLength(s: string, t: string)
    requires AllDigits(s) && AllDigits(t) && |s| == |t| && NumeralValue(s) == NumeralValue(t)
    ensures s == t
    decreases |s|
  {
    hide AllDigits, NumeralValue;
    if s != "" {
      var x, c, y, d := s[..|s| - 1], s[|s| - 1], t[..|t| - 1], t[|t| - 1];
      assert s == x + [c] && t == y + [d];
      LastDigitApart(s, x, c);
      LastDigitApart(t, y, d);
      NumeralsOfOneLength(x, y);
      assert c == d;
    }
  }

  lemma {:induction false} NumeralBound(s: string)
    requires AllDigits(s)
    ensures NumeralValue(s) < Pow10(|s|)
  {
    if s != "" { NumeralBound(s[..|s| - 1]); }
  }

  /** An amount is printed as a minus where it is negative, its whole part without leading
      zeros, a point, and six digits, or the first four of them. */
  lemma {:induction false} TextOfAmount(neg: bool, whole: string, fraction: string)
    requires AllDigits(whole) && whole != "" && (|whole| > 1 ==> whole[0] != '0')
    requires AllDigits(fraction) && |fraction| == 6
    requires var n := NumeralValue(whole) * 1_000_000 + NumeralValue(fraction);
             if neg then 0 < n <= I64_MAX + 1 else n <= I64_MAX
    ensures var n: int := NumeralValue(whole) * 1_000_000 + NumeralValue(fraction);
            var m := if neg then -n else n;
            && FormatUsd(m) == (if neg then "-" else "") + whole + "." + fraction
            && FormatUsd4(m) == (if neg then "-" else "") + whole + "." + fraction[..4]
  {
    hide Digits, SixDigits, NumeralValue, FormatUsd, FormatUsd4;
    var w, f := NumeralValue(whole), NumeralValue(fraction);
    PowerSix();
    NumeralBound(fraction);
    var n: int := w * 1_000_000 + f;
    var m := if neg then -n else n;
    assert Abs(m) / USD_MICROS_PER_UNIT == w && Abs(m) % USD_MICROS_PER_UNIT == f;
    DigitsOfNumeral(whole);
    SixDigitsValue(f);
    NumeralsOfOneLength(SixDigits(f), fraction);
    FormatUsdShape(m);
    FormatUsd4Shape(m);
    assert Sign(neg) + (whole + "." + fraction) == Sign(neg) + whole + "." + fraction;
    assert Sign(neg) + (whole + "." + fraction[..4]) == Sign(neg) + whole + "." + fraction[..4];
  }
}
