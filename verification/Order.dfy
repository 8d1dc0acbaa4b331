/** Strings in code-point order, which is also the byte order of their UTF-8. */
module Order {

  predicate StrLe(a: string, b: string) {
    a == [] || (b != [] && (a[0] < b[0] || (a[0] == b[0] && StrLe(a[1..], b[1..]))))
  }

  /** a is a prefix of b, or at the first place where they differ it has the smaller code
      point. */
  ghost predicate CodePointLe(a: string, b: string) {
    || (|a| <= |b| && b[..|a|] == a)
    || exists i :: 0 <= i < |a| && i < |b| && a[..i] == b[..i] && a[i] as int < b[i] as int
  }

  lemma {:induction false} StrLeExactly(a: string, b: string)
    ensures StrLe(a, b) <==> CodePointLe(a, b)
    decreases |a|
  {
    if a == [] {
      assert b[..0] == a;
    } else if b == [] {
    } else if a[0] != b[0] {
      FirstDiffers(a, b);
    } else {
      StrLeExactly(a[1..], b[1..]);
      OneFurther(a, b);
    }
  }

  lemma {:induction false} FirstDiffers(a: string, b: string)
    requires a != [] && b != [] && a[0] != b[0]
    ensures CodePointLe(a, b) <==> a[0] < b[0]
  {
    assert |a| <= |b| ==> b[..|a|][0] == b[0];
    assert forall i :: 0 < i < |a| && i < |b| ==> a[..i][0] == a[0] && b[..i][0] == b[0];
    assert a[..0] == b[..0];
  }

  lemma {:induction false} PrefixFurther(a: string, b: string, i: nat)
    requires a != [] && b != [] && a[0] == b[0] && i < |a| && i < |b|
    ensures a[..i + 1] == b[..i + 1] <==> a[1..][..i] == b[1..][..i]
  {
    var x, y := a[1..], b[1..];
    assert a[..i + 1] == [a[0]] + x[..i] && b[..i + 1] == [b[0]] + y[..i];
    assert a[..i + 1][1..] == x[..i] && b[..i + 1][1..] == y[..i];
  }

  lemma {:induction false} OneFurther(a: string, b: string)
    requires a != [] && b != [] && a[0] == b[0]
    ensures CodePointLe(a, b) <==> CodePointLe(a[1..], b[1..])
  {
    var x, y := a[1..], b[1..];
    if |a| <= |b| {
      PrefixFurther(a, b, |x|);
      assert a[..|a|] == a && x[..|x|] == x;
    }
    if i :| 0 <= i < |a| && i < |b| && a[..i] == b[..i] && a[i] as int < b[i] as int {
      PrefixFurther(a, b, i - 1);
      assert x[i - 1] == a[i] && y[i - 1] == b[i];
    }
    if i :| 0 <= i < |x| && i < |y| && x[..i] == y[..i] && x[i] as int < y[i] as int {
      PrefixFurther(a, b, i);
      assert a[i + 1] == x[i] && b[i + 1] == y[i];
    }
  }

  /** In strictly increasing order, by code points. */
  ghost predicate InCodePointOrder(r: seq<string>) {
    forall i, j :: 0 <= i < j < |r| ==> r[i] != r[j] && CodePointLe(r[i], r[j])
  }

  lemma IncreasingExactly(r: seq<string>)
    ensures Increasing(r) <==> InCodePointOrder(r)
  {
    hide StrLe, CodePointLe;
    forall i, j | 0 <= i < j < |r| ensures StrLe(r[i], r[j]) <==> CodePointLe(r[i], r[j]) {
      StrLeExactly(r[i], r[j]);
    }
  }

  lemma {:induction false} StrLeTotal(a: string, b: string)
    ensures StrLe(a, b) || StrLe(b, a)
  {
    if a != [] && b != [] && a[0] == b[0] { StrLeTotal(a[1..], b[1..]); }
  }

  lemma {:induction false} StrLeAntisymmetric(a: string, b: string)
    requires StrLe(a, b) && StrLe(b, a)
    ensures a == b
  {
    if a != [] {
      StrLeAntisymmetric(a[1..], b[1..]);
      assert a == [a[0]] + a[1..] && b == [b[0]] + b[1..];
    }
  }

  lemma {:induction false} StrLeTransitive(a: string, b: string, c: string)
    requires StrLe(a, b) && StrLe(b, c)
    ensures StrLe(a, c)
  {
    if a != [] && a[0] == b[0] && b[0] == c[0] { StrLeTransitive(a[1..], b[1..], c[1..]); }
  }

  predicate IsLeast(s: set<string>, m: string) {
    m in s && forall x :: x in s ==> StrLe(m, x)
  }

  lemma LeastExists(s: set<string>)
    requires s != {}
    ensures exists m :: IsLeast(s, m)
  {
    var x :| x in s;
    StrLeTotal(x, x);
    var rest := s - {x};
    if rest == {} {
      assert s == {x};
      assert IsLeast(s, x);
    } else {
      LeastExists(rest);
      var m :| IsLeast(rest, m);
      StrLeTotal(x, m);
      if StrLe(x, m) {
        forall y | y in s ensures StrLe(x, y) {
          if y != x { StrLeTransitive(x, m, y); }
        }
        assert IsLeast(s, x);
      } else {
        assert IsLeast(s, m);
      }
    }
  }

  lemma LeastUnique(s: set<string>)
    ensures forall m, n :: IsLeast(s, m) && IsLeast(s, n) ==> m == n
  {
    forall m, n | IsLeast(s, m) && IsLeast(s, n) ensures m == n { StrLeAntisymmetric(m, n); }
  }

  function Least(s: set<string>): (m: string)
    requires s != {}
    ensures IsLeast(s, m)
  {
    LeastExists(s);
    LeastUnique(s);
    var m :| m in s && IsLeast(s, m);
    m
  }

  /** The members of a set in increasing order. */
  function SortedSet(s: set<string>): (r: seq<string>)
    ensures |r| == |s|
    ensures forall x :: x in r <==> x in s
    decreases |s|
  {
    if s == {} then []
    else
      var m := Least(s);
      assert forall x :: x in s <==> x == m || x in s - {m};
      [m] + SortedSet(s - {m})
  }

  ghost predicate Increasing(r: seq<string>) {
    forall i, j :: 0 <= i < j < |r| ==> r[i] != r[j] && StrLe(r[i], r[j])
  }

  lemma HeadIsLeast(r: seq<string>, s: set<string>)
    requires Increasing(r) && r != [] && forall x :: x in r <==> x in s
    ensures s != {} && Least(s) == r[0]
  {
    hide StrLe;
    assert r[0] in r;
    forall x | x in s ensures StrLe(r[0], x) {
      var k :| 0 <= k < |r| && r[k] == x;
      if k == 0 { StrLeTotal(x, x); }
    }
    StrLeAntisymmetric(r[0], Least(s));
  }

  lemma TailMembers(r: seq<string>, s: set<string>)
    requires Increasing(r) && r != [] && forall x :: x in r <==> x in s
    ensures Increasing(r[1..]) && forall x :: x in r[1..] <==> x in s - {r[0]}
  {
    hide StrLe;
    forall x ensures x in r[1..] <==> x in s - {r[0]} {
      assert r == [r[0]] + r[1..];
      if x in r[1..] {
        var k :| 0 <= k < |r| - 1 && r[1..][k] == x;
        assert r[k + 1] == x && r[0] != r[k + 1];
      }
    }
  }

  /** The only increasing enumeration of its own members. */
  lemma {:induction false} IncreasingIsSorted(r: seq<string>, s: set<string>)
    requires Increasing(r) && forall x :: x in r <==> x in s
    ensures r == SortedSet(s)
    decreases |r|
  {
    hide Increasing, Least;
    if r == [] {
      assert forall x :: x !in s;
    } else {
      HeadIsLeast(r, s);
      TailMembers(r, s);
      IncreasingIsSorted(r[1..], s - {r[0]});
      assert r == [r[0]] + r[1..];
    }
  }

  lemma {:induction false} SortedSetIncreasing(s: set<string>)
    ensures Increasing(SortedSet(s))
    decreases |s|
  {
    if s != {} {
      var m := Least(s);
      var rest := SortedSet(s - {m});
      SortedSetIncreasing(s - {m});
      forall i, j | 0 <= i < j < |SortedSet(s)|
        ensures SortedSet(s)[i] != SortedSet(s)[j] && StrLe(SortedSet(s)[i], SortedSet(s)[j])
      {
        assert SortedSet(s) == [m] + rest;
        assert rest[j - 1] in rest;
        assert rest[j - 1] in s - {m};
      }
    }
  }

  /** Insertion sort on distinct strings. */
  method Sort(xs: seq<string>) returns (r: seq<string>)
    requires forall i, j :: 0 <= i < j < |xs| ==> xs[i] != xs[j]
    ensures r == SortedSet(set x | x in xs)
  {
    r := [];
    for i := 0 to |xs|
      invariant Increasing(r)
      invariant forall x :: x in r <==> x in xs[..i]
    {
      var x := xs[i];
      assert x !in xs[..i];
      r := Insert(r, x);
      assert forall y :: y in xs[..i + 1] <==> y in xs[..i] || y == x;
    }
    assert xs[..|xs|] == xs;
    IncreasingIsSorted(r, set x | x in xs);
  }

  method Insert(r: seq<string>, x: string) returns (out: seq<string>)
    requires Increasing(r) && x !in r
    ensures Increasing(out)
    ensures forall y :: y in out <==> y in r || y == x
  {
    var k := 0;
    while k < |r| && StrLe(r[k], x)
      invariant k <= |r|
      invariant forall i :: 0 <= i < k ==> StrLe(r[i], x)
    {
      k := k + 1;
    }
    out := r[..k] + [x] + r[k..];
    InsertedIsIncreasing(r, x, k);
    assert r == r[..k] + r[k..];
  }

  lemma {:induction false} InsertedIsIncreasing(r: seq<string>, x: string, k: nat)
    requires Increasing(r) && x !in r && k <= |r|
    requires (forall i :: 0 <= i < k ==> StrLe(r[i], x)) && (k < |r| ==> !StrLe(r[k], x))
    ensures Increasing(r[..k] + [x] + r[k..])
  {
    hide StrLe;
    var out := r[..k] + [x] + r[k..];
    forall i | k <= i < |r| ensures StrLe(x, r[i]) {
      StrLeTotal(r[k], x);
      if i > k { StrLeTransitive(x, r[k], r[i]); }
    }
    forall i | 0 <= i < |out| ensures out[i] == if i < k then r[i] else if i == k then x else r[i - 1] {}
    assert forall i :: 0 <= i < |r| ==> r[i] in r;
  }
}
