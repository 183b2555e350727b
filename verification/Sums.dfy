/**
 Finite sums of reals over sequences.

 A sum takes the function that gives the summands and the sequence it runs over.  The lemmas here say how sums over the
 same sequence relate: equal, ordered, added or scaled summands give equal, ordered, added or scaled sums, and one
 strictly smaller summand a strictly smaller sum.

 Sums over pairs take a function of two items.  They can be added up in either order, and permuting the sequence
 changes neither kind of sum.
 */
module Sums {
  function SumOf<T(!new)>(f: T -> real, s: seq<T>): real {
    if s == [] then 0.0 else SumOf(f, s[..|s| - 1]) + f(s[|s| - 1])
  }

  lemma {:induction false} SumConcat<T(!new)>(f: T -> real, a: seq<T>, b: seq<T>)
    ensures SumOf(f, a + b) == SumOf(f, a) + SumOf(f, b)
  {
    if b == [] {
      assert a + b == a;
    } else {
      assert (a + b)[..|a + b| - 1] == a + b[..|b| - 1];
      SumConcat(f, a, b[..|b| - 1]);
    }
  }

  lemma SumAppend<T(!new)>(f: T -> real, s: seq<T>, x: T)
    ensures SumOf(f, s + [x]) == SumOf(f, s) + f(x)
  {
    assert (s + [x])[..|s|] == s;
  }

  /** Summands that agree on the elements have equal sums. */
  lemma {:induction false} SumSame<T(!new)>(f: T -> real, g: T -> real, s: seq<T>)
    requires forall i | 0 <= i < |s| :: f(s[i]) == g(s[i])
    ensures SumOf(f, s) == SumOf(g, s)
  {
    if s != [] { SumSame(f, g, s[..|s| - 1]); }
  }

  lemma {:induction false} SumAtMost<T(!new)>(f: T -> real, g: T -> real, s: seq<T>)
    requires forall i | 0 <= i < |s| :: f(s[i]) <= g(s[i])
    ensures SumOf(f, s) <= SumOf(g, s)
  {
    if s != [] { SumAtMost(f, g, s[..|s| - 1]); }
  }

  lemma {:induction false} SumBelow<T(!new)>(f: T -> real, g: T -> real, s: seq<T>, k: nat)
    requires forall i | 0 <= i < |s| :: f(s[i]) <= g(s[i])
    requires k < |s| && f(s[k]) < g(s[k])
    ensures SumOf(f, s) < SumOf(g, s)
  {
    if k == |s| - 1 {
      SumAtMost(f, g, s[..k]);
    } else {
      SumBelow(f, g, s[..|s| - 1], k);
    }
  }

  lemma {:induction false} SumAdd<T(!new)>(f: T -> real, g: T -> real, h: T -> real, s: seq<T>)
    requires forall i | 0 <= i < |s| :: h(s[i]) == f(s[i]) + g(s[i])
    ensures SumOf(h, s) == SumOf(f, s) + SumOf(g, s)
  {
    if s != [] { SumAdd(f, g, h, s[..|s| - 1]); }
  }

  lemma {:induction false} SumScale<T(!new)>(c: real, f: T -> real, h: T -> real, s: seq<T>)
    requires forall i | 0 <= i < |s| :: h(s[i]) == c * f(s[i])
    ensures SumOf(h, s) == c * SumOf(f, s)
  {
    if s != [] { SumScale(c, f, h, s[..|s| - 1]); }
  }

  lemma {:induction false} SumConst<T(!new)>(c: real, f: T -> real, s: seq<T>)
    requires forall i | 0 <= i < |s| :: f(s[i]) == c
    ensures SumOf(f, s) == c * |s| as real
  {
    if s != [] { SumConst(c, f, s[..|s| - 1]); }
  }

  function Without<T>(s: seq<T>, i: nat): seq<T>
    requires i < |s|
  {
    s[..i] + s[i + 1..]
  }

  lemma {:induction false} SumWithout<T(!new)>(f: T -> real, s: seq<T>, i: nat)
    requires i < |s|
    ensures SumOf(f, s) == SumOf(f, Without(s, i)) + f(s[i])
  {
    var n := |s| - 1;
    if i == n {
      assert Without(s, i) == s[..n];
    } else {
      SumWithout(f, s[..n], i);
      assert Without(s, i) == Without(s[..n], i) + [s[n]];
      SumAppend(f, Without(s[..n], i), s[n]);
    }
  }

  lemma MultisetWithout<T>(s: seq<T>, i: nat)
    requires i < |s|
    ensures multiset(Without(s, i)) == multiset(s) - multiset{s[i]}
  {
    assert s == s[..i] + [s[i]] + s[i + 1..];
  }

  /** The order of the elements does not matter. */
  lemma {:induction false} SumPermutation<T(!new)>(f: T -> real, a: seq<T>, b: seq<T>)
    requires multiset(a) == multiset(b)
    ensures SumOf(f, a) == SumOf(f, b)
    decreases |a|
  {
    if a == [] {
      assert |b| == |multiset(b)| == 0;
    } else {
      var n := |a| - 1;
      assert a[n] in multiset(b);
      var i :| 0 <= i < |b| && b[i] == a[n];
      MultisetWithout(a, n);
      MultisetWithout(b, i);
      SumPermutation(f, Without(a, n), Without(b, i));
      SumWithout(f, a, n);
      SumWithout(f, b, i);
    }
  }

  /** A double sum can be taken in either order. */
  lemma {:induction false} SumSwap<S(!new), T(!new)>(f: (S, T) -> real, s: seq<S>, t: seq<T>)
    ensures SumOf((x: S) => SumOf((y: T) => f(x, y), t), s) == SumOf((y: T) => SumOf((x: S) => f(x, y), s), t)
  {
    var inner := (x: S) => SumOf((y: T) => f(x, y), t);
    var outer := (y: T) => SumOf((x: S) => f(x, y), s);
    if s == [] {
      SumConst(0.0, outer, t);
    } else {
      var front, last := s[..|s| - 1], s[|s| - 1];
      SumSwap(f, front, t);
      var before := (y: T) => SumOf((x: S) => f(x, y), front);
      var row := (y: T) => f(last, y);
      SumAdd(before, row, outer, t);
    }
  }

  // ------------------------------------------------------------------ sums over ordered pairs

  /** f with its first argument fixed. */
  ghost function Row<T(!new)>(f: (T, T) -> real, x: T): T -> real {
    (y: T) => f(x, y)
  }

  ghost function RowSum<T(!new)>(f: (T, T) -> real, t: seq<T>): T -> real {
    (x: T) => SumOf(Row(f, x), t)
  }

  ghost function PairSum<T(!new)>(f: (T, T) -> real, s: seq<T>): real {
    SumOf(RowSum(f, s), s)
  }

  lemma PairSumAdd<T(!new)>(f: (T, T) -> real, g: (T, T) -> real, h: (T, T) -> real, s: seq<T>)
    requires forall x, y :: h(x, y) == f(x, y) + g(x, y)
    ensures PairSum(h, s) == PairSum(f, s) + PairSum(g, s)
  {
    forall x ensures RowSum(h, s)(x) == RowSum(f, s)(x) + RowSum(g, s)(x) {
      SumAdd(Row(f, x), Row(g, x), Row(h, x), s);
    }
    SumAdd(RowSum(f, s), RowSum(g, s), RowSum(h, s), s);
  }

  lemma PairSumNonNegative<T(!new)>(f: (T, T) -> real, s: seq<T>)
    requires forall x, y :: f(x, y) >= 0.0
    ensures PairSum(f, s) >= 0.0
  {
    var zero := (x: T) => 0.0;
    SumConst(0.0, zero, s);
    forall x ensures RowSum(f, s)(x) >= 0.0 {
      SumAtMost(zero, Row(f, x), s);
    }
    SumAtMost(zero, RowSum(f, s), s);
  }

  lemma PairSumSwap<T(!new)>(f: (T, T) -> real, g: (T, T) -> real, s: seq<T>)
    requires forall x, y :: g(y, x) == f(x, y)
    ensures PairSum(f, s) == PairSum(g, s)
  {
    var rows := (x: T) => SumOf((y: T) => f(x, y), s);
    var columns := (y: T) => SumOf((x: T) => f(x, y), s);
    SumSwap(f, s, s);
    forall x ensures RowSum(f, s)(x) == rows(x) {
      SumSame(Row(f, x), (y: T) => f(x, y), s);
    }
    SumSame(RowSum(f, s), rows, s);
    forall y ensures columns(y) == RowSum(g, s)(y) {
      SumSame((x: T) => f(x, y), Row(g, y), s);
    }
    SumSame(columns, RowSum(g, s), s);
  }

  lemma PairSumPermutation<T(!new)>(f: (T, T) -> real, a: seq<T>, b: seq<T>)
    requires multiset(a) == multiset(b)
    ensures PairSum(f, a) == PairSum(f, b)
  {
    forall x ensures RowSum(f, a)(x) == RowSum(f, b)(x) {
      SumPermutation(Row(f, x), a, b);
    }
    SumSame(RowSum(f, a), RowSum(f, b), a);
    SumPermutation(RowSum(f, b), a, b);
  }
}

/** Products and quotients of reals under a name, so that proofs use them through these lemmas. */
module Products {
  import opened Sums

  function Times(x: real, y: real): real { x * y }

  function Over(x: real, y: real): real
    requires y > 0.0
  {
    x / y
  }

  lemma OverTimes(x: real, y: real)
    requires y > 0.0
    ensures Times(Over(x, y), y) == x
  {
  }

  lemma OverPositive(x: real, y: real)
    requires x > 0.0 && y > 0.0
    ensures Over(x, y) > 0.0
  {
    OverTimes(x, y);
  }

  lemma {:induction false} SumOfParts<S(!new), T(!new)>(f: S -> real, g: T -> real, s: seq<S>, t: seq<T>, c: real)
    requires |s| == |t| && forall i | 0 <= i < |s| :: Times(f(s[i]), c) == g(t[i])
    ensures Times(SumOf(f, s), c) == SumOf(g, t)
  {
    if s != [] {
      SumOfParts(f, g, s[..|s| - 1], t[..|t| - 1], c);
      Distribute(SumOf(f, s[..|s| - 1]), f(s[|s| - 1]), c);
    }
  }

  lemma Distribute(a: real, b: real, c: real)
    ensures Times(a + b, c) == Times(a, c) + Times(b, c)
  {
  }

  lemma CancelFactor(x: real, y: real)
    requires Times(x, y) == y && y > 0.0
    ensures x == 1.0
  {
    assert (x - 1.0) * y == x * y - y;
  }

  lemma ProductNonNegative(x: real, y: real)
    requires x >= 0.0 && y >= 0.0
    ensures Times(x, y) >= 0.0
  {
  }

  lemma ProductPositive(x: real, y: real)
    requires x > 0.0 && y > 0.0
    ensures Times(x, y) > 0.0
  {
  }

  lemma ProductNonPositive(x: real, y: real)
    requires x >= 0.0 && y <= 0.0
    ensures Times(x, y) <= 0.0
  {
  }

  lemma Commute(x: real, y: real)
    ensures Times(x, y) == Times(y, x)
  {
  }

  lemma TimesZeroLeft(y: real)
    ensures Times(0.0, y) == 0.0
  {
  }

  lemma TimesOne(x: real)
    ensures Times(1.0, x) == x
  {
  }

  lemma TimesOver(x: real, y: real)
    requires y > 0.0
    ensures Over(Times(x, y), y) == x
  {
  }

  lemma RatioScale(a: real, b: real, k: real)
    requires b > 0.0 && k > 0.0
    ensures Times(b, k) > 0.0 && Over(Times(a, k), Times(b, k)) == Over(a, b)
  {
    ProductPositive(b, k);
    OverTimes(a, b);
    QuotientIs(Over(a, b), a * k, b * k) by { assert Over(a, b) * (b * k) == (Over(a, b) * b) * k; }
  }

  lemma QuotientIs(x: real, a: real, b: real)
    requires b > 0.0 && x * b == a
    ensures Over(a, b) == x
  {
  }
}
