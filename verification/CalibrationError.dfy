/**
 Expected calibration error over equal-width bins between the smallest and the largest value.  Values are reals.
 */
module CalibrationError {
  import opened Prelude
  import opened Products
  import opened Sums

  datatype Record = Record(value: real, correct: bool)

  function Value(r: Record): real { r.value }
  function Hit(r: Record): real { if r.correct then 1.0 else 0.0 }
  function Gap(r: Record): real { r.value - Hit(r) }
  function Miss(r: Record): real { Abs(Gap(r)) }

  function Abs(x: real): real { if x < 0.0 then -x else x }

  // ------------------------------------------------------------------ bins

  /** The bin edges between lo and hi. */
  function Edge(lo: real, hi: real, bins: nat, b: nat): real
    requires bins > 0
  {
    lo + (hi - lo) * b as real / bins as real
  }

  predicate InBin(lo: real, hi: real, bins: nat, b: nat, v: real)
    requires bins > 0
  {
    (Edge(lo, hi, bins, b) <= v < Edge(lo, hi, bins, b + 1)) || (b == bins - 1 && v == hi)
  }

  lemma EdgesEnd(lo: real, hi: real, bins: nat)
    requires bins > 0
    ensures Edge(lo, hi, bins, 0) == lo && Edge(lo, hi, bins, bins) == hi
  {
  }

  /** The edges are evenly spaced, from lo to hi. */
  lemma EdgesAreEven(lo: real, hi: real, bins: nat, b: nat)
    requires b < bins
    ensures Times(Edge(lo, hi, bins, b + 1) - Edge(lo, hi, bins, b), bins as real) == hi - lo
  {
    var n, d := bins as real, hi - lo;
    assert d * (b + 1) as real == d * b as real + d;
    OverAdds(d * b as real, d, n);
    OverTimes(d, n);
  }

  lemma {:induction false} EdgesAscend(lo: real, hi: real, bins: nat, a: nat, b: nat)
    requires bins > 0 && lo <= hi && a <= b
    ensures Edge(lo, hi, bins, a) <= Edge(lo, hi, bins, b)
    decreases b
  {
    if a < b {
      EdgesAscend(lo, hi, bins, a, b - 1);
    }
  }

  /** The first bin, from the k-th on, whose upper edge is above v. */
  function BinFrom(lo: real, hi: real, bins: nat, v: real, k: nat): (b: nat)
    requires k < bins
    ensures k <= b < bins
    decreases bins - k
  {
    if k == bins - 1 || v < Edge(lo, hi, bins, k + 1) then k else BinFrom(lo, hi, bins, v, k + 1)
  }

  lemma {:induction false} BinFromHolds(lo: real, hi: real, bins: nat, v: real, k: nat)
    requires lo <= v <= hi && k < bins && Edge(lo, hi, bins, k) <= v
    ensures InBin(lo, hi, bins, BinFrom(lo, hi, bins, v, k), v)
    decreases bins - k
  {
    if k == bins - 1 {
      EdgesEnd(lo, hi, bins);
    } else if v >= Edge(lo, hi, bins, k + 1) {
      BinFromHolds(lo, hi, bins, v, k + 1);
    }
  }

  /** Every value from lo to hi is in exactly one bin. */
  lemma ExactlyOneBin(lo: real, hi: real, bins: nat, v: real, b: nat)
    requires bins > 0 && lo <= v <= hi && lo < hi && b < bins
    ensures InBin(lo, hi, bins, b, v) <==> b == BinFrom(lo, hi, bins, v, 0)
  {
    EdgesEnd(lo, hi, bins);
    var c := BinFrom(lo, hi, bins, v, 0);
    BinFromHolds(lo, hi, bins, v, 0);
    if InBin(lo, hi, bins, b, v) {
      if b < c { EdgesAscend(lo, hi, bins, b + 1, c); EdgesAscend(lo, hi, bins, b + 1, bins); }
      if c < b { EdgesAscend(lo, hi, bins, c + 1, b); EdgesAscend(lo, hi, bins, c + 1, bins); }
    }
  }

  // ------------------------------------------------------------------ sums by bin

  predicate Within(rs: seq<Record>, lo: real, hi: real) {
    forall i | 0 <= i < |rs| :: lo <= rs[i].value <= hi
  }

  ghost function Only(g: Record -> real, lo: real, hi: real, bins: nat, b: nat): Record -> real
    requires bins > 0
  {
    (r: Record) => if InBin(lo, hi, bins, b, r.value) then g(r) else 0.0
  }

  ghost function Below(g: Record -> real, lo: real, hi: real, bins: nat, k: nat): Record -> real
    requires bins > 0
  {
    (r: Record) => if BinFrom(lo, hi, bins, r.value, 0) < k then g(r) else 0.0
  }

  ghost function BinSum(g: Record -> real, rs: seq<Record>, lo: real, hi: real, bins: nat, b: nat): real
    requires bins > 0
  {
    SumOf(Only(g, lo, hi, bins, b), rs)
  }

  ghost function AllBins(g: Record -> real, rs: seq<Record>, lo: real, hi: real, bins: nat, k: nat): real
    requires k <= bins && bins > 0
  {
    if k == 0 then 0.0 else AllBins(g, rs, lo, hi, bins, k - 1) + BinSum(g, rs, lo, hi, bins, k - 1)
  }

  /** Summing bin by bin sums everything: the bins partition the records. */
  lemma {:induction false} BinsPartition(g: Record -> real, rs: seq<Record>, lo: real, hi: real, bins: nat, k: nat)
    requires k <= bins && bins > 0 && lo < hi && Within(rs, lo, hi)
    ensures AllBins(g, rs, lo, hi, bins, k) == SumOf(Below(g, lo, hi, bins, k), rs)
    ensures k == bins ==> AllBins(g, rs, lo, hi, bins, k) == SumOf(g, rs)
    decreases k
  {
    if k == 0 {
      SumConst(0.0, Below(g, lo, hi, bins, 0), rs);
    } else {
      BinsPartition(g, rs, lo, hi, bins, k - 1);
      forall i | 0 <= i < |rs|
        ensures Below(g, lo, hi, bins, k)(rs[i])
                == Below(g, lo, hi, bins, k - 1)(rs[i]) + Only(g, lo, hi, bins, k - 1)(rs[i])
      {
        ExactlyOneBin(lo, hi, bins, rs[i].value, k - 1);
      }
      SumAdd(Below(g, lo, hi, bins, k - 1), Only(g, lo, hi, bins, k - 1), Below(g, lo, hi, bins, k), rs);
    }
    if k == bins { SumSame(Below(g, lo, hi, bins, k), g, rs); }
  }

  // ------------------------------------------------------------------ the error

  /** Over the bins, how far the summed values are from the hits. */
  ghost function Spread(rs: seq<Record>, lo: real, hi: real, bins: nat, k: nat): real
    requires k <= bins && bins > 0
  {
    if k == 0 then 0.0 else Spread(rs, lo, hi, bins, k - 1) + Abs(BinSum(Gap, rs, lo, hi, bins, k - 1))
  }

  lemma {:induction false} SpreadBounds(rs: seq<Record>, lo: real, hi: real, bins: nat, k: nat)
    requires k <= bins && bins > 0
    ensures Abs(AllBins(Gap, rs, lo, hi, bins, k)) <= Spread(rs, lo, hi, bins, k) <= AllBins(Miss, rs, lo, hi, bins, k)
    decreases k
  {
    if k > 0 {
      SpreadBounds(rs, lo, hi, bins, k - 1);
      forall i | 0 <= i < |rs|
        ensures Abs(Only(Gap, lo, hi, bins, k - 1)(rs[i])) <= Only(Miss, lo, hi, bins, k - 1)(rs[i])
      {
        assert Miss(rs[i]) == Abs(Gap(rs[i]));
      }
      AbsOfSum(Only(Gap, lo, hi, bins, k - 1), Only(Miss, lo, hi, bins, k - 1), rs);
    }
  }

  lemma {:induction false} AbsOfSum(f: Record -> real, g: Record -> real, rs: seq<Record>)
    requires forall i | 0 <= i < |rs| :: Abs(f(rs[i])) <= g(rs[i])
    ensures Abs(SumOf(f, rs)) <= SumOf(g, rs)
  {
    if rs != [] { AbsOfSum(f, g, rs[..|rs| - 1]); }
  }

  function Least(rs: seq<Record>): (m: real)
    requires rs != []
    ensures (exists i :: 0 <= i < |rs| && rs[i].value == m) && forall i | 0 <= i < |rs| :: m <= rs[i].value
  {
    var last := rs[|rs| - 1].value;
    if |rs| == 1 then last
    else
      var rest := Least(rs[..|rs| - 1]);
      if last < rest then last else rest
  }

  function Greatest(rs: seq<Record>): (m: real)
    requires rs != []
    ensures (exists i :: 0 <= i < |rs| && rs[i].value == m) && forall i | 0 <= i < |rs| :: rs[i].value <= m
  {
    var last := rs[|rs| - 1].value;
    if |rs| == 1 then last
    else
      var rest := Greatest(rs[..|rs| - 1]);
      if last > rest then last else rest
  }

  function One(r: Record): real { 1.0 }

  /** The share of one bin: its fraction of the records times |mean value - accuracy|. */
  function Share(count: real, values: real, hits: real, n: real): real
    requires count > 0.0 && n > 0.0
  {
    Times(Over(count, n), Abs(Over(values, count) - Over(hits, count)))
  }

  lemma ShareIsGap(count: real, values: real, hits: real, n: real)
    requires count > 0.0 && n > 0.0
    ensures Share(count, values, hits, n) == Over(Abs(values - hits), n)
  {
    var d := Over(values, count) - Over(hits, count);
    OverTimes(values, count);
    OverTimes(hits, count);
    assert d * count == values - hits;
    var q := Over(count, n);
    OverTimes(count, n);
    QuotientIs(Times(q, Abs(d)), Abs(values - hits), n) by { assert (q * Abs(d)) * n == Abs(d) * (q * n); }
  }

  /** One pass over the records of a bin. */
  method Tally(rs: seq<Record>, lo: real, hi: real, bins: nat, b: nat) returns (count: real, values: real, hits: real)
    requires bins > 0
    ensures count == BinSum(One, rs, lo, hi, bins, b)
    ensures values - hits == BinSum(Gap, rs, lo, hi, bins, b)
    ensures count >= 0.0 && (count == 0.0 ==> values - hits == 0.0)
  {
    count, values, hits := 0.0, 0.0, 0.0;
    for i := 0 to |rs|
      invariant count == BinSum(One, rs[..i], lo, hi, bins, b)
      invariant values - hits == BinSum(Gap, rs[..i], lo, hi, bins, b)
      invariant count >= 0.0 && (count == 0.0 ==> values - hits == 0.0)
    {
      assert rs[..i + 1] == rs[..i] + [rs[i]];
      SumAppend(Only(One, lo, hi, bins, b), rs[..i], rs[i]);
      SumAppend(Only(Gap, lo, hi, bins, b), rs[..i], rs[i]);
      assert Only(One, lo, hi, bins, b)(rs[i]) == if InBin(lo, hi, bins, b, rs[i].value) then 1.0 else 0.0;
      assert Only(Gap, lo, hi, bins, b)(rs[i]) == if InBin(lo, hi, bins, b, rs[i].value) then Gap(rs[i]) else 0.0;
      if InBin(lo, hi, bins, b, rs[i].value) {
        count, values := count + 1.0, values + rs[i].value;
        if rs[i].correct { hits := hits + 1.0; }
      }
    }
    assert rs[..|rs|] == rs;
  }

  ghost function EceOf(rs: seq<Record>, bins: int): real
    requires rs != []
  {
    if Greatest(rs) <= Least(rs) || bins <= 0 then 0.0
    else Over(Spread(rs, Least(rs), Greatest(rs), bins, bins), |rs| as real)
  }

  /** `ece`; without records there is no smallest value and it raises, without bins nothing is added up. */
  method Ece(rs: seq<Record>, bins: int) returns (r: Option<real>)
    ensures r == if rs == [] then None else Some(EceOf(rs, bins))
  {
    if rs == [] { return None; }
    var lo, hi, n := Least(rs), Greatest(rs), |rs| as real;
    if hi <= lo || bins <= 0 { return Some(0.0); }
    var total := 0.0;
    for b := 0 to bins
      invariant total == Over(Spread(rs, lo, hi, bins, b), n)
    {
      var count, values, hits := Tally(rs, lo, hi, bins, b);
      OverAdds(Spread(rs, lo, hi, bins, b), Abs(values - hits), n);
      if count > 0.0 {
        ShareIsGap(count, values, hits, n);
        total := total + Share(count, values, hits, n);
      }
    }
    return Some(total);
  }

  lemma OverAdds(x: real, y: real, n: real)
    requires n > 0.0
    ensures Over(x + y, n) == Over(x, n) + Over(y, n) && Over(0.0, n) == 0.0
  {
  }

  lemma OverGrows(x: real, y: real, n: real)
    requires x <= y && n > 0.0
    ensures Over(x, n) <= Over(y, n)
  {
  }

  ghost function Mean(g: Record -> real, rs: seq<Record>): real
    requires rs != []
  {
    Over(SumOf(g, rs), |rs| as real)
  }

  /** Mean value minus accuracy. */
  lemma MeanGap(rs: seq<Record>)
    requires rs != []
    ensures Mean(Gap, rs) == Mean(Value, rs) - Mean(Hit, rs)
  {
    SumAdd(Gap, Hit, Value, rs);
    OverAdds(SumOf(Gap, rs), SumOf(Hit, rs), |rs| as real);
  }

  lemma AbsOver(x: real, n: real)
    requires n > 0.0
    ensures Over(Abs(x), n) == Abs(Over(x, n))
  {
    OverTimes(x, n);
    QuotientIs(Abs(Over(x, n)), Abs(x), n);
  }

  /** With two different values the error lies between the overall miscalibration and the mean miss. */
  lemma ErrorIsBounded(rs: seq<Record>, bins: nat)
    requires rs != [] && bins > 0 && Least(rs) < Greatest(rs)
    ensures Abs(Mean(Value, rs) - Mean(Hit, rs)) <= EceOf(rs, bins) <= Mean(Miss, rs)
  {
    var lo, hi, n := Least(rs), Greatest(rs), |rs| as real;
    SpreadBounds(rs, lo, hi, bins, bins);
    BinsPartition(Gap, rs, lo, hi, bins, bins);
    BinsPartition(Miss, rs, lo, hi, bins, bins);
    OverGrows(Abs(SumOf(Gap, rs)), Spread(rs, lo, hi, bins, bins), n);
    OverGrows(Spread(rs, lo, hi, bins, bins), SumOf(Miss, rs), n);
    AbsOver(SumOf(Gap, rs), n);
    MeanGap(rs);
  }

  /** The error bounds the overall miscalibration exactly when there are two different values or it is zero anyway. */
  lemma BoundsMiscalibrationIff(rs: seq<Record>, bins: nat)
    requires rs != [] && bins > 0
    ensures Abs(Mean(Value, rs) - Mean(Hit, rs)) <= EceOf(rs, bins)
            <==> Least(rs) < Greatest(rs) || Least(rs) == Mean(Hit, rs)
  {
    if Least(rs) < Greatest(rs) {
      ErrorIsBounded(rs, bins);
    } else {
      MeanOfEqual(rs);
    }
  }

  lemma MeanOfEqual(rs: seq<Record>)
    requires rs != [] && Greatest(rs) <= Least(rs)
    ensures Mean(Value, rs) == Least(rs)
  {
    var c, n := Least(rs), |rs| as real;
    assert forall i | 0 <= i < |rs| :: rs[i].value == c;
    ConstantSum(rs, c);
    TimesOver(c, n);
  }

  lemma ConstantSum(rs: seq<Record>, c: real)
    requires forall i | 0 <= i < |rs| :: rs[i].value == c
    ensures SumOf(Value, rs) == Times(c, |rs| as real)
  {
    SumConst(c, Value, rs);
  }

  /** One confident value, always wrong: the error reported is zero. */
  lemma SingleValueHidesMisses()
    ensures var rs := [Record(0.9, false), Record(0.9, false)]; EceOf(rs, 10) == 0.0 && Mean(Hit, rs) == 0.0
  {
    var rs := [Record(0.9, false), Record(0.9, false)];
    SumConst(0.0, Hit, rs);
  }
}
