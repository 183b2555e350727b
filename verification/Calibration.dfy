/**
 AUROC by tied average ranks.  Scores are reals, so no rounding is modelled.
 */
module RankAuroc {
  import opened Prelude
  import Products
  import opened Sums

  datatype Sample = Sample(score: real, positive: bool)

  // ------------------------------------------------------------------ the definition

  /** 1 when x scores above y, 1/2 on a tie, 0 below. */
  function Beats(x: Sample, y: Sample): real {
    if x.score > y.score then 1.0 else if x.score == y.score then 0.5 else 0.0
  }

  function Positive(x: Sample): real { if x.positive then 1.0 else 0.0 }
  function Negative(x: Sample): real { if x.positive then 0.0 else 1.0 }

  /** A positive x against a negative y: what x wins, what y wins, and one for the pair. */
  function Won(x: Sample, y: Sample): real { if x.positive && !y.positive then Beats(x, y) else 0.0 }
  function Lost(x: Sample, y: Sample): real { if x.positive && !y.positive then Beats(y, x) else 0.0 }
  function Met(x: Sample, y: Sample): real { if x.positive && !y.positive then 1.0 else 0.0 }

  /** How many samples are positive, or negative. */
  ghost function Positives(s: seq<Sample>): real { SumOf(Positive, s) }
  ghost function Negatives(s: seq<Sample>): real { SumOf(Negative, s) }

  /**
   The probability that a random positive scores above a random negative: positive-above-negative
   pairs, ties counting half, over all such pairs.
   */
  ghost function Auroc(s: seq<Sample>): Option<real> {
    if Positives(s) == 0.0 || Negatives(s) == 0.0 then None
    else Some(PerPair(PairSum(Won, s), Positives(s), Negatives(s)))
  }

  function PerPair(x: real, pos: real, neg: real): real
    requires pos != 0.0 && neg != 0.0
  {
    x / (neg * pos)
  }

  // ------------------------------------------------------------------ sorting

  predicate Ascending(s: seq<Sample>) {
    forall i, j | 0 <= i < j < |s| :: s[i].score <= s[j].score
  }

  function Insert(x: Sample, s: seq<Sample>): seq<Sample> {
    if s == [] || x.score <= s[0].score then [x] + s else [s[0]] + Insert(x, s[1..])
  }

  /** `sorted(..., key=score)`, which is stable. */
  function SortByScore(s: seq<Sample>): seq<Sample> {
    if s == [] then [] else Insert(s[0], SortByScore(s[1..]))
  }

  lemma {:induction false} InsertPermutes(x: Sample, s: seq<Sample>)
    ensures multiset(Insert(x, s)) == multiset(s) + multiset{x}
  {
    if s != [] && x.score > s[0].score {
      InsertPermutes(x, s[1..]);
      assert s == [s[0]] + s[1..];
    }
  }

  lemma {:induction false} InsertAscends(x: Sample, s: seq<Sample>)
    requires Ascending(s)
    ensures Ascending(Insert(x, s))
  {
    if s != [] && x.score > s[0].score {
      InsertAscends(x, s[1..]);
      InsertPermutes(x, s[1..]);
      var t := Insert(x, s[1..]);
      forall i | 0 <= i < |t| ensures s[0].score <= t[i].score {
        assert t[i] in multiset(t);
        assert t[i] == x || t[i] in s[1..];
      }
    }
  }

  lemma {:induction false} SortSorts(s: seq<Sample>)
    ensures Ascending(SortByScore(s))
    ensures multiset(SortByScore(s)) == multiset(s)
    ensures |SortByScore(s)| == |s|
  {
    if s != [] {
      SortSorts(s[1..]);
      InsertAscends(s[0], SortByScore(s[1..]));
      InsertPermutes(s[0], SortByScore(s[1..]));
      assert s == [s[0]] + s[1..];
      assert |SortByScore(s)| == |multiset(SortByScore(s))|;
      assert |s| == |multiset(s)|;
    }
  }

  lemma AurocPermutation(a: seq<Sample>, b: seq<Sample>)
    requires multiset(a) == multiset(b)
    ensures Auroc(a) == Auroc(b)
  {
    SumPermutation(Positive, a, b);
    SumPermutation(Negative, a, b);
    PairSumPermutation(Won, a, b);
  }

  // ------------------------------------------------------------------ ranks

  /** How many samples of s rank below x, ties counting half. */
  ghost function Below(s: seq<Sample>, x: Sample): real {
    RowSum(Beats, s)(x)
  }

  /** In a sorted list a member of the tie block i..j beats exactly what comes before the block. */
  lemma BlockBeats(p: seq<Sample>, i: nat, j: nat, k: nat, l: nat)
    requires Ascending(p) && i <= k <= j < |p| && l < |p|
    requires forall n | i <= n <= j :: p[n].score == p[i].score
    requires i > 0 ==> p[i - 1].score < p[i].score
    requires j + 1 < |p| ==> p[j + 1].score != p[i].score
    ensures Beats(p[k], p[l]) == if l < i then 1.0 else if l <= j then 0.5 else 0.0
  {
    if l < i { assert p[l].score <= p[i - 1].score; }
    if l > j { assert p[i].score <= p[j + 1].score <= p[l].score; }
  }

  /** What a member of the tie block i..j beats among the first n. */
  function BeatenBefore(i: nat, j: nat, n: nat): real
    requires i <= j
  {
    if n <= i then n as real
    else if n <= j + 1 then i as real + 0.5 * (n as real - i as real)
    else i as real + 0.5 * (j as real + 1.0 - i as real)
  }

  lemma {:induction false} BlockSum(f: Sample -> real, p: seq<Sample>, i: nat, j: nat)
    requires i <= j
    requires forall l | 0 <= l < |p| :: f(p[l]) == if l < i then 1.0 else if l <= j then 0.5 else 0.0
    ensures SumOf(f, p) == BeatenBefore(i, j, |p|)
  {
    if p != [] {
      BlockSum(f, p[..|p| - 1], i, j);
      assert f(p[|p| - 1]) == BeatenBefore(i, j, |p|) - BeatenBefore(i, j, |p| - 1);
    }
  }

  /** The average rank of a tie block i..j of a sorted list: the samples below it, plus half. */
  lemma BlockRank(p: seq<Sample>, i: nat, j: nat, k: nat)
    requires Ascending(p) && i <= k <= j < |p|
    requires forall l | i <= l <= j :: p[l].score == p[i].score
    requires i > 0 ==> p[i - 1].score < p[i].score
    requires j + 1 < |p| ==> p[j + 1].score != p[i].score
    ensures (i + j) as real / 2.0 + 1.0 == Below(p, p[k]) + 0.5
  {
    forall l: nat | l < |p|
      ensures Row(Beats, p[k])(p[l]) == if l < i then 1.0 else if l <= j then 0.5 else 0.0
    {
      BlockBeats(p, i, j, k, l);
    }
    BlockSum(Row(Beats, p[k]), p, i, j);
  }

  ghost function RankTerm(p: seq<Sample>): Sample -> real {
    (x: Sample) => if x.positive then Below(p, x) + 0.5 else 0.0
  }

  function BothPositive(x: Sample, y: Sample): real { if x.positive && y.positive then 1.0 else 0.0 }
  function Among(x: Sample, y: Sample): real { if x.positive && y.positive then Beats(x, y) else 0.0 }
  function AmongBack(x: Sample, y: Sample): real { if x.positive && y.positive then Beats(y, x) else 0.0 }
  function OfPositive(x: Sample, y: Sample): real { if x.positive then Beats(x, y) else 0.0 }

  lemma CountMet(s: seq<Sample>)
    ensures PairSum(Met, s) == Negatives(s) * Positives(s)
  {
    var neg := Negatives(s);
    forall x: Sample ensures RowSum(Met, s)(x) == neg * Positive(x) {
      if x.positive {
        forall i | 0 <= i < |s| ensures Row(Met, x)(s[i]) == Negative(s[i]) {
          assert Row(Met, x)(s[i]) == Met(x, s[i]);
        }
        SumSame(Row(Met, x), Negative, s);
      } else {
        forall i | 0 <= i < |s| ensures Row(Met, x)(s[i]) == 0.0 { assert Row(Met, x)(s[i]) == Met(x, s[i]); }
        SumConst(0.0, Row(Met, x), s);
      }
    }
    SumScale(neg, Positive, RowSum(Met, s), s);
  }

  lemma CountBothPositive(s: seq<Sample>)
    ensures PairSum(BothPositive, s) == Positives(s) * Positives(s)
  {
    var pos := Positives(s);
    forall x: Sample ensures RowSum(BothPositive, s)(x) == pos * Positive(x) {
      if x.positive {
        forall i | 0 <= i < |s| ensures Row(BothPositive, x)(s[i]) == Positive(s[i]) {
          assert Row(BothPositive, x)(s[i]) == BothPositive(x, s[i]);
        }
        SumSame(Row(BothPositive, x), Positive, s);
      } else {
        forall i | 0 <= i < |s| ensures Row(BothPositive, x)(s[i]) == 0.0 {
          assert Row(BothPositive, x)(s[i]) == BothPositive(x, s[i]);
        }
        SumConst(0.0, Row(BothPositive, x), s);
      }
    }
    SumScale(pos, Positive, RowSum(BothPositive, s), s);
  }

  /** Among themselves the positives win half of their ordered pairs. */
  lemma PositivePairs(p: seq<Sample>)
    ensures 2.0 * PairSum(Among, p) == Positives(p) * Positives(p)
  {
    PairSumSwap(Among, AmongBack, p);
    PairSumAdd(Among, AmongBack, BothPositive, p);
    CountBothPositive(p);
  }

  ghost function HalfPositive(): Sample -> real { (x: Sample) => 0.5 * Positive(x) }

  /** A positive's rank is what it beats, plus one half. */
  lemma RankOfOne(p: seq<Sample>, x: Sample)
    ensures RankTerm(p)(x) == RowSum(OfPositive, p)(x) + HalfPositive()(x)
  {
    if x.positive {
      forall i | 0 <= i < |p| ensures Row(OfPositive, x)(p[i]) == Row(Beats, x)(p[i]) {
        assert OfPositive(x, p[i]) == Beats(x, p[i]);
      }
      SumSame(Row(OfPositive, x), Row(Beats, x), p);
    } else {
      forall i | 0 <= i < |p| ensures Row(OfPositive, x)(p[i]) == 0.0 {
        assert OfPositive(x, p[i]) == 0.0;
      }
      SumConst(0.0, Row(OfPositive, x), p);
    }
  }

  function OwnPairs(n: real): real { n * (n + 1.0) / 2.0 }

  /** The rank sum of the positives is the pair count plus the rank sum they have among themselves. */
  lemma RankSumIsPairs(p: seq<Sample>)
    ensures SumOf(RankTerm(p), p) == PairSum(Won, p) + OwnPairs(Positives(p))
  {
    forall i | 0 <= i < |p| ensures RankTerm(p)(p[i]) == RowSum(OfPositive, p)(p[i]) + HalfPositive()(p[i]) {
      RankOfOne(p, p[i]);
    }
    SumAdd(RowSum(OfPositive, p), HalfPositive(), RankTerm(p), p);
    SplitOfPositive(p);
    SumScale(0.5, Positive, HalfPositive(), p);
    PositivePairs(p);
  }

  lemma SplitOfPositive(p: seq<Sample>)
    ensures SumOf(RowSum(OfPositive, p), p) == PairSum(Won, p) + PairSum(Among, p)
  {
    PairSumAdd(Won, Among, OfPositive, p);
  }

  // ------------------------------------------------------------------ the loop

  function Zip(scores: seq<real>, labels: seq<bool>): (s: seq<Sample>)
    ensures |s| == if |scores| <= |labels| then |scores| else |labels|
    ensures forall i | 0 <= i < |s| :: s[i] == Sample(scores[i], labels[i])
  {
    seq(if |scores| <= |labels| then |scores| else |labels|,
        i requires 0 <= i < |scores| && i < |labels| => Sample(scores[i], labels[i]))
  }

  /** The sum of the average ranks of the positives, one tie block at a time. */
  method RankSum(pairs: seq<Sample>) returns (rankSum: real)
    requires Ascending(pairs)
    ensures rankSum == SumOf(RankTerm(pairs), pairs)
  {
    var i := 0;
    rankSum := 0.0;
    while i < |pairs|
      invariant 0 <= i <= |pairs|
      invariant 0 < i < |pairs| ==> pairs[i - 1].score < pairs[i].score
      invariant rankSum == SumOf(RankTerm(pairs), pairs[..i])
      decreases |pairs| - i
    {
      var j := i;
      while j + 1 < |pairs| && pairs[j + 1].score == pairs[i].score
        invariant i <= j < |pairs|
        invariant forall l | i <= l <= j :: pairs[l].score == pairs[i].score
      {
        j := j + 1;
      }
      var avgRank := (i + j) as real / 2.0 + 1.0;
      for k := i to j + 1
        invariant rankSum == SumOf(RankTerm(pairs), pairs[..k])
      {
        BlockRank(pairs, i, j, k);
        SumAppend(RankTerm(pairs), pairs[..k], pairs[k]);
        assert pairs[..k + 1] == pairs[..k] + [pairs[k]];
        if pairs[k].positive { rankSum := rankSum + avgRank; }
      }
      i := j + 1;
    }
    assert pairs[..|pairs|] == pairs;
  }

  method CountPositives(pairs: seq<Sample>) returns (pos: real, neg: real)
    ensures pos == Positives(pairs) && neg == Negatives(pairs)
  {
    pos, neg := 0.0, 0.0;
    for i := 0 to |pairs|
      invariant pos == SumOf(Positive, pairs[..i]) && neg == SumOf(Negative, pairs[..i])
    {
      SumAppend(Positive, pairs[..i], pairs[i]);
      SumAppend(Negative, pairs[..i], pairs[i]);
      assert pairs[..i + 1] == pairs[..i] + [pairs[i]];
      if pairs[i].positive { pos := pos + 1.0; } else { neg := neg + 1.0; }
    }
    assert pairs[..|pairs|] == pairs;
  }

  /** `auroc`: average ranks over tie blocks of the sorted pairs give the pairwise definition. */
  method RankSumAuroc(scores: seq<real>, labels: seq<bool>) returns (r: Option<real>)
    ensures r == Auroc(Zip(scores, labels))
  {
    var pairs := SortByScore(Zip(scores, labels));
    SortSorts(Zip(scores, labels));
    AurocPermutation(pairs, Zip(scores, labels));
    var pos, neg := CountPositives(pairs);
    if pos == 0.0 || neg == 0.0 { return None; }
    var rankSum := RankSum(pairs);
    RankSumIsPairs(pairs);
    return Some(PerPair(rankSum - OwnPairs(pos), pos, neg));
  }

  // ------------------------------------------------------------------ consequences

  /** Each positive-negative pair is won by one side, or halved. */
  lemma WonAndLost(s: seq<Sample>)
    ensures PairSum(Won, s) + PairSum(Lost, s) == Negatives(s) * Positives(s)
    ensures PairSum(Won, s) >= 0.0
    ensures PairSum(Lost, s) >= 0.0
    ensures Negatives(s) >= 0.0
    ensures Positives(s) >= 0.0
  {
    PairSumAdd(Won, Lost, Met, s);
    CountMet(s);
    PairSumNonNegative(Won, s);
    PairSumNonNegative(Lost, s);
    var zero := (x: Sample) => 0.0;
    SumConst(0.0, zero, s);
    SumAtMost(zero, Positive, s);
    SumAtMost(zero, Negative, s);
  }

  lemma Shares(a: real, b: real, pos: real, neg: real)
    requires a >= 0.0 && b >= 0.0 && pos > 0.0 && neg > 0.0 && a + b == neg * pos
    ensures 0.0 <= PerPair(a, pos, neg) <= 1.0
    ensures PerPair(b, neg, pos) == 1.0 - PerPair(a, pos, neg)
  {
    var d := neg * pos;
    assert d > 0.0;
    var x := a / d;
    assert x * d == a;
    assert (1.0 - x) * d == d - x * d;
    Products.QuotientIs(1.0 - x, b, d);
    assert pos * neg == d;
  }

  /** The value is a probability. */
  lemma AurocInUnitInterval(s: seq<Sample>)
    requires Auroc(s).Some?
    ensures 0.0 <= Auroc(s).value <= 1.0
  {
    WonAndLost(s);
    Shares(PairSum(Won, s), PairSum(Lost, s), Positives(s), Negatives(s));
  }

  function FlipOne(x: Sample): Sample { Sample(x.score, !x.positive) }

  function Flip(s: seq<Sample>): (t: seq<Sample>)
    ensures |t| == |s| && forall i | 0 <= i < |s| :: t[i] == FlipOne(s[i])
  {
    seq(|s|, i requires 0 <= i < |s| => FlipOne(s[i]))
  }

  lemma {:induction false} SumFlip(f: Sample -> real, g: Sample -> real, s: seq<Sample>)
    requires forall x :: g(x) == f(FlipOne(x))
    ensures SumOf(f, Flip(s)) == SumOf(g, s)
  {
    if s != [] {
      SumFlip(f, g, s[..|s| - 1]);
      assert Flip(s)[..|s| - 1] == Flip(s[..|s| - 1]);
    }
  }

  /** What a negative wins against a positive. */
  function LostBack(x: Sample, y: Sample): real { if !x.positive && y.positive then Beats(x, y) else 0.0 }

  lemma WonFlip(s: seq<Sample>)
    ensures PairSum(Won, Flip(s)) == PairSum(Lost, s)
  {
    forall x: Sample ensures RowSum(LostBack, s)(x) == RowSum(Won, Flip(s))(FlipOne(x)) {
      forall y: Sample ensures Row(LostBack, x)(y) == Row(Won, FlipOne(x))(FlipOne(y)) {
        assert LostBack(x, y) == Won(FlipOne(x), FlipOne(y));
      }
      SumFlip(Row(Won, FlipOne(x)), Row(LostBack, x), s);
    }
    SumFlip(RowSum(Won, Flip(s)), RowSum(LostBack, s), s);
    PairSumSwap(LostBack, Lost, s);
  }

  lemma FlipCounts(s: seq<Sample>)
    ensures Positives(Flip(s)) == Negatives(s)
    ensures Negatives(Flip(s)) == Positives(s)
  {
    SumFlip(Positive, Negative, s);
    SumFlip(Negative, Positive, s);
  }

  lemma AurocOfFlip(s: seq<Sample>)
    requires Positives(s) != 0.0 && Negatives(s) != 0.0
    ensures Auroc(Flip(s)) == Some(PerPair(PairSum(Lost, s), Negatives(s), Positives(s)))
  {
    FlipCounts(s);
    WonFlip(s);
  }

  /** Swapping the labels gives one minus the value, and is undefined for the same inputs. */
  lemma FlipIsComplement(s: seq<Sample>)
    ensures Auroc(Flip(s)).Some? <==> Auroc(s).Some?
    ensures Auroc(s).Some? ==> Auroc(Flip(s)).value == 1.0 - Auroc(s).value
  {
    if Auroc(s).Some? {
      AurocOfFlip(s);
      WonAndLost(s);
      Shares(PairSum(Won, s), PairSum(Lost, s), Positives(s), Negatives(s));
    } else {
      FlipCounts(s);
    }
  }
}
