/**
 Entropies over the rival hypotheses of a test, one outcome at a time.

 The binary logarithm is a parameter: a function that turns products into sums and lies below its tangent at 1.

 For an outcome of probability z the posterior of a hypothesis is its prior p times the probability l it gives to the
 outcome, over z.  Scaled by z, its entropy term is compared with l times its prior term; the tangent of the logarithm
 bounds the difference by a slack, and the slacks of all hypotheses sum to nothing.
 */
module GainTerms {
  import opened Products
  import opened Sums

  // ------------------------------------------------------------------ logarithms

  /** log2 is such a function, with `slope` = 1 / ln 2. */
  ghost predicate IsLog(log: real -> real, slope: real) {
    && slope > 0.0
    && (forall x, y {:trigger log(Times(x, y))} | x > 0.0 && y > 0.0 :: log(Times(x, y)) == log(x) + log(y))
    && (forall x | x > 0.0 :: log(x) <= Times(slope, x - 1.0))
    && (forall x | x > 0.0 && x != 1.0 :: log(x) < Times(slope, x - 1.0))
  }

  lemma LogOfOver(log: real -> real, slope: real, x: real, y: real)
    requires IsLog(log, slope) && x > 0.0 && y > 0.0
    ensures Over(x, y) > 0.0 && log(Over(x, y)) == log(x) - log(y)
  {
    OverPositive(x, y);
    OverTimes(x, y);
    assert log(Times(Over(x, y), y)) == log(Over(x, y)) + log(y);
  }

  // ------------------------------------------------------------------ the terms

  /** An active hypothesis: its share of the prior, and the probability it gives to the test saying yes. */
  datatype Rival = Rival(prior: real, like: real)

  /** A summand of an entropy: p log p, and nothing for p = 0. */
  function PLogP(log: real -> real, p: real): real {
    if p > 0.0 then Times(p, log(p)) else 0.0
  }

  function LikeOf(yes: bool, r: Rival): real { if yes then r.like else 1.0 - r.like }

  ghost function PriorTerm(log: real -> real): Rival -> real { (r: Rival) => PLogP(log, r.prior) }
  ghost function Weight(yes: bool): Rival -> real { (r: Rival) => Times(r.prior, LikeOf(yes, r)) }
  ghost function Posterior(yes: bool, z: real): Rival -> real {
    (r: Rival) => if z > 0.0 then Over(Weight(yes)(r), z) else 0.0
  }
  ghost function PosteriorTerm(log: real -> real, yes: bool, z: real): Rival -> real {
    (r: Rival) => PLogP(log, Posterior(yes, z)(r))
  }

  ghost function PriorEntropy(log: real -> real, rs: seq<Rival>): real {
    -SumOf(PriorTerm(log), rs)
  }

  /** `posterior_entropy`. */
  ghost function PosteriorEntropy(log: real -> real, yes: bool, rs: seq<Rival>): real {
    var z := SumOf(Weight(yes), rs);
    if z <= 0.0 then 0.0 else -SumOf(PosteriorTerm(log, yes, z), rs)
  }

  /** What remains of the prior entropy once the expected posterior entropy is taken off, before the clamp. */
  ghost function RawGain(log: real -> real, rs: seq<Rival>): real {
    var pYes := SumOf(Weight(true), rs);
    PriorEntropy(log, rs)
    - (Times(pYes, PosteriorEntropy(log, true, rs)) + Times(1.0 - pYes, PosteriorEntropy(log, false, rs)))
  }

  // ------------------------------------------------------------------ normalised rivals

  function PriorOf(r: Rival): real { r.prior }

  ghost predicate Normalised(rs: seq<Rival>) {
    && (forall i | 0 <= i < |rs| :: rs[i].prior > 0.0 && 0.0 <= rs[i].like <= 1.0)
    && SumOf(PriorOf, rs) == 1.0
  }

  /** The two outcomes share the prior between them. */
  lemma OutcomesSumToOne(rs: seq<Rival>)
    requires Normalised(rs)
    ensures SumOf(Weight(true), rs) + SumOf(Weight(false), rs) == 1.0
    ensures SumOf(Weight(true), rs) >= 0.0 && SumOf(Weight(false), rs) >= 0.0
  {
    forall i | 0 <= i < |rs| ensures Weight(true)(rs[i]) + Weight(false)(rs[i]) == PriorOf(rs[i]) { }
    SumAdd(Weight(true), Weight(false), PriorOf, rs);
    WeightsNonNegative(true, rs);
    WeightsNonNegative(false, rs);
  }

  function Zero<T>(x: T): real { 0.0 }

  lemma WeightsNonNegative(yes: bool, rs: seq<Rival>)
    requires Normalised(rs)
    ensures forall i | 0 <= i < |rs| :: Weight(yes)(rs[i]) >= 0.0
    ensures SumOf(Weight(yes), rs) >= 0.0
  {
    forall i | 0 <= i < |rs| ensures Zero(rs[i]) <= Weight(yes)(rs[i]) {
      ProductNonNegative(rs[i].prior, LikeOf(yes, rs[i]));
    }
    SumAtMost(Zero, Weight(yes), rs);
    SumConst(0.0, Zero, rs);
  }

  // ------------------------------------------------------------------ one outcome

  /** The prior terms, weighted by the probability of the outcome. */
  ghost function LikeTerm(log: real -> real, yes: bool): Rival -> real {
    (r: Rival) => Times(LikeOf(yes, r), PLogP(log, r.prior))
  }

  /** What the tangent of the logarithm leaves over; it sums to nothing. */
  ghost function Slack(slope: real, yes: bool, z: real): Rival -> real {
    (r: Rival) => Times(slope, Weight(yes)(r) - Times(z, r.prior))
  }

  ghost function PriorShare(z: real): Rival -> real { (r: Rival) => Times(-z, r.prior) }
  ghost function Gap(yes: bool, z: real): Rival -> real { (r: Rival) => Weight(yes)(r) - Times(z, r.prior) }

  lemma GapVanishes(yes: bool, rs: seq<Rival>)
    requires Normalised(rs)
    ensures SumOf(Gap(yes, SumOf(Weight(yes), rs)), rs) == 0.0
  {
    var z := SumOf(Weight(yes), rs);
    SumScale(-z, PriorOf, PriorShare(z), rs);
    forall i | 0 <= i < |rs| ensures Gap(yes, z)(rs[i]) == Weight(yes)(rs[i]) + PriorShare(z)(rs[i]) {
      NegateLeft(z, rs[i].prior);
    }
    SumAdd(Weight(yes), PriorShare(z), Gap(yes, z), rs);
  }

  lemma NegateLeft(x: real, y: real)
    ensures Times(-x, y) == -Times(x, y)
  {
  }

  lemma SlackVanishes(slope: real, yes: bool, rs: seq<Rival>)
    requires Normalised(rs)
    ensures SumOf(Slack(slope, yes, SumOf(Weight(yes), rs)), rs) == 0.0
  {
    var z := SumOf(Weight(yes), rs);
    GapVanishes(yes, rs);
    forall i | 0 <= i < |rs| ensures Times(Gap(yes, z)(rs[i]), slope) == Slack(slope, yes, z)(rs[i]) {
      Commute(slope, Gap(yes, z)(rs[i]));
    }
    SumOfParts(Gap(yes, z), Slack(slope, yes, z), rs, rs, slope);
    TimesZeroLeft(slope);
  }

  lemma TangentIdentity(w: real, d: real, slope: real, q: real)
    ensures w * -d == slope * (w - w * q) + w * (slope * (q - 1.0) - d)
  {
    assert w * (slope * (q - 1.0) - d) == w * (slope * (q - 1.0)) + w * -d;
    assert w * (slope * (q - 1.0)) == slope * (w * (q - 1.0));
    assert w * (q - 1.0) == -(w - w * q);
    assert slope * -(w - w * q) == -(slope * (w - w * q));
  }

  lemma TangentBound(w: real, d: real, slope: real, q: real, v: real)
    requires w > 0.0 && v == Times(w, q) && d <= Times(slope, q - 1.0)
    ensures Times(w, -d) >= Times(slope, w - v)
    ensures d < Times(slope, q - 1.0) ==> Times(w, -d) > Times(slope, w - v)
  {
    TangentIdentity(w, d, slope, q);
    var gap := slope * (q - 1.0) - d;
    ProductNonNegative(w, gap);
    if gap > 0.0 { ProductPositive(w, gap); }
  }

  lemma WeightTimesQuotient(p: real, l: real, z: real, q: real)
    requires Times(q, l) == z
    ensures Times(Times(p, l), q) == Times(z, p)
  {
    assert (p * l) * q == (q * l) * p;
  }

  lemma LogGap(log: real -> real, slope: real, l: real, z: real) returns (q: real)
    requires IsLog(log, slope) && l > 0.0 && z > 0.0
    ensures Times(q, l) == z
    ensures log(z) - log(l) <= Times(slope, q - 1.0)
    ensures l != z ==> log(z) - log(l) < Times(slope, q - 1.0)
  {
    q := Over(z, l);
    LogOfOver(log, slope, z, l);
    OverTimes(z, l);
    if q == 1.0 { TimesOne(l); }
  }

  /** x is the posterior of a hypothesis with prior p that gives the outcome, of probability z, the probability l. */
  lemma PosteriorBound(x: real, z: real, p: real, l: real, lx: real, lp: real, ll: real, lz: real, slack: real)
    requires Times(x, z) == Times(p, l) && lx == lp + ll - lz && Times(Times(p, l), ll - lz) >= slack
    ensures Times(Times(x, lx), z) >= Times(l, Times(p, lp)) + slack
    ensures Times(Times(p, l), ll - lz) > slack ==> Times(Times(x, lx), z) > Times(l, Times(p, lp)) + slack
  {
    ScaledTerm(x, z, p * l, lx);
    SplitTerm(p, l, lp, ll - lz);
  }

  lemma ScaledTerm(x: real, z: real, w: real, y: real)
    requires Times(x, z) == w
    ensures Times(Times(x, y), z) == Times(w, y)
  {
    assert (x * y) * z == (x * z) * y;
  }

  lemma SplitTerm(p: real, l: real, a: real, b: real)
    ensures Times(Times(p, l), a + b) == Times(l, Times(p, a)) + Times(Times(p, l), b)
  {
    assert (p * l) * (a + b) == (p * l) * a + (p * l) * b;
    assert (p * l) * a == l * (p * a);
  }

  ghost predicate Bounded(log: real -> real, slope: real, yes: bool, z: real, r: Rival) {
    var scaled := Scaled(PosteriorTerm(log, yes, z), z)(r);
    var bound := Plus(LikeTerm(log, yes), Slack(slope, yes, z))(r);
    scaled >= bound && (LikeOf(yes, r) != z ==> scaled > bound)
  }

  /** The two sides of the bound, as numbers. */
  lemma TwoSides(log: real -> real, slope: real, yes: bool, r: Rival, z: real)
    requires z > 0.0
    ensures var p, l := r.prior, LikeOf(yes, r);
            && Scaled(PosteriorTerm(log, yes, z), z)(r) == Times(PLogP(log, Over(Times(p, l), z)), z)
            && Plus(LikeTerm(log, yes), Slack(slope, yes, z))(r)
               == Times(l, PLogP(log, p)) + Times(slope, Times(p, l) - Times(z, p))
  {
    assert Posterior(yes, z)(r) == Over(Weight(yes)(r), z);
    assert PosteriorTerm(log, yes, z)(r) == PLogP(log, Posterior(yes, z)(r));
    assert LikeTerm(log, yes)(r) == Times(LikeOf(yes, r), PLogP(log, r.prior));
    assert Slack(slope, yes, z)(r) == Times(slope, Weight(yes)(r) - Times(z, r.prior));
  }

  lemma ExcludedTerm(log: real -> real, slope: real, yes: bool, r: Rival, z: real)
    requires slope > 0.0 && z > 0.0 && r.prior > 0.0 && LikeOf(yes, r) == 0.0
    ensures Bounded(log, slope, yes, z, r)
  {
    TwoSides(log, slope, yes, r, z);
  }

  /** One hypothesis: its posterior term, scaled back, is at least its weighted prior term plus the slack. */
  lemma TermBound(log: real -> real, slope: real, yes: bool, r: Rival, z: real)
    requires IsLog(log, slope) && z > 0.0 && r.prior > 0.0 && LikeOf(yes, r) > 0.0
    ensures Bounded(log, slope, yes, z, r)
  {
    var p, l := r.prior, LikeOf(yes, r);
    TwoSides(log, slope, yes, r, z);
    WeightBound(log, slope, p, l, z);
    PosteriorLog(log, slope, p, l, z);
    PosteriorBound(Over(Times(p, l), z), z, p, l, log(Over(Times(p, l), z)), log(p), log(l), log(z),
                   Times(slope, Times(p, l) - Times(z, p)));
  }

  lemma WeightBound(log: real -> real, slope: real, p: real, l: real, z: real)
    requires IsLog(log, slope) && z > 0.0 && p > 0.0 && l > 0.0
    ensures var w := Times(p, l);
            && Times(w, log(l) - log(z)) >= Times(slope, w - Times(z, p))
            && (l != z ==> Times(w, log(l) - log(z)) > Times(slope, w - Times(z, p)))
  {
    ProductPositive(p, l);
    var q := LogGap(log, slope, l, z);
    WeightTimesQuotient(p, l, z, q);
    TangentBound(Times(p, l), log(z) - log(l), slope, q, Times(z, p));
    assert -(log(z) - log(l)) == log(l) - log(z);
  }

  lemma PosteriorLog(log: real -> real, slope: real, p: real, l: real, z: real)
    requires IsLog(log, slope) && z > 0.0 && p > 0.0 && l > 0.0
    ensures var x := Over(Times(p, l), z);
            x > 0.0 && Times(x, z) == Times(p, l) && log(x) == log(p) + log(l) - log(z)
  {
    ProductPositive(p, l);
    LogOfOver(log, slope, Times(p, l), z);
    OverTimes(Times(p, l), z);
    assert log(Times(p, l)) == log(p) + log(l);
  }

  ghost function Scaled(f: Rival -> real, c: real): Rival -> real { (r: Rival) => Times(f(r), c) }
  ghost function Plus(f: Rival -> real, g: Rival -> real): Rival -> real { (r: Rival) => f(r) + g(r) }

  /** All hypotheses: expected posterior entropy of an outcome against its share of the prior entropy. */
  lemma OutcomeBound(log: real -> real, slope: real, yes: bool, rs: seq<Rival>, k: nat)
    requires IsLog(log, slope) && Normalised(rs) && k < |rs|
    ensures var z := SumOf(Weight(yes), rs);
            var spread := Times(z, PosteriorEntropy(log, yes, rs));
            var share := -SumOf(LikeTerm(log, yes), rs);
            spread <= share && (LikeOf(yes, rs[k]) != z ==> spread < share)
  {
    var z := SumOf(Weight(yes), rs);
    WeightsNonNegative(yes, rs);
    if z > 0.0 {
      PositiveOutcome(log, slope, yes, rs, k, z);
    } else {
      NoOutcome(log, yes, rs);
    }
  }

  lemma PositiveOutcome(log: real -> real, slope: real, yes: bool, rs: seq<Rival>, k: nat, z: real)
    requires IsLog(log, slope) && Normalised(rs) && k < |rs| && z == SumOf(Weight(yes), rs) > 0.0
    ensures var spread := Times(z, PosteriorEntropy(log, yes, rs));
            var share := -SumOf(LikeTerm(log, yes), rs);
            spread <= share && (LikeOf(yes, rs[k]) != z ==> spread < share)
  {
    BoundsAddUp(log, slope, yes, rs, k, z);
    SumAdd(LikeTerm(log, yes), Slack(slope, yes, z), Plus(LikeTerm(log, yes), Slack(slope, yes, z)), rs);
    SlackVanishes(slope, yes, rs);
    SumOfParts(PosteriorTerm(log, yes, z), Scaled(PosteriorTerm(log, yes, z), z), rs, rs, z);
    TimesNegated(z, SumOf(PosteriorTerm(log, yes, z), rs));
  }

  lemma TimesNegated(x: real, y: real)
    ensures Times(x, -y) == -Times(y, x)
  {
  }

  lemma BoundsAddUp(log: real -> real, slope: real, yes: bool, rs: seq<Rival>, k: nat, z: real)
    requires IsLog(log, slope) && Normalised(rs) && k < |rs| && z > 0.0
    ensures var scaled := SumOf(Scaled(PosteriorTerm(log, yes, z), z), rs);
            var bound := SumOf(Plus(LikeTerm(log, yes), Slack(slope, yes, z)), rs);
            bound <= scaled && (LikeOf(yes, rs[k]) != z ==> bound < scaled)
  {
    var bound, scaled := Plus(LikeTerm(log, yes), Slack(slope, yes, z)), Scaled(PosteriorTerm(log, yes, z), z);
    forall i | 0 <= i < |rs| ensures Bounded(log, slope, yes, z, rs[i]) {
      if LikeOf(yes, rs[i]) == 0.0 {
        ExcludedTerm(log, slope, yes, rs[i], z);
      } else {
        TermBound(log, slope, yes, rs[i], z);
      }
    }
    assert forall i | 0 <= i < |rs| :: Bounded(log, slope, yes, z, rs[i]) && bound(rs[i]) <= scaled(rs[i]);
    SumAtMost(bound, scaled, rs);
    if LikeOf(yes, rs[k]) != z {
      assert Bounded(log, slope, yes, z, rs[k]);
      SumBelow(bound, scaled, rs, k);
    }
  }

  /** An outcome without probability: every hypothesis excludes it. */
  lemma NoOutcome(log: real -> real, yes: bool, rs: seq<Rival>)
    requires Normalised(rs) && SumOf(Weight(yes), rs) <= 0.0
    ensures SumOf(LikeTerm(log, yes), rs) == 0.0
    ensures SumOf(Weight(yes), rs) == 0.0
    ensures forall i | 0 <= i < |rs| :: LikeOf(yes, rs[i]) == 0.0
  {
    WeightsNonNegative(yes, rs);
    SumConst(0.0, Zero, rs);
    forall i | 0 <= i < |rs| ensures LikeOf(yes, rs[i]) == 0.0 {
      if LikeOf(yes, rs[i]) > 0.0 {
        ProductPositive(rs[i].prior, LikeOf(yes, rs[i]));
        SumBelow(Zero, Weight(yes), rs, i);
      }
    }
    SumConst(0.0, LikeTerm(log, yes), rs);
  }

  // ------------------------------------------------------------------ the information of an outcome

  /** How much likelier a hypothesis makes an outcome of probability z, weighted by both having happened. */
  ghost function Info(log: real -> real, yes: bool, z: real): Rival -> real {
    (r: Rival) =>
      if LikeOf(yes, r) > 0.0 then Times(Times(r.prior, LikeOf(yes, r)), log(LikeOf(yes, r)) - log(z)) else 0.0
  }

  ghost predicate Exact(log: real -> real, yes: bool, z: real, r: Rival) {
    Scaled(PosteriorTerm(log, yes, z), z)(r) == Plus(LikeTerm(log, yes), Info(log, yes, z))(r)
  }

  lemma TermIs(log: real -> real, slope: real, yes: bool, r: Rival, z: real)
    requires IsLog(log, slope) && z > 0.0 && r.prior > 0.0 && LikeOf(yes, r) >= 0.0
    ensures Exact(log, yes, z, r)
  {
    var p, l := r.prior, LikeOf(yes, r);
    TwoSides(log, slope, yes, r, z);
    assert LikeTerm(log, yes)(r) == Times(l, PLogP(log, p));
    if l > 0.0 {
      PosteriorLog(log, slope, p, l, z);
      var x := Over(Times(p, l), z);
      ScaledTerm(x, z, Times(p, l), log(x));
      SplitTerm(p, l, log(p), log(l) - log(z));
      assert Info(log, yes, z)(r) == Times(Times(p, l), log(l) - log(z));
    } else {
      assert Info(log, yes, z)(r) == 0.0;
    }
  }

  /** The spread of an outcome falls short of its share of the prior entropy by exactly its information. */
  lemma OutcomeIs(log: real -> real, slope: real, yes: bool, rs: seq<Rival>)
    requires IsLog(log, slope) && Normalised(rs)
    ensures var z := SumOf(Weight(yes), rs);
            Times(z, PosteriorEntropy(log, yes, rs))
            == -SumOf(LikeTerm(log, yes), rs) - SumOf(Info(log, yes, z), rs)
  {
    var z := SumOf(Weight(yes), rs);
    WeightsNonNegative(yes, rs);
    if z > 0.0 {
      var scaled, both := Scaled(PosteriorTerm(log, yes, z), z), Plus(LikeTerm(log, yes), Info(log, yes, z));
      forall i | 0 <= i < |rs| ensures scaled(rs[i]) == both(rs[i]) {
        TermIs(log, slope, yes, rs[i], z);
        assert Exact(log, yes, z, rs[i]);
      }
      SumSame(scaled, both, rs);
      SumAdd(LikeTerm(log, yes), Info(log, yes, z), both, rs);
      SumOfParts(PosteriorTerm(log, yes, z), scaled, rs, rs, z);
      TimesNegated(z, SumOf(PosteriorTerm(log, yes, z), rs));
    } else {
      NoOutcome(log, yes, rs);
      SumConst(0.0, Info(log, yes, z), rs);
    }
  }

  // ------------------------------------------------------------------ both outcomes

  lemma SharesOfPrior(log: real -> real, rs: seq<Rival>)
    ensures PriorEntropy(log, rs) == -SumOf(LikeTerm(log, true), rs) - SumOf(LikeTerm(log, false), rs)
  {
    forall i | 0 <= i < |rs|
      ensures PriorTerm(log)(rs[i]) == LikeTerm(log, true)(rs[i]) + LikeTerm(log, false)(rs[i]) { }
    SumAdd(LikeTerm(log, true), LikeTerm(log, false), PriorTerm(log), rs);
  }

  lemma EntropyNonNegative(log: real -> real, slope: real, yes: bool, rs: seq<Rival>)
    requires IsLog(log, slope) && Normalised(rs)
    ensures PosteriorEntropy(log, yes, rs) >= 0.0
  {
    var z := SumOf(Weight(yes), rs);
    WeightsNonNegative(yes, rs);
    if z > 0.0 {
      forall i | 0 <= i < |rs| ensures PosteriorTerm(log, yes, z)(rs[i]) <= Zero(rs[i]) {
        PartAtMostSum(Weight(yes), rs, i);
        ShareIsFraction(Weight(yes)(rs[i]), z);
        assert Posterior(yes, z)(rs[i]) == Over(Weight(yes)(rs[i]), z);
        TermNonPositive(log, slope, Posterior(yes, z)(rs[i]));
      }
      SumAtMost(PosteriorTerm(log, yes, z), Zero, rs);
      SumConst(0.0, Zero, rs);
    }
  }

  lemma ShareIsFraction(w: real, z: real)
    requires 0.0 <= w <= z && z > 0.0
    ensures 0.0 <= Over(w, z) <= 1.0
  {
    OverTimes(w, z);
  }

  lemma TermNonPositive(log: real -> real, slope: real, p: real)
    requires IsLog(log, slope) && 0.0 <= p <= 1.0
    ensures PLogP(log, p) <= 0.0
  {
    if p > 0.0 {
      assert log(p) <= Times(slope, p - 1.0);
      ProductNonPositive(slope, p - 1.0);
      ProductNonPositive(p, log(p));
    }
  }

  lemma {:induction false} PartAtMostSum(f: Rival -> real, rs: seq<Rival>, k: nat)
    requires k < |rs| && forall i | 0 <= i < |rs| :: f(rs[i]) >= 0.0
    ensures f(rs[k]) <= SumOf(f, rs)
  {
    var front := rs[..|rs| - 1];
    if k < |rs| - 1 {
      PartAtMostSum(f, front, k);
    } else {
      SumAtMost(Zero, f, front);
      SumConst(0.0, Zero, front);
    }
  }

  lemma SamePosterior(log: real -> real, yes: bool, rs: seq<Rival>, z: real)
    requires Normalised(rs) && z == SumOf(Weight(yes), rs) >= 0.0
    requires forall i | 0 <= i < |rs| :: LikeOf(yes, rs[i]) == z
    ensures Times(z, PosteriorEntropy(log, yes, rs)) == Times(z, PriorEntropy(log, rs))
  {
    if z > 0.0 {
      forall i | 0 <= i < |rs| ensures PosteriorTerm(log, yes, z)(rs[i]) == PriorTerm(log)(rs[i]) {
        TimesOver(rs[i].prior, z);
        assert Posterior(yes, z)(rs[i]) == Over(Weight(yes)(rs[i]), z) == rs[i].prior;
      }
      SumSame(PosteriorTerm(log, yes, z), PriorTerm(log), rs);
    }
  }
}
