/** Expected Shannon information gain of a discriminating test. */
module InformationGain {
  import opened GainTerms
  import opened Picking
  import opened Products
  import opened Sums

  // ------------------------------------------------------------------ the code

  datatype Belief = Belief(probability: real, outcome: map<string, real>) {
    /** What the constructor of a belief enforces. */
    predicate Valid() {
      0.0 <= probability <= 1.0 && forall t | t in outcome :: 0.0 <= outcome[t] <= 1.0
    }
  }

  function IsActive(test: string): Belief -> bool {
    (b: Belief) => b.probability > 0.0 && test in b.outcome
  }

  function Active(test: string, beliefs: seq<Belief>): (a: seq<Belief>)
    ensures forall b :: b in a <==> b in beliefs && b.probability > 0.0 && test in b.outcome
  {
    Kept(IsActive(test), beliefs)
  }

  /** The active hypotheses are those with a prior and a prediction for the test, once each, in their order. */
  lemma ActivePicks(test: string, beliefs: seq<Belief>)
    ensures Picks((b: Belief) => b.probability > 0.0 && test in b.outcome, beliefs, Active(test, beliefs))
  {
    KeptPicks(IsActive(test), beliefs);
    assert IsActive(test) == (b: Belief) => b.probability > 0.0 && test in b.outcome;
  }

  function Probability(b: Belief): real { b.probability }

  ghost function Total(active: seq<Belief>): real { SumOf(Probability, active) }

  ghost function Rivals(test: string, active: seq<Belief>): (rs: seq<Rival>)
    requires Total(active) > 0.0 && forall b | b in active :: test in b.outcome
    ensures |rs| == |active|
    ensures forall i | 0 <= i < |rs| ::
              rs[i] == Rival(Over(active[i].probability, Total(active)), active[i].outcome[test])
  {
    seq(|active|, i requires 0 <= i < |active| =>
      Rival(Over(active[i].probability, Total(active)), active[i].outcome[test]))
  }

  /** `expected_information_gain`. */
  ghost function ExpectedGain(log: real -> real, test: string, beliefs: seq<Belief>): real {
    var active := Active(test, beliefs);
    if |active| < 2 || Total(active) <= 0.0 then 0.0
    else
      var raw := RawGain(log, Rivals(test, active));
      if raw > 0.0 then raw else 0.0
  }

  lemma RivalsNormalised(test: string, beliefs: seq<Belief>)
    requires (forall b | b in beliefs :: b.Valid()) && Total(Active(test, beliefs)) > 0.0
    ensures Normalised(Rivals(test, Active(test, beliefs)))
  {
    var active := Active(test, beliefs);
    var rs, total := Rivals(test, active), Total(active);
    forall i | 0 <= i < |rs| ensures rs[i].prior > 0.0 && 0.0 <= rs[i].like <= 1.0 {
      assert active[i] in active;
      assert active[i].Valid();
      OverPositive(active[i].probability, total);
    }
    forall i | 0 <= i < |rs| ensures Times(PriorOf(rs[i]), total) == Probability(active[i]) {
      OverTimes(active[i].probability, total);
    }
    SumOfParts(PriorOf, Probability, rs, active, total);
    CancelFactor(SumOf(PriorOf, rs), total);
  }

  // ------------------------------------------------------------------ the theorems

  /**
   The gain is the mutual information of hypothesis and outcome: how much likelier each hypothesis makes each outcome
   than the mixture does, on the logarithmic scale, averaged over both.
   */
  lemma GainIsMutualInformation(log: real -> real, slope: real, rs: seq<Rival>)
    requires IsLog(log, slope) && Normalised(rs)
    ensures var yes := SumOf(Weight(true), rs);
            RawGain(log, rs) == SumOf(Info(log, true, yes), rs) + SumOf(Info(log, false, 1.0 - yes), rs)
  {
    OutcomesSumToOne(rs);
    OutcomeIs(log, slope, true, rs);
    OutcomeIs(log, slope, false, rs);
    SharesOfPrior(log, rs);
  }

  /** Without the clamp the gain is never negative, and positive as soon as one hypothesis differs from the mixture. */
  lemma GainIsNonNegative(log: real -> real, slope: real, rs: seq<Rival>, k: nat)
    requires IsLog(log, slope) && Normalised(rs) && k < |rs|
    ensures RawGain(log, rs) >= 0.0
    ensures rs[k].like != SumOf(Weight(true), rs) ==> RawGain(log, rs) > 0.0
  {
    OutcomesSumToOne(rs);
    OutcomeBound(log, slope, true, rs, k);
    OutcomeBound(log, slope, false, rs, k);
    SharesOfPrior(log, rs);
  }

  /** Entropies of the posterior are not negative, so the gain is at most the prior entropy. */
  lemma GainIsAtMostPrior(log: real -> real, slope: real, rs: seq<Rival>)
    requires IsLog(log, slope) && Normalised(rs)
    ensures RawGain(log, rs) <= PriorEntropy(log, rs)
  {
    OutcomesSumToOne(rs);
    EntropyNonNegative(log, slope, true, rs);
    EntropyNonNegative(log, slope, false, rs);
    ProductNonNegative(SumOf(Weight(true), rs), PosteriorEntropy(log, true, rs));
    ProductNonNegative(SumOf(Weight(false), rs), PosteriorEntropy(log, false, rs));
  }

  ghost predicate Agree(rs: seq<Rival>) {
    forall i, j | 0 <= i < |rs| && 0 <= j < |rs| :: rs[i].like == rs[j].like
  }

  /** Nothing is learned from a test on which all hypotheses agree. */
  lemma AgreementTeachesNothing(log: real -> real, rs: seq<Rival>)
    requires Normalised(rs) && Agree(rs)
    ensures RawGain(log, rs) == 0.0
    ensures forall i | 0 <= i < |rs| :: rs[i].like == SumOf(Weight(true), rs)
  {
    if rs != [] {
      var c := rs[0].like;
      OutcomesSumToOne(rs);
      SumScale(c, PriorOf, Weight(true), rs);
      SamePosterior(log, true, rs, c);
      SamePosterior(log, false, rs, 1.0 - c);
      Distribute(c, 1.0 - c, PriorEntropy(log, rs));
    }
  }

  /**
   `expected_information_gain`: never negative, at most the prior entropy of the active hypotheses, and zero exactly
   when they all predict the same.
   */
  lemma GainMeasuresDisagreement(log: real -> real, slope: real, test: string, beliefs: seq<Belief>)
    requires IsLog(log, slope) && forall b | b in beliefs :: b.Valid()
    ensures var active := Active(test, beliefs);
            && ExpectedGain(log, test, beliefs) >= 0.0
            && (ExpectedGain(log, test, beliefs) == 0.0
                <==> forall b, c | b in active && c in active :: b.outcome[test] == c.outcome[test])
            && (|active| >= 2 ==>
                  && Total(active) > 0.0
                  && ExpectedGain(log, test, beliefs) == RawGain(log, Rivals(test, active))
                  && ExpectedGain(log, test, beliefs) <= PriorEntropy(log, Rivals(test, active)))
  {
    var active := Active(test, beliefs);
    if |active| >= 2 {
      TotalPositive(active);
      RivalsNormalised(test, beliefs);
      var rs := Rivals(test, active);
      GainIsNonNegative(log, slope, rs, 0);
      GainIsAtMostPrior(log, slope, rs);
      if Agree(rs) {
        AgreementTeachesNothing(log, rs);
        AgreeActive(test, active);
      } else {
        DisagreementTeaches(log, slope, test, active);
      }
    } else if |active| == 1 {
      assert forall b | b in active :: b == active[0];
    }
  }

  lemma DisagreementTeaches(log: real -> real, slope: real, test: string, active: seq<Belief>)
    requires IsLog(log, slope) && Total(active) > 0.0 && (forall b | b in active :: test in b.outcome)
    requires Normalised(Rivals(test, active)) && !Agree(Rivals(test, active))
    ensures RawGain(log, Rivals(test, active)) > 0.0
    ensures exists b, c | b in active && c in active :: b.outcome[test] != c.outcome[test]
  {
    var rs := Rivals(test, active);
    var i, j :| 0 <= i < |rs| && 0 <= j < |rs| && rs[i].like != rs[j].like;
    assert active[i] in active && active[j] in active;
    GainIsNonNegative(log, slope, rs, i);
    GainIsNonNegative(log, slope, rs, j);
  }

  lemma AgreeActive(test: string, active: seq<Belief>)
    requires Total(active) > 0.0 && (forall b | b in active :: test in b.outcome) && Agree(Rivals(test, active))
    ensures forall b, c | b in active && c in active :: b.outcome[test] == c.outcome[test]
  {
    var rs := Rivals(test, active);
    forall b, c | b in active && c in active ensures b.outcome[test] == c.outcome[test] {
      var i :| 0 <= i < |active| && active[i] == b;
      var j :| 0 <= j < |active| && active[j] == c;
      assert rs[i].like == rs[j].like;
    }
  }

  lemma TotalPositive(active: seq<Belief>)
    requires active != [] && forall b | b in active :: b.probability > 0.0
    ensures Total(active) > 0.0
  {
    forall i | 0 <= i < |active| ensures Zero(active[i]) < Probability(active[i]) {
      assert active[i] in active;
    }
    SumBelow(Zero, Probability, active, 0);
    SumConst(0.0, Zero, active);
  }
}
