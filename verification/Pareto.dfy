/**
 Pareto dominance over partly measured metrics, and the fronts of the experiment archive.  Values are reals; the
 comparison tolerance is kept.
 */
module Pareto {
  import opened Circles
  import opened Picking

  datatype Name =
    | VerifiedSuccess | SafeCoverage | TransferRetention | FrontierTokensSaved
    | PremiumTokensPerSuccess | TotalTokensPerSuccess | LatencyMs | JoulesPerSuccess

  const MAXIMIZE := [VerifiedSuccess, SafeCoverage, TransferRetention, FrontierTokensSaved]
  const MINIMIZE := [PremiumTokensPerSuccess, TotalTokensPerSuccess, LatencyMs, JoulesPerSuccess]
  const TOLERANCE := 0.000000000001

  /** The metrics an experiment measured; the others are None in the source. */
  datatype Record = Record(id: string, metrics: map<Name, real>, credited: bool, gatesPassed: bool)

  // ------------------------------------------------------------------ dominance

  predicate Common(a: Record, b: Record, n: Name) {
    n in a.metrics && n in b.metrics
  }

  /** By how much a is the better one on n. */
  function Gain(a: Record, b: Record, n: Name): real
    requires Common(a, b, n)
  {
    if n in MAXIMIZE then a.metrics[n] - b.metrics[n] else b.metrics[n] - a.metrics[n]
  }

  predicate NoWorse(a: Record, b: Record, n: Name) {
    Common(a, b, n) ==> Gain(a, b, n) >= -TOLERANCE
  }

  predicate Better(a: Record, b: Record, n: Name) {
    Common(a, b, n) && Gain(a, b, n) > TOLERANCE
  }

  /** On no metric both measured is a worse, and on one it is better. */
  ghost predicate Dominates(a: Record, b: Record) {
    (forall n :: NoWorse(a, b, n)) && exists n :: Better(a, b, n)
  }

  // ------------------------------------------------------------------ dominance, metric by metric

  predicate IsSuccess(n: Name) {
    n == VerifiedSuccess || n == SafeCoverage || n == TransferRetention || n == FrontierTokensSaved
  }

  predicate IsCost(n: Name) {
    n == PremiumTokensPerSuccess || n == TotalTokensPerSuccess || n == LatencyMs || n == JoulesPerSuccess
  }

  /**
   Where both measured a success metric a is not lower, and where both measured a cost a is not higher, by more than
   1e-12; and on one of these a is higher, or lower, by more than that.
   */
  ghost predicate IsBetter(a: Record, b: Record) {
    && (forall n | n in a.metrics && n in b.metrics && IsSuccess(n) ::
          a.metrics[n] >= b.metrics[n] - 0.000000000001)
    && (forall n | n in a.metrics && n in b.metrics && IsCost(n) ::
          a.metrics[n] <= b.metrics[n] + 0.000000000001)
    && (exists n :: n in a.metrics && n in b.metrics
                    && (if IsSuccess(n) then a.metrics[n] > b.metrics[n] + 0.000000000001
                        else a.metrics[n] < b.metrics[n] - 0.000000000001))
  }

  lemma SuccessOrCost(n: Name)
    ensures IsSuccess(n) <==> n in MAXIMIZE
    ensures IsCost(n) <==> n in MINIMIZE
    ensures IsSuccess(n) <==> !IsCost(n)
  {
    EveryName(n);
  }

  /** Dominance is better success at no higher cost, or lower cost at no lower success. */
  lemma DominatesIffBetter(a: Record, b: Record)
    ensures Dominates(a, b) <==> IsBetter(a, b)
  {
    forall n ensures (IsSuccess(n) <==> n in MAXIMIZE) && (IsSuccess(n) <==> !IsCost(n)) { SuccessOrCost(n); }
    if Dominates(a, b) {
      var n :| Better(a, b, n);
      forall m | m in a.metrics && m in b.metrics ensures NoWorse(a, b, m) { }
    }
    if IsBetter(a, b) {
      var n :| n in a.metrics && n in b.metrics
               && (if IsSuccess(n) then a.metrics[n] > b.metrics[n] + 0.000000000001
                   else a.metrics[n] < b.metrics[n] - 0.000000000001);
      assert Better(a, b, n);
    }
  }

  lemma EveryName(n: Name)
    ensures n in MAXIMIZE <==> n !in MINIMIZE
  {
    match n {
      case VerifiedSuccess => assert MAXIMIZE[0] == n;
      case SafeCoverage => assert MAXIMIZE[1] == n;
      case TransferRetention => assert MAXIMIZE[2] == n;
      case FrontierTokensSaved => assert MAXIMIZE[3] == n;
      case PremiumTokensPerSuccess => assert MINIMIZE[0] == n;
      case TotalTokensPerSuccess => assert MINIMIZE[1] == n;
      case LatencyMs => assert MINIMIZE[2] == n;
      case JoulesPerSuccess => assert MINIMIZE[3] == n;
    }
  }

  /** `pareto_dominates`. */
  method ParetoDominates(a: Record, b: Record) returns (r: bool)
    ensures r <==> Dominates(a, b)
    ensures r <==> IsBetter(a, b)
  {
    DominatesIffBetter(a, b);
    var comparable, strictly := 0, false;
    for i := 0 to |MAXIMIZE|
      invariant forall k | 0 <= k < i :: NoWorse(a, b, MAXIMIZE[k])
      invariant strictly <==> exists k :: 0 <= k < i && Better(a, b, MAXIMIZE[k])
      invariant strictly ==> comparable > 0
    {
      var name := MAXIMIZE[i];
      if name !in a.metrics || name !in b.metrics { continue; }
      var av, bv := a.metrics[name], b.metrics[name];
      comparable := comparable + 1;
      if av < bv - TOLERANCE { assert !NoWorse(a, b, name); return false; }
      if av > bv + TOLERANCE { assert Better(a, b, MAXIMIZE[i]); strictly := true; }
    }
    ghost var above := strictly;
    for i := 0 to |MINIMIZE|
      invariant forall k | 0 <= k < i :: NoWorse(a, b, MINIMIZE[k])
      invariant strictly <==> above || exists k :: 0 <= k < i && Better(a, b, MINIMIZE[k])
      invariant strictly ==> comparable > 0
    {
      var name := MINIMIZE[i];
      EveryName(name);
      if name !in a.metrics || name !in b.metrics { continue; }
      var av, bv := a.metrics[name], b.metrics[name];
      comparable := comparable + 1;
      if av > bv + TOLERANCE { assert !NoWorse(a, b, name); return false; }
      if av < bv - TOLERANCE { assert Better(a, b, MINIMIZE[i]); strictly := true; }
    }
    forall n ensures NoWorse(a, b, n) && (Better(a, b, n) ==> strictly) { EveryName(n); }
    return comparable > 0 && strictly;
  }

  /** Whatever was measured, nothing dominates itself and no two records dominate each other. */
  lemma DominanceIsAsymmetric(a: Record, b: Record)
    requires Dominates(a, b)
    ensures !Dominates(b, a) && a != b
  {
    var n :| Better(a, b, n);
    assert Gain(b, a, n) == -Gain(a, b, n);
    assert !NoWorse(b, a, n);
  }

  // ------------------------------------------------------------------ fronts

  predicate IsCredited(r: Record) { r.credited && r.gatesPassed }

  function Credited(records: seq<Record>): (c: seq<Record>)
    ensures forall r :: r in c <==> r in records && r.credited && r.gatesPassed
  {
    Kept(IsCredited, records)
  }

  /** `any(pareto_dominates(o, r) for o in credited if o is not r)`. */
  ghost predicate Beaten(credited: seq<Record>, r: Record) {
    exists o :: o in credited && o != r && Dominates(o, r)
  }

  ghost function Unbeaten(credited: seq<Record>): Record -> bool { (r: Record) => !Beaten(credited, r) }

  /** `pareto_front`. */
  ghost function Front(records: seq<Record>): (f: seq<Record>)
    ensures forall r :: r in f <==> r in Credited(records) && !Beaten(Credited(records), r)
  {
    Kept(Unbeaten(Credited(records)), Credited(records))
  }

  /** The front is the credited records that no credited record beats: all of these, once each, in their order. */
  lemma FrontPicks(records: seq<Record>)
    ensures Picks(IsCredited, records, Credited(records))
    ensures Picks(Unbeaten(Credited(records)), Credited(records), Front(records))
  {
    KeptPicks(IsCredited, records);
    KeptPicks(Unbeaten(Credited(records)), Credited(records));
  }

  /** A strict partial order on these records. */
  ghost predicate IsStrictOrder(rows: seq<Record>) {
    && (forall r | r in rows :: !Dominates(r, r))
    && (forall a, b, c | a in rows && b in rows && c in rows && Dominates(a, b) && Dominates(b, c) :: Dominates(a, c))
  }

  /** All measured the same metrics, and no two values are different but within the tolerance. */
  ghost predicate Comparable(rows: seq<Record>) {
    forall a, b | a in rows && b in rows ::
      && a.metrics.Keys == b.metrics.Keys
      && forall n | n in a.metrics.Keys :: Apart(a.metrics[n], b.metrics[n])
  }

  predicate Apart(x: real, y: real) {
    x == y || x - y > TOLERANCE || y - x > TOLERANCE
  }

  lemma ComparableIsOrdered(rows: seq<Record>)
    requires Comparable(rows)
    ensures IsStrictOrder(rows)
  {
    forall r | r in rows ensures !Dominates(r, r) {
      if Dominates(r, r) { DominanceIsAsymmetric(r, r); }
    }
    forall a, b, c | a in rows && b in rows && c in rows && Dominates(a, b) && Dominates(b, c) ensures Dominates(a, c) {
      Transitive(a, b, c);
    }
  }

  lemma Transitive(a: Record, b: Record, c: Record)
    requires Comparable([a, b, c]) && Dominates(a, b) && Dominates(b, c)
    ensures Dominates(a, c)
  {
    assert a in [a, b, c] && b in [a, b, c] && c in [a, b, c];
    forall n ensures NoWorse(a, c, n) {
      assert NoWorse(a, b, n) && NoWorse(b, c, n);
    }
    var n :| Better(a, b, n);
    assert NoWorse(b, c, n);
    assert Better(a, c, n);
  }

  ghost function Dominators(rows: seq<Record>, r: Record): set<Record> {
    set o | o in rows && Dominates(o, r)
  }

  /** Climbing from a dominator to its dominators ends on the front. */
  lemma {:induction false} Climb(records: seq<Record>, r: Record) returns (top: Record)
    requires IsStrictOrder(Credited(records)) && r in Credited(records)
    ensures top in Front(records)
    ensures top == r || Dominates(top, r)
    decreases |Dominators(Credited(records), r)|
  {
    var rows := Credited(records);
    if Beaten(rows, r) {
      var o :| o in rows && o != r && Dominates(o, r);
      assert Dominators(rows, o) <= Dominators(rows, r);
      assert o in Dominators(rows, r) && o !in Dominators(rows, o);
      SmallerSet(Dominators(rows, o), Dominators(rows, r));
      top := Climb(records, o);
    } else {
      top := r;
    }
  }

  lemma SmallerSet<T>(a: set<T>, b: set<T>)
    requires a < b
    ensures |a| < |b|
  {
    assert |b| == |a| + |b - a| by { assert b == a + (b - a); }
    assert b - a != {};
  }

  /** On these credited records dominance is transitive. */
  ghost predicate IsTransitive(rows: seq<Record>) {
    forall a, b, c | a in rows && b in rows && c in rows && Dominates(a, b) && Dominates(b, c) :: Dominates(a, c)
  }

  /** Every credited record of s is on its front or dominated by a member of it. */
  ghost predicate Covered(s: seq<Record>) {
    forall r | r in Credited(s) :: r in Front(s) || exists f :: f in Front(s) && Dominates(f, r)
  }

  predicate Among(w: seq<Record>, records: seq<Record>) {
    forall r | r in w :: r in Credited(records)
  }

  lemma TransitiveCovers(s: seq<Record>)
    requires IsTransitive(Credited(s))
    ensures Covered(s)
  {
    forall r | r in Credited(s) ensures !Dominates(r, r) {
      if Dominates(r, r) { DominanceIsAsymmetric(r, r); }
    }
    forall r | r in Credited(s) ensures r in Front(s) || exists f :: f in Front(s) && Dominates(f, r) {
      var top := Climb(s, r);
    }
  }

  /** Three records of which the first beats the second and the second the third, but not the first the third. */
  lemma BrokenChainIsUncovered(records: seq<Record>, a: Record, b: Record, c: Record)
    requires Among([a, b, c], records) && Dominates(a, b) && Dominates(b, c) && !Dominates(a, c)
    ensures !Covered([a, b, c])
  {
    var s := [a, b, c];
    assert a in s && b in s && c in s;
    forall r ensures r in Credited(s) <==> r == a || r == b || r == c { }
    DominanceIsAsymmetric(a, b);
    DominanceIsAsymmetric(b, c);
    assert Beaten(Credited(s), b) && Beaten(Credited(s), c);
    assert c in Credited(s) && c !in Front(s);
    forall f | f in Front(s) ensures !Dominates(f, c) {
      if f == c && Dominates(f, c) { DominanceIsAsymmetric(f, c); }
    }
  }

  /** Every selection of credited records is covered by its front exactly when dominance is transitive among them. */
  lemma FrontsCoverIffTransitive(records: seq<Record>)
    ensures (forall s: seq<Record> | Among(s, records) :: Covered(s)) <==> IsTransitive(Credited(records))
  {
    if IsTransitive(Credited(records)) {
      forall s: seq<Record> | Among(s, records) ensures Covered(s) {
        TransitiveCovers(s);
      }
    } else {
      var a, b, c :| a in Credited(records) && b in Credited(records) && c in Credited(records)
                     && Dominates(a, b) && Dominates(b, c) && !Dominates(a, c);
      assert Among([a, b, c], records);
      BrokenChainIsUncovered(records, a, b, c);
    }
  }

  /** In particular when the credited records are comparable. */
  lemma FrontCovers(records: seq<Record>)
    requires Comparable(Credited(records))
    ensures Covered(records)
  {
    ComparableIsOrdered(Credited(records));
    TransitiveCovers(records);
  }

  // ------------------------------------------------------------------ when fronts are empty

  ghost predicate Cycle(w: seq<Record>) {
    IsCircle(Dominates, w)
  }

  lemma CycleEmptiesFront(records: seq<Record>, w: seq<Record>)
    requires Cycle(w) && Among(w, records)
    ensures Front(w) == []
  {
    forall r: Record | r in w ensures r.credited && r.gatesPassed && IsSurpassed(Dominates, w, r) {
      var o := NextInCircle(Dominates, w, r);
    }
    AllBeaten(w);
  }

  lemma EmptyFrontHasCycle(records: seq<Record>, s: seq<Record>)
    requires s != [] && Among(s, records) && Front(s) == []
    ensures exists w: seq<Record> :: Cycle(w) && Among(w, records)
  {
    forall r | r in s ensures IsSurpassed(Dominates, s, r) {
      assert r in Credited(s) && r !in Front(s);
      assert Beaten(Credited(s), r);
    }
    AllSurpassed(Dominates, s);
    var w :| CircleIn(Dominates, s, w);
    assert Cycle(w);
  }

  /**
   Some selection of credited records (a niche, say) has an empty front exactly when dominance runs in a circle
   among them.
   */
  lemma EmptyFrontIffCycle(records: seq<Record>)
    ensures (exists s: seq<Record> :: s != [] && Among(s, records) && Front(s) == [])
            <==> (exists w: seq<Record> :: Cycle(w) && Among(w, records))
  {
    forall w: seq<Record> | Cycle(w) && Among(w, records) ensures Front(w) == [] { CycleEmptiesFront(records, w); }
    if s: seq<Record> :| s != [] && Among(s, records) && Front(s) == [] { EmptyFrontHasCycle(records, s); }
  }

  ghost predicate NobodyUnbeaten(s: seq<Record>) {
    forall r: Record {:trigger IsSurpassed(Dominates, s, r)} | r in s ::
      r.credited && r.gatesPassed && IsSurpassed(Dominates, s, r)
  }

  lemma AllBeaten(s: seq<Record>)
    requires NobodyUnbeaten(s)
    ensures Front(s) == []
  {
    if Front(s) != [] {
      var r := Front(s)[0];
      assert r in Front(s);
      BeatenInside(s, r);
    }
  }

  lemma BeatenInside(s: seq<Record>, r: Record)
    requires NobodyUnbeaten(s) && r in s
    ensures Beaten(Credited(s), r)
  {
    assert IsSurpassed(Dominates, s, r);
    var o :| o in s && Dominates(o, r);
    DominanceIsAsymmetric(o, r);
    assert IsSurpassed(Dominates, s, o);
    assert o in Credited(s);
  }

  // ------------------------------------------------------------------ two circles

  lemma Maximised()
    ensures VerifiedSuccess in MAXIMIZE && SafeCoverage in MAXIMIZE && TransferRetention in MAXIMIZE
  {
    assert MAXIMIZE[0] == VerifiedSuccess && MAXIMIZE[1] == SafeCoverage && MAXIMIZE[2] == TransferRetention;
  }

  function Measured(id: string, metrics: map<Name, real>): Record { Record(id, metrics, true, true) }

  lemma DominatesOnOne(a: Record, b: Record, n: Name)
    requires Better(a, b, n) && forall m | m != n :: !Common(a, b, m)
    ensures Dominates(a, b)
  {
  }

  /** Lower latency dominates when nothing else was measured. */
  lemma FasterDominates()
    ensures Dominates(Measured("a", map[LatencyMs := 100.0]), Measured("b", map[LatencyMs := 900.0]))
  {
    var a, b := Measured("a", map[LatencyMs := 100.0]), Measured("b", map[LatencyMs := 900.0]);
    assert a.metrics[LatencyMs] < b.metrics[LatencyMs] - 0.000000000001;
    DominatesIffBetter(a, b);
  }

  lemma CircleOfThree(a: Record, b: Record, c: Record)
    requires a.credited && a.gatesPassed && b.credited && b.gatesPassed && c.credited && c.gatesPassed
    requires Dominates(b, a) && Dominates(c, b) && Dominates(a, c)
    ensures Front([a, b, c]) == []
  {
    var rows := [a, b, c];
    assert a in rows && b in rows && c in rows;
    assert IsSurpassed(Dominates, rows, a) && IsSurpassed(Dominates, rows, b) && IsSurpassed(Dominates, rows, c);
    AllBeaten(rows);
  }

  /** Records that measured different metrics can dominate one another in a circle, so that no front is left. */
  lemma UnevenMetricsCanCycle()
    ensures var a := Measured("a", map[VerifiedSuccess := 1.0, SafeCoverage := 0.0]);
            var b := Measured("b", map[SafeCoverage := 1.0, TransferRetention := 0.0]);
            var c := Measured("c", map[TransferRetention := 1.0, VerifiedSuccess := 0.0]);
            Front([a, b, c]) == []
  {
    var a := Measured("a", map[VerifiedSuccess := 1.0, SafeCoverage := 0.0]);
    var b := Measured("b", map[SafeCoverage := 1.0, TransferRetention := 0.0]);
    var c := Measured("c", map[TransferRetention := 1.0, VerifiedSuccess := 0.0]);
    Maximised();
    DominatesOnOne(b, a, SafeCoverage);
    DominatesOnOne(c, b, TransferRetention);
    DominatesOnOne(a, c, VerifiedSuccess);
    CircleOfThree(a, b, c);
  }

  function OfThree(id: string, x: real, y: real, z: real): Record {
    Measured(id, map[VerifiedSuccess := x, SafeCoverage := y, TransferRetention := z])
  }

  lemma DominatesOfThree(id: string, x: real, y: real, z: real, id': string, x': real, y': real, z': real)
    requires x - x' >= -TOLERANCE && y - y' >= -TOLERANCE && z - z' >= -TOLERANCE
    requires x - x' > TOLERANCE || y - y' > TOLERANCE || z - z' > TOLERANCE
    ensures Dominates(OfThree(id, x, y, z), OfThree(id', x', y', z'))
  {
    Maximised();
    var a, b := OfThree(id, x, y, z), OfThree(id', x', y', z');
    assert Common(a, b, VerifiedSuccess) && Common(a, b, SafeCoverage) && Common(a, b, TransferRetention);
    assert Better(a, b, VerifiedSuccess) || Better(a, b, SafeCoverage) || Better(a, b, TransferRetention);
  }

  /** So can records that all measured the same, when values differ by less than the tolerance. */
  lemma NearTiesCanCycle()
    ensures var t := TOLERANCE;
            Front([OfThree("a", 0.0, 0.3 * t, 1.2 * t),
                   OfThree("b", 1.2 * t, 0.0, 0.3 * t),
                   OfThree("c", 0.3 * t, 1.2 * t, 0.0)]) == []
  {
    var t := TOLERANCE;
    DominatesOfThree("b", 1.2 * t, 0.0, 0.3 * t, "a", 0.0, 0.3 * t, 1.2 * t);
    DominatesOfThree("c", 0.3 * t, 1.2 * t, 0.0, "b", 1.2 * t, 0.0, 0.3 * t);
    DominatesOfThree("a", 0.0, 0.3 * t, 1.2 * t, "c", 0.3 * t, 1.2 * t, 0.0);
    CircleOfThree(OfThree("a", 0.0, 0.3 * t, 1.2 * t), OfThree("b", 1.2 * t, 0.0, 0.3 * t),
                  OfThree("c", 0.3 * t, 1.2 * t, 0.0));
  }
}
