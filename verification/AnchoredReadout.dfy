/**
 The anchored log-probability readout.  The engine answers for at most five labels at a time: the log-softmax over its
 whole vocabulary, with the group's labels biased, so each time with another normaliser.  A label is a token; the
 first n tokens are the options.  The exponential and the logarithm are parameters.
 */
module AnchoredReadout {
  import opened Prelude
  import opened Products
  import opened Sums

  type Label = nat

  // ------------------------------------------------------------------ groups

  function Range(lo: nat, hi: nat): (r: seq<Label>)
    requires lo <= hi
    ensures |r| == hi - lo && forall i | 0 <= i < |r| :: r[i] == lo + i
  {
    seq(hi - lo, i requires 0 <= i => lo + i)
  }

  function Least(a: nat, b: nat): nat { if a <= b then a else b }

  /** `Math.ceil((n - 1) / 4)`. */
  function GroupCount(n: nat): nat
    requires n > 5
  {
    (n + 2) / 4
  }

  function Group(n: nat, i: nat): seq<Label>
    requires n > 5 && i < GroupCount(n)
  {
    [0] + Range(1 + i * 4, Least(n, 1 + (i + 1) * 4))
  }

  function Groups(n: nat): (gs: seq<seq<Label>>) {
    if n <= 5 then [Range(0, n)]
    else seq(GroupCount(n), i requires 0 <= i < GroupCount(n) => Group(n, i))
  }

  /** Groups are small and start with the anchor. */
  lemma GroupShape(n: nat, k: nat)
    requires n >= 2 && k < |Groups(n)|
    ensures var g := Groups(n)[k]; 2 <= |g| <= 5 && g[0] == 0 && forall i | 0 <= i < |g| :: g[i] < n
  {
  }

  /** No fewer groups of one anchor and four other labels would do. */
  lemma FewestGroups(n: nat)
    requires n >= 2
    ensures n <= 5 ==> Groups(n) == [Range(0, n)]
    ensures n > 5 ==> 4 * (|Groups(n)| - 1) < n - 1 <= 4 * |Groups(n)|
  {
  }

  function GroupOf(n: nat, opt: Label): nat
    requires n >= 2 && 0 < opt < n
  {
    if n <= 5 then 0 else (opt - 1) / 4
  }

  /** The labels of the k-th group: the anchor, then up to four in a row. */
  lemma GroupEntries(n: nat, k: nat)
    requires n >= 2 && k < |Groups(n)|
    ensures |Groups(n)[k]| == Least(n, 4 * k + 5) - 4 * k
    ensures forall i | 0 <= i < |Groups(n)[k]| :: Groups(n)[k][i] == if i == 0 then 0 else 4 * k + i
  {
  }

  lemma InItsGroup(n: nat, opt: Label)
    requires n >= 2 && 0 < opt < n
    ensures GroupOf(n, opt) < |Groups(n)| && PlaceOf(n, opt) < |Groups(n)[GroupOf(n, opt)]|
    ensures Groups(n)[GroupOf(n, opt)][PlaceOf(n, opt)] == opt
  {
    assert GroupOf(n, opt) < |Groups(n)|;
    GroupEntries(n, GroupOf(n, opt));
  }

  /** Every label but the anchor is in exactly one group, once. */
  lemma ExactlyOneGroup(n: nat, opt: Label)
    requires n >= 2 && 0 < opt < n
    ensures forall k, i | 0 <= k < |Groups(n)| && 0 <= i < |Groups(n)[k]| ::
              Groups(n)[k][i] == opt <==> k == GroupOf(n, opt) && i == PlaceOf(n, opt)
    ensures GroupOf(n, opt) < |Groups(n)| && PlaceOf(n, opt) < |Groups(n)[GroupOf(n, opt)]|
  {
    InItsGroup(n, opt);
    forall k, i | 0 <= k < |Groups(n)| && 0 <= i < |Groups(n)[k]|
      ensures Groups(n)[k][i] == opt <==> k == GroupOf(n, opt) && i == PlaceOf(n, opt)
    {
      GroupEntries(n, k);
    }
  }

  function PlaceOf(n: nat, opt: Label): nat
    requires n >= 2 && 0 < opt < n
  {
    if n <= 5 then opt else 1 + (opt - 1) % 4
  }

  // ------------------------------------------------------------------ the readout

  /** What the engine returns for a group: a log-probability per label, or nothing for a label it left out. */
  type Reading = seq<Label> -> seq<Option<real>>

  predicate Complete(read: Reading, g: seq<Label>) {
    |read(g)| == |g| && forall i | 0 <= i < |g| :: read(g)[i].Some?
  }

  const BIAS := 100.0

  /** A token's logit in the readout of a group: `logit_bias` favours the group's labels. */
  function BiasedLogit(z: Label -> real, g: seq<Label>): Label -> real {
    (l: Label) => z(l) + if l in g then BIAS else 0.0
  }

  /** The log of the summed exponentials over the vocabulary. */
  ghost function Normaliser(exp: real -> real, log: real -> real, vocabulary: seq<Label>, z: Label -> real,
                            g: seq<Label>): real {
    log(SumOf((l: Label) => exp(BiasedLogit(z, g)(l)), vocabulary))
  }

  /** What the engine returns is the log-softmax of the biased logits. */
  ghost predicate ReadsLogSoftmax(
      exp: real -> real, log: real -> real, vocabulary: seq<Label>, z: Label -> real, read: Reading)
  {
    forall g, i | Complete(read, g) && 0 <= i < |g| ::
      read(g)[i].value == BiasedLogit(z, g)(g[i]) - Normaliser(exp, log, vocabulary, z, g)
  }

  /** The bias less the normaliser: one constant for all labels of a group. */
  ghost function ShiftOf(exp: real -> real, log: real -> real, vocabulary: seq<Label>, z: Label -> real)
    : seq<Label> -> real {
    (g: seq<Label>) => BIAS - Normaliser(exp, log, vocabulary, z, g)
  }

  lemma LogSoftmaxIsBiased(exp: real -> real, log: real -> real, vocabulary: seq<Label>, z: Label -> real,
                           read: Reading)
    requires ReadsLogSoftmax(exp, log, vocabulary, z, read)
    ensures Biased(z, ShiftOf(exp, log, vocabulary, z), read)
  {
    forall g, i | Complete(read, g) && 0 <= i < |g|
      ensures read(g)[i].value == z(g[i]) + ShiftOf(exp, log, vocabulary, z)(g)
    {
      assert g[i] in g;
    }
  }

  /** Each log-probability is the label's logit up to a constant of its group. */
  ghost predicate Biased(z: Label -> real, shift: seq<Label> -> real, read: Reading) {
    forall g, i | Complete(read, g) && 0 <= i < |g| :: read(g)[i].value == z(g[i]) + shift(g)
  }

  /** The loop over the groups; None when a label is missing. */
  method ReadAll(n: nat, groups: seq<seq<Label>>, read: Reading,
                 ghost z: Label -> real, ghost shift: seq<Label> -> real)
      returns (r: Option<map<Label, real>>)
    requires n > 0 && Biased(z, shift, read)
    requires forall g | g in groups :: g != [] && g[0] == 0 && forall i | 0 <= i < |g| :: g[i] < n
    ensures r.Some? <==> forall k | 0 <= k < |groups| :: Complete(read, groups[k])
    ensures r.Some? ==> 0 in r.value && forall l | l in r.value :: l < n && r.value[l] == z(l) - z(0)
    ensures r.Some? ==> forall k | 0 <= k < |groups| :: forall l | l in groups[k] :: l in r.value
  {
    var relative: map<Label, real> := map[0 := 0.0];
    for k := 0 to |groups|
      invariant forall j | 0 <= j < k :: Complete(read, groups[j])
      invariant 0 in relative && forall l | l in relative :: l < n && relative[l] == z(l) - z(0)
      invariant forall j | 0 <= j < k :: forall l | l in groups[j] :: l in relative
    {
      assert groups[k] in groups;
      if !IsComplete(read(groups[k]), |groups[k]|) { return None; }
      relative := AddGroup(n, groups[k], relative, read, z, shift);
    }
    return Some(relative);
  }

  lemma GroupsCover(n: nat, l: Label)
    requires n >= 2 && 0 < l < n
    ensures GroupOf(n, l) < |Groups(n)| && l in Groups(n)[GroupOf(n, l)]
  {
    InItsGroup(n, l);
  }

  /** The logits of all labels relative to the anchor. */
  method ReadGroups(n: nat, read: Reading, ghost z: Label -> real, ghost shift: seq<Label> -> real)
      returns (r: Option<seq<real>>)
    requires n >= 2 && Biased(z, shift, read)
    ensures r.Some? <==> forall k | 0 <= k < |Groups(n)| :: Complete(read, Groups(n)[k])
    ensures r.Some? ==> |r.value| == n && forall l | 0 <= l < n :: r.value[l] == z(l) - z(0)
  {
    var groups := Groups(n);
    forall g | g in groups ensures g != [] && g[0] == 0 && forall i | 0 <= i < |g| :: g[i] < n {
      var k :| 0 <= k < |groups| && groups[k] == g;
      GroupShape(n, k);
    }
    var all := ReadAll(n, groups, read, z, shift);
    if all == None { return None; }
    var relative := all.value;
    forall l | 0 < l < n ensures l in relative { GroupsCover(n, l); }
    return Some(seq(n, l requires 0 <= l < n && l in relative => relative[l]));
  }

  /** The logits relative to the anchor, or None when a label is missing. */
  method RelativeLogits(n: nat, read: Reading, ghost exp: real -> real, ghost log: real -> real,
                        ghost vocabulary: seq<Label>, ghost z: Label -> real)
      returns (r: Option<seq<real>>)
    requires n >= 2 && ReadsLogSoftmax(exp, log, vocabulary, z, read)
    ensures r.Some? <==> forall k | 0 <= k < |Groups(n)| :: Complete(read, Groups(n)[k])
    ensures r.Some? ==> |r.value| == n && forall l | 0 <= l < n :: r.value[l] == z(l) - z(0)
  {
    LogSoftmaxIsBiased(exp, log, vocabulary, z, read);
    r := ReadGroups(n, read, z, ShiftOf(exp, log, vocabulary, z));
  }

  predicate IsComplete(values: seq<Option<real>>, n: nat) {
    |values| == n && forall i | 0 <= i < n :: values[i].Some?
  }

  /** The readings of one group, each minus the reading of the anchor. */
  method AddGroup(n: nat, group: seq<Label>, before: map<Label, real>, read: Reading,
                  ghost z: Label -> real, ghost shift: seq<Label> -> real)
      returns (relative: map<Label, real>)
    requires group != [] && group[0] == 0 && forall i | 0 <= i < |group| :: group[i] < n
    requires Biased(z, shift, read) && Complete(read, group)
    requires 0 in before && forall l | l in before :: l < n && before[l] == z(l) - z(0)
    ensures 0 in relative && forall l | l in relative :: l < n && relative[l] == z(l) - z(0)
    ensures forall l | l in relative :: l in before || l in group
    ensures forall l | l in before || l in group :: l in relative
  {
    var values := read(group);
    var anchor := values[0].value;
    relative := before;
    for i := 0 to |group|
      invariant 0 in relative && forall l | l in relative :: l < n && relative[l] == z(l) - z(0)
      invariant forall l | l in relative :: l in before || l in group
      invariant forall l | l in before :: l in relative
      invariant forall j | 0 <= j < i :: group[j] in relative
    {
      relative := relative[group[i] := values[i].value - anchor];
    }
  }

  // ------------------------------------------------------------------ softmax

  ghost predicate IsExp(exp: real -> real) {
    && (forall x :: exp(x) > 0.0)
    && (forall x, y {:trigger Times(exp(x), exp(y))} :: Times(exp(x), exp(y)) == exp(x + y))
  }

  function Maximum(v: seq<real>): (m: real)
    requires v != []
    ensures m in v && forall x | x in v :: x <= m
  {
    if |v| == 1 then v[0]
    else
      var rest := Maximum(v[1..]);
      assert v == [v[0]] + v[1..];
      if v[0] >= rest then v[0] else rest
  }

  function Exps(exp: real -> real, v: seq<real>, m: real): (e: seq<real>)
    ensures |e| == |v| && forall i | 0 <= i < |v| :: e[i] == exp(v[i] - m)
  {
    seq(|v|, i requires 0 <= i < |v| => exp(v[i] - m))
  }

  function Same(x: real): real { x }

  ghost function Total(v: seq<real>): real { SumOf(Same, v) }

  /** `softmax`, with the maximum taken off first. */
  ghost function Softmax(exp: real -> real, v: seq<real>): (p: seq<real>)
    requires v != [] && IsExp(exp)
    ensures |p| == |v|
    ensures var e := Exps(exp, v, Maximum(v));
            Total(e) > 0.0 && forall i | 0 <= i < |p| :: p[i] == Over(e[i], Total(e))
  {
    var e := Exps(exp, v, Maximum(v));
    TotalPositive(e);
    seq(|v|, i requires 0 <= i < |v| => Over(e[i], Total(e)))
  }

  lemma TotalPositive(e: seq<real>)
    requires e != [] && forall i | 0 <= i < |e| :: e[i] > 0.0
    ensures Total(e) > 0.0
  {
    var zero := (x: real) => 0.0;
    SumBelow(zero, Same, e, 0);
    SumConst(0.0, zero, e);
  }

  /** Exponentials of values that differ by a constant are proportional. */
  lemma ExpsProportional(exp: real -> real, z: seq<real>, v: seq<real>, c: real, m: real)
    requires IsExp(exp) && z != [] && |v| == |z| && forall i | 0 <= i < |z| :: v[i] == z[i] - c
    ensures exp(c + m) > 0.0
    ensures forall i | 0 <= i < |z| :: Times(Exps(exp, v, m)[i], exp(c + m)) == Exps(exp, z, 0.0)[i]
    ensures Times(Total(Exps(exp, v, m)), exp(c + m)) == Total(Exps(exp, z, 0.0))
  {
    forall i | 0 <= i < |z| ensures Times(Exps(exp, v, m)[i], exp(c + m)) == Exps(exp, z, 0.0)[i] {
      assert Times(exp(v[i] - m), exp(c + m)) == exp(v[i] - m + (c + m));
      assert v[i] - m + (c + m) == z[i] - 0.0;
    }
    SumOfParts(Same, Same, Exps(exp, v, m), Exps(exp, z, 0.0), exp(c + m));
  }

  /** Softmax of values shifted by any constant is the share of each exponential. */
  lemma SoftmaxIsShare(exp: real -> real, z: seq<real>, v: seq<real>, c: real)
    requires IsExp(exp) && z != [] && |v| == |z| && forall i | 0 <= i < |z| :: v[i] == z[i] - c
    ensures Total(Exps(exp, z, 0.0)) > 0.0
    ensures forall i | 0 <= i < |z| :: Softmax(exp, v)[i] == Over(exp(z[i]), Total(Exps(exp, z, 0.0)))
  {
    var m := Maximum(v);
    var e, t := Exps(exp, v, m), Exps(exp, z, 0.0);
    ExpsProportional(exp, z, v, c, m);
    TotalPositive(e);
    TotalPositive(t);
    forall i | 0 <= i < |z| ensures Softmax(exp, v)[i] == Over(exp(z[i]), Total(t)) {
      assert z[i] - 0.0 == z[i];
      RatioScale(e[i], Total(e), exp(c + m));
    }
  }

  /** The probabilities are positive and sum to one. */
  lemma SoftmaxIsDistribution(exp: real -> real, v: seq<real>)
    requires IsExp(exp) && v != []
    ensures Total(Softmax(exp, v)) == 1.0 && forall i | 0 <= i < |v| :: Softmax(exp, v)[i] > 0.0
  {
    var e, p := Exps(exp, v, Maximum(v)), Softmax(exp, v);
    TotalPositive(e);
    forall i | 0 <= i < |p| ensures Times(Same(p[i]), Total(e)) == Same(e[i]) && p[i] > 0.0 {
      OverTimes(e[i], Total(e));
      OverPositive(e[i], Total(e));
    }
    SumOfParts(Same, Same, p, e, Total(e));
    CancelFactor(Total(p), Total(e));
  }

  function LogitsOf(z: Label -> real, n: nat): (v: seq<real>)
    ensures |v| == n && forall l | 0 <= l < n :: v[l] == z(l)
  {
    seq(n, l requires 0 <= l => z(l))
  }

  /**
   `directScore`: the probabilities are those of one softmax over the true logits of all labels, although every group
   was read with its own bias and normaliser.
   */
  method DirectScore(exp: real -> real, n: nat, read: Reading, ghost log: real -> real, ghost vocabulary: seq<Label>,
                     ghost z: Label -> real)
      returns (logits: Option<seq<real>>)
    requires n >= 2 && IsExp(exp) && ReadsLogSoftmax(exp, log, vocabulary, z, read)
    ensures logits.Some? <==> forall k | 0 <= k < |Groups(n)| :: Complete(read, Groups(n)[k])
    ensures logits.Some? ==>
              var total := Total(Exps(exp, LogitsOf(z, n), 0.0));
              |logits.value| == n && total > 0.0
              && forall l | 0 <= l < n :: Softmax(exp, logits.value)[l] == Over(exp(z(l)), total)
  {
    logits := RelativeLogits(n, read, exp, log, vocabulary, z);
    if logits.Some? {
      SoftmaxIsShare(exp, LogitsOf(z, n), logits.value, z(0));
    }
  }
}
