/**
 Scoring predictions against gold rows: every gold row counts, whatever its prediction looks like.  Probabilities
 are reals.
 */
module Evaluate {
  import opened Prelude
  import opened Occurrences
  import opened Sums

  /** A gold row; `target` is its analytic distribution, if it has one. */
  datatype Gold = Gold(id: string, options: seq<string>, correct: int, target: Option<Values>)

  /** A JSON value: a finite number, an integer that no float can hold, or anything else. */
  datatype Entry = Number(value: real) | TooLarge | NoNumber

  datatype Values = Keyed(byOption: map<string, Entry>) | Listed(values: seq<Entry>) | Malformed

  /** `unparsed` stands for a parse status or an error that disqualifies the output. */
  datatype Prediction = Prediction(
    id: string,
    unparsed: bool,
    values: Option<Values>,
    choice: Option<string>,
    optionIds: Option<seq<string>>)

  datatype Status = Missing | Invalid | NativeDecision | Distribution

  datatype Row = Row(
    id: string,
    gold: string,
    predicted: Option<string>,
    correct: bool,
    confidence: Option<real>,
    status: Status)

  // ------------------------------------------------------------------ one prediction

  function Same(p: real): real { p }

  predicate IsProbability(e: Entry) { e.Number? && 0.0 <= e.value <= 1.0 }

  function Known(values: seq<Entry>): (ps: Option<seq<real>>)
    ensures ps.Some? <==> forall i | 0 <= i < |values| :: IsProbability(values[i])
    ensures ps.Some? ==> |ps.value| == |values| && forall i | 0 <= i < |values| :: ps.value[i] == values[i].value
  {
    if forall i | 0 <= i < |values| :: IsProbability(values[i])
    then Some(seq(|values|, i requires 0 <= i < |values| && values[i].Number? => values[i].value))
    else None
  }

  /** The entries in the order of the options, if there is one for each. */
  function Entries(values: Values, ids: seq<string>): (es: Option<seq<Entry>>)
    ensures es.Some? ==> |es.value| == |ids|
  {
    match values
    case Keyed(m) => if m.Keys == (set i | i in ids) then Some(InOrder(m, ids)) else None
    case Listed(es) => if |es| == |ids| then Some(es) else None
    case Malformed => None
  }

  /** `math.isfinite` raises OverflowError: all entries before the too large one are probabilities. */
  predicate Overflows(values: Values, ids: seq<string>) {
    var es := Entries(values, ids);
    es.Some? && exists k | 0 <= k < |es.value| ::
      es.value[k].TooLarge? && forall i | 0 <= i < k :: IsProbability(es.value[i])
  }

  /** `vector`: None where it raises. */
  function Vector(values: Values, ids: seq<string>): (ps: Option<seq<real>>)
    ensures ps.Some? ==> |ps.value| == |ids| && forall i | 0 <= i < |ids| :: 0.0 <= ps.value[i] <= 1.0
  {
    var es := Entries(values, ids);
    if es.None? then None
    else
      var ps := Known(es.value);
      if ps.Some? && -0.0001 <= SumOf(Same, ps.value) - 1.0 <= 0.0001 then ps else None
  }

  function InOrder(m: map<string, Entry>, ids: seq<string>): (es: seq<Entry>)
    requires forall i | 0 <= i < |ids| :: ids[i] in m
    ensures |es| == |ids| && forall i | 0 <= i < |ids| :: es[i] == m[ids[i]]
  {
    seq(|ids|, i requires 0 <= i < |ids| => m[ids[i]])
  }

  function Zip(ids: seq<string>, es: seq<Entry>): map<string, Entry>
    requires |ids| == |es|
  {
    if ids == [] then map[] else Zip(ids[..|ids| - 1], es[..|es| - 1])[ids[|ids| - 1] := es[|es| - 1]]
  }

  /** The values as the prediction means them: a list with option ids is a keyed one. */
  function Meant(p: Prediction): Option<Values>
    requires p.values.Some?
  {
    if p.values.value.Listed? && p.optionIds.Some? then
      if |p.optionIds.value| != |p.values.value.values| || !NoRepeats(p.optionIds.value) then None
      else Some(Keyed(Zip(p.optionIds.value, p.values.value.values)))
    else p.values
  }

  /** `max(range(len(ps)), key=...)`: the first largest. */
  function ArgMax(ps: seq<real>): (k: nat)
    requires ps != []
    ensures k < |ps|
    ensures forall i | 0 <= i < |ps| :: ps[i] <= ps[k]
    ensures forall i | 0 <= i < k :: ps[i] < ps[k]
  {
    var n := |ps| - 1;
    if n == 0 then 0
    else
      var k := ArgMax(ps[..n]);
      if ps[n] > ps[..n][k] then n else k
  }

  /** Scoring the prediction raises an error that `align` does not catch. */
  predicate Escapes(g: Gold, outputs: map<string, Prediction>) {
    g.id in outputs &&
    var p := outputs[g.id];
    !p.unparsed && p.values.Some? && Meant(p).Some? && Overflows(Meant(p).value, g.options)
  }

  /** What the row of one gold item becomes. */
  function RowFor(g: Gold, outputs: map<string, Prediction>): Row
    requires 0 <= g.correct < |g.options|
  {
    var missing := Row(g.id, g.options[g.correct], None, false, None, Missing);
    if g.id !in outputs then missing else Judge(missing, g.options, outputs[g.id])
  }

  function Judge(row: Row, ids: seq<string>, p: Prediction): Row
    requires ids != []
  {
    if p.unparsed then row.(status := Invalid)
    else if p.values.None? then
      if p.choice.None? || p.choice.value !in ids then row.(status := Invalid)
      else row.(status := NativeDecision, predicted := p.choice, correct := p.choice.value == row.gold)
    else
      var meant := Meant(p);
      if meant.None? || Vector(meant.value, ids).None? then row.(status := Invalid)
      else
        var ps := Vector(meant.value, ids).value;
        var chosen := ArgMax(ps);
        row.(status := Distribution, predicted := Some(ids[chosen]), confidence := Some(ps[chosen]),
             correct := ids[chosen] == row.gold)
  }

  // ------------------------------------------------------------------ align

  datatype Trouble =
    | DuplicateId(id: string)
    | UnknownPrediction(id: string)
    | InvalidGold(id: string)
    | InvalidTarget(id: string)
    | Overflow(id: string)

  function GoldIds(gold: seq<Gold>): seq<string> { seq(|gold|, i requires 0 <= i < |gold| => gold[i].id) }

  function PredictionIds(ps: seq<Prediction>): seq<string> { seq(|ps|, i requires 0 <= i < |ps| => ps[i].id) }

  predicate UniqueIds(gold: seq<Gold>, predictions: seq<Prediction>) {
    NoRepeats(GoldIds(gold)) && NoRepeats(PredictionIds(predictions))
  }

  /** Distinct options, a label among them, and a target that is a distribution over them. */
  predicate Proper(g: Gold) {
    ProperOptions(g) && (g.target.Some? ==> Vector(g.target.value, g.options).Some?)
  }

  predicate ProperOptions(g: Gold) {
    NoRepeats(g.options) && 0 <= g.correct < |g.options|
  }

  function Index(predictions: seq<Prediction>): (m: map<string, Prediction>)
    ensures forall id | id in m :: m[id] in predictions && m[id].id == id
    ensures forall p | p in predictions :: p.id in m
  {
    if predictions == [] then map[]
    else
      var last := predictions[|predictions| - 1];
      Index(predictions[..|predictions| - 1])[last.id := last]
  }

  /** The gold row a prediction is for. */
  predicate HasGold(gold: seq<Gold>, p: Prediction) {
    exists i :: 0 <= i < |gold| && gold[i].id == p.id
  }

  // ------------------------------------------------------------------ what a row has to say

  /** The entries of a distribution in the order of the options. */
  ghost predicate InOptionOrder(v: Values, options: seq<string>, es: seq<Entry>) {
    match v
    case Keyed(m) =>
      && (forall o :: o in m <==> o in options)
      && |es| == |options| && forall i | 0 <= i < |options| :: m[options[i]] == es[i]
    case Listed(values) => es == values && |es| == |options|
    case Malformed => false
  }

  /** The same for a list of values that comes with the ids of its options. */
  ghost predicate InNamedOrder(names: seq<string>, values: seq<Entry>, options: seq<string>, es: seq<Entry>) {
    && |names| == |values| && NoRepeats(names)
    && (forall o :: o in names <==> o in options)
    && |es| == |options|
    && forall i, j | 0 <= i < |options| && 0 <= j < |names| && names[j] == options[i] :: es[i] == values[j]
  }

  ghost predicate EntriesOf(p: Prediction, options: seq<string>, es: seq<Entry>) {
    p.values.Some? &&
    if p.values.value.Listed? && p.optionIds.Some?
    then InNamedOrder(p.optionIds.value, p.values.value.values, options, es)
    else InOptionOrder(p.values.value, options, es)
  }

  /** Probabilities that sum to one within 1e-4. */
  ghost predicate AreProbabilities(es: seq<Entry>, ps: seq<real>) {
    && |ps| == |es| && (forall i | 0 <= i < |es| :: es[i] == Number(ps[i]) && 0.0 <= ps[i] <= 1.0)
    && 1.0 - 0.0001 <= SumOf(Same, ps) <= 1.0 + 0.0001
  }

  ghost predicate Predicts(p: Prediction, options: seq<string>, ps: seq<real>) {
    !p.unparsed && exists es :: EntriesOf(p, options, es) && AreProbabilities(es, ps)
  }

  /** A parsed prediction whose first improper entry is an integer too large for a float. */
  ghost predicate TooLargeIn(p: Prediction, options: seq<string>) {
    !p.unparsed && exists es: seq<Entry>, k ::
      && EntriesOf(p, options, es) && 0 <= k < |es| && es[k].TooLarge?
      && forall i | 0 <= i < k :: es[i].Number? && 0.0 <= es[i].value <= 1.0
  }

  /** A gold row's own distribution is one over its options. */
  ghost predicate TargetIsFine(g: Gold) {
    g.target.Some? ==> exists es, ps :: InOptionOrder(g.target.value, g.options, es) && AreProbabilities(es, ps)
  }

  /** The first option, in option order, of the largest probability. */
  predicate Chosen(ps: seq<real>, k: nat) {
    k < |ps| && (forall i | 0 <= i < |ps| :: ps[i] <= ps[k]) && forall i | 0 <= i < k :: ps[i] < ps[k]
  }

  /**
   What the row of a prediction says: the most probable option with its probability, or the option the model chose
   itself, or nothing.
   */
  ghost predicate SaysFor(g: Gold, p: Prediction, r: Row) {
    if exists ps :: Predicts(p, g.options, ps) then
      r.status.Distribution? && exists ps, k: nat ::
        && Predicts(p, g.options, ps) && Chosen(ps, k) && k < |g.options|
        && r.predicted == Some(g.options[k]) && r.confidence == Some(ps[k])
    else if !p.unparsed && p.values.None? && p.choice.Some? && p.choice.value in g.options then
      r.status.NativeDecision? && r.predicted == p.choice && r.confidence.None?
    else
      r.status.Invalid? && r.predicted.None? && r.confidence.None?
  }

  ghost predicate SaysNothing(r: Row) {
    r.status.Missing? && r.predicted.None? && r.confidence.None?
  }

  /** A row names its gold option, is correct exactly when it predicts that one, and says what its prediction says. */
  ghost predicate RightRow(g: Gold, predictions: seq<Prediction>, r: Row) {
    && 0 <= g.correct < |g.options|
    && r.id == g.id && r.gold == g.options[g.correct] && (r.correct <==> r.predicted == Some(r.gold))
    && (forall p | p in predictions && p.id == g.id :: SaysFor(g, p, r))
    && ((forall p | p in predictions :: p.id != g.id) ==> SaysNothing(r))
  }

  // ------------------------------------------------------------------ the row of the code says that

  lemma {:induction false} ZipMeans(ids: seq<string>, es: seq<Entry>)
    requires |ids| == |es| && NoRepeats(ids)
    ensures forall o :: o in Zip(ids, es) <==> o in ids
    ensures forall j | 0 <= j < |ids| :: ids[j] in Zip(ids, es) && Zip(ids, es)[ids[j]] == es[j]
  {
    if ids != [] {
      var n := |ids| - 1;
      ZipMeans(ids[..n], es[..n]);
      assert ids == ids[..n] + [ids[n]];
      forall j | 0 <= j < n ensures ids[j] in Zip(ids, es) && Zip(ids, es)[ids[j]] == es[j] {
        assert ids[..n][j] == ids[j] && es[..n][j] == es[j];
      }
    }
  }

  lemma EntriesMean(v: Values, options: seq<string>, es: seq<Entry>)
    ensures InOptionOrder(v, options, es) <==> Entries(v, options) == Some(es)
  {
    match v
    case Keyed(m) =>
      assert (forall o :: o in m <==> o in options) <==> m.Keys == set i | i in options;
      if m.Keys == set i | i in options {
        forall i | 0 <= i < |options| ensures options[i] in m { assert options[i] in set i | i in options; }
        if |es| == |options| && forall i | 0 <= i < |options| :: m[options[i]] == es[i] {
          assert InOrder(m, options) == es;
        }
      }
    case _ =>
  }

  lemma NamedEntriesMean(names: seq<string>, values: seq<Entry>, options: seq<string>, es: seq<Entry>)
    requires |names| == |values| && NoRepeats(names)
    ensures InNamedOrder(names, values, options, es) <==> InOptionOrder(Keyed(Zip(names, values)), options, es)
  {
    var m := Zip(names, values);
    ZipMeans(names, values);
    if InNamedOrder(names, values, options, es) {
      forall i | 0 <= i < |options| ensures options[i] in m && m[options[i]] == es[i] {
        assert options[i] in names;
        var j :| 0 <= j < |names| && names[j] == options[i];
      }
    }
  }

  lemma EntriesOfIff(p: Prediction, options: seq<string>, es: seq<Entry>)
    requires p.values.Some?
    ensures EntriesOf(p, options, es) <==> Meant(p).Some? && Entries(Meant(p).value, options) == Some(es)
  {
    if p.values.value.Listed? && p.optionIds.Some? {
      var names, values := p.optionIds.value, p.values.value.values;
      if |names| == |values| && NoRepeats(names) {
        NamedEntriesMean(names, values, options, es);
        EntriesMean(Keyed(Zip(names, values)), options, es);
      }
    } else {
      EntriesMean(p.values.value, options, es);
    }
  }

  lemma VectorMeans(v: Values, options: seq<string>, es: seq<Entry>, ps: seq<real>)
    requires Entries(v, options) == Some(es)
    ensures Vector(v, options) == Some(ps) <==> AreProbabilities(es, ps)
  {
    if AreProbabilities(es, ps) {
      assert Known(es).value == ps;
    }
  }

  lemma PredictsIff(p: Prediction, options: seq<string>, ps: seq<real>)
    requires !p.unparsed && p.values.Some?
    ensures Predicts(p, options, ps) <==> Meant(p).Some? && Vector(Meant(p).value, options) == Some(ps)
  {
    if Meant(p).Some? && Entries(Meant(p).value, options).Some? {
      var es := Entries(Meant(p).value, options).value;
      EntriesOfIff(p, options, es);
      VectorMeans(Meant(p).value, options, es, ps);
    }
    forall es | EntriesOf(p, options, es) ensures Meant(p).Some? && Entries(Meant(p).value, options) == Some(es) {
      EntriesOfIff(p, options, es);
    }
  }

  lemma TargetIffVector(g: Gold)
    ensures TargetIsFine(g) <==> (g.target.Some? ==> Vector(g.target.value, g.options).Some?)
  {
    if g.target.Some? {
      forall es
        ensures InOptionOrder(g.target.value, g.options, es) <==> Entries(g.target.value, g.options) == Some(es)
      {
        EntriesMean(g.target.value, g.options, es);
      }
      if Entries(g.target.value, g.options).Some? {
        var es := Entries(g.target.value, g.options).value;
        forall ps ensures Vector(g.target.value, g.options) == Some(ps) <==> AreProbabilities(es, ps) {
          VectorMeans(g.target.value, g.options, es, ps);
        }
      }
    }
  }

  lemma TooLargeIff(p: Prediction, options: seq<string>)
    requires p.values.Some?
    ensures TooLargeIn(p, options) <==> !p.unparsed && Meant(p).Some? && Overflows(Meant(p).value, options)
  {
    forall es ensures EntriesOf(p, options, es) <==> Meant(p).Some? && Entries(Meant(p).value, options) == Some(es) {
      EntriesOfIff(p, options, es);
    }
  }

  lemma JudgeSays(g: Gold, row: Row, p: Prediction)
    requires g.options != [] && row.predicted.None? && row.confidence.None?
    ensures SaysFor(g, p, Judge(row, g.options, p))
  {
    if !p.unparsed && p.values.Some? {
      forall ps
        ensures Predicts(p, g.options, ps) <==> Meant(p).Some? && Vector(Meant(p).value, g.options) == Some(ps)
      {
        PredictsIff(p, g.options, ps);
      }
      if Meant(p).Some? && Vector(Meant(p).value, g.options).Some? {
        var ps := Vector(Meant(p).value, g.options).value;
        assert Predicts(p, g.options, ps) && Chosen(ps, ArgMax(ps));
      }
    }
  }

  /** The prediction that Index finds for an id is the only one with it. */
  lemma IndexFinds(predictions: seq<Prediction>, p: Prediction)
    requires NoRepeats(PredictionIds(predictions)) && p in predictions
    ensures Index(predictions)[p.id] == p
  {
    OneWithId(predictions, p, Index(predictions)[p.id]);
  }

  lemma OneWithId(predictions: seq<Prediction>, p: Prediction, q: Prediction)
    requires NoRepeats(PredictionIds(predictions)) && p in predictions && q in predictions && p.id == q.id
    ensures p == q
  {
    var ids := PredictionIds(predictions);
    var i :| 0 <= i < |predictions| && predictions[i] == p;
    var j :| 0 <= j < |predictions| && predictions[j] == q;
    assert ids[i] == ids[j];
  }

  lemma RowSays(g: Gold, predictions: seq<Prediction>, p: Prediction)
    requires ProperOptions(g) && NoRepeats(PredictionIds(predictions)) && p in predictions && p.id == g.id
    ensures SaysFor(g, p, RowFor(g, Index(predictions)))
  {
    IndexFinds(predictions, p);
    JudgeSays(g, Row(g.id, g.options[g.correct], None, false, None, Missing), p);
  }

  lemma RowSaysNothing(g: Gold, predictions: seq<Prediction>)
    requires ProperOptions(g) && forall p | p in predictions :: p.id != g.id
    ensures SaysNothing(RowFor(g, Index(predictions)))
  {
    assert forall id | id in Index(predictions) :: Index(predictions)[id] in predictions;
  }

  lemma RowIsRight(g: Gold, predictions: seq<Prediction>)
    requires ProperOptions(g) && NoRepeats(PredictionIds(predictions))
    ensures RightRow(g, predictions, RowFor(g, Index(predictions)))
  {
    RowsAreHonest(g, Index(predictions));
    forall p | p in predictions && p.id == g.id ensures SaysFor(g, p, RowFor(g, Index(predictions))) {
      RowSays(g, predictions, p);
    }
    if forall p | p in predictions :: p.id != g.id { RowSaysNothing(g, predictions); }
  }

  /** No id is repeated, every prediction has a gold row, and no gold row and no prediction raises. */
  ghost predicate Alignable(gold: seq<Gold>, predictions: seq<Prediction>) {
    && (forall i, j | 0 <= i < j < |gold| :: gold[i].id != gold[j].id)
    && (forall i, j | 0 <= i < j < |predictions| :: predictions[i].id != predictions[j].id)
    && (forall p | p in predictions :: exists i :: 0 <= i < |gold| && gold[i].id == p.id)
    && (forall i | 0 <= i < |gold| :: HasOptions(gold[i]) && TargetIsFine(gold[i]))
    && (forall i, p | 0 <= i < |gold| && p in predictions && p.id == gold[i].id :: !TooLargeIn(p, gold[i].options))
  }

  /** Different options, and a label among them. */
  predicate HasOptions(g: Gold) {
    && (forall i, j | 0 <= i < j < |g.options| :: g.options[i] != g.options[j])
    && 0 <= g.correct < |g.options|
  }

  lemma IdsAreUnique(gold: seq<Gold>, predictions: seq<Prediction>)
    ensures UniqueIds(gold, predictions) <==>
            && (forall i, j | 0 <= i < j < |gold| :: gold[i].id != gold[j].id)
            && (forall i, j | 0 <= i < j < |predictions| :: predictions[i].id != predictions[j].id)
  {
    var a, b := GoldIds(gold), PredictionIds(predictions);
    assert NoRepeats(a) <==> forall i, j | 0 <= i < j < |gold| :: gold[i].id != gold[j].id by {
      assert forall i | 0 <= i < |gold| :: a[i] == gold[i].id;
    }
    assert NoRepeats(b) <==> forall i, j | 0 <= i < j < |predictions| :: predictions[i].id != predictions[j].id by {
      assert forall i | 0 <= i < |predictions| :: b[i] == predictions[i].id;
    }
  }

  lemma AlignableIff(gold: seq<Gold>, predictions: seq<Prediction>)
    requires UniqueIds(gold, predictions)
    ensures Alignable(gold, predictions) <==>
            (forall p | p in predictions :: HasGold(gold, p)) &&
            forall i | 0 <= i < |gold| :: Proper(gold[i]) && !Escapes(gold[i], Index(predictions))
  {
    IdsAreUnique(gold, predictions);
    forall i | 0 <= i < |gold|
      ensures Proper(gold[i]) <==> ProperOptions(gold[i]) && TargetIsFine(gold[i])
      ensures Escapes(gold[i], Index(predictions)) <==>
              exists p :: p in predictions && p.id == gold[i].id && TooLargeIn(p, gold[i].options)
    {
      TargetIffVector(gold[i]);
      EscapesIff(gold[i], predictions);
    }
  }

  lemma EscapesIff(g: Gold, predictions: seq<Prediction>)
    requires NoRepeats(PredictionIds(predictions))
    ensures Escapes(g, Index(predictions)) <==>
            exists p :: p in predictions && p.id == g.id && TooLargeIn(p, g.options)
  {
    forall p | p in predictions && p.id == g.id
      ensures TooLargeIn(p, g.options) <==> Escapes(g, Index(predictions))
    {
      IndexFinds(predictions, p);
      if p.values.Some? { TooLargeIff(p, g.options); }
    }
    if g.id in Index(predictions) { assert Index(predictions)[g.id] in predictions; }
  }

  /** What is wrong, and where. */
  ghost predicate IsTrouble(gold: seq<Gold>, predictions: seq<Prediction>, t: Trouble) {
    match t
    case DuplicateId(id) =>
      || (exists i, j :: 0 <= i < j < |gold| && gold[i].id == id == gold[j].id)
      || (exists i, j :: 0 <= i < j < |predictions| && predictions[i].id == id == predictions[j].id)
    case UnknownPrediction(id) =>
      (exists p :: p in predictions && p.id == id) && forall i | 0 <= i < |gold| :: gold[i].id != id
    case InvalidGold(id) => exists i :: 0 <= i < |gold| && gold[i].id == id && !HasOptions(gold[i])
    case InvalidTarget(id) => exists i :: 0 <= i < |gold| && gold[i].id == id && !TargetIsFine(gold[i])
    case Overflow(id) =>
      exists i, p :: 0 <= i < |gold| && p in predictions && gold[i].id == id == p.id && TooLargeIn(p, gold[i].options)
  }

  /** `align`: one row per gold row, in order; bad ids, bad gold rows and integers too large for a float raise. */
  method Align(gold: seq<Gold>, predictions: seq<Prediction>) returns (r: Result<seq<Row>, Trouble>)
    ensures r.Ok? <==> Alignable(gold, predictions)
    ensures r.Ok? ==> |r.value| == |gold|
                      && forall i | 0 <= i < |gold| :: RightRow(gold[i], predictions, r.value[i])
    ensures r.Err? ==> IsTrouble(gold, predictions, r.error)
  {
    var trouble := CheckIds(gold, predictions);
    IdsAreUnique(gold, predictions);
    if trouble.Some? { return Err(trouble.value); }
    AlignableIff(gold, predictions);
    r := AlignRows(gold, predictions);
  }

  /** Both `indexed` calls, and the test for unknown ids. */
  method CheckIds(gold: seq<Gold>, predictions: seq<Prediction>) returns (r: Option<Trouble>)
    ensures r.None? <==> UniqueIds(gold, predictions) && forall p | p in predictions :: HasGold(gold, p)
    ensures r.Some? ==> IsTrouble(gold, predictions, r.value)
  {
    var repeated := FirstRepeat(GoldIds(gold));
    if repeated.Some? { return Some(DuplicateId(repeated.value)); }
    repeated := FirstRepeat(PredictionIds(predictions));
    if repeated.Some? { return Some(DuplicateId(repeated.value)); }
    for i := 0 to |predictions|
      invariant forall j | 0 <= j < i :: HasGold(gold, predictions[j])
    {
      if !HasGold(gold, predictions[i]) { return Some(UnknownPrediction(predictions[i].id)); }
    }
    return None;
  }

  /** The loop over the gold rows. */
  method AlignRows(gold: seq<Gold>, predictions: seq<Prediction>) returns (r: Result<seq<Row>, Trouble>)
    requires NoRepeats(PredictionIds(predictions))
    ensures r.Ok? <==> forall i | 0 <= i < |gold| :: Proper(gold[i]) && !Escapes(gold[i], Index(predictions))
    ensures r.Ok? ==> |r.value| == |gold| && RightRows(gold, predictions, r.value)
    ensures r.Err? ==> IsTrouble(gold, predictions, r.error)
  {
    var outputs := Index(predictions);
    var rows := [];
    for i := 0 to |gold|
      invariant |rows| == i && RightRows(gold, predictions, rows)
      invariant forall j | 0 <= j < i :: Proper(gold[j]) && !Escapes(gold[j], outputs)
    {
      var row := AlignRow(gold[i], predictions, outputs);
      if row.Err? {
        RowTrouble(gold, i, predictions, row.error);
        return Err(row.error);
      }
      OneMoreRight(gold, predictions, rows, row.value);
      rows := rows + [row.value];
    }
    return Ok(rows);
  }

  ghost predicate RightRows(gold: seq<Gold>, predictions: seq<Prediction>, rows: seq<Row>) {
    |rows| <= |gold| && forall i | 0 <= i < |rows| :: RightRow(gold[i], predictions, rows[i])
  }

  lemma OneMoreRight(gold: seq<Gold>, predictions: seq<Prediction>, rows: seq<Row>, row: Row)
    requires RightRows(gold, predictions, rows) && |rows| < |gold| && RightRow(gold[|rows|], predictions, row)
    ensures RightRows(gold, predictions, rows + [row])
  {
    var more := rows + [row];
    forall i | 0 <= i < |more| ensures RightRow(gold[i], predictions, more[i]) {
      if i < |rows| { assert more[i] == rows[i]; } else { assert more[i] == row; }
    }
  }

  /** One round of the loop over the gold rows. */
  method AlignRow(g: Gold, predictions: seq<Prediction>, outputs: map<string, Prediction>)
      returns (r: Result<Row, Trouble>)
    requires NoRepeats(PredictionIds(predictions)) && outputs == Index(predictions)
    ensures r.Ok? <==> Proper(g) && !Escapes(g, outputs)
    ensures r.Ok? ==> RightRow(g, predictions, r.value)
    ensures r.Err? ==> IsRowTrouble(g, predictions, r.error)
  {
    if !ProperOptions(g) { return Err(InvalidGold(g.id)); }
    TargetIffVector(g);
    if g.target.Some? && Vector(g.target.value, g.options).None? { return Err(InvalidTarget(g.id)); }
    EscapesIff(g, predictions);
    if Escapes(g, outputs) { return Err(Overflow(g.id)); }
    RowIsRight(g, predictions);
    return Ok(RowFor(g, outputs));
  }

  ghost predicate IsRowTrouble(g: Gold, predictions: seq<Prediction>, t: Trouble) {
    match t
    case InvalidGold(id) => id == g.id && !ProperOptions(g)
    case InvalidTarget(id) => id == g.id && !TargetIsFine(g)
    case Overflow(id) => id == g.id && exists p :: p in predictions && p.id == g.id && TooLargeIn(p, g.options)
    case _ => false
  }

  lemma RowTrouble(gold: seq<Gold>, i: nat, predictions: seq<Prediction>, t: Trouble)
    requires i < |gold| && IsRowTrouble(gold[i], predictions, t)
    ensures IsTrouble(gold, predictions, t)
  {
  }

  method FirstRepeat(ids: seq<string>) returns (r: Option<string>)
    ensures r.None? <==> NoRepeats(ids)
    ensures r.Some? ==> exists i, j :: 0 <= i < j < |ids| && ids[i] == r.value == ids[j]
  {
    for i := 0 to |ids|
      invariant NoRepeats(ids[..i])
    {
      if ids[i] in ids[..i] {
        var k :| 0 <= k < i && ids[..i][k] == ids[i];
        return Some(ids[i]);
      }
      assert forall j | 0 <= j < i :: ids[..i][j] == ids[j] && ids[j] in ids[..i];
    }
    assert ids[..|ids|] == ids;
    return None;
  }

  /** A row is correct exactly when it predicts its gold option; missing and invalid rows predict nothing. */
  predicate Honest(r: Row) {
    && (r.correct <==> r.predicted == Some(r.gold))
    && (r.status.Missing? || r.status.Invalid? <==> r.predicted.None?)
    && (r.status.Distribution? <==> r.confidence.Some?)
  }

  lemma RowsAreHonest(g: Gold, outputs: map<string, Prediction>)
    requires ProperOptions(g)
    ensures Honest(RowFor(g, outputs))
    ensures RowFor(g, outputs).id == g.id && RowFor(g, outputs).gold == g.options[g.correct]
    ensures RowFor(g, outputs).status.Missing? <==> g.id !in outputs
  {
  }

  // ------------------------------------------------------------------ per-label counts

  function Tp(option: string, rows: seq<Row>): nat {
    if rows == [] then 0
    else
      var r := rows[|rows| - 1];
      Tp(option, rows[..|rows| - 1]) + if r.gold == option && r.predicted == Some(option) then 1 else 0
  }

  function Fn(option: string, rows: seq<Row>): nat {
    if rows == [] then 0
    else
      var r := rows[|rows| - 1];
      Fn(option, rows[..|rows| - 1]) + if r.gold == option && r.predicted != Some(option) then 1 else 0
  }

  function Correct(rows: seq<Row>): nat {
    if rows == [] then 0 else Correct(rows[..|rows| - 1]) + if rows[|rows| - 1].correct then 1 else 0
  }

  function TpSum(labels: seq<string>, rows: seq<Row>): nat {
    if labels == [] then 0 else TpSum(labels[..|labels| - 1], rows) + Tp(labels[|labels| - 1], rows)
  }

  function SupportSum(labels: seq<string>, rows: seq<Row>): nat {
    if labels == [] then 0
    else SupportSum(labels[..|labels| - 1], rows) + (Tp(labels[|labels| - 1], rows) + Fn(labels[|labels| - 1], rows))
  }

  /** One more row adds to the label it has, if that label is listed. */
  lemma {:induction false} OneMoreRow(labels: seq<string>, rows: seq<Row>, r: Row)
    requires NoRepeats(labels)
    ensures TpSum(labels, rows + [r])
            == TpSum(labels, rows) + if r.gold in labels && r.predicted == Some(r.gold) then 1 else 0
    ensures SupportSum(labels, rows + [r]) == SupportSum(labels, rows) + if r.gold in labels then 1 else 0
  {
    if labels != [] {
      var n := |labels| - 1;
      OneMoreRow(labels[..n], rows, r);
      assert (rows + [r])[..|rows|] == rows;
      assert labels == labels[..n] + [labels[n]];
      if labels[n] == r.gold { assert r.gold !in labels[..n]; }
    }
  }

  lemma {:induction false} NoRowsNoCounts(labels: seq<string>)
    ensures TpSum(labels, []) == 0 && SupportSum(labels, []) == 0
  {
    if labels != [] { NoRowsNoCounts(labels[..|labels| - 1]); }
  }

  /**
   `basic`: over the distinct gold labels the true positives sum to the correct rows and the supports to all rows, so
   the accuracy is the mean of the recalls weighted by support.
   */
  lemma {:induction false} CountsAddUp(labels: seq<string>, rows: seq<Row>)
    requires NoRepeats(labels) && forall r | r in rows :: r.gold in labels && Honest(r)
    ensures TpSum(labels, rows) == Correct(rows)
    ensures SupportSum(labels, rows) == |rows|
  {
    if rows == [] {
      NoRowsNoCounts(labels);
    } else {
      var front, last := rows[..|rows| - 1], rows[|rows| - 1];
      CountsAddUp(labels, front);
      assert rows == front + [last];
      assert last in rows;
      OneMoreRow(labels, front, last);
    }
  }

  // ------------------------------------------------------------------ risk and coverage

  /** The confidence of a row with a distribution; the ranking has no others. */
  function Conf(r: Row): real { if r.confidence.Some? then r.confidence.value else 0.0 }

  /** By falling confidence; the order among equals does not matter below. */
  predicate Ranked(ranked: seq<Row>) {
    forall i, j | 0 <= i < j < |ranked| :: Conf(ranked[i]) >= Conf(ranked[j])
  }

  function Ceil(x: real): int { -((-x).Floor) }

  /** How many of the ranked rows a requested fraction of all n rows asks for. */
  function Wanted(ranked: nat, n: nat, fraction: real): (k: nat)
    requires 0 < ranked
    ensures 1 <= k <= ranked
  {
    var wanted := Ceil(n as real * fraction);
    var atLeast := if wanted < 1 then 1 else wanted;
    if atLeast < ranked then atLeast else ranked
  }

  /** The least number of rows, and at least one, that is the fraction of all n rows; or all ranked rows. */
  lemma WantedIsLeast(ranked: nat, n: nat, fraction: real, j: nat)
    requires 1 <= j <= ranked
    ensures var k := Wanted(ranked, n, fraction);
            && (k == ranked || k as real >= n as real * fraction)
            && (j as real >= n as real * fraction ==> k <= j)
  {
    var x := n as real * fraction;
    assert Ceil(x) as real >= x > Ceil(x) as real - 1.0;
  }

  function AtLeast(ranked: seq<Row>, threshold: real): seq<Row> {
    if ranked == [] then []
    else
      var last := ranked[|ranked| - 1];
      AtLeast(ranked[..|ranked| - 1], threshold) + if Conf(last) >= threshold then [last] else []
  }

  /** The rows that are as confident as the k-th. */
  function Accepted(ranked: seq<Row>, k: nat): seq<Row>
    requires 1 <= k <= |ranked|
  {
    AtLeast(ranked, Conf(ranked[k - 1]))
  }

  /** Where a threshold cuts a ranked list. */
  predicate CutsAt(ranked: seq<Row>, threshold: real, n: nat) {
    n <= |ranked| && forall i | 0 <= i < |ranked| :: i < n <==> Conf(ranked[i]) >= threshold
  }

  lemma {:induction false} AtLeastIsPrefix(ranked: seq<Row>, threshold: real) returns (n: nat)
    requires Ranked(ranked)
    ensures CutsAt(ranked, threshold, n)
    ensures AtLeast(ranked, threshold) == ranked[..n]
  {
    if ranked == [] {
      n := 0;
    } else {
      var last := |ranked| - 1;
      n := AtLeastIsPrefix(ranked[..last], threshold);
      CutGrows(ranked, threshold, n);
      if Conf(ranked[last]) >= threshold {
        n := |ranked|;
        assert ranked[..last] + [ranked[last]] == ranked;
      }
    }
  }

  lemma CutGrows(ranked: seq<Row>, threshold: real, n: nat)
    requires ranked != [] && Ranked(ranked) && CutsAt(ranked[..|ranked| - 1], threshold, n)
    ensures if Conf(ranked[|ranked| - 1]) >= threshold then n == |ranked| - 1 && CutsAt(ranked, threshold, |ranked|)
            else CutsAt(ranked, threshold, n)
  {
    var last := |ranked| - 1;
    assert forall i | 0 <= i < last :: ranked[..last][i] == ranked[i];
    if n < last { assert Conf(ranked[..last][n]) < threshold; }
  }

  /** Rows that would be accepted together: with each row all rows at least as confident. */
  predicate UpwardClosed(ranked: seq<Row>, accepted: set<int>) {
    && (forall i | i in accepted :: 0 <= i < |ranked|)
    && (forall i, j | i in accepted && 0 <= j < |ranked| && Conf(ranked[j]) >= Conf(ranked[i]) :: j in accepted)
  }

  /** The first n places of a ranking. */
  function Places(n: nat): (s: set<int>)
    ensures |s| == n && forall i :: i in s <==> 0 <= i < n
  {
    if n == 0 then {} else Places(n - 1) + {n - 1}
  }

  /**
   The accepted rows are a prefix of the ranking, keep ties whole, and are the least such set with at least the
   wanted number of rows.
   */
  lemma AcceptedIsLeast(ranked: seq<Row>, k: nat) returns (n: nat)
    requires Ranked(ranked) && 1 <= k <= |ranked|
    ensures k <= n <= |ranked|
    ensures Accepted(ranked, k) == ranked[..n]
    ensures (forall r | r in ranked :: r.confidence.Some?) ==>
              forall i | 0 <= i < |ranked| :: i < n <==> ranked[i].confidence.value >= ranked[k - 1].confidence.value
    ensures UpwardClosed(ranked, Places(n))
    ensures forall other: set<int> | UpwardClosed(ranked, other) && |other| >= k :: Places(n) <= other
  {
    var threshold := Conf(ranked[k - 1]);
    n := AtLeastIsPrefix(ranked, threshold);
    assert k - 1 < n;
    assert forall i | 0 <= i < |ranked| :: ranked[i] in ranked;
    forall other: set<int> | UpwardClosed(ranked, other) && |other| >= k ensures Places(n) <= other {
      LeastClosed(ranked, k, n, other);
    }
  }

  lemma LeastClosed(ranked: seq<Row>, k: nat, n: nat, other: set<int>)
    requires Ranked(ranked) && 1 <= k <= |ranked| && CutsAt(ranked, Conf(ranked[k - 1]), n)
    requires UpwardClosed(ranked, other) && |other| >= k
    ensures Places(n) <= other
  {
    if other <= Places(k - 1) { SubsetCount(other, Places(k - 1)); }
    var far := other - Places(k - 1);
    assert far != {};
    var i :| i in far;
    assert Conf(ranked[i]) <= Conf(ranked[k - 1]);
    forall j | 0 <= j < n ensures j in other {
      assert Conf(ranked[j]) >= Conf(ranked[k - 1]);
    }
  }

  lemma SubsetCount(a: set<int>, b: set<int>)
    requires a <= b
    ensures |a| <= |b|
  {
    assert b == a + (b - a);
  }

  /** Asking for more never accepts less. */
  lemma CoverageNeverFalls(ranked: seq<Row>, n: nat, low: real, high: real)
    requires Ranked(ranked) && ranked != [] && low <= high
    ensures var few, many := Accepted(ranked, Wanted(|ranked|, n, low)), Accepted(ranked, Wanted(|ranked|, n, high));
            |few| <= |many| && few == many[..|few|]
  {
    WantedGrows(|ranked|, n, low, high);
    var j, k := Wanted(|ranked|, n, low), Wanted(|ranked|, n, high);
    var a := AtLeastIsPrefix(ranked, Conf(ranked[j - 1]));
    var b := AtLeastIsPrefix(ranked, Conf(ranked[k - 1]));
    LowerCutsLater(ranked, Conf(ranked[j - 1]), Conf(ranked[k - 1]), a, b);
  }

  lemma LowerCutsLater(ranked: seq<Row>, high: real, low: real, a: nat, b: nat)
    requires CutsAt(ranked, high, a) && CutsAt(ranked, low, b) && low <= high
    ensures a <= b
  {
    if b < |ranked| { assert Conf(ranked[b]) < low; }
  }

  lemma WantedGrows(ranked: nat, n: nat, low: real, high: real)
    requires 0 < ranked && low <= high
    ensures Wanted(ranked, n, low) <= Wanted(ranked, n, high)
  {
  }
}
