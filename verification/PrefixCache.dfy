/**
 SerialPrefixScorer: decisions one after another over a cached state prefix.  The tokenizer is the two
 functions `encode` (the whole prompt of a row) and `statePrefix`; `same` is Python's == on states,
 which may relate states that serialize differently.
 */
module SerialScorer {
  import opened Prelude
  import opened CausalModel

  datatype Error = EncodeFailed | PrefixFailed | PrefixMismatch | ForwardRaised | InvalidCache
  /** What goes wrong inside a call, if anything. */
  datatype Fault = NoFault | PrefillRaises | PrefillInvalid | SuffixRaises

  datatype Setup<!K, !V, !R, !S> = Setup(
    model: Model<K, V>,
    stateOf: R -> S,
    encode: R -> Option<seq<int>>,
    statePrefix: S -> Option<seq<int>>,
    same: (S, S) -> bool)

  datatype Cached<K> = Cached(k: K, length: nat)

  /** The scorer's three fields. */
  datatype Session<K, S> = Session(cache: Option<Cached<K>>, state: Option<S>, prefix: Option<seq<int>>)

  datatype Scored<V> = Scored(logits: V, hit: bool, prefixTokens: nat)

  predicate IsHit<K, V, R, S>(u: Setup<K, V, R, S>, s: Session<K, S>, row: R) {
    s.cache.Some? && s.state.Some? && u.same(u.stateOf(row), s.state.value)
  }

  /** One call of `score`: the fields afterwards, and its result. */
  function Score<K, V, R, S>(u: Setup<K, V, R, S>, s: Session<K, S>, row: R, fault: Fault)
    : (Session<K, S>, Result<Scored<V>, Error>)
  {
    var hit := IsHit(u, s, row);
    var prefix := if hit then s.prefix else u.statePrefix(u.stateOf(row));
    if u.encode(row) == None then (s, Err(EncodeFailed))
    else if prefix == None then (s, Err(PrefixFailed))
    else
      var ids, p := u.encode(row).value, prefix.value;
      if !Fits(p, ids) then (s, Err(PrefixMismatch))
      else if !hit && fault.PrefillRaises? then (Session(None, None, None), Err(ForwardRaised))
      else
        var cache := if hit then s.cache.value else Cached(Prefill(u.model, p), |p|);
        if !hit && fault.PrefillInvalid? then (Session(Some(cache), None, None), Err(InvalidCache))
        else
          var t := if hit then s else Session(Some(cache), Some(u.stateOf(row)), Some(p));
          if fault.SuffixRaises? then (t, Err(ForwardRaised))
          else
            var k := Feed(u.model, cache.k, ids[|p|..], cache.length);
            (t, Ok(Scored(u.model.read(k), hit, |p|)))
  }

  /** What every call keeps: a cache that can be hit is the prefill of the stored prefix. */
  ghost predicate Sound<K, V, R, S>(u: Setup<K, V, R, S>, s: Session<K, S>) {
    s.cache.Some? && s.state.Some? ==>
      s.prefix.Some? && s.cache.value == Cached(Prefill(u.model, s.prefix.value), |s.prefix.value|)
  }

  lemma ScoreKeepsSound<K, V, R, S>(u: Setup<K, V, R, S>, s: Session<K, S>, row: R, fault: Fault)
    requires Sound(u, s)
    ensures Sound(u, Score(u, s, row, fault).0)
  {
  }

  /** A call that returns gives the logits of the whole prompt run from scratch. */
  lemma ScoreIsFromScratch<K, V, R, S>(u: Setup<K, V, R, S>, s: Session<K, S>, row: R, fault: Fault)
    requires Sound(u, s)
    requires Score(u, s, row, fault).1.Ok?
    ensures u.encode(row).Some?
    ensures Score(u, s, row, fault).1.value.logits == FromScratch(u.model, u.encode(row).value)
  {
    var prefix := if IsHit(u, s, row) then s.prefix else u.statePrefix(u.stateOf(row));
    PrefixThenSuffix(u.model, prefix.value, u.encode(row).value);
  }

  // ------------------------------------------------------------------ histories

  /** The caller scores a row, or changes the state object the scorer still refers to. */
  datatype Call<R, S> = ScoreRow(row: R, fault: Fault) | CallerMutates(state: S)

  function After<K, V, R, S>(u: Setup<K, V, R, S>, calls: seq<Call<R, S>>): Session<K, S> {
    if calls == [] then Session(None, None, None)
    else
      var s := After(u, calls[..|calls| - 1]);
      match calls[|calls| - 1]
      case ScoreRow(row, fault) => Score(u, s, row, fault).0
      case CallerMutates(state) => if s.state.Some? then s.(state := Some(state)) else s
  }

  lemma {:induction false} AfterIsSound<K, V, R, S>(u: Setup<K, V, R, S>, calls: seq<Call<R, S>>)
    ensures Sound(u, After(u, calls))
  {
    if calls != [] {
      AfterIsSound(u, calls[..|calls| - 1]);
      match calls[|calls| - 1]
      case ScoreRow(row, fault) => ScoreKeepsSound(u, After(u, calls[..|calls| - 1]), row, fault);
      case CallerMutates(_) =>
    }
  }

  /**
   After any history of calls, raising or not, and of changes to the shared state object, a call that
   returns gives the logits of a from-scratch run, whatever relation == is.
   */
  lemma AnyHistoryScoresFromScratch<K, V, R, S>(u: Setup<K, V, R, S>, calls: seq<Call<R, S>>, row: R, fault: Fault)
    requires Score(u, After(u, calls), row, fault).1.Ok?
    ensures u.encode(row).Some?
    ensures Score(u, After(u, calls), row, fault).1.value.logits == FromScratch(u.model, u.encode(row).value)
  {
    AfterIsSound(u, calls);
    ScoreIsFromScratch(u, After(u, calls), row, fault);
  }

  /**
   Whether a call returns can depend on the history.  On a hit it agrees with a fresh scorer, in
   success and failure, exactly when the stored prefix fits the prompt just when the prompt's own
   state prefix does.
   */
  lemma HitAgreesWithFresh<K, V, R, S>(u: Setup<K, V, R, S>, calls: seq<Call<R, S>>, row: R)
    requires IsHit(u, After(u, calls), row) && u.encode(row).Some?
    ensures var s := After(u, calls);
            var ids := u.encode(row).value;
            var own := u.statePrefix(u.stateOf(row));
            s.prefix.Some? &&
            (Score(u, s, row, NoFault).1.Ok? == Score(u, Session(None, None, None), row, NoFault).1.Ok?
             <==> (Fits(s.prefix.value, ids) <==> (own.Some? && Fits(own.value, ids))))
  {
    AfterIsSound(u, calls);
  }

  /** States that == relates have the same prefix: they serialise to the same text. */
  ghost predicate Respectful<K, V, R, S(!new)>(u: Setup<K, V, R, S>) {
    forall a, b | u.same(a, b) :: u.statePrefix(a) == u.statePrefix(b)
  }

  /** The stored prefix is the one of the stored state; changing that state from outside can break this. */
  ghost predicate Matching<K, V, R, S>(u: Setup<K, V, R, S>, s: Session<K, S>) {
    s.cache.Some? && s.state.Some? ==> s.prefix.Some? && s.prefix == u.statePrefix(s.state.value)
  }

  lemma {:induction false} CallsKeepMatching<K, V, R, S(!new)>(u: Setup<K, V, R, S>, calls: seq<Call<R, S>>)
    requires Respectful(u) && forall c | c in calls :: c.ScoreRow?
    ensures Matching(u, After(u, calls))
  {
    if calls != [] {
      var n := |calls| - 1;
      assert calls[n] in calls;
      CallsKeepMatching(u, calls[..n]);
    }
  }

  /** A result without the note whether the cache was hit. */
  function Plain<V>(r: Result<Scored<V>, Error>): Result<Scored<V>, Error> {
    if r.Ok? then Ok(r.value.(hit := false)) else r
  }

  /**
   When == only relates states of the same prefix and nobody changes the state object, every call answers like a fresh
   scorer, in the whole result but for the note that it was a hit.
   */
  lemma {:induction false} RespectfulHitsAgree<K, V, R, S(!new)>(u: Setup<K, V, R, S>, calls: seq<Call<R, S>>, row: R)
    requires Respectful(u) && forall c | c in calls :: c.ScoreRow?
    ensures Plain(Score(u, After(u, calls), row, NoFault).1)
            == Plain(Score(u, Session(None, None, None), row, NoFault).1)
  {
    AfterIsSound(u, calls);
    CallsKeepMatching(u, calls);
  }

  // ------------------------------------------------------------------ an equality that does not respect the text

  /** Numbers that Python equates and JSON tells apart. */
  datatype Number = One | OnePointZero

  function Value(n: Number): real { 1.0 }

  /** Tokens: 1, 2 and 3 are the characters of "1.0", 5, 6 and 7 are the brackets and the comma. */
  function Digits(n: Number): seq<int> { if n.One? then [1] else [1, 2, 3] }

  function Items(state: seq<Number>): seq<int>
    requires state != []
  {
    if |state| == 1 then Digits(state[0]) else Items(state[..|state| - 1]) + [7] + Digits(state[|state| - 1])
  }

  /** The prompt up to the end of the evidence: 0 opens it. */
  function Text(state: seq<Number>): seq<int>
    requires state != []
  {
    [0] + ([5] + Items(state) + [6])
  }

  /** The whole prompt: 4 is what follows the evidence.  An empty state is refused. */
  function Prompt(state: seq<Number>): Option<seq<int>> {
    if state == [] then None else Some(Text(state) + [4])
  }

  /** The prefix: the text without its last token. */
  function Evidence(state: seq<Number>): Option<seq<int>> {
    if state == [] then None else Some(Text(state)[..|Text(state)| - 1])
  }

  function StateOf(row: seq<Number>): seq<Number> { row }

  /** Python's == on lists of numbers. */
  predicate PythonEqual(a: seq<Number>, b: seq<Number>) {
    |a| == |b| && forall i | 0 <= i < |a| :: Value(a[i]) == Value(b[i])
  }

  function NumberSetup<K, V>(m: Model<K, V>): Setup<K, V, seq<Number>, seq<Number>> {
    Setup(m, StateOf, Prompt, Evidence, PythonEqual)
  }

  /** The scorer after a row with state [1.0]. */
  function AfterDecimal<K, V>(m: Model<K, V>): Session<K, seq<Number>> {
    Session(Some(Cached(Prefill(m, [0, 5, 1, 2, 3]), 5)), Some([OnePointZero]), Some([0, 5, 1, 2, 3]))
  }

  lemma PromptsOfOne()
    ensures (Prompt([OnePointZero]), Evidence([OnePointZero])) == (Some([0, 5, 1, 2, 3, 6, 4]), Some([0, 5, 1, 2, 3]))
    ensures (Prompt([One]), Evidence([One])) == (Some([0, 5, 1, 6, 4]), Some([0, 5, 1]))
  {
    var decimal, whole := [0, 5, 1, 2, 3, 6], [0, 5, 1, 6];
    assert Text([OnePointZero]) == decimal && Text([One]) == whole;
    assert decimal[..5] == [0, 5, 1, 2, 3] && decimal + [4] == [0, 5, 1, 2, 3, 6, 4];
    assert whole[..3] == [0, 5, 1] && whole + [4] == [0, 5, 1, 6, 4];
  }

  lemma DecimalIsCached<K, V>(m: Model<K, V>)
    ensures After(NumberSetup(m), [ScoreRow([OnePointZero], NoFault)]) == AfterDecimal(m)
  {
    var calls: seq<Call<seq<Number>, seq<Number>>> := [ScoreRow([OnePointZero], NoFault)];
    assert calls[..0] == [];
    PromptsOfOne();
  }

  /**
   After a row with state [1.0], a row with state [1] is a hit and is refused, while a fresh scorer scores it.  That is
   the case HitAgreesWithFresh names: the stored prefix does not fit the prompt, its own does.
   */
  lemma EqualNumbersCanFail<K, V>(m: Model<K, V>)
    ensures After(NumberSetup(m), [ScoreRow([OnePointZero], NoFault)]) == AfterDecimal(m)
    ensures IsHit(NumberSetup(m), AfterDecimal(m), [One])
    ensures Score(NumberSetup(m), AfterDecimal(m), [One], NoFault).1 == Err(PrefixMismatch)
    ensures Score(NumberSetup(m), Session(None, None, None), [One], NoFault).1.Ok?
  {
    DecimalIsCached(m);
    PromptsOfOne();
    HitAgreesWithFresh(NumberSetup(m), [ScoreRow([OnePointZero], NoFault)], [One]);
  }

  // ------------------------------------------------------------------ the object

  /** A native cache: the forward pass extends it in place. */
  class KvCache<K> {
    var k: K
    var length: nat

    constructor (k: K, length: nat)
      ensures this.k == k && this.length == length
    {
      this.k, this.length := k, length;
    }

    /** `model(..., past_key_values=self)`: logits of the last position; the cache now holds the tokens too. */
    method Forward<V>(m: Model<K, V>, tokens: seq<int>) returns (logits: V)
      modifies this
      ensures k == Feed(m, old(k), tokens, old(length)) && length == old(length) + |tokens|
      ensures logits == m.read(k)
    {
      k, length := Feed(m, k, tokens, length), length + |tokens|;
      logits := m.read(k);
    }

    /** `copy.deepcopy`. */
    method Copy() returns (branch: KvCache<K>)
      ensures fresh(branch) && branch.k == k && branch.length == length
    {
      branch := new KvCache(k, length);
    }
  }

  class SerialPrefixScorer<K, V, R, S(0)> {
    const setup: Setup<K, V, R, S>
    var cache: KvCache?<K>
    var state: Option<S>
    var prefix: Option<seq<int>>

    ghost function View(): Session<K, S>
      reads this, cache
    {
      Session(if cache == null then None else Some(Cached(cache.k, cache.length)), state, prefix)
    }

    constructor (setup: Setup<K, V, R, S>)
      ensures this.setup == setup && View() == Session(None, None, None)
    {
      this.setup := setup;
      cache, state, prefix := null, None, None;
    }

    /** `score`: the cached state is copied, and only the copy takes in the suffix. */
    method ScoreRow(row: R, fault: Fault) returns (r: Result<Scored<V>, Error>)
      requires Sound(setup, View())
      modifies this
      ensures (View(), r) == Score(setup, old(View()), row, fault)
      ensures Sound(setup, View())
      ensures r.Ok? ==> setup.encode(row).Some? && r.value.logits == FromScratch(setup.model, setup.encode(row).value)
      ensures cache != old(cache) ==> cache == null || fresh(cache)
      ensures var hit := old(cache) != null && old(state).Some? && setup.same(setup.stateOf(row), old(state).value);
              var p := if hit then old(prefix) else setup.statePrefix(setup.stateOf(row));
              var fits := setup.encode(row).Some? && p.Some? && Fits(p.value, setup.encode(row).value);
              && (r.Ok? <==> fits && !fault.SuffixRaises? && (hit || fault.NoFault?))
              && (r.Ok? ==> r.value.hit == hit && r.value.prefixTokens == |p.value|)
              && (hit || !fits ==> cache == old(cache) && state == old(state) && prefix == old(prefix))
              && (fits && !hit && (fault.NoFault? || fault.SuffixRaises?) ==>
                    cache != null && state == Some(setup.stateOf(row)) && prefix == p)
              && (fits && !hit && (fault.PrefillRaises? || fault.PrefillInvalid?) ==> state == None && prefix == None)
      ensures r == Err(EncodeFailed) <==> setup.encode(row).None?
    {
      ScoreKeepsSound(setup, View(), row, fault);
      if Score(setup, View(), row, fault).1.Ok? { ScoreIsFromScratch(setup, View(), row, fault); }
      var encoded := setup.encode(row);
      if encoded == None { return Err(EncodeFailed); }
      var ids := encoded.value;
      var hit := cache != null && state.Some? && setup.same(setup.stateOf(row), state.value);
      var found := if hit then prefix else setup.statePrefix(setup.stateOf(row));
      if found == None { return Err(PrefixFailed); }
      var p := found.value;
      if !Fits(p, ids) { return Err(PrefixMismatch); }
      if !hit {
        cache, state, prefix := null, None, None;
        if fault.PrefillRaises? { return Err(ForwardRaised); }
        var filled := new KvCache(setup.model.empty, 0);
        var _ := filled.Forward(setup.model, p);
        cache := filled;
        if fault.PrefillInvalid? { return Err(InvalidCache); }
        state, prefix := Some(setup.stateOf(row)), Some(p);
      }
      var branch := cache.Copy();
      if fault.SuffixRaises? { return Err(ForwardRaised); }
      var logits := branch.Forward(setup.model, ids[|p|..]);
      return Ok(Scored(logits, hit, |p|));
    }
  }
}
