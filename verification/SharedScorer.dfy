/**
 score_shared: many decisions over one state.  The state prefix is prefilled once, the cache is
 replicated, all suffixes are right-padded into one batch, and logits are read at selected positions.
 A masked token is not taken in by the model.
 */
module SharedScorer {
  import opened Prelude
  import opened CausalModel

  datatype Error = NoRows | StatesDiffer | DuplicateIds | EncodeFailed | PrefixFailed | PrefixMismatch | NoPadToken
                 | InvalidCache | ForwardRaised

  datatype Row<S> = Row(id: string, state: S)
  /** One row of the padded batch. */
  datatype Padded = Padded(ids: seq<int>, mask: seq<bool>, positions: seq<nat>)

  // ------------------------------------------------------------------ layout

  predicate Blank<T>(sequences: seq<seq<T>>) {
    sequences == [] || exists i | 0 <= i < |sequences| :: sequences[i] == []
  }

  function Repeat<T>(x: T, n: nat): (s: seq<T>)
    ensures |s| == n && forall i | 0 <= i < n :: s[i] == x
  {
    seq(n, i => x)
  }

  /** One suffix padded to the batch width. */
  function PadRow(suffix: seq<int>, width: nat, prefixLength: nat, pad: int): (row: Padded)
    requires |suffix| <= width
    ensures |row.ids| == |row.positions| == width && |row.mask| == prefixLength + width
    ensures forall c | 0 <= c < prefixLength + width :: row.mask[c] <==> c < prefixLength + |suffix|
    ensures forall c | 0 <= c < width :: row.ids[c] == if c < |suffix| then suffix[c] else pad
    ensures forall c | 0 <= c < width :: row.positions[c] == if c < |suffix| then prefixLength + c else 0
  {
    var padding := width - |suffix|;
    Padded(suffix + Repeat(pad, padding),
           Repeat(true, prefixLength + |suffix|) + Repeat(false, padding),
           seq(|suffix|, i => prefixLength + i) + Repeat(0, padding))
  }

  /** `_suffix_layout`: the padded rows, and for each row the position of its last real token. */
  method SuffixLayout(sequences: seq<seq<int>>, prefixLength: nat, pad: int)
    returns (rows: seq<Padded>, ends: seq<nat>, width: nat)
    requires !Blank(sequences)
    ensures |rows| == |ends| == |sequences|
    ensures forall i | 0 <= i < |sequences| :: |sequences[i]| <= width
    ensures exists i | 0 <= i < |sequences| :: |sequences[i]| == width
    ensures forall i | 0 <= i < |sequences| :: rows[i] == PadRow(sequences[i], width, prefixLength, pad)
    ensures forall i | 0 <= i < |sequences| :: ends[i] == |sequences[i]| - 1
  {
    width := |sequences[0]|;
    for i := 1 to |sequences|
      invariant forall k | 0 <= k < i :: |sequences[k]| <= width
      invariant exists k | 0 <= k < i :: |sequences[k]| == width
    {
      if |sequences[i]| > width { width := |sequences[i]|; }
    }
    rows, ends := [], [];
    for i := 0 to |sequences|
      invariant |rows| == |ends| == i
      invariant forall k | 0 <= k < i :: rows[k] == PadRow(sequences[k], width, prefixLength, pad)
      invariant forall k | 0 <= k < i :: ends[k] == |sequences[k]| - 1
    {
      var padding := width - |sequences[i]|;
      var ids := sequences[i] + Repeat(pad, padding);
      var mask := Repeat(true, prefixLength + |sequences[i]|) + Repeat(false, padding);
      var positions := seq(|sequences[i]|, k => prefixLength + k) + Repeat(0, padding);
      rows := rows + [Padded(ids, mask, positions)];
      ends := ends + [|sequences[i]| - 1];
    }
  }

  /** `sorted(set(ends))`. */
  function SortedDistinct(ends: seq<nat>): (s: seq<nat>)
    ensures forall i, j | 0 <= i < j < |s| :: s[i] < s[j]
    ensures forall x :: x in s <==> x in ends
  {
    if ends == [] then [] else Insert(SortedDistinct(ends[1..]), ends[0])
  }

  function Insert(s: seq<nat>, x: nat): (t: seq<nat>)
    requires forall i, j | 0 <= i < j < |s| :: s[i] < s[j]
    ensures forall i, j | 0 <= i < j < |t| :: t[i] < t[j]
    ensures forall y :: y in t <==> y == x || y in s
  {
    if s == [] || x < s[0] then [x] + s
    else if x == s[0] then s
    else
      var rest := Insert(s[1..], x);
      assert forall y :: y in s <==> y == s[0] || y in s[1..];
      assert forall i | 0 <= i < |rest| :: rest[i] in rest;
      assert forall i | 0 <= i < |s[1..]| :: s[1..][i] > s[0];
      [s[0]] + rest
  }

  /** `list.index`. */
  function IndexOf(s: seq<nat>, x: nat): (i: nat)
    requires x in s
    ensures i < |s| && s[i] == x && x !in s[..i]
  {
    if s[0] == x then 0 else 1 + IndexOf(s[1..], x)
  }

  // ------------------------------------------------------------------ batched forward pass

  /** The state of one padded row after its first `n` tokens, starting from a cached state. */
  function RowState<K, V>(m: Model<K, V>, k: K, row: Padded, prefixLength: nat, n: nat): K
    requires n <= |row.ids| == |row.positions| && |row.mask| == prefixLength + |row.ids|
  {
    if n == 0 then k
    else
      var before := RowState(m, k, row, prefixLength, n - 1);
      if row.mask[prefixLength + n - 1] then m.step(before, row.ids[n - 1], row.positions[n - 1]) else before
  }

  /** Up to the last real token a padded row runs as its own suffix: padding comes after and has no effect. */
  lemma {:induction false} PaddingIsInvisible<K, V>(m: Model<K, V>, k: K, suffix: seq<int>, width: nat,
                                                    prefixLength: nat, pad: int, n: nat)
    requires |suffix| <= width && n <= |suffix|
    ensures RowState(m, k, PadRow(suffix, width, prefixLength, pad), prefixLength, n)
            == Feed(m, k, suffix[..n], prefixLength)
  {
    if n > 0 {
      PaddingIsInvisible(m, k, suffix, width, prefixLength, pad, n - 1);
      assert suffix[..n][..n - 1] == suffix[..n - 1];
    }
  }

  /** A native cache holding one state per batch row. */
  class BatchCache<K> {
    var branches: seq<K>
    var length: nat

    constructor (k: K, length: nat)
      ensures branches == [k] && this.length == length
    {
      branches, this.length := [k], length;
    }

    /** `reorder_cache`: row i becomes the old row index[i]. */
    method Reorder(index: seq<nat>)
      requires forall i | 0 <= i < |index| :: index[i] < |branches|
      modifies `branches
      ensures |branches| == |index| && forall i | 0 <= i < |index| :: branches[i] == old(branches)[index[i]]
    {
      var was := branches;
      branches := seq(|index|, i requires 0 <= i < |index| && index[i] < |was| => was[index[i]]);
    }
  }

  /** A padded row with all its columns, and the kept positions among them. */
  predicate WellPadded(row: Padded, prefixLength: nat, kept: seq<nat>) {
    |row.ids| == |row.positions| && |row.mask| == prefixLength + |row.ids| &&
    forall c | 0 <= c < |kept| :: kept[c] < |row.ids|
  }

  /** The logits of one row at the kept positions. */
  function RowLogits<K, V>(m: Model<K, V>, k: K, row: Padded, prefixLength: nat, kept: seq<nat>): (logits: seq<V>)
    requires WellPadded(row, prefixLength, kept)
    ensures |logits| == |kept|
  {
    seq(|kept|, c requires 0 <= c < |kept| => m.read(RowState(m, k, row, prefixLength, kept[c] + 1)))
  }

  // ------------------------------------------------------------------ score_shared

  ghost predicate UniqueIds<S>(rows: seq<Row<S>>) {
    forall i, j | 0 <= i < j < |rows| :: rows[i].id != rows[j].id
  }

  /** When a call without outside faults returns. */
  ghost predicate Scorable<S>(rows: seq<Row<S>>, same: (S, S) -> bool, encode: Row<S> -> Option<seq<int>>,
                              statePrefix: S -> Option<seq<int>>, pad: Option<int>)
  {
    && rows != [] && (forall i | 0 < i < |rows| :: same(rows[i].state, rows[0].state))
    && UniqueIds(rows) && statePrefix(rows[0].state).Some? && pad.Some?
    && forall i | 0 <= i < |rows| ::
         encode(rows[i]).Some? && Fits(statePrefix(rows[0].state).value, encode(rows[i]).value)
  }

  /** What a complaint says of the rows. */
  ghost predicate IsComplaint<S>(rows: seq<Row<S>>, same: (S, S) -> bool, encode: Row<S> -> Option<seq<int>>,
                                 statePrefix: S -> Option<seq<int>>, pad: Option<int>, e: Error)
  {
    match e
    case NoRows => rows == []
    case StatesDiffer => exists i :: 0 < i < |rows| && !same(rows[i].state, rows[0].state)
    case DuplicateIds => !UniqueIds(rows)
    case EncodeFailed => exists i :: 0 <= i < |rows| && encode(rows[i]).None?
    case PrefixFailed => rows != [] && statePrefix(rows[0].state).None?
    case PrefixMismatch =>
      rows != [] && statePrefix(rows[0].state).Some? &&
      exists i :: 0 <= i < |rows| && encode(rows[i]).Some?
                  && !Fits(statePrefix(rows[0].state).value, encode(rows[i]).value)
    case NoPadToken => pad.None?
    case _ => false
  }

  /**
   The values of the rows, in their order.  A call returns exactly on scorable rows (unless the model
   or its cache fails), and each value is that of the row's own unpadded prompt run from scratch.
   */
  method ScoreShared<K, V, S>(m: Model<K, V>, rows: seq<Row<S>>, same: (S, S) -> bool,
                              encode: Row<S> -> Option<seq<int>>, statePrefix: S -> Option<seq<int>>,
                              pad: Option<int>, modelFails: Option<Error>)
    returns (r: Result<seq<V>, Error>)
    ensures r.Ok? <==> modelFails == None && Scorable(rows, same, encode, statePrefix, pad)
    ensures r.Ok? ==> |r.value| == |rows| &&
                      forall i | 0 <= i < |rows| ::
                        encode(rows[i]).Some? && r.value[i] == FromScratch(m, encode(rows[i]).value)
    ensures modelFails.Some? && Scorable(rows, same, encode, statePrefix, pad) ==> r == Err(modelFails.value)
    ensures !Scorable(rows, same, encode, statePrefix, pad) ==>
              r.Err? && IsComplaint(rows, same, encode, statePrefix, pad, r.error)
  {
    var checked := Prepare(rows, same, encode, statePrefix, pad);
    if checked.Err? { return Err(checked.error); }
    if modelFails.Some? { return Err(modelFails.value); }
    var values := RunBatch(m, statePrefix(rows[0].state).value, checked.value, pad.value);
    return Ok(values);
  }

  /** The checks in front of the forward passes: the prompts of all rows, or the first complaint. */
  method Prepare<S>(rows: seq<Row<S>>, same: (S, S) -> bool, encode: Row<S> -> Option<seq<int>>,
                    statePrefix: S -> Option<seq<int>>, pad: Option<int>)
    returns (r: Result<seq<seq<int>>, Error>)
    ensures r.Ok? <==> Scorable(rows, same, encode, statePrefix, pad)
    ensures r.Ok? ==> |r.value| == |rows| && forall i | 0 <= i < |rows| :: encode(rows[i]) == Some(r.value[i])
    ensures r.Err? ==> IsComplaint(rows, same, encode, statePrefix, pad, r.error)
  {
    if rows == [] { return Err(NoRows); }
    for i := 1 to |rows|
      invariant forall k | 0 < k < i :: same(rows[k].state, rows[0].state)
    {
      if !same(rows[i].state, rows[0].state) { return Err(StatesDiffer); }
    }
    var unique := AllIdsUnique(rows);
    if !unique { return Err(DuplicateIds); }
    var encoded: seq<seq<int>> := [];
    for i := 0 to |rows|
      invariant |encoded| == i
      invariant forall k | 0 <= k < i :: encode(rows[k]) == Some(encoded[k])
    {
      var ids := encode(rows[i]);
      if ids == None { return Err(EncodeFailed); }
      encoded := encoded + [ids.value];
    }
    var prefix := statePrefix(rows[0].state);
    if prefix == None { return Err(PrefixFailed); }
    for i := 0 to |encoded|
      invariant forall k | 0 <= k < i :: Fits(prefix.value, encoded[k])
    {
      if !Fits(prefix.value, encoded[i]) { return Err(PrefixMismatch); }
    }
    if pad == None { return Err(NoPadToken); }
    return Ok(encoded);
  }

  /** Prefill the prefix, replicate its cache, and run the padded suffixes of all rows. */
  method ForwardBatch<K, V>(m: Model<K, V>, prefix: seq<int>, suffixes: seq<seq<int>>, pad: int)
    returns (logits: seq<seq<V>>, ends: seq<nat>, kept: seq<nat>, width: nat)
    requires !Blank(suffixes)
    ensures |logits| == |ends| == |suffixes|
    ensures forall i | 0 <= i < |suffixes| ::
              |suffixes[i]| <= width && ends[i] == |suffixes[i]| - 1 && ends[i] in kept
    ensures forall i | 0 <= i < |suffixes| ::
              var row := PadRow(suffixes[i], width, |prefix|, pad);
              WellPadded(row, |prefix|, kept) && logits[i] == RowLogits(m, Prefill(m, prefix), row, |prefix|, kept)
  {
    var layout;
    layout, ends, width := SuffixLayout(suffixes, |prefix|, pad);
    kept := SortedDistinct(ends);
    assert forall c | 0 <= c < |kept| :: kept[c] in ends;
    assert forall x | x in ends :: x < width;
    var cache := new BatchCache(Prefill(m, prefix), |prefix|);
    cache.Reorder(Repeat(0, |suffixes|));
    var branches := cache.branches;
    forall i | 0 <= i < |suffixes| ensures branches[i] == Prefill(m, prefix) && WellPadded(layout[i], |prefix|, kept) {
      assert layout[i] == PadRow(suffixes[i], width, |prefix|, pad);
    }
    logits := seq(|suffixes|, i requires 0 <= i < |suffixes| && i < |layout| && i < |branches| &&
                                         WellPadded(layout[i], |prefix|, kept) =>
                  RowLogits(m, branches[i], layout[i], |prefix|, kept));
  }

  /** Each row's logits at its last real token, in row order. */
  method RunBatch<K, V>(m: Model<K, V>, prefix: seq<int>, encoded: seq<seq<int>>, pad: int) returns (values: seq<V>)
    requires encoded != [] && forall i | 0 <= i < |encoded| :: Fits(prefix, encoded[i])
    ensures |values| == |encoded|
    ensures forall i | 0 <= i < |encoded| :: values[i] == FromScratch(m, encoded[i])
  {
    var suffixes := seq(|encoded|, i requires 0 <= i < |encoded| => encoded[i][|prefix|..]);
    var logits, ends, kept, width := ForwardBatch(m, prefix, suffixes, pad);
    values := [];
    for i := 0 to |encoded|
      invariant |values| == i
      invariant forall k | 0 <= k < i :: values[k] == FromScratch(m, encoded[k])
    {
      var c := IndexOf(kept, ends[i]);
      GatherIsFromScratch(m, prefix, encoded[i], suffixes[i], width, pad, kept, c);
      values := values + [logits[i][c]];
    }
  }

  lemma GatherIsFromScratch<K, V>(m: Model<K, V>, prefix: seq<int>, ids: seq<int>, suffix: seq<int>, width: nat,
                                  pad: int, kept: seq<nat>, c: nat)
    requires Fits(prefix, ids) && suffix == ids[|prefix|..] && |suffix| <= width
    requires WellPadded(PadRow(suffix, width, |prefix|, pad), |prefix|, kept)
    requires c < |kept| && kept[c] == |suffix| - 1
    ensures RowLogits(m, Prefill(m, prefix), PadRow(suffix, width, |prefix|, pad), |prefix|, kept)[c]
            == FromScratch(m, ids)
  {
    PaddingIsInvisible(m, Prefill(m, prefix), suffix, width, |prefix|, pad, |suffix|);
    assert suffix[..|suffix|] == suffix;
    PrefixThenSuffix(m, prefix, ids);
  }

  /** `len({row["id"] for row in rows}) == len(rows)`. */
  method AllIdsUnique<S>(rows: seq<Row<S>>) returns (unique: bool)
    ensures unique <==> UniqueIds(rows)
  {
    var seen := {};
    for i := 0 to |rows|
      invariant forall id :: id in seen <==> exists k | 0 <= k < i :: rows[k].id == id
      invariant UniqueIds(rows[..i])
    {
      if rows[i].id in seen {
        assert !UniqueIds(rows);
        return false;
      }
      seen := seen + {rows[i].id};
      assert rows[..i + 1] == rows[..i] + [rows[i]];
    }
    assert rows[..|rows|] == rows;
    return true;
  }
}
