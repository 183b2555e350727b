/**
 A causal language model: a state that takes in one token at a position, and a readout.  Feeding tokens
 into a copy of a cached state is the incremental forward pass.
 */
module CausalModel {
  datatype Model<!K, !V> = Model(empty: K, step: (K, int, nat) -> K, read: K -> V)

  /** The state after `tokens` at positions from, from + 1, ... */
  function Feed<K, V>(m: Model<K, V>, k: K, tokens: seq<int>, from: nat): K {
    if tokens == [] then k
    else m.step(Feed(m, k, tokens[..|tokens| - 1], from), tokens[|tokens| - 1], from + |tokens| - 1)
  }

  /** A whole prompt from scratch, as `direct.score` runs it. */
  function Prefill<K, V>(m: Model<K, V>, tokens: seq<int>): K {
    Feed(m, m.empty, tokens, 0)
  }

  function FromScratch<K, V>(m: Model<K, V>, prompt: seq<int>): V {
    m.read(Prefill(m, prompt))
  }

  lemma {:induction false} FeedConcat<K, V>(m: Model<K, V>, k: K, a: seq<int>, b: seq<int>, from: nat)
    ensures Feed(m, Feed(m, k, a, from), b, from + |a|) == Feed(m, k, a + b, from)
  {
    if b == [] {
      assert a + b == a;
    } else {
      assert (a + b)[..|a + b| - 1] == a + b[..|b| - 1];
      FeedConcat(m, k, a, b[..|b| - 1], from);
    }
  }

  /** A state prefix that a prompt properly extends. */
  predicate Fits(prefix: seq<int>, ids: seq<int>) {
    prefix != [] && prefix <= ids && |prefix| < |ids|
  }

  /** Prefilling a prefix and feeding the rest is running the whole prompt. */
  lemma PrefixThenSuffix<K, V>(m: Model<K, V>, prefix: seq<int>, ids: seq<int>)
    requires prefix <= ids
    ensures Feed(m, Prefill(m, prefix), ids[|prefix|..], |prefix|) == Prefill(m, ids)
  {
    FeedConcat(m, m.empty, prefix, ids[|prefix|..], 0);
    assert prefix + ids[|prefix|..] == ids;
  }
}
