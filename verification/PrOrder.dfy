/**
 The dependency-first order of open pull requests.  The numbers a pull-request body declares ("depends on #7")
 are extracted by a regular expression, which is a given here.

 What the order has to be is said by walks to predecessors of predecessors: whether a walk can meet a number twice, and
 how long the walks from a number can be.
 */
module PrOrder {
  import opened Prelude
  import opened Occurrences

  datatype Pr = Pr(number: int, base: Option<string>, head: Option<string>, mentioned: seq<int>)

  /** Sorted by number; numbers are unique in a repository. */
  predicate Ascending(prs: seq<Pr>) {
    forall i, j | 0 <= i < j < |prs| :: prs[i].number < prs[j].number
  }

  function Numbers(prs: seq<Pr>): set<int> {
    set i | 0 <= i < |prs| :: prs[i].number
  }

  /** `by_head`: for a head branch the number of the last pull request that has it. */
  function ByHead(prs: seq<Pr>): (m: map<Option<string>, int>)
    ensures forall h | h in m :: m[h] in Numbers(prs)
  {
    if prs == [] then map[]
    else
      assert Numbers(prs) == Numbers(prs[..|prs| - 1]) + {prs[|prs| - 1].number};
      ByHead(prs[..|prs| - 1])[prs[|prs| - 1].head := prs[|prs| - 1].number]
  }

  /** The declared predecessors of p: the owner of its base branch and the open numbers its body names. */
  function Deps(prs: seq<Pr>, p: Pr): (d: set<int>)
    ensures d <= Numbers(prs) - {p.number}
  {
    var stacked := if p.base in ByHead(prs) then {ByHead(prs)[p.base]} else {};
    stacked + (set n | n in p.mentioned && n in Numbers(prs)) - {p.number}
  }

  /** The number d owns this head branch: the last pull request that has it. */
  predicate Owns(prs: seq<Pr>, h: Option<string>, d: int) {
    exists i :: 0 <= i < |prs| && prs[i].head == h && prs[i].number == d && forall j | i < j < |prs| :: prs[j].head != h
  }

  lemma {:induction false} ByHeadOwns(prs: seq<Pr>, h: Option<string>)
    ensures h in ByHead(prs) <==> exists i :: 0 <= i < |prs| && prs[i].head == h
    ensures h in ByHead(prs) ==> Owns(prs, h, ByHead(prs)[h])
  {
    if prs != [] {
      var n := |prs| - 1;
      ByHeadOwns(prs[..n], h);
      if prs[n].head != h && h in ByHead(prs[..n]) {
        var i :| 0 <= i < n && prs[..n][i].head == h && prs[..n][i].number == ByHead(prs[..n])[h]
                 && forall j | i < j < n :: prs[..n][j].head != h;
        assert forall j | i < j < |prs| :: prs[j].head != h by { assert forall j | i < j < n :: prs[..n][j] == prs[j]; }
        assert prs[i].head == h;
      } else if prs[n].head == h {
        assert prs[n].number == ByHead(prs)[h];
      }
      if i :| 0 <= i < n && prs[i].head == h { assert prs[..n][i].head == h; }
    }
  }

  lemma OneOwner(prs: seq<Pr>, h: Option<string>, d: int, e: int)
    requires Owns(prs, h, d) && Owns(prs, h, e)
    ensures d == e
  {
  }

  /** The declared predecessors: the owner of the base branch and the open numbers the body names, but not itself. */
  lemma DepsMean(prs: seq<Pr>, p: Pr, d: int)
    ensures d in Deps(prs, p) <==>
            d != p.number
            && (Owns(prs, p.base, d) || (d in p.mentioned && exists i :: 0 <= i < |prs| && prs[i].number == d))
  {
    ByHeadOwns(prs, p.base);
    if Owns(prs, p.base, d) { OneOwner(prs, p.base, d, ByHead(prs)[p.base]); }
  }

  /** `deps`. */
  method FindDeps(prs: seq<Pr>, p: Pr) returns (result: set<int>)
    ensures result == Deps(prs, p)
    ensures forall d :: d in result <==>
              d != p.number
              && (Owns(prs, p.base, d) || (d in p.mentioned && exists i :: 0 <= i < |prs| && prs[i].number == d))
  {
    forall d { DepsMean(prs, p, d); }
    var byHead := ByHead(prs);
    result := {};
    if p.base in byHead { result := result + {byHead[p.base]}; }
    ghost var stacked := result;
    for i := 0 to |p.mentioned|
      invariant result == stacked + set n | n in p.mentioned[..i] && n in Numbers(prs)
    {
      assert p.mentioned[..i + 1] == p.mentioned[..i] + [p.mentioned[i]];
      if p.mentioned[i] in Numbers(prs) { result := result + {p.mentioned[i]}; }
    }
    assert p.mentioned[..|p.mentioned|] == p.mentioned;
    result := result - {p.number};
  }

  // ------------------------------------------------------------------ transitive predecessors

  predicate Precedes(prs: seq<Pr>, a: int, b: int) {
    exists i | 0 <= i < |prs| :: prs[i].number == b && a in Deps(prs, prs[i])
  }

  /** A walk from a pull request to predecessors of predecessors. */
  predicate Walk(prs: seq<Pr>, w: seq<int>) {
    && w != []
    && (forall k | 0 <= k < |w| - 1 :: Precedes(prs, w[k + 1], w[k]))
  }

  /** No walk from n meets a number twice: neither n nor a transitive predecessor of n is on a cycle. */
  ghost predicate Acyclic(prs: seq<Pr>, n: int) {
    forall w | Walk(prs, w) && w[0] == n :: NoRepeats(w)
  }

  /** Everything that precedes order[i], however indirectly, is among order[..i]. */
  ghost predicate AfterAllPredecessors(prs: seq<Pr>, order: seq<Pr>, i: nat)
    requires i < |order|
  {
    forall w | Walk(prs, w) && |w| > 1 && w[0] == order[i].number :: w[|w| - 1] in Numbers(order[..i])
  }

  predicate Met(prs: seq<Pr>, order: seq<Pr>, i: nat)
    requires i < |order|
  {
    Deps(prs, order[i]) <= Numbers(order[..i])
  }

  // ------------------------------------------------------------------ the loop

  /** The pending pull requests whose declared predecessors are all done, in their order. */
  function Ready(prs: seq<Pr>, done: set<int>, pending: seq<Pr>): (r: seq<Pr>)
    ensures forall p :: p in r <==> p in pending && Deps(prs, p) <= done
  {
    if pending == [] then []
    else (if Deps(prs, pending[0]) <= done then [pending[0]] else []) + Ready(prs, done, pending[1..])
  }

  lemma {:induction false} ReadyAscends(prs: seq<Pr>, done: set<int>, pending: seq<Pr>)
    requires Ascending(pending)
    ensures Ascending(Ready(prs, done, pending))
  {
    if pending != [] {
      ReadyAscends(prs, done, pending[1..]);
      PrependAscends(pending, Ready(prs, done, pending[1..]));
    }
  }

  lemma PrependAscends(s: seq<Pr>, rest: seq<Pr>)
    requires s != [] && Ascending(s) && Ascending(rest)
    requires forall p | p in rest :: p in s[1..]
    ensures Ascending([s[0]] + rest)
    ensures s[0] !in rest
  {
    forall j | 0 <= j < |rest| ensures s[0].number < rest[j].number {
      assert rest[j] in s[1..];
    }
  }

  /** `list.remove`: drops the first item equal to p. */
  function Remove(s: seq<Pr>, p: Pr): (r: seq<Pr>)
    requires p in s
    ensures |r| == |s| - 1
  {
    if s[0] == p then s[1..] else [s[0]] + Remove(s[1..], p)
  }

  lemma {:induction false} RemoveOne(s: seq<Pr>, p: Pr)
    requires p in s && Ascending(s)
    ensures Ascending(Remove(s, p))
    ensures forall q :: q in Remove(s, p) <==> q in s && q != p
  {
    if s[0] == p {
      PrependAscends(s, s[1..]);
    } else {
      RemoveOne(s[1..], p);
      PrependAscends(s, Remove(s[1..], p));
    }
  }

  /** One round: the chosen pull requests move, in order, from `pending` to the end of `ordered`. */
  method MoveAll(chosen: seq<Pr>, ordered: seq<Pr>, pending: seq<Pr>) returns (ordered': seq<Pr>, pending': seq<Pr>)
    requires Ascending(chosen) && Ascending(pending) && forall p | p in chosen :: p in pending
    ensures ordered' == ordered + chosen
    ensures Ascending(pending') && |pending'| == |pending| - |chosen|
    ensures forall p :: p in pending' <==> p in pending && p !in chosen
  {
    ordered', pending' := ordered, pending;
    for k := 0 to |chosen|
      invariant ordered' == ordered + chosen[..k]
      invariant Ascending(pending') && |pending'| == |pending| - k
      invariant forall p :: p in pending' <==> p in pending && p !in chosen[..k]
    {
      assert chosen[k] !in chosen[..k];
      assert chosen[..k + 1] == chosen[..k] + [chosen[k]];
      RemoveOne(pending', chosen[k]);
      ordered', pending' := ordered' + [chosen[k]], Remove(pending', chosen[k]);
    }
    assert chosen[..|chosen|] == chosen;
  }

  /**
   The ordering loop.  `cut` is where the fallback fired: before it stand exactly the pull requests without a cycle
   behind them, each after everything it transitively needs; after it stand the others, by number.
   */
  method DependencyFirst(prs: seq<Pr>) returns (ordered: seq<Pr>, ghost cut: nat, ghost levels: seq<nat>)
    requires Ascending(prs)
    ensures multiset(ordered) == multiset(prs) && cut <= |ordered|
    ensures forall i | 0 <= i < |ordered| :: i < cut <==> Acyclic(prs, ordered[i].number)
    ensures forall i | 0 <= i < cut :: AfterAllPredecessors(prs, ordered, i)
    ensures Ascending(ordered[cut..])
    ensures |levels| == cut && ByLevel(prs, ordered, levels)
  {
    ordered, cut, levels := [], 0, [];
    var pending := prs;
    ghost var round := 0;
    StartsInRound(prs);
    while pending != []
      invariant Rounds(prs, ordered, pending, cut, levels, round)
      decreases |pending|
    {
      var ready := Ready(prs, Numbers(ordered), pending);
      ReadyAscends(prs, Numbers(ordered), pending);
      ghost var ordered0, pending0, stuck := ordered, pending, ready == [];
      if ready == [] { ready := pending; }
      ordered, pending := MoveAll(ready, ordered, pending);
      Moved(prs, ordered0, pending0, ready, pending);
      if stuck {
        LastRound(prs, ordered0, pending0, levels, round);
      } else {
        NextRound(prs, ordered0, pending0, levels, round, ready, pending);
        cut, levels, round := |ordered|, levels + seq(|ready|, _ => round), round + 1;
      }
    }
    SameMultiset(ordered, prs);
    Settled(prs, ordered, cut);
  }

  /** What the loop keeps. */
  ghost predicate Rounds(prs: seq<Pr>, ordered: seq<Pr>, pending: seq<Pr>, cut: nat, levels: seq<nat>, round: nat) {
    && Partition(prs, ordered, pending) && Split(prs, ordered, pending, cut)
    && |levels| == cut && ByLevel(prs, ordered, levels)
    && (pending != [] ==> InRound(prs, pending, round) && forall i | 0 <= i < cut :: levels[i] < round)
  }

  lemma LastRound(prs: seq<Pr>, ordered: seq<Pr>, pending: seq<Pr>, levels: seq<nat>, round: nat)
    requires pending != [] && Rounds(prs, ordered, pending, |ordered|, levels, round)
    requires Ready(prs, Numbers(ordered), pending) == [] && Partition(prs, ordered + pending, [])
    ensures Rounds(prs, ordered + pending, [], |ordered|, levels, round)
  {
    FallbackKeepsSplit(prs, ordered, pending);
  }

  lemma NextRound(prs: seq<Pr>, ordered: seq<Pr>, pending: seq<Pr>, levels: seq<nat>, round: nat,
                  ready: seq<Pr>, left: seq<Pr>)
    requires Ascending(prs) && pending != [] && Rounds(prs, ordered, pending, |ordered|, levels, round)
    requires ready == Ready(prs, Numbers(ordered), pending) && Ascending(ready)
    requires Partition(prs, ordered + ready, left) && forall p :: p in left <==> p in pending && p !in ready
    ensures Rounds(prs, ordered + ready, left, |ordered + ready|, levels + seq(|ready|, _ => round), round + 1)
  {
    ReadyKeepsSplit(prs, ordered, pending, ready, left);
    RoundEnds(prs, ordered, pending, ready, left, round);
    RoundByLevel(prs, ordered, levels, ready, round);
  }

  // ------------------------------------------------------------------ rounds

  ghost predicate HasWalk(prs: seq<Pr>, n: int, length: nat) {
    exists w :: WalkFrom(prs, n, length, w)
  }

  /** The longest chain of predecessors of n has so many steps. */
  ghost predicate LevelIs(prs: seq<Pr>, n: int, level: nat) {
    HasWalk(prs, n, level) && !HasWalk(prs, n, level + 1)
  }

  /** First what has no predecessors, then what has only those, and so on; within a level by number. */
  ghost predicate ByLevel(prs: seq<Pr>, ordered: seq<Pr>, levels: seq<nat>) {
    && |levels| <= |ordered|
    && (forall i | 0 <= i < |levels| :: LevelIs(prs, ordered[i].number, levels[i]))
    && (forall i, j | 0 <= i < j < |levels| ::
          levels[i] < levels[j] || (levels[i] == levels[j] && ordered[i].number < ordered[j].number))
  }

  /** After so many rounds exactly those are pending that have a chain of so many steps. */
  ghost predicate InRound(prs: seq<Pr>, pending: seq<Pr>, round: nat) {
    forall p | p in prs :: p in pending <==> HasWalk(prs, p.number, round)
  }

  lemma StartsInRound(prs: seq<Pr>)
    ensures InRound(prs, prs, 0)
  {
    forall p | p in prs ensures HasWalk(prs, p.number, 0) {
      var i :| 0 <= i < |prs| && prs[i] == p;
      assert WalkFrom(prs, p.number, 0, [p.number]);
    }
  }

  lemma ShorterWalk(prs: seq<Pr>, n: int, length: nat)
    requires HasWalk(prs, n, length + 1)
    ensures HasWalk(prs, n, length)
  {
    var w :| WalkFrom(prs, n, length + 1, w);
    var v := w[..length + 1];
    forall k | 0 <= k < |v| - 1 ensures Precedes(prs, v[k + 1], v[k]) { assert Precedes(prs, w[k + 1], w[k]); }
    assert WalkFrom(prs, n, length, v);
  }

  /** A pending pull request has a longer chain exactly when something it needs is pending too. */
  lemma LongerIffNotReady(prs: seq<Pr>, ordered: seq<Pr>, pending: seq<Pr>, p: Pr, round: nat)
    requires Ascending(prs) && Partition(prs, ordered, pending) && InRound(prs, pending, round) && p in pending
    ensures HasWalk(prs, p.number, round + 1) <==> !(Deps(prs, p) <= Numbers(ordered))
  {
    if HasWalk(prs, p.number, round + 1) { LongerIsNotReady(prs, ordered, pending, p, round); }
    if !(Deps(prs, p) <= Numbers(ordered)) {
      var d :| d in Deps(prs, p) && d !in Numbers(ordered);
      var q :| 0 <= q < |prs| && prs[q].number == d;
      assert prs[q] in pending;
      var rest :| WalkFrom(prs, d, round, rest);
      var i :| 0 <= i < |prs| && prs[i] == p;
      assert Precedes(prs, d, p.number);
      LongerWalk(prs, p.number, d, round, rest);
      assert WalkFrom(prs, p.number, round + 1, [p.number] + rest);
    }
  }

  lemma LongerIsNotReady(prs: seq<Pr>, ordered: seq<Pr>, pending: seq<Pr>, p: Pr, round: nat)
    requires Ascending(prs) && Partition(prs, ordered, pending) && InRound(prs, pending, round) && p in pending
    requires HasWalk(prs, p.number, round + 1)
    ensures !(Deps(prs, p) <= Numbers(ordered))
  {
    var w :| WalkFrom(prs, p.number, round + 1, w);
    assert Precedes(prs, w[1], w[0]);
    var a :| 0 <= a < |prs| && prs[a].number == w[0] && w[1] in Deps(prs, prs[a]);
    assert p in prs;
    assert prs[a] == p;
    var v := w[1..];
    forall k | 0 <= k < |v| - 1 ensures Precedes(prs, v[k + 1], v[k]) { assert Precedes(prs, w[k + 2], w[k + 1]); }
    assert WalkFrom(prs, w[1], round, v);
    var q :| 0 <= q < |prs| && prs[q].number == w[1];
    assert prs[q] in pending;
    assert prs[q].number in Numbers(pending);
  }

  lemma RoundEnds(prs: seq<Pr>, ordered: seq<Pr>, pending: seq<Pr>, ready: seq<Pr>, left: seq<Pr>, round: nat)
    requires Ascending(prs) && Partition(prs, ordered, pending) && InRound(prs, pending, round)
    requires ready == Ready(prs, Numbers(ordered), pending)
    requires forall p :: p in left <==> p in pending && p !in ready
    ensures InRound(prs, left, round + 1)
    ensures forall p | p in ready :: LevelIs(prs, p.number, round)
  {
    forall p | p in prs
      ensures p in left <==> HasWalk(prs, p.number, round + 1)
      ensures p in ready ==> LevelIs(prs, p.number, round)
    {
      if p in pending {
        LongerIffNotReady(prs, ordered, pending, p, round);
      } else if HasWalk(prs, p.number, round + 1) {
        ShorterWalk(prs, p.number, round);
      }
    }
  }

  lemma RoundByLevel(prs: seq<Pr>, ordered: seq<Pr>, levels: seq<nat>, ready: seq<Pr>, round: nat)
    requires |levels| == |ordered| && ByLevel(prs, ordered, levels) && forall i | 0 <= i < |levels| :: levels[i] < round
    requires Ascending(ready) && forall p | p in ready :: LevelIs(prs, p.number, round)
    ensures ByLevel(prs, ordered + ready, levels + seq(|ready|, _ => round))
  {
    var after, more := ordered + ready, levels + seq(|ready|, _ => round);
    forall i | 0 <= i < |more| ensures LevelIs(prs, after[i].number, more[i]) {
      if i >= |ordered| { assert after[i] == ready[i - |ordered|]; }
    }
  }

  /** Up to `cut` declared predecessors come first; beyond it, once the fallback has fired, all is cyclic. */
  ghost predicate Split(prs: seq<Pr>, ordered: seq<Pr>, pending: seq<Pr>, cut: nat) {
    && cut <= |ordered| && (pending != [] ==> cut == |ordered|)
    && (forall i | 0 <= i < cut :: Met(prs, ordered, i))
    && (forall i | cut <= i < |ordered| :: !Acyclic(prs, ordered[i].number))
    && Ascending(ordered[cut..])
  }

  lemma FallbackKeepsSplit(prs: seq<Pr>, ordered: seq<Pr>, pending: seq<Pr>)
    requires Partition(prs, ordered, pending) && Split(prs, ordered, pending, |ordered|)
    requires Ready(prs, Numbers(ordered), pending) == []
    ensures Split(prs, ordered + pending, [], |ordered|)
  {
    assert forall p | p in pending :: p !in Ready(prs, Numbers(ordered), pending);
    Stuck(prs, ordered, pending);
    var after, cut := ordered + pending, |ordered|;
    assert after[cut..] == pending;
    forall i | 0 <= i < cut ensures Met(prs, after, i) {
      assert Met(prs, ordered, i);
      assert after[..i] == ordered[..i];
    }
    forall i | cut <= i < |after| ensures !Acyclic(prs, after[i].number) {
      assert after[i] in pending;
    }
  }

  lemma ReadyKeepsSplit(prs: seq<Pr>, ordered: seq<Pr>, pending: seq<Pr>, ready: seq<Pr>, left: seq<Pr>)
    requires Split(prs, ordered, pending, |ordered|)
    requires ready == Ready(prs, Numbers(ordered), pending)
    ensures Split(prs, ordered + ready, left, |ordered + ready|)
  {
    KeepsMet(prs, ordered, ready);
  }

  /** Every pull request is either ordered or pending, once. */
  ghost predicate Partition(prs: seq<Pr>, ordered: seq<Pr>, pending: seq<Pr>) {
    && UniqueNumbers(ordered) && Ascending(pending)
    && (forall p :: p in prs <==> p in ordered || p in pending)
    && Numbers(ordered) !! Numbers(pending)
  }

  lemma Moved(prs: seq<Pr>, ordered: seq<Pr>, pending: seq<Pr>, chosen: seq<Pr>, left: seq<Pr>)
    requires Partition(prs, ordered, pending) && Ascending(chosen) && Ascending(left)
    requires forall p | p in chosen :: p in pending
    requires forall p :: p in left <==> p in pending && p !in chosen
    ensures Partition(prs, ordered + chosen, left)
  {
    var after := ordered + chosen;
    forall i, j | 0 <= i < |after| && 0 <= j < |left| ensures after[i].number != left[j].number {
      assert left[j] in pending;
      assert left[j].number in Numbers(pending);
      if i < |ordered| { assert after[i].number in Numbers(ordered); }
      else {
        assert after[i] in chosen;
        ByNumber(pending, after[i], left[j]);
      }
    }
    forall i, j | 0 <= i < j < |after| ensures after[i].number != after[j].number {
      if i < |ordered| <= j {
        assert after[j] in pending;
        assert after[i].number in Numbers(ordered) && after[j].number in Numbers(pending);
      }
    }
  }

  lemma ByNumber(s: seq<Pr>, p: Pr, q: Pr)
    requires Ascending(s) && p in s && q in s && p != q
    ensures p.number != q.number
  {
  }

  /** Two lists without repetition that have the same members are permutations of each other. */
  lemma SameMultiset(a: seq<Pr>, b: seq<Pr>)
    requires UniqueNumbers(a) && UniqueNumbers(b)
    requires forall p :: p in a <==> p in b
    ensures multiset(a) == multiset(b)
  {
    forall p ensures multiset(a)[p] == multiset(b)[p] {
      if p in a {
        AtMostOnce(a, p);
        AtMostOnce(b, p);
      }
    }
  }

  lemma AtMostOnce(s: seq<Pr>, p: Pr)
    requires UniqueNumbers(s) && p in s
    ensures multiset(s)[p] == 1
  {
    var i :| 0 <= i < |s| && s[i] == p;
    assert s == s[..i] + [p] + s[i + 1..];
    assert p !in s[..i] && p !in s[i + 1..];
  }

  lemma KeepsMet(prs: seq<Pr>, ordered: seq<Pr>, ready: seq<Pr>)
    requires forall i | 0 <= i < |ordered| :: Met(prs, ordered, i)
    requires forall p | p in ready :: Deps(prs, p) <= Numbers(ordered)
    ensures forall i | 0 <= i < |ordered + ready| :: Met(prs, ordered + ready, i)
  {
    var after := ordered + ready;
    forall i | 0 <= i < |after| ensures Met(prs, after, i) {
      if i < |ordered| {
        assert Met(prs, ordered, i);
        assert after[..i] == ordered[..i];
      } else {
        assert after[i] == ready[i - |ordered|];
        assert forall j | 0 <= j < |ordered| :: after[..i][j] == ordered[j];
        assert Numbers(ordered) <= Numbers(after[..i]);
      }
    }
  }

  // ------------------------------------------------------------------ why the fallback takes only what is cyclic

  predicate UniqueNumbers(order: seq<Pr>) {
    forall i, j | 0 <= i < j < |order| :: order[i].number != order[j].number
  }

  /** In an order where declared predecessors come first, walks go strictly backwards. */
  lemma {:induction false} WalksGoBack(prs: seq<Pr>, order: seq<Pr>, cut: nat, i: nat, w: seq<int>)
    requires UniqueNumbers(order) && cut <= |order| && (forall p | p in prs :: p in order)
    requires forall k | 0 <= k < cut :: Met(prs, order, k)
    requires i < cut && Walk(prs, w) && w[0] == order[i].number
    ensures NoRepeats(w)
    ensures forall k | 0 < k < |w| :: w[k] in Numbers(order[..i])
    decreases |w|
  {
    if |w| > 1 {
      assert Precedes(prs, w[1], w[0]);
      var a :| 0 <= a < |prs| && prs[a].number == w[0] && w[1] in Deps(prs, prs[a]);
      assert prs[a] in order;
      assert prs[a] == order[i];
      assert Met(prs, order, i);
      var j :| 0 <= j < i && order[j].number == w[1];
      forall k | 0 <= k < |w[1..]| - 1 ensures Precedes(prs, w[1..][k + 1], w[1..][k]) {
        assert Precedes(prs, w[k + 1 + 1], w[k + 1]);
      }
      WalksGoBack(prs, order, cut, j, w[1..]);
      forall k | 0 < k < |w| ensures w[k] in Numbers(order[..i]) && w[k] != w[0] {
        if k == 1 {
          assert order[..i][j].number == w[1];
        } else {
          assert w[1..][k - 1] in Numbers(order[..j]);
          var m :| 0 <= m < j && order[..j][m].number == w[k];
          assert order[..i][m].number == w[k];
        }
      }
      forall a, b | 0 <= a < b < |w| ensures w[a] != w[b] {
        if a > 0 { assert w[1..][a - 1] != w[1..][b - 1]; }
      }
    }
  }

  lemma Settled(prs: seq<Pr>, order: seq<Pr>, cut: nat)
    requires UniqueNumbers(order) && cut <= |order| && (forall p | p in prs :: p in order)
    requires forall k | 0 <= k < cut :: Met(prs, order, k)
    ensures forall i | 0 <= i < cut :: Acyclic(prs, order[i].number) && AfterAllPredecessors(prs, order, i)
  {
    forall i, w | 0 <= i < cut && Walk(prs, w) && w[0] == order[i].number
      ensures NoRepeats(w) && (|w| > 1 ==> w[|w| - 1] in Numbers(order[..i]))
    {
      WalksGoBack(prs, order, cut, i, w);
    }
  }

  /** A walk of so many steps from n, all within the given numbers. */
  ghost predicate WalkFrom(prs: seq<Pr>, n: int, length: nat, w: seq<int>) {
    Walk(prs, w) && w[0] == n && |w| == length + 1 && forall k | 0 <= k < |w| :: w[k] in Numbers(prs)
  }

  lemma LongerWalk(prs: seq<Pr>, n: int, d: int, length: nat, rest: seq<int>)
    requires WalkFrom(prs, d, length, rest) && Precedes(prs, d, n) && n in Numbers(prs)
    ensures WalkFrom(prs, n, length + 1, [n] + rest)
  {
    var w := [n] + rest;
    forall k | 0 <= k < |w| - 1 ensures Precedes(prs, w[k + 1], w[k]) {
      if k > 0 { assert Precedes(prs, rest[k - 1 + 1], rest[k - 1]); }
    }
    forall k | 0 <= k < |w| ensures w[k] in Numbers(prs) {
      if k > 0 { assert rest[k - 1] in Numbers(prs); }
    }
  }

  /** While everything pending lacks a pending predecessor, there are walks of any length. */
  lemma {:induction false} LongWalk(prs: seq<Pr>, ordered: seq<Pr>, pending: seq<Pr>, n: int, length: nat)
    requires forall p :: p in prs <==> p in ordered || p in pending
    requires forall p | p in pending :: !(Deps(prs, p) <= Numbers(ordered))
    requires n in Numbers(pending)
    ensures exists w :: WalkFrom(prs, n, length, w)
    decreases length
  {
    var i :| 0 <= i < |pending| && pending[i].number == n;
    var p := pending[i];
    assert p in prs;
    assert n in Numbers(prs);
    if length == 0 {
      assert WalkFrom(prs, n, 0, [n]);
    } else {
      var d :| d in Deps(prs, p) && d !in Numbers(ordered);
      assert Precedes(prs, d, n);
      var q :| 0 <= q < |prs| && prs[q].number == d;
      assert prs[q] in pending;
      LongWalk(prs, ordered, pending, d, length - 1);
      var rest :| WalkFrom(prs, d, length - 1, rest);
      LongerWalk(prs, n, d, length - 1, rest);
      assert WalkFrom(prs, n, length, [n] + rest);
    }
  }

  /** When nothing is ready, everything pending has a cycle behind it. */
  lemma Stuck(prs: seq<Pr>, ordered: seq<Pr>, pending: seq<Pr>)
    requires Partition(prs, ordered, pending)
    requires forall p | p in pending :: !(Deps(prs, p) <= Numbers(ordered))
    ensures forall p | p in pending :: !Acyclic(prs, p.number)
  {
    forall p | p in pending ensures !Acyclic(prs, p.number) {
      LongWalk(prs, ordered, pending, p.number, |prs|);
      var w :| WalkFrom(prs, p.number, |prs|, w);
      var all := seq(|prs|, i requires 0 <= i < |prs| => prs[i].number);
      forall k | 0 <= k < |w| ensures w[k] in all {
        var i :| 0 <= i < |prs| && prs[i].number == w[k];
        assert all[i] == w[k];
      }
      if NoRepeats(w) { NoLonger(w, all); }
    }
  }
}
