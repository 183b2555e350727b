/**
 A finite list whose every member is surpassed by a member contains a circle.

 Walking from a member to one that surpasses it never leaves the list and never ends.  A walk longer than the list
 meets some member twice, and the stretch between the two visits is a circle.

 The relation is any relation at all: it need not be transitive, and it may relate an item to itself.

 Conversely every member of a circle is surpassed by a member of it, the next one.
 */
module Circles {
  import opened Occurrences

  /** Each item is surpassed by the next one. */
  ghost predicate IsRising<T(!new)>(over: (T, T) -> bool, w: seq<T>) {
    forall k | 0 <= k < |w| - 1 :: over(w[k + 1], w[k])
  }

  ghost predicate IsCircle<T(!new)>(over: (T, T) -> bool, w: seq<T>) {
    |w| > 1 && w[0] == w[|w| - 1] && IsRising(over, w)
  }

  lemma NextInCircle<T(!new)>(over: (T, T) -> bool, w: seq<T>, x: T) returns (y: T)
    requires IsCircle(over, w) && x in w
    ensures y in w
    ensures over(y, x)
  {
    var k :| 0 <= k < |w| && w[k] == x;
    var i := if k < |w| - 1 then k else 0;
    y := w[i + 1];
  }

  ghost predicate IsSurpassed<T(!new)>(over: (T, T) -> bool, s: seq<T>, x: T) {
    exists y :: y in s && over(y, x)
  }

  /** A rise of n + 1 members of s, starting at x. */
  ghost predicate IsRise<T(!new)>(over: (T, T) -> bool, s: seq<T>, x: T, n: nat, w: seq<T>) {
    |w| == n + 1 && w[0] == x && IsRising(over, w) && forall z | z in w :: z in s
  }

  ghost predicate CircleIn<T(!new)>(over: (T, T) -> bool, s: seq<T>, w: seq<T>) {
    IsCircle(over, w) && forall x | x in w :: x in s
  }

  lemma AllSurpassed<T(!new)>(over: (T, T) -> bool, s: seq<T>)
    requires s != [] && forall x {:trigger IsSurpassed(over, s, x)} | x in s :: IsSurpassed(over, s, x)
    ensures exists w :: CircleIn(over, s, w)
  {
    LongRise(over, s, s[0], |s|);
    var rise :| IsRise(over, s, s[0], |s|, rise);
    if NoRepeats(rise) { NoLonger(rise, s); }
    var i, j :| 0 <= i < j < |rise| && rise[i] == rise[j];
    var w := rise[i..j + 1];
    forall k | 0 <= k < |w| - 1 ensures over(w[k + 1], w[k]) {
      assert over(rise[i + k + 1], rise[i + k]);
    }
    assert CircleIn(over, s, w);
  }

  lemma {:induction false} LongRise<T(!new)>(over: (T, T) -> bool, s: seq<T>, x: T, n: nat)
    requires x in s && forall z {:trigger IsSurpassed(over, s, z)} | z in s :: IsSurpassed(over, s, z)
    ensures exists w :: IsRise(over, s, x, n, w)
    decreases n
  {
    if n == 0 {
      assert IsRise(over, s, x, 0, [x]);
    } else {
      assert IsSurpassed(over, s, x);
      var y :| y in s && over(y, x);
      LongRise(over, s, y, n - 1);
      var rest :| IsRise(over, s, y, n - 1, rest);
      var w := [x] + rest;
      forall k | 0 <= k < |w| - 1 ensures over(w[k + 1], w[k]) {
        if k > 0 { assert over(rest[k - 1 + 1], rest[k - 1]); }
      }
      assert IsRise(over, s, x, n, w);
    }
  }
}
