/**
 Picking the items of a list that pass a test: exactly those, each as often as it stands there, in their order.

 What picking means is said by the positions of the picked items: an ascending list of positions, namely of all those
 whose items pass, and the items that stand there.  No order of evaluation is part of it.

 A list can be picked from the front, where a new first item shifts all positions by one, or from the back, where a new
 last item adds its position at the end.  Either way there is exactly one result, since an ascending list of positions
 is given by its members.
 */
module Picking {
  import opened Occurrences

  /** `at` are the positions whose items pass, in increasing order, and `picked` the items there. */
  ghost predicate PicksAt<T(!new)>(keep: T -> bool, all: seq<T>, picked: seq<T>, at: seq<nat>) {
    && |at| == |picked|
    && Ascends(at)
    && (forall i | 0 <= i < |at| :: at[i] < |all| && all[at[i]] == picked[i])
    && (forall k: nat | k < |all| :: keep(all[k]) <==> k in at)
  }

  ghost predicate Picks<T(!new)>(keep: T -> bool, all: seq<T>, picked: seq<T>) {
    exists at :: PicksAt(keep, all, picked, at)
  }

  lemma FrontMember<T(!new)>(keep: T -> bool, all: seq<T>, picked: seq<T>, rest: seq<nat>, at: seq<nat>, k: nat)
    requires all != [] && PicksAt(keep, all[1..], picked, rest) && keep(all[0]) && k < |all|
    requires |at| == |rest| + 1 && at[0] == 0 && forall i | 0 < i < |at| :: at[i] == rest[i - 1] + 1
    ensures keep(all[k]) <==> k in at
  {
    if k > 0 {
      assert all[1..][k - 1] == all[k];
      if k - 1 in rest {
        var i :| 0 <= i < |rest| && rest[i] == k - 1;
        assert at[i + 1] == k;
      }
    }
  }

  function Fronted(at: seq<nat>): (t: seq<nat>)
    ensures |t| == |at| + 1 && t[0] == 0 && forall i | 0 < i < |t| :: t[i] == at[i - 1] + 1
  {
    seq(|at| + 1, i requires 0 <= i <= |at| => if i == 0 then 0 else at[i - 1] + 1)
  }

  /** A first item that passes comes first. */
  lemma PicksFront<T(!new)>(keep: T -> bool, all: seq<T>, picked: seq<T>, rest: seq<nat>, at: seq<nat>)
    requires all != [] && picked != [] && picked[0] == all[0] && keep(all[0])
    requires PicksAt(keep, all[1..], picked[1..], rest)
    requires |at| == |rest| + 1 && at[0] == 0 && forall i | 0 < i < |at| :: at[i] == rest[i - 1] + 1
    ensures PicksAt(keep, all, picked, at)
  {
    forall k: nat | k < |all| ensures keep(all[k]) <==> k in at {
      FrontMember(keep, all, picked[1..], rest, at, k);
    }
    forall i | 0 < i < |at| ensures at[i] < |all| && all[at[i]] == picked[i] {
      assert all[1..][rest[i - 1]] == picked[1..][i - 1];
    }
  }

  /** A first item that does not pass shifts the positions. */
  lemma PicksBehind<T(!new)>(keep: T -> bool, all: seq<T>, picked: seq<T>, rest: seq<nat>, at: seq<nat>)
    requires all != [] && PicksAt(keep, all[1..], picked, rest) && !keep(all[0])
    requires |at| == |rest| && forall i | 0 <= i < |at| :: at[i] == rest[i] + 1
    ensures PicksAt(keep, all, picked, at)
  {
    forall k: nat | k < |all| ensures keep(all[k]) <==> k in at {
      if k > 0 {
        assert all[1..][k - 1] == all[k];
        if k - 1 in rest {
          var i :| 0 <= i < |rest| && rest[i] == k - 1;
          assert at[i] == k;
        }
      }
    }
  }

  function Shifted(at: seq<nat>): (t: seq<nat>)
    ensures |t| == |at| && forall i | 0 <= i < |t| :: t[i] == at[i] + 1
  {
    seq(|at|, i requires 0 <= i < |at| => at[i] + 1)
  }

  lemma PicksMore<T(!new)>(keep: T -> bool, all: seq<T>, rest: seq<T>)
    requires all != [] && Picks(keep, all[1..], rest)
    ensures Picks(keep, all, (if keep(all[0]) then [all[0]] else []) + rest)
  {
    if keep(all[0]) {
      PicksFirst(keep, all, rest, [all[0]] + rest);
    } else {
      var at :| PicksAt(keep, all[1..], rest, at);
      PicksBehind(keep, all, rest, at, Shifted(at));
      assert [] + rest == rest;
    }
  }

  lemma PicksFirst<T(!new)>(keep: T -> bool, all: seq<T>, rest: seq<T>, picked: seq<T>)
    requires all != [] && keep(all[0]) && Picks(keep, all[1..], rest) && picked == [all[0]] + rest
    ensures Picks(keep, all, picked)
  {
    var at :| PicksAt(keep, all[1..], rest, at);
    assert picked[1..] == rest;
    PicksFront(keep, all, picked, at, Fronted(at));
  }

  lemma PicksNone<T(!new)>(keep: T -> bool)
    ensures Picks(keep, [], [])
  {
    var none: seq<T> := [];
    assert PicksAt(keep, none, none, []);
  }

  /** A last item that passes comes last. */
  lemma PicksBack<T(!new)>(keep: T -> bool, all: seq<T>, picked: seq<T>, at: seq<nat>, more: seq<T>)
    requires more != [] && all == more[..|more| - 1] && keep(more[|all|])
    requires PicksAt(keep, all, picked, at)
    ensures PicksAt(keep, more, picked + [more[|all|]], at + [|all|])
  {
    var t := at + [|all|];
    forall k: nat | k < |more| ensures keep(more[k]) <==> k in t {
      assert k in t <==> k in at || k == |all|;
      if k < |all| { assert more[k] == all[k]; }
    }
    forall i | 0 <= i < |t| ensures t[i] < |more| && more[t[i]] == (picked + [more[|all|]])[i] {
      if i < |at| { assert more[at[i]] == all[at[i]]; }
    }
  }

  lemma PicksBefore<T(!new)>(keep: T -> bool, all: seq<T>, picked: seq<T>, at: seq<nat>, more: seq<T>)
    requires more != [] && all == more[..|more| - 1] && !keep(more[|all|])
    requires PicksAt(keep, all, picked, at)
    ensures PicksAt(keep, more, picked, at)
  {
    forall k: nat | k < |more| ensures keep(more[k]) <==> k in at {
      if k < |all| { assert more[k] == all[k]; }
    }
    forall i | 0 <= i < |at| ensures at[i] < |more| && more[at[i]] == picked[i] {
      assert more[at[i]] == all[at[i]];
    }
  }

  lemma PicksLast<T(!new)>(keep: T -> bool, all: seq<T>, picked: seq<T>, x: T)
    requires Picks(keep, all, picked)
    ensures Picks(keep, all + [x], picked + if keep(x) then [x] else [])
  {
    var at :| PicksAt(keep, all, picked, at);
    var more := all + [x];
    assert more[..|more| - 1] == all;
    if keep(x) {
      PicksBack(keep, all, picked, at, more);
    } else {
      PicksBefore(keep, all, picked, at, more);
      assert picked + [] == picked;
    }
  }

  /** Those items, from the front to the back. */
  function Kept<T(!new)>(keep: T -> bool, all: seq<T>): (picked: seq<T>)
    ensures forall x :: x in picked <==> x in all && keep(x)
  {
    if all == [] then []
    else
      var last := all[|all| - 1];
      Kept(keep, all[..|all| - 1]) + if keep(last) then [last] else []
  }

  lemma {:induction false} KeptPicks<T(!new)>(keep: T -> bool, all: seq<T>)
    ensures Picks(keep, all, Kept(keep, all))
  {
    if all == [] {
      PicksNone(keep);
    } else {
      var n := |all| - 1;
      KeptPicks(keep, all[..n]);
      PicksLast(keep, all[..n], Kept(keep, all[..n]), all[n]);
      assert all[..n] + [all[n]] == all;
    }
  }

  ghost predicate Ascends(s: seq<nat>) {
    forall i, j | 0 <= i < j < |s| :: s[i] < s[j]
  }

  lemma WithoutLast(s: seq<nat>, k: nat)
    requires s != [] && Ascends(s)
    ensures k in s[..|s| - 1] <==> k in s && k != s[|s| - 1]
  {
    assert s == s[..|s| - 1] + [s[|s| - 1]];
  }

  /** Ascending lists with the same members are equal. */
  lemma {:induction false} SameAscending(a: seq<nat>, b: seq<nat>)
    requires Ascends(a) && Ascends(b) && forall k: nat :: k in a <==> k in b
    ensures a == b
  {
    NoLonger(a, b);
    NoLonger(b, a);
    if a != [] {
      var m, n := |a| - 1, |b| - 1;
      assert a[m] in b && b[n] in a;
      assert a[m] == b[n];
      forall k: nat ensures k in a[..m] <==> k in b[..n] {
        WithoutLast(a, k);
        WithoutLast(b, k);
      }
      SameAscending(a[..m], b[..n]);
    }
  }

  /** There is one way to pick. */
  lemma PicksOne<T(!new)>(keep: T -> bool, all: seq<T>, a: seq<T>, b: seq<T>)
    requires Picks(keep, all, a) && Picks(keep, all, b)
    ensures a == b
  {
    var i :| PicksAt(keep, all, a, i);
    var j :| PicksAt(keep, all, b, j);
    forall k: nat ensures k in i <==> k in j {
      if k in i { assert k < |all|; }
      if k in j { assert k < |all|; }
    }
    SameAscending(i, j);
  }
}
