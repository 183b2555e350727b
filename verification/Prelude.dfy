/** Small value types shared by the other modules. */
module Prelude {
  /** A value that may be absent (the source's `None`, `null` or `undefined`). */
  datatype Option<+T> = None | Some(value: T)

  /** A computed value, or the reason an operation raised. */
  datatype Result<+T, +E> = Ok(value: T) | Err(error: E)
}

/** Counting how often a value occurs in a sequence. */
module Occurrences {
  predicate NoRepeats<T(==)>(s: seq<T>) {
    forall i, j | 0 <= i < j < |s| :: s[i] != s[j]
  }

  /** A list without repetition is no longer than any list that has all its members. */
  lemma {:induction false} NoLonger<T>(items: seq<T>, all: seq<T>)
    requires NoRepeats(items) && forall i | 0 <= i < |items| :: items[i] in all
    ensures |items| <= |all|
  {
    if items != [] {
      var n := |items| - 1;
      assert items[n] in all;
      var k :| 0 <= k < |all| && all[k] == items[n];
      var rest := all[..k] + all[k + 1..];
      forall i | 0 <= i < n ensures items[..n][i] in rest {
        var j :| 0 <= j < |all| && all[j] == items[i];
        assert rest[if j < k then j else j - 1] == items[i];
      }
      NoLonger(items[..n], rest);
    }
  }

  ghost function Times<T>(items: seq<T>, x: T): nat {
    if items == [] then 0
    else Times(items[..|items| - 1], x) + if items[|items| - 1] == x then 1 else 0
  }

  lemma {:induction false} TimesConcat<T>(a: seq<T>, b: seq<T>, x: T)
    ensures Times(a + b, x) == Times(a, x) + Times(b, x)
  {
    if b == [] {
      assert a + b == a;
    } else {
      assert (a + b)[..|a + b| - 1] == a + b[..|b| - 1];
      TimesConcat(a, b[..|b| - 1], x);
    }
  }

  lemma TimesHead<T>(items: seq<T>, x: T)
    requires items != []
    ensures Times(items, x) == (if items[0] == x then 1 else 0) + Times(items[1..], x)
  {
    assert [items[0]] + items[1..] == items;
    TimesConcat([items[0]], items[1..], x);
  }

  lemma {:induction false} TimesMember<T>(items: seq<T>, x: T)
    ensures Times(items, x) > 0 <==> x in items
  {
    if items != [] {
      TimesMember(items[..|items| - 1], x);
      assert items == items[..|items| - 1] + [items[|items| - 1]];
    }
  }
}
