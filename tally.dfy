/**
 * Counting and de-duplication over sequences: the `(acc[k] || 0) + 1`
 * tallies and the `Array.from(new Set(...))` idiom of the dashboard.
 */
module Tally {

  /** Number of occurrences of `x` in `s`. */
  function Count<T(==)>(s: seq<T>, x: T): nat
    decreases |s|
  {
    if |s| == 0 then 0
    else Count(s[..|s| - 1], x) + (if s[|s| - 1] == x then 1 else 0)
  }

  lemma {:induction false} CountPositive<T>(s: seq<T>, x: T)
    ensures Count(s, x) > 0 <==> x in s
    decreases |s|
  {
    if |s| > 0 {
      CountPositive(s[..|s| - 1], x);
      assert s == s[..|s| - 1] + [s[|s| - 1]];
    }
  }

  lemma {:induction false} CountAtMostLength<T>(s: seq<T>, x: T)
    ensures Count(s, x) <= |s|
    decreases |s|
  {
    if |s| > 0 {
      CountAtMostLength(s[..|s| - 1], x);
    }
  }

  predicate Distinct<T(==)>(s: seq<T>) {
    forall i, j :: 0 <= i < j < |s| ==> s[i] != s[j]
  }

  /** Position of the first occurrence of `x` in `s`. */
  function FirstIndex<T(==)>(s: seq<T>, x: T): (i: nat)
    requires x in s
    ensures i < |s| && s[i] == x && x !in s[..i]
    decreases |s|
  {
    if s[0] == x then 0
    else
      var j := FirstIndex(s[1..], x);
      assert s[..j + 1] == [s[0]] + s[1..][..j];
      j + 1
  }

  /**
   * `Array.from(new Set(s))`: the distinct elements of `s`, in the order of
   * their first occurrence (a `Set` iterates in insertion order).
   */
  function Dedup<T(==)>(s: seq<T>): (d: seq<T>)
    ensures Distinct(d)
    ensures forall i :: 0 <= i < |d| ==> d[i] in s
    ensures forall i :: 0 <= i < |s| ==> s[i] in d
    decreases |s|
  {
    if |s| == 0 then []
    else
      var prev := Dedup(s[..|s| - 1]);
      var last := s[|s| - 1];
      assert s == s[..|s| - 1] + [last];
      assert forall i :: 0 <= i < |s| - 1 ==> s[i] == s[..|s| - 1][i];
      if last in prev then prev else prev + [last]
  }

  lemma FirstIndexInPrefix<T>(s: seq<T>, n: nat, x: T)
    requires n <= |s| && x in s[..n]
    ensures FirstIndex(s, x) == FirstIndex(s[..n], x)
  {
    var i := FirstIndex(s, x);
    var j := FirstIndex(s[..n], x);
    assert s[..n][..j] == s[..j];
    assert s[..n][j] == s[j];
  }

  /** `Dedup` lists the elements in increasing order of first occurrence. */
  lemma {:induction false} DedupFirstAppearance<T>(s: seq<T>)
    ensures forall i, j :: 0 <= i < j < |Dedup(s)| ==>
      FirstIndex(s, Dedup(s)[i]) < FirstIndex(s, Dedup(s)[j])
    decreases |s|
  {
    if |s| > 0 {
      var n := |s| - 1;
      var init := s[..n];
      DedupFirstAppearance(init);
      var prev := Dedup(init);
      var d := Dedup(s);
      forall i, j | 0 <= i < j < |d|
        ensures FirstIndex(s, d[i]) < FirstIndex(s, d[j])
      {
        assert d[i] == prev[i] && d[i] in init;
        FirstIndexInPrefix(s, n, d[i]);
        if j < |prev| {
          assert d[j] == prev[j] && d[j] in init;
          FirstIndexInPrefix(s, n, d[j]);
        } else {
          assert d[j] == s[n] && s[n] !in init;
          assert s[..n] == init;
        }
      }
    }
  }

  /** Total number of occurrences in `s` of the elements of `keys`. */
  function SumCounts<T(==)>(keys: seq<T>, s: seq<T>): nat
    decreases |keys|
  {
    if |keys| == 0 then 0 else Count(s, keys[0]) + SumCounts(keys[1..], s)
  }

  lemma {:induction false} SumCountsAppend<T>(keys: seq<T>, s: seq<T>, x: T)
    ensures SumCounts(keys, s + [x]) == SumCounts(keys, s) + Count(keys, x)
    decreases |keys|
  {
    if |keys| > 0 {
      SumCountsAppend(keys[1..], s, x);
      assert (s + [x])[..|s|] == s;
      CountFront(keys, x);
    }
  }

  lemma {:induction false} CountFront<T>(s: seq<T>, x: T)
    requires |s| > 0
    ensures Count(s, x) == (if s[0] == x then 1 else 0) + Count(s[1..], x)
    decreases |s|
  {
    if |s| > 1 {
      CountFront(s[..|s| - 1], x);
      assert s[..|s| - 1][1..] == s[1..][..|s| - 2];
    }
  }

  lemma {:induction false} CountDistinct<T>(s: seq<T>, x: T)
    requires Distinct(s)
    ensures Count(s, x) == if x in s then 1 else 0
    decreases |s|
  {
    if |s| > 0 {
      var init := s[..|s| - 1];
      assert Distinct(init) by {
        forall i, j | 0 <= i < j < |init| ensures init[i] != init[j] {
          assert init[i] == s[i] && init[j] == s[j];
        }
      }
      CountDistinct(init, x);
      assert s == init + [s[|s| - 1]];
    }
  }

  /**
   * Counting every element of a duplicate-free list of keys that covers
   * `s` accounts for each element of `s` exactly once.
   */
  lemma {:induction false} SumCountsCoversAll<T>(keys: seq<T>, s: seq<T>)
    requires Distinct(keys)
    requires forall x :: x in s ==> x in keys
    ensures SumCounts(keys, s) == |s|
    decreases |s|
  {
    if |s| == 0 {
      SumCountsOfEmpty(keys, s);
    } else {
      var init := s[..|s| - 1];
      var last := s[|s| - 1];
      assert s == init + [last];
      SumCountsCoversAll(keys, init);
      SumCountsAppend(keys, init, last);
      CountDistinct(keys, last);
    }
  }

  lemma {:induction false} SumCountsOfEmpty<T>(keys: seq<T>, s: seq<T>)
    requires |s| == 0
    ensures SumCounts(keys, s) == 0
    decreases |keys|
  {
    if |keys| > 0 {
      SumCountsOfEmpty(keys[1..], s);
    }
  }
}
