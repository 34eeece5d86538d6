/**
 * JavaScript's `Array.prototype.sort` is stable, and the core only ever sorts
 * in descending order of one integer key (`(a, b) => b[1] - a[1]` and
 * `(a, b) => new Date(b.createdAt) - new Date(a.createdAt)`). This module
 * models that sort as a stable insertion sort.
 */
module StableSort {

  /** Non-increasing in `key`. */
  ghost predicate SortedDesc<T>(s: seq<T>, key: T -> int) {
    forall i, j :: 0 <= i < j < |s| ==> key(s[i]) >= key(s[j])
  }

  /** Places `x` before the first element whose key is not larger than its own. */
  function Insert<T>(x: T, s: seq<T>, key: T -> int): (r: seq<T>)
    requires SortedDesc(s, key)
    ensures SortedDesc(r, key)
    ensures multiset(r) == multiset(s) + multiset{x}
    ensures r[0] == x || (|s| > 0 && r[0] == s[0])
    decreases |s|
  {
    if |s| == 0 || key(x) >= key(s[0]) then
      assert SortedDesc([x] + s, key) by {
        forall i, j | 0 <= i < j < |s| + 1
          ensures key(([x] + s)[i]) >= key(([x] + s)[j])
        {
          if i > 0 {
            assert ([x] + s)[i] == s[i - 1];
          }
          assert ([x] + s)[j] == s[j - 1];
        }
      }
      assert [x] + s == [x] + s[..];
      [x] + s
    else
      SortedTail(s, key);
      var t := Insert(x, s[1..], key);
      assert SortedDesc([s[0]] + t, key) by {
        forall i, j | 0 <= i < j < |t| + 1
          ensures key(([s[0]] + t)[i]) >= key(([s[0]] + t)[j])
        {
          assert ([s[0]] + t)[j] == t[j - 1];
          if i > 0 {
            assert ([s[0]] + t)[i] == t[i - 1];
          } else {
            assert key(s[0]) >= key(t[0]);
          }
        }
      }
      assert s == [s[0]] + s[1..];
      [s[0]] + t
  }

  /** The sorted copy: non-increasing in `key` and a permutation of `s`. */
  function SortDesc<T>(s: seq<T>, key: T -> int): (r: seq<T>)
    ensures SortedDesc(r, key)
    ensures multiset(r) == multiset(s)
    ensures |r| == |s|
    decreases |s|
  {
    if |s| == 0 then []
    else
      var rest := SortDesc(s[1..], key);
      assert s == [s[0]] + s[1..];
      Insert(s[0], rest, key)
  }

  /** The elements of `s` whose key is `k`, in their order in `s`. */
  function WithKey<T>(s: seq<T>, key: T -> int, k: int): seq<T>
    decreases |s|
  {
    if |s| == 0 then []
    else (if key(s[0]) == k then [s[0]] else []) + WithKey(s[1..], key, k)
  }

  lemma {:induction false} InsertWithKey<T>(x: T, s: seq<T>, key: T -> int, k: int)
    requires SortedDesc(s, key)
    ensures WithKey(Insert(x, s, key), key, k)
         == (if key(x) == k then [x] else []) + WithKey(s, key, k)
    decreases |s|
  {
    if |s| == 0 || key(x) >= key(s[0]) {
      var r := [x] + s;
      assert r == Insert(x, s, key);
      assert r[0] == x && r[1..] == s;
      assert WithKey(r, key, k) == (if key(x) == k then [x] else []) + WithKey(s, key, k);
    } else {
      SortedTail(s, key);
      var t := Insert(x, s[1..], key);
      InsertWithKey(x, s[1..], key, k);
      var r := [s[0]] + t;
      assert r == Insert(x, s, key);
      assert r[0] == s[0] && r[1..] == t;
      assert WithKey(r, key, k) == (if key(s[0]) == k then [s[0]] else []) + WithKey(t, key, k);
      assert WithKey(s, key, k) == (if key(s[0]) == k then [s[0]] else []) + WithKey(s[1..], key, k);
    }
  }

  /** Dropping the head of a sorted sequence leaves it sorted. */
  lemma SortedTail<T>(s: seq<T>, key: T -> int)
    requires |s| > 0 && SortedDesc(s, key)
    ensures SortedDesc(s[1..], key)
  {
    forall i, j | 0 <= i < j < |s| - 1
      ensures key(s[1..][i]) >= key(s[1..][j])
    {
      assert s[1..][i] == s[i + 1] && s[1..][j] == s[j + 1];
    }
  }

  /**
   * Stability: for every key value, the elements carrying it keep their
   * relative order.
   */
  lemma {:induction false} SortIsStable<T>(s: seq<T>, key: T -> int, k: int)
    ensures WithKey(SortDesc(s, key), key, k) == WithKey(s, key, k)
    decreases |s|
  {
    if |s| > 0 {
      SortIsStable(s[1..], key, k);
      InsertWithKey(s[0], SortDesc(s[1..], key), key, k);
    }
  }

  /** Elements with equal keys appear in increasing `rank`. */
  ghost predicate TiesRanked<T>(s: seq<T>, key: T -> int, rank: T -> int) {
    forall i, j :: 0 <= i < j < |s| && key(s[i]) == key(s[j]) ==> rank(s[i]) < rank(s[j])
  }

  /** An element ranked below every equal-key element of a tie-ranked sequence can be put in front. */
  lemma PrependTiesRanked<T>(x: T, s: seq<T>, key: T -> int, rank: T -> int)
    requires TiesRanked(s, key, rank)
    requires forall y :: y in s && key(y) == key(x) ==> rank(x) < rank(y)
    ensures TiesRanked([x] + s, key, rank)
  {
    var r := [x] + s;
    forall i, j | 0 <= i < j < |r| && key(r[i]) == key(r[j])
      ensures rank(r[i]) < rank(r[j])
    {
      if i == 0 {
        assert r[j] == s[j - 1] && r[j] in s;
      } else {
        assert r[i] == s[i - 1] && r[j] == s[j - 1];
      }
    }
  }

  lemma TailTiesRanked<T>(s: seq<T>, key: T -> int, rank: T -> int)
    requires |s| > 0 && SortedDesc(s, key) && TiesRanked(s, key, rank)
    ensures SortedDesc(s[1..], key) && TiesRanked(s[1..], key, rank)
    ensures forall y :: y in s[1..] && key(y) == key(s[0]) ==> rank(s[0]) < rank(y)
  {
    forall y | y in s[1..] && key(y) == key(s[0])
      ensures rank(s[0]) < rank(y)
    {
      var m :| 0 <= m < |s| - 1 && s[1..][m] == y;
      assert s[m + 1] == y;
    }
  }

  lemma {:induction false} InsertTiesRanked<T>(x: T, s: seq<T>, key: T -> int, rank: T -> int)
    requires SortedDesc(s, key) && TiesRanked(s, key, rank)
    requires forall y :: y in s && key(y) == key(x) ==> rank(x) < rank(y)
    ensures TiesRanked(Insert(x, s, key), key, rank)
    decreases |s|
  {
    if |s| == 0 || key(x) >= key(s[0]) {
      PrependTiesRanked(x, s, key, rank);
    } else {
      TailTiesRanked(s, key, rank);
      InsertTiesRanked(x, s[1..], key, rank);
      var t := Insert(x, s[1..], key);
      forall y | y in t && key(y) == key(s[0])
        ensures rank(s[0]) < rank(y)
      {
        assert y in multiset(t);
        assert y != x;
        assert y in multiset(s[1..]);
      }
      PrependTiesRanked(s[0], t, key, rank);
    }
  }

  /**
   * When equal-key elements of the input are in increasing `rank` (the
   * input order), they still are after sorting.
   */
  lemma {:induction false} SortKeepsTieRanks<T>(s: seq<T>, key: T -> int, rank: T -> int)
    requires TiesRanked(s, key, rank)
    ensures TiesRanked(SortDesc(s, key), key, rank)
    decreases |s|
  {
    if |s| > 0 {
      var rest := SortDesc(s[1..], key);
      assert TiesRanked(s[1..], key, rank) by {
        forall i, j | 0 <= i < j < |s[1..]| && key(s[1..][i]) == key(s[1..][j])
          ensures rank(s[1..][i]) < rank(s[1..][j])
        {
          assert s[1..][i] == s[i + 1] && s[1..][j] == s[j + 1];
        }
      }
      SortKeepsTieRanks(s[1..], key, rank);
      forall y | y in rest && key(y) == key(s[0])
        ensures rank(s[0]) < rank(y)
      {
        assert y in multiset(s[1..]);
        var m :| 0 <= m < |s[1..]| && s[1..][m] == y;
        assert s[m + 1] == y;
      }
      InsertTiesRanked(s[0], rest, key, rank);
    }
  }

  /** An input that is already sorted comes back unchanged. */
  lemma {:induction false} SortOfSorted<T>(s: seq<T>, key: T -> int)
    requires SortedDesc(s, key)
    ensures SortDesc(s, key) == s
    decreases |s|
  {
    if |s| > 0 {
      assert SortedDesc(s[1..], key) by {
        forall i, j | 0 <= i < j < |s[1..]|
          ensures key(s[1..][i]) >= key(s[1..][j])
        {
          assert s[1..][i] == s[i + 1] && s[1..][j] == s[j + 1];
        }
      }
      SortOfSorted(s[1..], key);
      if |s| > 1 {
        assert key(s[0]) >= key(s[1..][0]);
      }
      assert [s[0]] + s[1..] == s;
    }
  }
}
