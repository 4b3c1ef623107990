/**
 * Python's `sorted(s, key=key, reverse=True)` on integer keys: a stable sort
 * into non-increasing key order. Stable means that elements with equal keys
 * keep the relative order they had in `s` (Python guarantees this for
 * `reverse=True` as well).
 */
module StableSort {

  /** Keys never increase from left to right. */
  ghost predicate SortedDesc<T>(s: seq<T>, key: T -> int) {
    forall i, j :: 0 <= i < j < |s| ==> key(s[i]) >= key(s[j])
  }

  /** `rank` strictly increases from left to right. */
  ghost predicate IncreasingBy<T>(s: seq<T>, rank: T -> int) {
    forall i, j :: 0 <= i < j < |s| ==> rank(s[i]) < rank(s[j])
  }

  /** No two elements share a `name`. */
  ghost predicate DistinctBy<T, K>(s: seq<T>, name: T -> K) {
    forall i, j :: 0 <= i < j < |s| ==> name(s[i]) != name(s[j])
  }

  /** The elements of `s` whose key is `k`, in the order of `s`. */
  function WithKey<T>(s: seq<T>, key: T -> int, k: int): seq<T>
    decreases |s|
  {
    if s == [] then []
    else (if key(s[0]) == k then [s[0]] else []) + WithKey(s[1..], key, k)
  }

  /** Puts `x` in front of the first element whose key is not above `key(x)`. */
  function Insert<T>(x: T, s: seq<T>, key: T -> int): (r: seq<T>)
    ensures |r| == |s| + 1
    ensures multiset(r) == multiset(s) + multiset{x}
    ensures forall y :: y in r ==> y == x || y in s
    ensures x in r && forall y :: y in s ==> y in r
    decreases |s|
  {
    if s == [] then [x]
    else if key(x) >= key(s[0]) then [x] + s
    else
      assert s == [s[0]] + s[1..];
      [s[0]] + Insert(x, s[1..], key)
  }

  /** A sorted sequence stays sorted under a new head whose key is not below any of its keys. */
  lemma ConsSorted<T>(a: T, t: seq<T>, key: T -> int)
    requires SortedDesc(t, key)
    requires forall y :: y in t ==> key(y) <= key(a)
    ensures SortedDesc([a] + t, key)
  {
    var r := [a] + t;
    forall i, j | 0 <= i < j < |r| ensures key(r[i]) >= key(r[j]) {
      if i == 0 { assert r[j] in t; } else { assert r[i] == t[i - 1] && r[j] == t[j - 1]; }
    }
  }

  /** A sequence without repeated names stays so under a head with a new name. */
  lemma ConsDistinct<T, K>(a: T, t: seq<T>, name: T -> K)
    requires DistinctBy(t, name)
    requires forall y :: y in t ==> name(y) != name(a)
    ensures DistinctBy([a] + t, name)
  {
    var r := [a] + t;
    forall i, j | 0 <= i < j < |r| ensures name(r[i]) != name(r[j]) {
      if i == 0 { assert r[j] in t; } else { assert r[i] == t[i - 1] && r[j] == t[j - 1]; }
    }
  }

  lemma TailDistinct<T, K>(s: seq<T>, name: T -> K)
    requires s != [] && DistinctBy(s, name)
    ensures DistinctBy(s[1..], name)
    ensures forall y :: y in s[1..] ==> name(y) != name(s[0])
  {
    forall i, j | 0 <= i < j < |s[1..]| ensures name(s[1..][i]) != name(s[1..][j]) {
      assert s[1..][i] == s[i + 1] && s[1..][j] == s[j + 1];
    }
    forall y | y in s[1..] ensures name(y) != name(s[0]) {
      var j :| 0 <= j < |s[1..]| && s[1..][j] == y;
      assert s[j + 1] == y;
    }
  }

  /** The recursive call sorts the tail; every key of a sorted tail is at most the head's. */
  lemma TailSorted<T>(s: seq<T>, key: T -> int)
    requires s != [] && SortedDesc(s, key)
    ensures SortedDesc(s[1..], key)
    ensures forall y :: y in s[1..] ==> key(y) <= key(s[0])
  {
    forall y | y in s[1..] ensures key(y) <= key(s[0]) {
      var j :| 0 <= j < |s[1..]| && s[1..][j] == y;
      assert s[j + 1] == y;
    }
  }

  lemma {:induction false} InsertSorted<T>(x: T, s: seq<T>, key: T -> int)
    requires SortedDesc(s, key)
    ensures SortedDesc(Insert(x, s, key), key)
    decreases |s|
  {
    if s == [] {
    } else if key(x) >= key(s[0]) {
      TailSorted(s, key);
      ConsSorted(x, s, key);
    } else {
      TailSorted(s, key);
      InsertSorted(x, s[1..], key);
      ConsSorted(s[0], Insert(x, s[1..], key), key);
    }
  }

  /** Insertion sort: each element goes in front of the first one whose key is not above its own. */
  function SortDesc<T>(s: seq<T>, key: T -> int): (r: seq<T>)
    ensures |r| == |s|
    decreases |s|
  {
    if s == [] then [] else Insert(s[0], SortDesc(s[1..], key), key)
  }

  /** The sort puts keys in non-increasing order. */
  lemma {:induction false} SortDescSorted<T>(s: seq<T>, key: T -> int)
    ensures SortedDesc(SortDesc(s, key), key)
    decreases |s|
  {
    if s != [] {
      SortDescSorted(s[1..], key);
      InsertSorted(s[0], SortDesc(s[1..], key), key);
    }
  }

  /** The sort is a permutation of its input. */
  lemma {:induction false} SortDescPermutes<T>(s: seq<T>, key: T -> int)
    ensures multiset(SortDesc(s, key)) == multiset(s)
    decreases |s|
  {
    if s != [] {
      SortDescPermutes(s[1..], key);
      assert s == [s[0]] + s[1..];
    }
  }

  lemma {:induction false} WithKeyAppend<T>(a: seq<T>, b: seq<T>, key: T -> int, k: int)
    ensures WithKey(a + b, key, k) == WithKey(a, key, k) + WithKey(b, key, k)
    decreases |a|
  {
    if a == [] {
      assert a + b == b;
    } else {
      var head := if key(a[0]) == k then [a[0]] else [];
      assert (a + b)[0] == a[0];
      assert (a + b)[1..] == a[1..] + b;
      WithKeyAppend(a[1..], b, key, k);
      calc {
        WithKey(a + b, key, k);
        head + WithKey(a[1..] + b, key, k);
        head + (WithKey(a[1..], key, k) + WithKey(b, key, k));
        (head + WithKey(a[1..], key, k)) + WithKey(b, key, k);
      }
    }
  }

  lemma WithKeyConsIn<T>(a: T, t: seq<T>, key: T -> int)
    ensures WithKey([a] + t, key, key(a)) == [a] + WithKey(t, key, key(a))
  {
    assert ([a] + t)[0] == a;
    assert ([a] + t)[1..] == t;
  }

  lemma WithKeyConsOut<T>(a: T, t: seq<T>, key: T -> int, k: int)
    requires key(a) != k
    ensures WithKey([a] + t, key, k) == WithKey(t, key, k)
  {
    assert ([a] + t)[0] == a;
    assert ([a] + t)[1..] == t;
  }

  /** Inserting into a sorted sequence puts `x` before every element of equal key. */
  lemma {:induction false} InsertWithKey<T>(x: T, s: seq<T>, key: T -> int, k: int)
    requires SortedDesc(s, key)
    ensures WithKey(Insert(x, s, key), key, k) == WithKey([x] + s, key, k)
    decreases |s|
  {
    if s != [] && key(x) < key(s[0]) {
      var t := Insert(x, s[1..], key);
      assert Insert(x, s, key) == [s[0]] + t;
      assert s == [s[0]] + s[1..];
      TailSorted(s, key);
      InsertWithKey(x, s[1..], key, k);
      if key(x) == k {
        WithKeyConsOut(s[0], t, key, k);
        WithKeyConsIn(x, s[1..], key);
        WithKeyConsOut(s[0], s[1..], key, k);
        WithKeyConsIn(x, s, key);
      } else {
        WithKeyConsOut(x, s[1..], key, k);
        WithKeyConsOut(x, s, key, k);
        if key(s[0]) == k {
          WithKeyConsIn(s[0], t, key);
          WithKeyConsIn(s[0], s[1..], key);
        } else {
          WithKeyConsOut(s[0], t, key, k);
          WithKeyConsOut(s[0], s[1..], key, k);
        }
      }
    }
  }

  /** The sort is stable: for every key value, those elements keep their order. */
  lemma {:induction false} SortDescStable<T>(s: seq<T>, key: T -> int, k: int)
    ensures WithKey(SortDesc(s, key), key, k) == WithKey(s, key, k)
    decreases |s|
  {
    if s != [] {
      SortDescStable(s[1..], key, k);
      SortDescSorted(s[1..], key);
      InsertWithKey(s[0], SortDesc(s[1..], key), key, k);
      assert ([s[0]] + SortDesc(s[1..], key))[1..] == SortDesc(s[1..], key);
      assert s == [s[0]] + s[1..];
    }
  }

  lemma {:induction false} WithKeyElements<T>(s: seq<T>, key: T -> int, k: int)
    ensures forall y :: y in WithKey(s, key, k) ==> y in s && key(y) == k
    decreases |s|
  {
    if s != [] { WithKeyElements(s[1..], key, k); }
  }

  /**
   * Picking out the elements of one key keeps any order `s` is in: if `rank`
   * increases along `s`, it increases along `WithKey(s, key, k)`.
   */
  lemma {:induction false} WithKeyKeepsOrder<T>(s: seq<T>, key: T -> int, k: int, rank: T -> int)
    requires IncreasingBy(s, rank)
    ensures IncreasingBy(WithKey(s, key, k), rank)
    decreases |s|
  {
    if s != [] {
      var rest := WithKey(s[1..], key, k);
      WithKeyKeepsOrder(s[1..], key, k, rank);
      WithKeyElements(s[1..], key, k);
      forall y | y in rest ensures rank(s[0]) < rank(y) {
        var j :| 0 <= j < |s[1..]| && s[1..][j] == y;
        assert s[j + 1] == y;
      }
      if key(s[0]) == k {
        var w := [s[0]] + rest;
        forall i, j | 0 <= i < j < |w| ensures rank(w[i]) < rank(w[j]) {
          if i == 0 { assert w[j] in rest; } else { assert w[i] == rest[i - 1] && w[j] == rest[j - 1]; }
        }
      } else {
        assert WithKey(s, key, k) == rest;
      }
    }
  }

  /** Sorting keeps a sequence free of two elements with the same `name`. */
  lemma {:induction false} SortDescKeepsDistinct<T, K>(s: seq<T>, key: T -> int, name: T -> K)
    requires DistinctBy(s, name)
    ensures DistinctBy(SortDesc(s, key), name)
    decreases |s|
  {
    if s != [] {
      TailDistinct(s, name);
      SortDescKeepsDistinct(s[1..], key, name);
      var t := SortDesc(s[1..], key);
      SortDescPermutes(s[1..], key);
      forall y | y in t ensures name(y) != name(s[0]) {
        assert y in multiset(s[1..]);
      }
      InsertKeepsDistinct(s[0], t, key, name);
    }
  }

  lemma {:induction false} InsertKeepsDistinct<T, K>(x: T, s: seq<T>, key: T -> int, name: T -> K)
    requires DistinctBy(s, name)
    requires forall y :: y in s ==> name(y) != name(x)
    ensures DistinctBy(Insert(x, s, key), name)
    decreases |s|
  {
    if s == [] {
    } else if key(x) >= key(s[0]) {
      ConsDistinct(x, s, name);
    } else {
      TailDistinct(s, name);
      InsertKeepsDistinct(x, s[1..], key, name);
      ConsDistinct(s[0], Insert(x, s[1..], key), name);
    }
  }
  /** Where the `i`-th element lands among those of its key. */
  lemma WithKeyAt<T>(s: seq<T>, key: T -> int, i: nat)
    requires i < |s|
    ensures var w, k := WithKey(s[..i], key, key(s[i])), key(s[i]);
      && |WithKey(s[..i + 1], key, k)| == |w| + 1
      && |w| < |WithKey(s, key, k)|
      && WithKey(s, key, k)[|w|] == s[i]
  {
    var k := key(s[i]);
    assert s == s[..i + 1] + s[i + 1..];
    assert s[..i + 1] == s[..i] + [s[i]];
    WithKeyAppend(s[..i + 1], s[i + 1..], key, k);
    WithKeyAppend(s[..i], [s[i]], key, k);
    assert WithKey([s[i]], key, k) == [s[i]];
  }

  lemma WithKeyPrefixGrows<T>(s: seq<T>, key: T -> int, k: int, i: nat, j: nat)
    requires i <= j <= |s|
    ensures |WithKey(s[..i], key, k)| <= |WithKey(s[..j], key, k)|
  {
    assert s[..j] == s[..i] + s[i..j];
    WithKeyAppend(s[..i], s[i..j], key, k);
  }

  /**
   * Stability stated element-wise: two elements of equal key that the sort
   * puts in some order were in that order before, as measured by any `rank`
   * that increases along the input.
   */
  lemma SortDescTiesKeepOrder<T>(s: seq<T>, key: T -> int, rank: T -> int, i: nat, j: nat)
    requires IncreasingBy(s, rank)
    requires i < j < |SortDesc(s, key)|
    requires key(SortDesc(s, key)[i]) == key(SortDesc(s, key)[j])
    ensures rank(SortDesc(s, key)[i]) < rank(SortDesc(s, key)[j])
  {
    var r := SortDesc(s, key);
    var k := key(r[i]);
    SortDescStable(s, key, k);
    WithKeyKeepsOrder(s, key, k, rank);
    var w := WithKey(r, key, k);
    WithKeyAt(r, key, i);
    WithKeyAt(r, key, j);
    WithKeyPrefixGrows(r, key, k, i + 1, j);
    var a := |WithKey(r[..i], key, k)|;
    var b := |WithKey(r[..j], key, k)|;
    assert a < b < |w|;
  }

  /**
   * A sorted permutation of `s` splits at `n` into a prefix that is sorted and
   * a rest none of whose keys is above a key in the prefix.
   */
  lemma SortedSplit<T>(s: seq<T>, r: seq<T>, key: T -> int, n: nat)
    requires SortedDesc(r, key) && multiset(r) == multiset(s) && n <= |r|
    ensures SortedDesc(r[..n], key)
    ensures multiset(s) == multiset(r[..n]) + multiset(r[n..])
    ensures forall x, y :: x in r[n..] && y in r[..n] ==> key(x) <= key(y)
  {
    assert r == r[..n] + r[n..];
    forall x, y | x in r[n..] && y in r[..n] ensures key(x) <= key(y) {
      var a :| n <= a < |r| && r[a] == x;
      var b :| 0 <= b < n && r[b] == y;
    }
  }

  lemma MultisetRest<T>(s: seq<T>, t: seq<T>, rest: seq<T>)
    requires multiset(s) == multiset(t) + multiset(rest)
    ensures multiset(t) <= multiset(s)
    ensures forall x :: x in multiset(s) - multiset(t) ==> x in rest
  {
    assert multiset(s) - multiset(t) == multiset(rest);
  }

  /**
   * `t` is a best selection from `s`: sorted, drawn from `s`, and no element
   * left out has a greater key than one taken.
   */
  ghost predicate BestOf<T>(t: seq<T>, s: seq<T>, key: T -> int) {
    && SortedDesc(t, key)
    && multiset(t) <= multiset(s)
    && forall x, y :: x in multiset(s) - multiset(t) && y in t ==> key(x) <= key(y)
  }

  /** The first `n` elements of the sort are the best `n`. */
  lemma PrefixIsBest<T>(s: seq<T>, key: T -> int, n: nat)
    requires n <= |s|
    ensures BestOf(SortDesc(s, key)[..n], s, key)
  {
    var r := SortDesc(s, key);
    SortDescSorted(s, key);
    SortDescPermutes(s, key);
    SortedSplit(s, r, key, n);
    MultisetRest(s, r[..n], r[n..]);
  }
}
