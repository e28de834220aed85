/** Python's `sorted(xs, key=key, reverse=True)` / `xs.sort(key=key, reverse=True)`:
    a stable sort into non-increasing key order. Stability means elements with equal keys
    keep their original relative order, which Python guarantees even with `reverse=True`. */
module StableSort {

  /** `ge` orders every pair of keys and is transitive. */
  ghost predicate TotalPreorder<K(!new)>(ge: (K, K) -> bool) {
    && (forall a, b :: ge(a, b) || ge(b, a))
    && (forall a, b, c :: ge(a, b) && ge(b, c) ==> ge(a, c))
  }

  /** Every element's key is at least the key of every later element. */
  ghost predicate SortedDesc<T, K>(s: seq<T>, key: T -> K, ge: (K, K) -> bool) {
    forall i, j :: 0 <= i < j < |s| ==> ge(key(s[i]), key(s[j]))
  }

  /** Places `x` in front of the first element whose key is not above its own, so `x`
      precedes every element of `s` with an equal key. */
  function Insert<T, K>(x: T, s: seq<T>, key: T -> K, ge: (K, K) -> bool): (r: seq<T>)
    ensures |r| == |s| + 1
    ensures multiset(r) == multiset(s) + multiset{x}
  {
    if |s| == 0 || ge(key(x), key(s[0])) then [x] + s
    else
      assert s == [s[0]] + s[1..];
      [s[0]] + Insert(x, s[1..], key, ge)
  }

  /** The descending stable sort of `xs`. */
  function Sort<T, K>(xs: seq<T>, key: T -> K, ge: (K, K) -> bool): (r: seq<T>)
    ensures |r| == |xs|
    ensures multiset(r) == multiset(xs)
  {
    if |xs| == 0 then []
    else
      assert xs == [xs[0]] + xs[1..];
      Insert(xs[0], Sort(xs[1..], key, ge), key, ge)
  }

  /** The elements of `s` whose key is `k`, in order. */
  function WithKey<T, K(==)>(s: seq<T>, key: T -> K, k: K): seq<T> {
    if |s| == 0 then []
    else (if key(s[0]) == k then [s[0]] else []) + WithKey(s[1..], key, k)
  }

  /** The first `n` elements of `s`, or all of them: Python's `s[:n]`. */
  function Take<T>(s: seq<T>, n: nat): (r: seq<T>)
    ensures |r| == if |s| <= n then |s| else n
    ensures r == s[..|r|]
  {
    if |s| <= n then s else s[..n]
  }

  lemma {:induction false} InsertSorted<T, K(!new)>(x: T, s: seq<T>, key: T -> K, ge: (K, K) -> bool)
    requires TotalPreorder(ge)
    requires SortedDesc(s, key, ge)
    ensures SortedDesc(Insert(x, s, key, ge), key, ge)
  {
    var r := Insert(x, s, key, ge);
    if |s| == 0 || ge(key(x), key(s[0])) {
      forall i, j | 0 <= i < j < |r|
        ensures ge(key(r[i]), key(r[j]))
      {
        if i == 0 && j > 1 {
          assert ge(key(s[0]), key(s[j - 1]));
        }
      }
    } else {
      var t := Insert(x, s[1..], key, ge);
      InsertSorted(x, s[1..], key, ge);
      assert ge(key(s[0]), key(x));
      forall j | 0 <= j < |t|
        ensures ge(key(s[0]), key(t[j]))
      {
        assert t[j] in multiset(t);
        if t[j] != x {
          assert t[j] in multiset(s[1..]);
          var k :| 0 <= k < |s[1..]| && s[1..][k] == t[j];
          assert s[k + 1] == t[j];
        }
      }
      forall i, j | 0 <= i < j < |r|
        ensures ge(key(r[i]), key(r[j]))
      {
        if i == 0 {
          assert r[j] == t[j - 1];
        } else {
          assert r[i] == t[i - 1] && r[j] == t[j - 1];
        }
      }
    }
  }

  /** The sort's result is in non-increasing key order. */
  lemma {:induction false} SortSorted<T, K(!new)>(xs: seq<T>, key: T -> K, ge: (K, K) -> bool)
    requires TotalPreorder(ge)
    ensures SortedDesc(Sort(xs, key, ge), key, ge)
  {
    if |xs| > 0 {
      SortSorted(xs[1..], key, ge);
      InsertSorted(xs[0], Sort(xs[1..], key, ge), key, ge);
    }
  }

  lemma {:induction false} WithKeyCons<T, K>(a: T, s: seq<T>, key: T -> K, k: K)
    ensures WithKey([a] + s, key, k) == (if key(a) == k then [a] else []) + WithKey(s, key, k)
  {
    assert ([a] + s)[1..] == s;
  }

  lemma {:induction false} InsertWithKey<T, K>(x: T, s: seq<T>, key: T -> K, ge: (K, K) -> bool, k: K)
    requires ge(key(x), key(x))
    ensures WithKey(Insert(x, s, key, ge), key, k)
         == (if key(x) == k then [x] else []) + WithKey(s, key, k)
  {
    if |s| == 0 || ge(key(x), key(s[0])) {
      WithKeyCons(x, s, key, k);
    } else {
      var a := if key(s[0]) == k then [s[0]] else [];
      var b := if key(x) == k then [x] else [];
      var rest := WithKey(s[1..], key, k);
      assert a == [] || b == [];
      calc {
        WithKey(Insert(x, s, key, ge), key, k);
        WithKey([s[0]] + Insert(x, s[1..], key, ge), key, k);
        { WithKeyCons(s[0], Insert(x, s[1..], key, ge), key, k); }
        a + WithKey(Insert(x, s[1..], key, ge), key, k);
        { InsertWithKey(x, s[1..], key, ge, k); }
        a + (b + rest);
        b + (a + rest);
        { WithKeyCons(s[0], s[1..], key, k); assert [s[0]] + s[1..] == s; }
        b + WithKey(s, key, k);
      }
    }
  }

  /** Stability: for every key value, the elements carrying it keep their input order. */
  lemma {:induction false} SortStable<T, K(!new)>(xs: seq<T>, key: T -> K, ge: (K, K) -> bool, k: K)
    requires forall a :: ge(a, a)
    ensures WithKey(Sort(xs, key, ge), key, k) == WithKey(xs, key, k)
  {
    if |xs| > 0 {
      SortStable(xs[1..], key, ge, k);
      assert ge(key(xs[0]), key(xs[0]));
      InsertWithKey(xs[0], Sort(xs[1..], key, ge), key, ge, k);
    }
  }

  lemma {:induction false} InsertCount<T, K, K2>(x: T, s: seq<T>, key: T -> K, ge: (K, K) -> bool, key2: T -> K2, k: K2)
    ensures |WithKey(Insert(x, s, key, ge), key2, k)| == |WithKey(s, key2, k)| + (if key2(x) == k then 1 else 0)
  {
    if |s| == 0 || ge(key(x), key(s[0])) {
      WithKeyCons(x, s, key2, k);
    } else {
      InsertCount(x, s[1..], key, ge, key2, k);
      WithKeyCons(s[0], Insert(x, s[1..], key, ge), key2, k);
      WithKeyCons(s[0], s[1..], key2, k);
      assert [s[0]] + s[1..] == s;
    }
  }

  /** Sorting by one key keeps the number of elements carrying any value of another key. */
  lemma {:induction false} SortKeepsCount<T, K, K2>(xs: seq<T>, key: T -> K, ge: (K, K) -> bool, key2: T -> K2, k: K2)
    ensures |WithKey(Sort(xs, key, ge), key2, k)| == |WithKey(xs, key2, k)|
  {
    if |xs| > 0 {
      SortKeepsCount(xs[1..], key, ge, key2, k);
      InsertCount(xs[0], Sort(xs[1..], key, ge), key, ge, key2, k);
    }
  }

  /** Keeping a prefix of a sequence keeps a prefix of each key's elements. */
  lemma {:induction false} WithKeyOfPrefix<T, K>(s: seq<T>, n: nat, key: T -> K, k: K)
    requires n <= |s|
    ensures WithKey(s[..n], key, k) <= WithKey(s, key, k)
  {
    if n > 0 {
      WithKeyOfPrefix(s[1..], n - 1, key, k);
      assert s[..n][1..] == s[1..][..n - 1];
    }
  }

  /** The first `n` elements of a sorted sequence: no element left out has a higher key than
      any element kept. */
  lemma TakeKeepsLargest<T, K>(s: seq<T>, n: nat, key: T -> K, ge: (K, K) -> bool)
    requires SortedDesc(s, key, ge)
    ensures var r := Take(s, n);
      forall i, b :: 0 <= i < |r| && b in multiset(s) - multiset(r) ==> ge(key(r[i]), key(b))
  {
    var r := Take(s, n);
    if |r| < |s| {
      assert s == r + s[|r|..];
      assert multiset(s) == multiset(r) + multiset(s[|r|..]);
      forall i, b | 0 <= i < |r| && b in multiset(s) - multiset(r)
        ensures ge(key(r[i]), key(b))
      {
        assert b in multiset(s[|r|..]);
        var j :| 0 <= j < |s[|r|..]| && s[|r|..][j] == b;
        assert s[|r| + j] == b && r[i] == s[i];
      }
    }
  }

  lemma {:induction false} WithKeyAppend<T, K>(a: seq<T>, b: seq<T>, key: T -> K, k: K)
    ensures WithKey(a + b, key, k) == WithKey(a, key, k) + WithKey(b, key, k)
  {
    if |a| > 0 {
      WithKeyAppend(a[1..], b, key, k);
      assert (a + b)[1..] == a[1..] + b;
    } else {
      assert a + b == b;
    }
  }

  /** The first `n` elements of the sort, which is what `sorted(...)[:n]` keeps: in order,
      drawn from the input, no element left out above any element kept, and for every key the
      kept elements with that key are the first ones of the input with that key. */
  lemma TopOfSort<T, K(!new)>(xs: seq<T>, n: nat, key: T -> K, ge: (K, K) -> bool)
    requires TotalPreorder(ge)
    ensures var r := Take(Sort(xs, key, ge), n);
      && |r| == (if |xs| <= n then |xs| else n)
      && SortedDesc(r, key, ge)
      && multiset(r) <= multiset(xs)
      && (forall i, b :: 0 <= i < |r| && b in multiset(xs) - multiset(r) ==> ge(key(r[i]), key(b)))
      && (forall k :: WithKey(r, key, k) <= WithKey(xs, key, k))
  {
    TopOfSortLargest(xs, n, key, ge);
    TopOfSortStable(xs, n, key, ge);
  }

  /** The first `n` of the sorted list are ordered, drawn from the input, and never outranked
      by anything left out. */
  lemma TopOfSortLargest<T, K(!new)>(xs: seq<T>, n: nat, key: T -> K, ge: (K, K) -> bool)
    requires TotalPreorder(ge)
    ensures var r := Take(Sort(xs, key, ge), n);
      && SortedDesc(r, key, ge)
      && multiset(r) <= multiset(xs)
      && (forall i, b :: 0 <= i < |r| && b in multiset(xs) - multiset(r) ==> ge(key(r[i]), key(b)))
  {
    var sorted := Sort(xs, key, ge);
    var r := Take(sorted, n);
    SortSorted(xs, key, ge);
    assert sorted == r + sorted[|r|..];
    assert multiset(sorted) == multiset(r) + multiset(sorted[|r|..]);
    TakeKeepsLargest(sorted, n, key, ge);
  }

  /** The first `n` of the sorted list keep the input order among equal keys. */
  lemma TopOfSortStable<T, K(!new)>(xs: seq<T>, n: nat, key: T -> K, ge: (K, K) -> bool)
    requires TotalPreorder(ge)
    ensures var r := Take(Sort(xs, key, ge), n);
      forall k :: WithKey(r, key, k) <= WithKey(xs, key, k)
  {
    var sorted := Sort(xs, key, ge);
    var r := Take(sorted, n);
    forall k ensures WithKey(r, key, k) <= WithKey(xs, key, k) {
      WithKeyOfPrefix(sorted, |r|, key, k);
      SortStable(xs, key, ge, k);
    }
  }
}
