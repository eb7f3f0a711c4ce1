/**
 * Stable sorting by a key, the contract of the standard library's sort_by and
 * sort_by_key: the result is ordered by key, is a permutation of the input and
 * keeps elements with equal keys in their input order. The model sorts by
 * insertion; SortedStableResultIsUnique shows that any stable sort gives the
 * same sequence, so the choice of algorithm is invisible to callers.
 */
module StableSort {

  /** lt is a strict total order: irreflexive, transitive and trichotomous. */
  ghost predicate IsStrictTotalOrder<K(!new)>(lt: (K, K) -> bool) {
    && (forall a :: !lt(a, a))
    && (forall a, b, c :: lt(a, b) && lt(b, c) ==> lt(a, c))
    && (forall a, b :: a == b || lt(a, b) || lt(b, a))
  }

  /** Keys never decrease along s. */
  ghost predicate SortedBy<T, K(!new)>(s: seq<T>, key: T -> K, lt: (K, K) -> bool) {
    forall i, j :: 0 <= i < j < |s| ==> !lt(key(s[j]), key(s[i]))
  }

  /** The elements of s whose key is k, in the order of s. */
  function WithKey<T, K(==)>(s: seq<T>, key: T -> K, k: K): (r: seq<T>)
    decreases |s|
  {
    if s == [] then []
    else
      var last := s[|s| - 1];
      assert s == s[..|s| - 1] + [last];
      WithKey(s[..|s| - 1], key, k) + (if key(last) == k then [last] else [])
  }

  lemma {:induction false} WithKeyMembers<T, K(!new)>(s: seq<T>, key: T -> K, k: K, x: T)
    requires x in WithKey(s, key, k)
    ensures x in s && key(x) == k
    decreases |s|
  {
    var s' := s[..|s| - 1];
    assert s == s' + [s[|s| - 1]];
    if x in WithKey(s', key, k) {
      WithKeyMembers(s', key, k, x);
    }
  }

  lemma WithKeySnoc<T, K(!new)>(s: seq<T>, x: T, key: T -> K, k: K)
    ensures WithKey(s + [x], key, k) == WithKey(s, key, k) + (if key(x) == k then [x] else [])
  {
    assert (s + [x])[..|s|] == s;
  }

  lemma {:induction false} WithKeyAppend<T, K(!new)>(a: seq<T>, b: seq<T>, key: T -> K, k: K)
    ensures WithKey(a + b, key, k) == WithKey(a, key, k) + WithKey(b, key, k)
    decreases |b|
  {
    if b == [] {
      assert a + b == a;
    } else {
      var b' := b[..|b| - 1];
      assert (a + b)[..|a + b| - 1] == a + b';
      WithKeyAppend(a, b', key, k);
    }
  }

  /** Places x after every element of t whose key is not greater than x's. */
  function Insert<T, K(!new)>(t: seq<T>, x: T, key: T -> K, lt: (K, K) -> bool): (r: seq<T>)
    ensures |r| == |t| + 1
    ensures multiset(r) == multiset(t) + multiset{x}
    decreases |t|
  {
    if t == [] || !lt(key(x), key(t[|t| - 1])) then t + [x]
    else
      assert t == t[..|t| - 1] + [t[|t| - 1]];
      Insert(t[..|t| - 1], x, key, lt) + [t[|t| - 1]]
  }

  /** Stable insertion sort by key. */
  function SortBy<T, K(!new)>(s: seq<T>, key: T -> K, lt: (K, K) -> bool): (r: seq<T>)
    ensures |r| == |s|
    ensures multiset(r) == multiset(s)
    decreases |s|
  {
    if s == [] then []
    else
      assert s == s[..|s| - 1] + [s[|s| - 1]];
      Insert(SortBy(s[..|s| - 1], key, lt), s[|s| - 1], key, lt)
  }

  lemma NotLessTransitive<K(!new)>(lt: (K, K) -> bool, a: K, b: K, c: K)
    requires IsStrictTotalOrder(lt)
    requires !lt(b, a) && !lt(c, b)
    ensures !lt(c, a)
  {
  }

  lemma {:induction false} InsertSorted<T, K(!new)>(t: seq<T>, x: T, key: T -> K, lt: (K, K) -> bool)
    requires IsStrictTotalOrder(lt)
    requires SortedBy(t, key, lt)
    ensures SortedBy(Insert(t, x, key, lt), key, lt)
    decreases |t|
  {
    var r := Insert(t, x, key, lt);
    if t == [] {
    } else if !lt(key(x), key(t[|t| - 1])) {
      forall i, j | 0 <= i < j < |r| ensures !lt(key(r[j]), key(r[i])) {
        if j == |t| {
          if i < |t| - 1 {
            NotLessTransitive(lt, key(t[i]), key(t[|t| - 1]), key(x));
          }
        }
      }
    } else {
      var t' := t[..|t| - 1];
      var last := t[|t| - 1];
      var r' := Insert(t', x, key, lt);
      InsertSorted(t', x, key, lt);
      forall i, j | 0 <= i < j < |r| ensures !lt(key(r[j]), key(r[i])) {
        if j == |r| - 1 {
          assert r[i] == r'[i];
          assert r'[i] in multiset(r');
          if r'[i] == x {
            assert lt(key(x), key(last));
          } else {
            assert r'[i] in multiset(t');
            var m :| 0 <= m < |t'| && t'[m] == r'[i];
            assert t[m] == r'[i];
          }
        }
      }
    }
  }

  lemma {:induction false} SortBySorted<T, K(!new)>(s: seq<T>, key: T -> K, lt: (K, K) -> bool)
    requires IsStrictTotalOrder(lt)
    ensures SortedBy(SortBy(s, key, lt), key, lt)
    decreases |s|
  {
    if s != [] {
      SortBySorted(s[..|s| - 1], key, lt);
      InsertSorted(SortBy(s[..|s| - 1], key, lt), s[|s| - 1], key, lt);
    }
  }

  lemma {:induction false} InsertKeepsKeyOrder<T, K(!new)>(t: seq<T>, x: T, key: T -> K, lt: (K, K) -> bool, k: K)
    requires forall a :: !lt(a, a)
    ensures WithKey(Insert(t, x, key, lt), key, k) == WithKey(t, key, k) + (if key(x) == k then [x] else [])
    decreases |t|
  {
    if t == [] || !lt(key(x), key(t[|t| - 1])) {
      WithKeySnoc(t, x, key, k);
    } else {
      var t' := t[..|t| - 1];
      var last := t[|t| - 1];
      assert Insert(t, x, key, lt) == Insert(t', x, key, lt) + [last];
      InsertKeepsKeyOrder(t', x, key, lt, k);
      WithKeySnoc(Insert(t', x, key, lt), last, key, k);
      assert t == t' + [last];
      WithKeySnoc(t', last, key, k);
      // x was moved before last because its key is smaller, so at most one of them has key k
      assert key(x) != key(last);
      var w' := WithKey(t', key, k);
      if key(x) == k {
        assert WithKey(t, key, k) == w';
        assert WithKey(Insert(t, x, key, lt), key, k) == w' + [x];
      } else {
        assert WithKey(Insert(t, x, key, lt), key, k) == WithKey(t, key, k);
      }
    }
  }

  /** Stability: for every key, the elements with that key keep their input order. */
  lemma {:induction false} SortByIsStable<T, K(!new)>(s: seq<T>, key: T -> K, lt: (K, K) -> bool, k: K)
    requires forall a :: !lt(a, a)
    ensures WithKey(SortBy(s, key, lt), key, k) == WithKey(s, key, k)
    decreases |s|
  {
    if s != [] {
      SortByIsStable(s[..|s| - 1], key, lt, k);
      InsertKeepsKeyOrder(SortBy(s[..|s| - 1], key, lt), s[|s| - 1], key, lt, k);
    }
  }

  lemma {:induction false} WithKeyNonEmpty<T, K(!new)>(s: seq<T>, key: T -> K)
    requires s != []
    ensures WithKey(s, key, key(s[|s| - 1])) != []
  {
  }

  /** The last element of a sequence ordered by key has the greatest key. */
  lemma SortedLastIsGreatest<T, K(!new)>(u: seq<T>, key: T -> K, lt: (K, K) -> bool, e: T)
    requires forall a :: !lt(a, a)
    requires SortedBy(u, key, lt)
    requires e in u
    ensures !lt(key(u[|u| - 1]), key(e))
  {
    var i :| 0 <= i < |u| && u[i] == e;
    if i < |u| - 1 {
      assert !lt(key(u[|u| - 1]), key(u[i]));
    } else {
      assert !lt(key(e), key(e));
    }
  }

  lemma LastKeysAgree<T, K(!new)>(u: seq<T>, v: seq<T>, key: T -> K, lt: (K, K) -> bool)
    requires IsStrictTotalOrder(lt)
    requires SortedBy(u, key, lt) && SortedBy(v, key, lt)
    requires u != [] && v != []
    requires forall k :: WithKey(u, key, k) == WithKey(v, key, k)
    ensures key(u[|u| - 1]) == key(v[|v| - 1])
  {
    var ku, kv := key(u[|u| - 1]), key(v[|v| - 1]);
    WithKeyNonEmpty(v, key);
    assert WithKey(u, key, kv) == WithKey(v, key, kv);
    var eu := WithKey(u, key, kv)[0];
    WithKeyMembers(u, key, kv, eu);
    SortedLastIsGreatest(u, key, lt, eu);
    WithKeyNonEmpty(u, key);
    assert WithKey(u, key, ku) == WithKey(v, key, ku);
    var ev := WithKey(v, key, ku)[0];
    WithKeyMembers(v, key, ku, ev);
    SortedLastIsGreatest(v, key, lt, ev);
  }

  lemma SnocInjective<T>(a: seq<T>, x: T, b: seq<T>, y: T)
    requires a + [x] == b + [y]
    ensures a == b && x == y
  {
    assert |a| == |b|;
    assert a == (a + [x])[..|a|];
    assert b == (b + [y])[..|b|];
  }

  /** Agreement on key k survives removing the last elements, which have the same key. */
  lemma PeelLast<T, K(!new)>(u: seq<T>, v: seq<T>, key: T -> K, k: K)
    requires u != [] && v != []
    requires key(u[|u| - 1]) == key(v[|v| - 1])
    requires WithKey(u, key, k) == WithKey(v, key, k)
    ensures WithKey(u[..|u| - 1], key, k) == WithKey(v[..|v| - 1], key, k)
    ensures key(u[|u| - 1]) == k ==> u[|u| - 1] == v[|v| - 1]
  {
    var u', lu := u[..|u| - 1], u[|u| - 1];
    var v', lv := v[..|v| - 1], v[|v| - 1];
    var wu, wv := WithKey(u', key, k), WithKey(v', key, k);
    assert WithKey(u, key, k) == wu + (if key(lu) == k then [lu] else []);
    assert WithKey(v, key, k) == wv + (if key(lv) == k then [lv] else []);
    if key(lu) == k {
      SnocInjective(wu, lu, wv, lv);
    } else {
      assert wu + [] == wu;
      assert wv + [] == wv;
    }
  }

  lemma SortedPrefix<T, K(!new)>(u: seq<T>, key: T -> K, lt: (K, K) -> bool)
    requires SortedBy(u, key, lt) && u != []
    ensures SortedBy(u[..|u| - 1], key, lt)
  {
  }

  /**
   * Two sequences ordered by key that agree, key by key, on the order of
   * their elements are equal.
   */
  lemma {:induction false} SortedAgreeingAreEqual<T, K(!new)>(u: seq<T>, v: seq<T>, key: T -> K, lt: (K, K) -> bool)
    requires IsStrictTotalOrder(lt)
    requires SortedBy(u, key, lt) && SortedBy(v, key, lt)
    requires forall k :: WithKey(u, key, k) == WithKey(v, key, k)
    ensures u == v
    decreases |u|
  {
    if u == [] || v == [] {
      if u != [] {
        WithKeyNonEmpty(u, key);
      } else if v != [] {
        WithKeyNonEmpty(v, key);
      }
    } else {
      var u', lu := u[..|u| - 1], u[|u| - 1];
      var v', lv := v[..|v| - 1], v[|v| - 1];
      LastKeysAgree(u, v, key, lt);
      assert u == u' + [lu] && v == v' + [lv];
      forall k ensures WithKey(u', key, k) == WithKey(v', key, k) {
        PeelLast(u, v, key, k);
      }
      PeelLast(u, v, key, key(lu));
      SortedPrefix(u, key, lt);
      SortedPrefix(v, key, lt);
      SortedAgreeingAreEqual(u', v', key, lt);
    }
  }

  /**
   * SortBy is the only stable sort: any sequence ordered by key that keeps,
   * key by key, the input order is SortBy's result.
   */
  lemma SortedStableResultIsUnique<T, K(!new)>(s: seq<T>, u: seq<T>, key: T -> K, lt: (K, K) -> bool)
    requires IsStrictTotalOrder(lt)
    requires SortedBy(u, key, lt)
    requires forall k :: WithKey(u, key, k) == WithKey(s, key, k)
    ensures u == SortBy(s, key, lt)
  {
    SortBySorted(s, key, lt);
    forall k ensures WithKey(u, key, k) == WithKey(SortBy(s, key, lt), key, k) {
      SortByIsStable(s, key, lt, k);
    }
    SortedAgreeingAreEqual(u, SortBy(s, key, lt), key, lt);
  }
}
