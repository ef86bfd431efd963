/**
 * Python's list.sort(key=...) as used by the services: a stable sort by a
 * key, where `lt(a, b)` says that key a goes strictly before key b
 * (`a > b` for the descending score ranking, string order for the result
 * table). A stable sort has exactly one possible result, so it is modelled
 * by insertion sort; what matters is proved below: the result is ordered,
 * is a permutation of the input, and keeps the input order among equal keys.
 */
module Sorting {

  /** lt is irreflexive and transitive: all the sort needs of it. */
  ghost predicate StrictOrder<K(!new)>(lt: (K, K) -> bool) {
    && (forall a :: !lt(a, a))
    && (forall a, b, c :: lt(a, b) && lt(b, c) ==> lt(a, c))
  }

  /** No element goes strictly before an element that precedes it. */
  ghost predicate Sorted<T, K>(xs: seq<T>, key: T -> K, lt: (K, K) -> bool) {
    forall i, j :: 0 <= i < j < |xs| ==> !lt(key(xs[j]), key(xs[i]))
  }

  /** Inserts x after every element whose key does not go strictly after x's. */
  function Insert<T, K>(x: T, s: seq<T>, key: T -> K, lt: (K, K) -> bool): (r: seq<T>)
    ensures |r| == |s| + 1
    ensures multiset(r) == multiset(s) + multiset{x}
  {
    if s == [] || lt(key(x), key(s[0])) then [x] + s
    else
      assert s == [s[0]] + s[1..];
      [s[0]] + Insert(x, s[1..], key, lt)
  }

  /** The result of a stable sort of xs by key. */
  function Sort<T, K>(xs: seq<T>, key: T -> K, lt: (K, K) -> bool): (r: seq<T>)
    ensures |r| == |xs|
    ensures multiset(r) == multiset(xs)
  {
    if xs == [] then []
    else
      assert xs == xs[..|xs| - 1] + [xs[|xs| - 1]];
      Insert(xs[|xs| - 1], Sort(xs[..|xs| - 1], key, lt), key, lt)
  }

  lemma {:induction false} InsertSorted<T, K(!new)>(x: T, s: seq<T>, key: T -> K, lt: (K, K) -> bool)
    requires StrictOrder(lt) && Sorted(s, key, lt)
    ensures Sorted(Insert(x, s, key, lt), key, lt)
  {
    if s == [] || lt(key(x), key(s[0])) {
      var r := [x] + s;
      forall i, j | 0 <= i < j < |r| ensures !lt(key(r[j]), key(r[i])) {
        if i == 0 {
          if j > 1 {
            assert !lt(key(s[j - 1]), key(s[0]));
          }
        }
      }
    } else {
      InsertSorted(x, s[1..], key, lt);
      var t := Insert(x, s[1..], key, lt);
      var r := [s[0]] + t;
      forall i, j | 0 <= i < j < |r| ensures !lt(key(r[j]), key(r[i])) {
        if i == 0 {
          assert r[j] in multiset(t);
          assert r[j] == x || r[j] in multiset(s[1..]);
          if r[j] != x {
            var m :| 0 <= m < |s[1..]| && s[1..][m] == r[j];
            assert s[m + 1] == r[j];
          }
        } else {
          assert r[i] == t[i - 1] && r[j] == t[j - 1];
        }
      }
    }
  }

  lemma {:induction false} SortSorted<T, K(!new)>(xs: seq<T>, key: T -> K, lt: (K, K) -> bool)
    requires StrictOrder(lt)
    ensures Sorted(Sort(xs, key, lt), key, lt)
  {
    if xs != [] {
      SortSorted(xs[..|xs| - 1], key, lt);
      InsertSorted(xs[|xs| - 1], Sort(xs[..|xs| - 1], key, lt), key, lt);
    }
  }

  /** The elements of xs whose key is k, in their order in xs. */
  function KeyFilter<T, K(==)>(xs: seq<T>, key: T -> K, k: K): seq<T>
  {
    if xs == [] then []
    else (if key(xs[0]) == k then [xs[0]] else []) + KeyFilter(xs[1..], key, k)
  }

  lemma {:induction false} KeyFilterAppend<T, K>(a: seq<T>, b: seq<T>, key: T -> K, k: K)
    ensures KeyFilter(a + b, key, k) == KeyFilter(a, key, k) + KeyFilter(b, key, k)
  {
    if a == [] {
      assert a + b == b;
    } else {
      var head: seq<T> := if key(a[0]) == k then [a[0]] else [];
      assert (a + b)[0] == a[0];
      assert (a + b)[1..] == a[1..] + b;
      assert KeyFilter(a + b, key, k) == head + KeyFilter(a[1..] + b, key, k);
      assert KeyFilter(a, key, k) == head + KeyFilter(a[1..], key, k);
      KeyFilterAppend(a[1..], b, key, k);
    }
  }

  /** KeyFilter read from the end: the last element joins when its key is k. */
  lemma KeyFilterSnoc<T, K>(xs: seq<T>, key: T -> K, k: K)
    requires xs != []
    ensures KeyFilter(xs, key, k) == KeyFilter(xs[..|xs| - 1], key, k) + (if key(xs[|xs| - 1]) == k then [xs[|xs| - 1]] else [])
  {
    var init, last := xs[..|xs| - 1], xs[|xs| - 1];
    assert xs == init + [last];
    KeyFilterAppend(init, [last], key, k);
    assert [last][1..] == [];
  }

  lemma {:induction false} InsertKeyFilter<T, K(!new)>(x: T, s: seq<T>, key: T -> K, lt: (K, K) -> bool, k: K)
    requires StrictOrder(lt) && Sorted(s, key, lt)
    ensures KeyFilter(Insert(x, s, key, lt), key, k)
         == KeyFilter(s, key, k) + (if key(x) == k then [x] else [])
  {
    var xs: seq<T> := if key(x) == k then [x] else [];
    if s == [] || lt(key(x), key(s[0])) {
      var r := [x] + s;
      assert r[0] == x && r[1..] == s;
      assert KeyFilter(r, key, k) == xs + KeyFilter(s, key, k);
      if key(x) == k && s != [] {
        NoneWithKey(s, key, lt, k);
      }
    } else {
      var t := Insert(x, s[1..], key, lt);
      var r := [s[0]] + t;
      assert r[0] == s[0] && r[1..] == t;
      var head: seq<T> := if key(s[0]) == k then [s[0]] else [];
      assert Sorted(s[1..], key, lt);
      InsertKeyFilter(x, s[1..], key, lt, k);
      assert KeyFilter(r, key, k) == head + KeyFilter(t, key, k);
      assert KeyFilter(s, key, k) == head + KeyFilter(s[1..], key, k);
    }
  }

  /** In a sorted s, no element has a key that goes strictly before s[0]'s. */
  lemma {:induction false} NoneWithKey<T, K(!new)>(s: seq<T>, key: T -> K, lt: (K, K) -> bool, k: K)
    requires StrictOrder(lt) && Sorted(s, key, lt)
    requires s != [] && lt(k, key(s[0]))
    ensures KeyFilter(s, key, k) == []
  {
    var i := 0;
    while i < |s|
      invariant 0 <= i <= |s|
      invariant KeyFilter(s, key, k) == KeyFilter(s[i..], key, k)
    {
      assert key(s[i]) != k by {
        if i > 0 { assert !lt(key(s[i]), key(s[0])); }
      }
      assert s[i..][1..] == s[i + 1..];
      i := i + 1;
    }
  }

  /** Stability: among elements with the same key, the sorted order is the input order. */
  lemma {:induction false} SortStable<T, K(!new)>(xs: seq<T>, key: T -> K, lt: (K, K) -> bool, k: K)
    requires StrictOrder(lt)
    ensures KeyFilter(Sort(xs, key, lt), key, k) == KeyFilter(xs, key, k)
  {
    if xs != [] {
      var init, last := xs[..|xs| - 1], xs[|xs| - 1];
      SortStable(init, key, lt, k);
      SortSorted(init, key, lt);
      InsertKeyFilter(last, Sort(init, key, lt), key, lt, k);
      KeyFilterSnoc(xs, key, k);
    }
  }

  /** The first element of KeyFilter(xs, key, k) is the first element of xs with key k. */
  lemma {:induction false} KeyFilterHead<T, K>(xs: seq<T>, key: T -> K, k: K) returns (m: nat)
    requires KeyFilter(xs, key, k) != []
    ensures m < |xs| && key(xs[m]) == k && KeyFilter(xs, key, k)[0] == xs[m]
    ensures forall j :: 0 <= j < m ==> key(xs[j]) != k
  {
    if key(xs[0]) == k {
      m := 0;
    } else {
      var m' := KeyFilterHead(xs[1..], key, k);
      m := m' + 1;
    }
  }

  /** The head of the sorted sequence is the first input element whose key no
      other key goes strictly before. */
  lemma SortHead<T, K(!new)>(xs: seq<T>, key: T -> K, lt: (K, K) -> bool) returns (m: nat)
    requires StrictOrder(lt) && xs != []
    ensures m < |xs| && Sort(xs, key, lt)[0] == xs[m]
    ensures forall j :: 0 <= j < |xs| ==> !lt(key(xs[j]), key(xs[m]))
    ensures forall j :: 0 <= j < m ==> key(xs[j]) != key(xs[m])
  {
    var r := Sort(xs, key, lt);
    SortSorted(xs, key, lt);
    var k0 := key(r[0]);
    SortStable(xs, key, lt, k0);
    assert KeyFilter(r, key, k0)[0] == r[0];
    m := KeyFilterHead(xs, key, k0);
    forall j | 0 <= j < |xs| ensures !lt(key(xs[j]), key(xs[m])) {
      assert xs[j] in multiset(r);
      var i :| 0 <= i < |r| && r[i] == xs[j];
      if i > 0 {
        assert !lt(key(r[i]), key(r[0]));
      }
    }
  }

  /** The number of elements satisfying p. */
  function CountWhere<T>(xs: seq<T>, p: T -> bool): nat
  {
    if xs == [] then 0 else (if p(xs[0]) then 1 else 0) + CountWhere(xs[1..], p)
  }

  lemma {:induction false} InsertCount<T, K>(x: T, s: seq<T>, key: T -> K, lt: (K, K) -> bool, p: T -> bool)
    ensures CountWhere(Insert(x, s, key, lt), p) == CountWhere(s, p) + (if p(x) then 1 else 0)
  {
    if s != [] && !lt(key(x), key(s[0])) {
      InsertCount(x, s[1..], key, lt, p);
      assert ([s[0]] + Insert(x, s[1..], key, lt))[1..] == Insert(x, s[1..], key, lt);
    } else {
      assert ([x] + s)[1..] == s;
    }
  }

  lemma {:induction false} CountAppend<T>(a: seq<T>, b: seq<T>, p: T -> bool)
    ensures CountWhere(a + b, p) == CountWhere(a, p) + CountWhere(b, p)
  {
    if a == [] {
      assert a + b == b;
    } else {
      assert (a + b)[0] == a[0];
      assert (a + b)[1..] == a[1..] + b;
      CountAppend(a[1..], b, p);
    }
  }

  /** Sorting does not change how many elements satisfy any predicate. */
  lemma {:induction false} SortCount<T, K>(xs: seq<T>, key: T -> K, lt: (K, K) -> bool, p: T -> bool)
    ensures CountWhere(Sort(xs, key, lt), p) == CountWhere(xs, p)
  {
    if xs != [] {
      var init, last := xs[..|xs| - 1], xs[|xs| - 1];
      SortCount(init, key, lt, p);
      InsertCount(last, Sort(init, key, lt), key, lt, p);
      assert xs == init + [last];
      CountAppend(init, [last], p);
    }
  }
}
