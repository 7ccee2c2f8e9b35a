/** Array operations the dashboard's views are built from: `filter`, a stable
    descending sort, and the subsequence relation that filtering produces. */
module Seqs {

  /** `s.filter(p)`: the elements of `s` that satisfy `p`, in their order. */
  function Filter<T>(s: seq<T>, p: T -> bool): (r: seq<T>)
    ensures |r| <= |s|
    ensures forall x :: x in r ==> x in s && p(x)
    ensures forall x :: x in s && p(x) ==> x in r
  {
    if s == [] then []
    else if p(s[0]) then [s[0]] + Filter(s[1..], p)
    else Filter(s[1..], p)
  }

  /** `a` is `b` with some elements left out, the rest kept in order. */
  predicate IsSubsequence<T(==)>(a: seq<T>, b: seq<T>)
    decreases |a| + |b|
  {
    a == [] || (b != [] && ((a[0] == b[0] && IsSubsequence(a[1..], b[1..])) || IsSubsequence(a, b[1..])))
  }

  /** No value occurs twice. */
  predicate NoDuplicates<T(==)>(s: seq<T>) {
    forall i, j :: 0 <= i < j < |s| ==> s[i] != s[j]
  }

  lemma SubsequenceOfCons<T>(a: seq<T>, x: T, b: seq<T>)
    requires IsSubsequence(a, b)
    ensures IsSubsequence(a, [x] + b)
  {
    assert ([x] + b)[1..] == b;
  }

  /** Filtering keeps an order-preserving subsequence of its input. */
  lemma {:induction false} FilterIsSubsequence<T>(s: seq<T>, p: T -> bool)
    ensures IsSubsequence(Filter(s, p), s)
  {
    if s != [] {
      FilterIsSubsequence(s[1..], p);
      if p(s[0]) {
        var r := Filter(s, p);
        assert r[0] == s[0] && r[1..] == Filter(s[1..], p);
      } else {
        SubsequenceOfCons(Filter(s[1..], p), s[0], s[1..]);
        assert [s[0]] + s[1..] == s;
      }
    }
  }

  /** A weaker predicate keeps more: filtering by `p` gives a subsequence of
      filtering by any `q` that `p` implies. */
  lemma {:induction false} FilterMonotone<T>(s: seq<T>, p: T -> bool, q: T -> bool)
    requires forall x :: p(x) ==> q(x)
    ensures IsSubsequence(Filter(s, p), Filter(s, q))
  {
    if s != [] {
      FilterMonotone(s[1..], p, q);
      var fp, fq := Filter(s[1..], p), Filter(s[1..], q);
      if p(s[0]) {
        var a, b := [s[0]] + fp, [s[0]] + fq;
        assert a[0] == b[0] && a[1..] == fp && b[1..] == fq;
      } else if q(s[0]) {
        SubsequenceOfCons(fp, s[0], fq);
      }
    }
  }

  /** A filter that every element passes returns its input unchanged. */
  lemma {:induction false} FilterKeepsAll<T>(s: seq<T>, p: T -> bool)
    requires forall i :: 0 <= i < |s| ==> p(s[i])
    ensures Filter(s, p) == s
  {
    if s != [] {
      FilterKeepsAll(s[1..], p);
      assert [s[0]] + s[1..] == s;
    }
  }

  /** A filter that no element passes returns the empty sequence. */
  lemma {:induction false} FilterKeepsNone<T>(s: seq<T>, p: T -> bool)
    requires forall i :: 0 <= i < |s| ==> !p(s[i])
    ensures Filter(s, p) == []
  {
    if s != [] {
      FilterKeepsNone(s[1..], p);
    }
  }

  /** Filtering distributes over concatenation. */
  lemma {:induction false} FilterAppend<T>(a: seq<T>, b: seq<T>, p: T -> bool)
    ensures Filter(a + b, p) == Filter(a, p) + Filter(b, p)
  {
    if a != [] {
      FilterAppend(a[1..], b, p);
      assert (a + b)[1..] == a[1..] + b;
    } else {
      assert a + b == b;
    }
  }

  /** Filtering twice by the same predicate is filtering once. */
  lemma {:induction false} FilterIdempotent<T>(s: seq<T>, p: T -> bool)
    ensures Filter(Filter(s, p), p) == Filter(s, p)
  {
    var r := Filter(s, p);
    forall i | 0 <= i < |r| ensures p(r[i]) {
      assert r[i] in r;
    }
    FilterKeepsAll(r, p);
  }

  /** Predicates that agree on every element filter alike. */
  lemma {:induction false} FilterAgreeing<T>(s: seq<T>, p: T -> bool, q: T -> bool)
    requires forall i :: 0 <= i < |s| ==> p(s[i]) == q(s[i])
    ensures Filter(s, p) == Filter(s, q)
  {
    if s != [] {
      FilterAgreeing(s[1..], p, q);
    }
  }

  /** Filtering never introduces a duplicate. */
  lemma {:induction false} FilterNoDuplicates<T>(s: seq<T>, p: T -> bool)
    requires NoDuplicates(s)
    ensures NoDuplicates(Filter(s, p))
  {
    if s != [] {
      var t := s[1..];
      assert NoDuplicates(t) by {
        forall i, j | 0 <= i < j < |t| ensures t[i] != t[j] {
          assert t[i] == s[i + 1] && t[j] == s[j + 1];
        }
      }
      FilterNoDuplicates(t, p);
      if p(s[0]) {
        assert s[0] !in t by {
          forall k | 0 <= k < |t| ensures t[k] != s[0] {
            assert t[k] == s[k + 1];
          }
        }
        var f := Filter(t, p);
        var r := [s[0]] + f;
        forall i, j | 0 <= i < j < |r| ensures r[i] != r[j] {
          if i == 0 {
            assert r[j] == f[j - 1] && r[j] in f;
          } else {
            assert r[i] == f[i - 1] && r[j] == f[j - 1];
          }
        }
      }
    }
  }

  // ---- A stable sort in descending order of a numeric key ----------------

  /** Puts `x` in front of the first element whose key does not exceed its own. */
  function Insert<T>(x: T, t: seq<T>, key: T -> real): (r: seq<T>)
    ensures multiset(r) == multiset(t) + multiset{x}
  {
    if t == [] || key(t[0]) <= key(x) then [x] + t
    else
      assert t == [t[0]] + t[1..];
      [t[0]] + Insert(x, t[1..], key)
  }

  /** `Array.prototype.sort` with comparator `(a, b) => key(b) - key(a)`: an
      insertion sort, stable because an element is inserted in front of the
      equal keys that came after it in the input. */
  function SortDescending<T>(s: seq<T>, key: T -> real): (r: seq<T>)
    ensures multiset(r) == multiset(s)
  {
    if s == [] then []
    else
      assert s == [s[0]] + s[1..];
      Insert(s[0], SortDescending(s[1..], key), key)
  }

  /** Sorting keeps exactly the elements it was given. */
  lemma SortMembership<T>(s: seq<T>, key: T -> real)
    ensures forall x :: x in SortDescending(s, key) <==> x in s
  {
    var r := SortDescending(s, key);
    forall x ensures x in r <==> x in s {
      assert x in r <==> x in multiset(r);
      assert x in s <==> x in multiset(s);
    }
  }

  ghost predicate IsSortedDescending<T>(s: seq<T>, key: T -> real) {
    forall i, j :: 0 <= i < j < |s| ==> key(s[i]) >= key(s[j])
  }

  /** The elements whose key is `v`, in order. */
  function WithKey<T>(s: seq<T>, key: T -> real, v: real): seq<T> {
    if s == [] then []
    else if key(s[0]) == v then [s[0]] + WithKey(s[1..], key, v)
    else WithKey(s[1..], key, v)
  }

  /** Every key of `s` is at most `b`. */
  predicate KeysAtMost<T>(s: seq<T>, key: T -> real, b: real) {
    forall i :: 0 <= i < |s| ==> key(s[i]) <= b
  }

  /** Inserting an element under a bound keeps the bound. */
  lemma {:induction false} InsertKeepsBound<T>(x: T, t: seq<T>, key: T -> real, b: real)
    requires key(x) <= b && KeysAtMost(t, key, b)
    ensures KeysAtMost(Insert(x, t, key), key, b)
  {
    if t != [] && key(t[0]) > key(x) {
      InsertKeepsBound(x, t[1..], key, b);
      var rest := Insert(x, t[1..], key);
      forall i | 0 <= i < |[t[0]] + rest| ensures key(([t[0]] + rest)[i]) <= b {
        if i > 0 {
          assert ([t[0]] + rest)[i] == rest[i - 1];
        }
      }
    }
  }

  /** A sorted list stays sorted behind a head at least as large as all of it. */
  lemma SortedCons<T>(h: T, r: seq<T>, key: T -> real)
    requires IsSortedDescending(r, key) && KeysAtMost(r, key, key(h))
    ensures IsSortedDescending([h] + r, key)
  {
    var s := [h] + r;
    forall i, j | 0 <= i < j < |s| ensures key(s[i]) >= key(s[j]) {
      assert s[j] == r[j - 1];
      if i > 0 {
        assert s[i] == r[i - 1];
      }
    }
  }

  lemma {:induction false} InsertSorted<T>(x: T, t: seq<T>, key: T -> real)
    requires IsSortedDescending(t, key)
    ensures IsSortedDescending(Insert(x, t, key), key)
  {
    if t == [] || key(t[0]) <= key(x) {
      forall j | 0 <= j < |t| ensures key(t[j]) <= key(x) {
        assert key(t[0]) >= key(t[j]) || j == 0;
      }
      SortedCons(x, t, key);
    } else {
      var t1 := t[1..];
      assert IsSortedDescending(t1, key) by {
        forall i, j | 0 <= i < j < |t1| ensures key(t1[i]) >= key(t1[j]) {
          assert t1[i] == t[i + 1] && t1[j] == t[j + 1];
        }
      }
      assert KeysAtMost(t1, key, key(t[0])) by {
        forall i | 0 <= i < |t1| ensures key(t1[i]) <= key(t[0]) {
          assert t1[i] == t[i + 1];
        }
      }
      InsertSorted(x, t1, key);
      InsertKeepsBound(x, t1, key, key(t[0]));
      SortedCons(t[0], Insert(x, t1, key), key);
    }
  }

  /** The sort orders its result by descending key. */
  lemma {:induction false} SortIsSorted<T>(s: seq<T>, key: T -> real)
    ensures IsSortedDescending(SortDescending(s, key), key)
  {
    if s != [] {
      SortIsSorted(s[1..], key);
      InsertSorted(s[0], SortDescending(s[1..], key), key);
    }
  }

  lemma {:induction false} InsertWithKey<T>(x: T, t: seq<T>, key: T -> real, v: real)
    ensures WithKey(Insert(x, t, key), key, v)
         == (if key(x) == v then [x] + WithKey(t, key, v) else WithKey(t, key, v))
  {
    if t == [] || key(t[0]) <= key(x) {
      var r := [x] + t;
      assert r[0] == x && r[1..] == t;
    } else {
      InsertWithKey(x, t[1..], key, v);
      var r := [t[0]] + Insert(x, t[1..], key);
      assert r[0] == t[0] && r[1..] == Insert(x, t[1..], key);
    }
  }

  /** Stability: for every key value, the elements carrying it appear in the
      same relative order before and after sorting. */
  lemma {:induction false} SortIsStable<T>(s: seq<T>, key: T -> real, v: real)
    ensures WithKey(SortDescending(s, key), key, v) == WithKey(s, key, v)
  {
    if s != [] {
      SortIsStable(s[1..], key, v);
      InsertWithKey(s[0], SortDescending(s[1..], key), key, v);
    }
  }

  /** With a key that is the same for every element the sort is the identity,
      as it is for a comparator that always returns 0. */
  lemma {:induction false} SortConstantKeyIdentity<T>(s: seq<T>, key: T -> real, c: real)
    requires forall x :: key(x) == c
    ensures SortDescending(s, key) == s
  {
    if s != [] {
      SortConstantKeyIdentity(s[1..], key, c);
      assert [s[0]] + s[1..] == s;
    }
  }
}
