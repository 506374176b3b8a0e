/** Generic sequence helpers used by the restaurant model: Python's `next(...)`
    lookups, list-comprehension filters, the stable `sorted`, and the string
    tests `startswith` and `in`. */
module Collections {

  datatype Option<T> = None | Some(value: T)

  // ---------------------------------------------------------------------
  // First match (Python's `next((x for x in s if p(x)), None)`)
  // ---------------------------------------------------------------------

  /** The index of the first element of `s` satisfying `p`, if any. */
  function FirstIndex<T>(s: seq<T>, p: T -> bool): (r: Option<nat>)
    ensures r.None? <==> forall i :: 0 <= i < |s| ==> !p(s[i])
    ensures r.Some? ==> r.value < |s| && p(s[r.value])
    ensures r.Some? ==> forall j :: 0 <= j < r.value ==> !p(s[j])
  {
    if s == [] then None
    else if p(s[0]) then Some(0)
    else match FirstIndex(s[1..], p)
      case None => None
      case Some(k) => Some(k + 1)
  }

  // ---------------------------------------------------------------------
  // Filters (list comprehensions)
  // ---------------------------------------------------------------------

  /** The elements of `s` that satisfy `p`, in their original order. */
  function Filter<T>(s: seq<T>, p: T -> bool): (r: seq<T>)
    ensures |r| <= |s|
  {
    if s == [] then [] else (if p(s[0]) then [s[0]] else []) + Filter(s[1..], p)
  }

  /** `a` can be obtained from `b` by deleting elements (greedy leftmost matching). */
  predicate IsSubsequence<T(==)>(a: seq<T>, b: seq<T>)
    decreases |b|
  {
    if a == [] then true
    else if b == [] then false
    else if a[0] == b[0] then IsSubsequence(a[1..], b[1..])
    else IsSubsequence(a, b[1..])
  }

  /** `r` is exactly the `p`-elements of `s`: an order-preserving subsequence,
      only `p`-elements, and every `p`-element of `s` with its full multiplicity. */
  ghost predicate IsFilterOf<T>(r: seq<T>, s: seq<T>, p: T -> bool)
  {
    && IsSubsequence(r, s)
    && (forall x :: x in r ==> p(x))
    && (forall x :: x in s && p(x) ==> multiset(r)[x] == multiset(s)[x])
  }

  lemma {:induction false} SubsequenceRefl<T>(s: seq<T>)
    ensures IsSubsequence(s, s)
  {
    if s != [] { SubsequenceRefl(s[1..]); }
  }

  lemma {:induction false} SubsequenceCons<T>(x: T, a: seq<T>, b: seq<T>)
    requires IsSubsequence(a, b)
    ensures IsSubsequence([x] + a, [x] + b)
  {
    assert ([x] + a)[1..] == a;
    assert ([x] + b)[1..] == b;
  }

  lemma {:induction false} SubsequenceSkip<T>(x: T, a: seq<T>, b: seq<T>)
    requires IsSubsequence(a, b)
    ensures IsSubsequence(a, [x] + b)
    decreases |b|, 1
  {
    assert ([x] + b)[1..] == b;
    if a != [] && a[0] == x {
      // the greedy match takes x; a[1..] is still a subsequence of b
      SubsequenceTail(a, b);
    }
  }

  lemma {:induction false} SubsequenceTail<T>(a: seq<T>, b: seq<T>)
    requires a != [] && IsSubsequence(a, b)
    ensures IsSubsequence(a[1..], b)
    decreases |b|, 0
  {
    if a[0] == b[0] {
      SubsequenceSkip(b[0], a[1..], b[1..]);
      assert [b[0]] + b[1..] == b;
    } else {
      SubsequenceTail(a, b[1..]);
      SubsequenceSkip(b[0], a[1..], b[1..]);
      assert [b[0]] + b[1..] == b;
    }
  }

  lemma {:induction false} SubsequenceTrans<T>(a: seq<T>, b: seq<T>, c: seq<T>)
    requires IsSubsequence(a, b) && IsSubsequence(b, c)
    ensures IsSubsequence(a, c)
    decreases |c|
  {
    if a == [] {
    } else if c == [] {
    } else if b[0] == c[0] {
      if a[0] == b[0] {
        SubsequenceTrans(a[1..], b[1..], c[1..]);
      } else {
        SubsequenceTrans(a, b[1..], c[1..]);
      }
    } else {
      SubsequenceTrans(a, b, c[1..]);
      SubsequenceSkip(c[0], a, c[1..]);
      assert [c[0]] + c[1..] == c;
    }
  }

  lemma {:induction false} SubsequenceMembers<T>(a: seq<T>, b: seq<T>)
    requires IsSubsequence(a, b)
    ensures forall x :: x in a ==> x in b
    decreases |b|
  {
    if a != [] && b != [] {
      if a[0] == b[0] {
        SubsequenceMembers(a[1..], b[1..]);
        assert forall x :: x in a ==> x == a[0] || x in a[1..];
      } else {
        SubsequenceMembers(a, b[1..]);
      }
    }
  }

  /** The filter really is a filter: order-preserving, only `p`-elements, none lost. */
  lemma {:induction false} FilterIsFilterOf<T>(s: seq<T>, p: T -> bool)
    ensures IsFilterOf(Filter(s, p), s, p)
  {
    if s == [] {
    } else {
      FilterIsFilterOf(s[1..], p);
      var t := Filter(s[1..], p);
      assert s == [s[0]] + s[1..];
      SubsequenceMembers(t, s[1..]);
      if p(s[0]) {
        SubsequenceCons(s[0], t, s[1..]);
        assert Filter(s, p) == [s[0]] + t;
      } else {
        SubsequenceSkip(s[0], t, s[1..]);
        assert Filter(s, p) == t;
      }
    }
  }

  /** An element is in the filter exactly when it is in `s` and satisfies `p`. */
  lemma {:induction false} FilterMembers<T>(s: seq<T>, p: T -> bool)
    ensures forall x :: x in Filter(s, p) ==> x in s && p(x)
    ensures forall x :: x in s && p(x) ==> x in Filter(s, p)
  {
    if s != [] {
      FilterMembers(s[1..], p);
      assert forall x :: x in s <==> x == s[0] || x in s[1..];
    }
  }

  /** A filter of a filter is the filter by the conjunction. */
  lemma FilterOfFilter<T>(r: seq<T>, t: seq<T>, s: seq<T>, p: T -> bool, q: T -> bool, pq: T -> bool)
    requires IsFilterOf(t, s, p) && IsFilterOf(r, t, q)
    requires forall x :: pq(x) == (p(x) && q(x))
    ensures IsFilterOf(r, s, pq)
  {
    SubsequenceTrans(r, t, s);
    SubsequenceMembers(r, t);
    forall x | x in s && pq(x) ensures multiset(r)[x] == multiset(s)[x] {
      assert multiset(t)[x] == multiset(s)[x];
      assert x in multiset(s);
      assert x in t;
    }
  }

  /** Keeping every element is a filter by any predicate that holds everywhere. */
  lemma FilterOfSelf<T>(s: seq<T>, p: T -> bool)
    requires forall x :: x in s ==> p(x)
    ensures IsFilterOf(s, s, p)
  {
    SubsequenceRefl(s);
  }

  // ---------------------------------------------------------------------
  // Stable sort (Python's `sorted(s, key=...)`, which is stable)
  // ---------------------------------------------------------------------

  ghost predicate SortedBy<T>(s: seq<T>, key: T -> real)
  {
    forall i, j :: 0 <= i < j < |s| ==> key(s[i]) <= key(s[j])
  }

  /** Inserts `x` before the first element whose key is not smaller than its own. */
  function Insert<T>(x: T, s: seq<T>, key: T -> real): (r: seq<T>)
    ensures |r| == |s| + 1
    ensures multiset(r) == multiset{x} + multiset(s)
  {
    if s == [] || key(x) <= key(s[0]) then [x] + s
    else
      assert s == [s[0]] + s[1..];
      [s[0]] + Insert(x, s[1..], key)
  }

  /** Stable insertion sort by ascending key; a descending sort (Python's
      `reverse=True`, which also keeps ties in order) is a sort by the negated key. */
  function SortBy<T>(s: seq<T>, key: T -> real): (r: seq<T>)
    ensures |r| == |s|
    ensures multiset(r) == multiset(s)
  {
    if s == [] then []
    else
      assert s == [s[0]] + s[1..];
      Insert(s[0], SortBy(s[1..], key), key)
  }

  /** The elements of `s` whose key is `k`, in order. */
  function KeyFilter<T>(s: seq<T>, key: T -> real, k: real): (r: seq<T>)
    ensures |r| <= |s|
  {
    if s == [] then [] else (if key(s[0]) == k then [s[0]] else []) + KeyFilter(s[1..], key, k)
  }

  /** The tail of an ordered sequence is ordered. */
  lemma SortedTail<T>(s: seq<T>, key: T -> real)
    requires s != [] && SortedBy(s, key)
    ensures SortedBy(s[1..], key)
  {
    forall i, j | 0 <= i < j < |s[1..]| ensures key(s[1..][i]) <= key(s[1..][j]) {
      assert s[1..][i] == s[i + 1] && s[1..][j] == s[j + 1];
    }
  }

  /** An element no larger than any of an ordered sequence may go in front. */
  lemma SortedCons<T>(y: T, t: seq<T>, key: T -> real)
    requires SortedBy(t, key) && forall j :: 0 <= j < |t| ==> key(y) <= key(t[j])
    ensures SortedBy([y] + t, key)
  {
    var r := [y] + t;
    forall i, j | 0 <= i < j < |r| ensures key(r[i]) <= key(r[j]) {
      assert r[j] == t[j - 1];
      if i > 0 { assert r[i] == t[i - 1]; }
    }
  }

  lemma {:induction false} InsertSorted<T>(x: T, s: seq<T>, key: T -> real)
    requires SortedBy(s, key)
    ensures SortedBy(Insert(x, s, key), key)
  {
    if s == [] || key(x) <= key(s[0]) {
      forall j | 0 <= j < |s| ensures key(x) <= key(s[j]) {
        if j > 0 { assert key(s[0]) <= key(s[j]); }
      }
      SortedCons(x, s, key);
    } else {
      SortedTail(s, key);
      InsertSorted(x, s[1..], key);
      var t := Insert(x, s[1..], key);
      forall j | 0 <= j < |t| ensures key(s[0]) <= key(t[j]) {
        assert t[j] in multiset(t);
        assert t[j] in multiset{x} + multiset(s[1..]);
        if t[j] != x {
          assert t[j] in s[1..];
          var k :| 0 <= k < |s[1..]| && s[1..][k] == t[j];
          assert s[1..][k] == s[k + 1];
        }
      }
      SortedCons(s[0], t, key);
    }
  }

  /** A filter of an ordered sequence is ordered. */
  lemma {:induction false} FilterSorted<T>(s: seq<T>, p: T -> bool, key: T -> real)
    requires SortedBy(s, key)
    ensures SortedBy(Filter(s, p), key)
  {
    if s != [] {
      assert SortedBy(s[1..], key) by {
        forall i, j | 0 <= i < j < |s[1..]| ensures key(s[1..][i]) <= key(s[1..][j]) {
          assert s[1..][i] == s[i + 1] && s[1..][j] == s[j + 1];
        }
      }
      FilterSorted(s[1..], p, key);
      var t := Filter(s[1..], p);
      if p(s[0]) {
        forall y | y in t ensures key(s[0]) <= key(y) {
          FilterMembers(s[1..], p);
          var k :| 0 <= k < |s[1..]| && s[1..][k] == y;
          assert s[k + 1] == y;
        }
        var r := [s[0]] + t;
        forall i, j | 0 <= i < j < |r| ensures key(r[i]) <= key(r[j]) {
          assert r[j] == t[j - 1];
          if i == 0 {
            assert t[j - 1] in t;
          } else {
            assert r[i] == t[i - 1];
          }
        }
      }
    }
  }

  /** The sort's result is ordered by key. */
  lemma {:induction false} SortBySorted<T>(s: seq<T>, key: T -> real)
    ensures SortedBy(SortBy(s, key), key)
  {
    if s != [] {
      SortBySorted(s[1..], key);
      InsertSorted(s[0], SortBy(s[1..], key), key);
    }
  }

  lemma {:induction false} InsertKeyFilter<T>(x: T, s: seq<T>, key: T -> real, k: real)
    ensures KeyFilter(Insert(x, s, key), key, k)
         == (if key(x) == k then [x] else []) + KeyFilter(s, key, k)
  {
    if s == [] || key(x) <= key(s[0]) {
      assert ([x] + s)[1..] == s;
    } else {
      var t := Insert(x, s[1..], key);
      InsertKeyFilter(x, s[1..], key, k);
      assert ([s[0]] + t)[1..] == t;
      // s[0] has a smaller key than x, so it is never a tie with x
      if key(x) == k {
        assert key(s[0]) != k;
        assert KeyFilter([s[0]] + t, key, k) == KeyFilter(t, key, k);
      } else {
        assert KeyFilter(t, key, k) == KeyFilter(s[1..], key, k);
      }
    }
  }

  /** Stability: among elements with equal keys the sort keeps the input order. */
  lemma {:induction false} SortByStable<T>(s: seq<T>, key: T -> real, k: real)
    ensures KeyFilter(SortBy(s, key), key, k) == KeyFilter(s, key, k)
  {
    if s != [] {
      SortByStable(s[1..], key, k);
      InsertKeyFilter(s[0], SortBy(s[1..], key), key, k);
    }
  }

  /** An input that is already ordered by key comes out unchanged. */
  lemma {:induction false} SortByIdentity<T>(s: seq<T>, key: T -> real)
    requires SortedBy(s, key)
    ensures SortBy(s, key) == s
  {
    if s != [] {
      assert SortedBy(s[1..], key) by {
        forall i, j | 0 <= i < j < |s[1..]| ensures key(s[1..][i]) <= key(s[1..][j]) {
          assert s[1..][i] == s[i + 1] && s[1..][j] == s[j + 1];
        }
      }
      SortByIdentity(s[1..], key);
      if |s| > 1 { assert s[1..][0] == s[1]; }
      assert [s[0]] + s[1..] == s;
    }
  }

  /** Every element in a prefix of an ordered sequence has a key no larger than
      any element after the prefix. */
  lemma SortedSplit<T>(s: seq<T>, key: T -> real, n: nat)
    requires SortedBy(s, key) && n <= |s|
    ensures forall x, y :: x in s[..n] && y in s[n..] ==> key(x) <= key(y)
  {
    forall x, y | x in s[..n] && y in s[n..] ensures key(x) <= key(y) {
      var i :| 0 <= i < n && s[..n][i] == x;
      var j :| 0 <= j < |s| - n && s[n..][j] == y;
      assert s[i] == x && s[n + j] == y;
    }
  }

  /** The elements with key `k` of a prefix form a prefix of the elements with key `k`. */
  lemma {:induction false} KeyFilterPrefix<T>(s: seq<T>, key: T -> real, k: real, n: nat)
    requires n <= |s|
    ensures KeyFilter(s[..n], key, k) <= KeyFilter(s, key, k)
  {
    if n > 0 {
      KeyFilterPrefix(s[1..], key, k, n - 1);
      assert s[..n][1..] == s[1..][..n - 1];
      assert s[..n][0] == s[0];
    }
  }

  /** Whatever a sorted sequence leaves after its first `n` elements has a
      key no smaller than any of those `n`. */
  lemma SortedPrefixDominates<T>(s: seq<T>, key: T -> real, n: nat)
    requires SortedBy(s, key) && n <= |s|
    ensures forall x, y :: x in multiset(s) - multiset(s[..n]) && y in s[..n] ==> key(y) <= key(x)
  {
    assert s == s[..n] + s[n..];
    assert multiset(s) == multiset(s[..n]) + multiset(s[n..]);
    SortedSplit(s, key, n);
    forall x, y | x in multiset(s) - multiset(s[..n]) && y in s[..n] ensures key(y) <= key(x) {
      assert x in multiset(s[n..]);
      assert x in s[n..];
    }
  }

  /** A prefix of a sorted sequence is a sorted sub-multiset of it. */
  lemma PrefixOfSorted<T>(s: seq<T>, key: T -> real, n: nat)
    requires SortedBy(s, key) && n <= |s|
    ensures multiset(s[..n]) <= multiset(s)
    ensures SortedBy(s[..n], key)
  {
    assert s == s[..n] + s[n..];
    assert multiset(s) == multiset(s[..n]) + multiset(s[n..]);
  }

  /** The first `n` elements of the stable sort are a sub-multiset of the
      input, ordered by key, no element left out has a smaller key than one
      taken, and equal keys keep their input order. */
  lemma SortByPrefix<T>(s: seq<T>, key: T -> real, n: nat)
    requires n <= |s|
    ensures var r := SortBy(s, key)[..n];
      && multiset(r) <= multiset(s)
      && SortedBy(r, key)
      && (forall x, y :: x in multiset(s) - multiset(r) && y in r ==> key(y) <= key(x))
      && (forall k :: KeyFilter(r, key, k) <= KeyFilter(s, key, k))
  {
    var sorted := SortBy(s, key);
    SortBySorted(s, key);
    PrefixOfSorted(sorted, key, n);
    SortedPrefixDominates(sorted, key, n);
    forall k ensures KeyFilter(sorted[..n], key, k) <= KeyFilter(s, key, k) {
      SortByPrefixStable(s, key, n, k);
    }
  }

  lemma SortByPrefixStable<T>(s: seq<T>, key: T -> real, n: nat, k: real)
    requires n <= |s|
    ensures KeyFilter(SortBy(s, key)[..n], key, k) <= KeyFilter(s, key, k)
  {
    KeyFilterPrefix(SortBy(s, key), key, k, n);
    SortByStable(s, key, k);
  }

  // ---------------------------------------------------------------------
  // Strings (Python's `str.startswith` and `sub in s`)
  // ---------------------------------------------------------------------

  predicate StartsWith(s: string, prefix: string)
  {
    |prefix| <= |s| && s[..|prefix|] == prefix
  }

  predicate Contains(s: string, sub: string)
  {
    exists i :: 0 <= i <= |s| - |sub| && sub <= s[i..]
  }

  function Min(a: int, b: int): (r: int)
    ensures r <= a && r <= b && (r == a || r == b)
  {
    if a <= b then a else b
  }

  function Max(a: real, b: real): (r: real)
    ensures r >= a && r >= b && (r == a || r == b)
  {
    if a >= b then a else b
  }
}
