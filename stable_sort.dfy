/**
  `Array.prototype.sort` with a comparator of the form `key(a) - key(b)`.
  The sort is stable, so with such a comparator its result is the unique
  ordering that is sorted by key, a permutation of the input, and keeps the
  input order among elements of equal key. An insertion sort on sequences
  produces that same ordering; the lemmas below prove the three properties.
  (A comparator that sorts descending is `key` negated.)
 */
module StableSort {
  import opened Folds

  /** Put `x` in front of the first element whose key is not smaller than its own. */
  function Insert<T>(x: T, ys: seq<T>, key: T -> real): (r: seq<T>)
    ensures |r| == |ys| + 1
    ensures multiset(r) == multiset(ys) + multiset{x}
  {
    if ys == [] || key(x) <= key(ys[0]) then [x] + ys
    else
      assert ys == [ys[0]] + ys[1..];
      [ys[0]] + Insert(x, ys[1..], key)
  }

  /** `[...xs].sort((a, b) => key(a) - key(b))` */
  function SortBy<T>(xs: seq<T>, key: T -> real): (r: seq<T>)
    ensures |r| == |xs|
    ensures multiset(r) == multiset(xs)
  {
    if xs == [] then []
    else
      assert xs == [xs[0]] + xs[1..];
      Insert(xs[0], SortBy(xs[1..], key), key)
  }

  ghost predicate Sorted<T>(xs: seq<T>, key: T -> real)
  {
    forall i, j :: 0 <= i < j < |xs| ==> key(xs[i]) <= key(xs[j])
  }

  /** The elements whose key is `c`, in their order in `xs`. */
  function KeyClass<T>(xs: seq<T>, key: T -> real, c: real): (r: seq<T>)
  {
    if xs == [] then []
    else (if key(xs[0]) == c then [xs[0]] else []) + KeyClass(xs[1..], key, c)
  }

  lemma {:induction false} InsertSorted<T>(x: T, ys: seq<T>, key: T -> real)
    requires Sorted(ys, key)
    ensures Sorted(Insert(x, ys, key), key)
    decreases |ys|
  {
    if ys != [] && key(ys[0]) < key(x) {
      var tail := Insert(x, ys[1..], key);
      InsertSorted(x, ys[1..], key);
      forall j | 0 <= j < |tail|
        ensures key(ys[0]) <= key(tail[j])
      {
        assert tail[j] in multiset(tail);
        if tail[j] != x {
          assert tail[j] in multiset(ys[1..]);
          var k :| 0 <= k < |ys[1..]| && ys[1..][k] == tail[j];
          assert ys[1..][k] == ys[k + 1];
        }
      }
      SortedCons(ys[0], tail, key);
    }
  }

  lemma SortedCons<T>(y: T, zs: seq<T>, key: T -> real)
    requires Sorted(zs, key)
    requires forall j :: 0 <= j < |zs| ==> key(y) <= key(zs[j])
    ensures Sorted([y] + zs, key)
  {
    forall i, j | 0 <= i < j < |[y] + zs| ensures key(([y] + zs)[i]) <= key(([y] + zs)[j]) {
      assert ([y] + zs)[j] == zs[j - 1];
      if i > 0 {
        assert ([y] + zs)[i] == zs[i - 1];
      }
    }
  }

  /** Inserting `x` in front of its key's place keeps it ahead of its equals. */
  lemma {:induction false} InsertKeyClass<T>(x: T, ys: seq<T>, key: T -> real, c: real)
    ensures KeyClass(Insert(x, ys, key), key, c) == KeyClass([x] + ys, key, c)
    decreases |ys|
  {
    if ys == [] || key(x) <= key(ys[0]) {
    } else {
      InsertKeyClass(x, ys[1..], key, c);
      assert ([x] + ys)[1..] == ys;
      assert ([x] + ys[1..])[1..] == ys[1..];
      assert ([ys[0]] + Insert(x, ys[1..], key))[1..] == Insert(x, ys[1..], key);
    }
  }

  /** The result is in non-decreasing key order. */
  lemma {:induction false} SortBySorted<T>(xs: seq<T>, key: T -> real)
    ensures Sorted(SortBy(xs, key), key)
    decreases |xs|
  {
    if xs != [] {
      SortBySorted(xs[1..], key);
      InsertSorted(xs[0], SortBy(xs[1..], key), key);
    }
  }

  /** Stability: among elements of equal key, the input order is kept. */
  lemma {:induction false} SortByStable<T>(xs: seq<T>, key: T -> real, c: real)
    ensures KeyClass(SortBy(xs, key), key, c) == KeyClass(xs, key, c)
    decreases |xs|
  {
    if xs != [] {
      SortByStable(xs[1..], key, c);
      InsertKeyClass(xs[0], SortBy(xs[1..], key), key, c);
      assert ([xs[0]] + SortBy(xs[1..], key))[1..] == SortBy(xs[1..], key);
    }
  }

  lemma {:induction false} InsertSum<T>(x: T, ys: seq<T>, key: T -> real, f: T -> real)
    ensures Sum(Insert(x, ys, key), f) == f(x) + Sum(ys, f)
    decreases |ys|
  {
    SumAppend([x], ys, f);
    assert Sum([x], f) == Sum([], f) + f(x);
    if ys != [] && key(ys[0]) < key(x) {
      InsertSum(x, ys[1..], key, f);
      SumAppend([ys[0]], Insert(x, ys[1..], key), f);
      SumAppend([ys[0]], ys[1..], f);
      assert [ys[0]] + ys[1..] == ys;
      assert Sum([ys[0]], f) == Sum([], f) + f(ys[0]);
    }
  }

  /** Sorting does not change a sum over the elements. */
  lemma {:induction false} SortBySum<T>(xs: seq<T>, key: T -> real, f: T -> real)
    ensures Sum(SortBy(xs, key), f) == Sum(xs, f)
    decreases |xs|
  {
    if xs != [] {
      SortBySum(xs[1..], key, f);
      InsertSum(xs[0], SortBy(xs[1..], key), key, f);
      SumAppend([xs[0]], xs[1..], f);
      assert [xs[0]] + xs[1..] == xs;
      assert Sum([xs[0]], f) == Sum([], f) + f(xs[0]);
    }
  }

  lemma {:induction false} KeyClassAppend<T>(a: seq<T>, b: seq<T>, key: T -> real, c: real)
    ensures KeyClass(a + b, key, c) == KeyClass(a, key, c) + KeyClass(b, key, c)
    decreases |a|
  {
    if a == [] {
      assert a + b == b;
    } else {
      var head := if key(a[0]) == c then [a[0]] else [];
      assert (a + b)[0] == a[0];
      assert (a + b)[1..] == a[1..] + b;
      assert KeyClass(a + b, key, c) == head + KeyClass(a[1..] + b, key, c);
      KeyClassAppend(a[1..], b, key, c);
      assert KeyClass(a, key, c) == head + KeyClass(a[1..], key, c);
    }
  }

  /**
    Taking the first `n` sorted elements keeps stability: the elements of
    each key that are kept are the earliest ones of that key in the input,
    in input order.
   */
  lemma SortByPrefixStable<T>(xs: seq<T>, key: T -> real, n: nat, c: real)
    requires n <= |xs|
    ensures KeyClass(SortBy(xs, key)[..n], key, c) <= KeyClass(xs, key, c)
  {
    var sorted := SortBy(xs, key);
    assert sorted == sorted[..n] + sorted[n..];
    KeyClassAppend(sorted[..n], sorted[n..], key, c);
    SortByStable(xs, key, c);
  }

  /**
    The first `n` sorted elements are drawn from the input and no element
    left out has a smaller key than one kept.
   */
  lemma SortByPrefixDominates<T>(xs: seq<T>, key: T -> real, n: nat)
    requires n <= |xs|
    ensures multiset(SortBy(xs, key)[..n]) <= multiset(xs)
    ensures forall x, t :: x in multiset(xs) - multiset(SortBy(xs, key)[..n]) && t in SortBy(xs, key)[..n]
              ==> key(t) <= key(x)
  {
    var sorted := SortBy(xs, key);
    SortBySorted(xs, key);
    assert sorted == sorted[..n] + sorted[n..];
    assert multiset(xs) == multiset(sorted[..n]) + multiset(sorted[n..]);
    forall x, t | x in multiset(xs) - multiset(sorted[..n]) && t in sorted[..n]
      ensures key(t) <= key(x)
    {
      assert x in multiset(sorted[n..]);
      var j :| 0 <= j < |sorted[n..]| && sorted[n..][j] == x;
      var i :| 0 <= i < n && sorted[i] == t;
      assert sorted[n + j] == x;
    }
  }
}
