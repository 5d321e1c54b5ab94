/**
  Left-to-right folds over sequences, the shapes of `Array.prototype.filter`
  and `reduce((sum, x) => sum + f(x), 0)`. Every fold is defined on the LAST
  element, so that a `forEach` loop that has processed a prefix `xs[..i]`
  holds exactly the fold of that prefix.
 */
module Folds {

  function Last<T>(xs: seq<T>): (r: T)
    requires xs != []
  {
    xs[|xs| - 1]
  }

  function Init<T>(xs: seq<T>): (r: seq<T>)
    requires xs != []
  {
    xs[..|xs| - 1]
  }

  /** `xs.filter(p)`: the elements satisfying `p`, in their original order. */
  function Filter<T>(xs: seq<T>, p: T -> bool): (r: seq<T>)
    ensures |r| <= |xs|
    ensures forall i :: 0 <= i < |r| ==> r[i] in xs && p(r[i])
    ensures forall i :: 0 <= i < |xs| && p(xs[i]) ==> xs[i] in r
    decreases |xs|
  {
    if xs == [] then []
    else
      assert xs == Init(xs) + [Last(xs)];
      Filter(Init(xs), p) + (if p(Last(xs)) then [Last(xs)] else [])
  }

  /** `xs.reduce((s, x) => s + f(x), 0)` over reals. */
  function Sum<T>(xs: seq<T>, f: T -> real): (r: real)
    decreases |xs|
  {
    if xs == [] then 0.0 else Sum(Init(xs), f) + f(Last(xs))
  }

  /** `xs.reduce((s, x) => s + f(x), 0)` over counts. */
  function Total<T>(xs: seq<T>, f: T -> nat): (r: nat)
    decreases |xs|
  {
    if xs == [] then 0 else Total(Init(xs), f) + f(Last(xs))
  }

  /** A count measure read as a real one. */
  function AsReal<T>(f: T -> nat): (r: T -> real)
  {
    x => f(x) as real
  }

  /** A total of counts, read as a real, is the sum of the same counts as reals. */
  lemma {:induction false} TotalAsSum<T>(xs: seq<T>, f: T -> nat)
    ensures Total(xs, f) as real == Sum(xs, AsReal(f))
    decreases |xs|
  {
    if xs != [] {
      TotalAsSum(Init(xs), f);
    }
  }

  /** The elements of `xs` whose key is `k`, in order. */
  function Matching<T>(xs: seq<T>, key: T -> string, k: string): (r: seq<T>)
    ensures forall i :: 0 <= i < |r| ==> r[i] in xs && key(r[i]) == k
    ensures forall i :: 0 <= i < |xs| && key(xs[i]) == k ==> xs[i] in r
  {
    Filter(xs, x => key(x) == k)
  }

  /** Starting from `v`, apply `add` to every element in order. */
  function FoldFrom<T, V>(v: V, add: (V, T) -> V, xs: seq<T>): (r: V)
    decreases |xs|
  {
    if xs == [] then v else add(FoldFrom(v, add, Init(xs)), Last(xs))
  }

  /** `xs.map(f)` */
  function Map<T, R>(xs: seq<T>, f: T -> R): (r: seq<R>)
    ensures |r| == |xs|
    ensures forall i :: 0 <= i < |xs| ==> r[i] == f(xs[i])
    decreases |xs|
  {
    if xs == [] then [] else Map(Init(xs), f) + [f(Last(xs))]
  }

  /** Summing a field of the mapped elements sums the corresponding measure of the originals. */
  lemma {:induction false} SumMap<T(!new), R>(xs: seq<T>, mk: T -> R, f: R -> real, g: T -> real)
    requires forall x :: f(mk(x)) == g(x)
    ensures Sum(Map(xs, mk), f) == Sum(xs, g)
    decreases |xs|
  {
    if xs != [] {
      SumMap(Init(xs), mk, f, g);
      assert Init(Map(xs, mk)) == Map(Init(xs), mk);
    }
  }

  /** Scaling every measure by `k` scales their sum by `k`. */
  lemma {:induction false} SumScale<T(!new)>(xs: seq<T>, g: T -> real, h: T -> real, k: real)
    requires forall x :: h(x) == k * g(x)
    ensures Sum(xs, h) == k * Sum(xs, g)
    decreases |xs|
  {
    if xs != [] {
      SumScale(Init(xs), g, h, k);
      assert h(Last(xs)) == k * g(Last(xs));
    }
  }

  /** The positions `xs.filter(p)` keeps: increasing, and exactly those whose element satisfies `p`. */
  function Kept<T>(xs: seq<T>, p: T -> bool): (idx: seq<nat>)
    ensures forall i :: 0 <= i < |idx| ==> idx[i] < |xs| && p(xs[idx[i]])
    ensures forall i, j :: 0 <= i < j < |idx| ==> idx[i] < idx[j]
    ensures forall j :: 0 <= j < |xs| && p(xs[j]) ==> j in idx
    decreases |xs|
  {
    if xs == [] then []
    else
      var r := Kept(Init(xs), p);
      assert forall i :: 0 <= i < |r| ==> xs[r[i]] == Init(xs)[r[i]];
      r + (if p(Last(xs)) then [|xs| - 1] else [])
  }

  /** `xs.filter(p)` lists the kept positions' elements, in order. */
  lemma {:induction false} FilterKept<T>(xs: seq<T>, p: T -> bool)
    ensures |Filter(xs, p)| == |Kept(xs, p)|
    ensures forall i :: 0 <= i < |Kept(xs, p)| ==> Filter(xs, p)[i] == xs[Kept(xs, p)[i]]
    decreases |xs|
  {
    if xs != [] {
      FilterKept(Init(xs), p);
    }
  }

  /** `xs.filter(p)` keeps, in order, exactly the positions whose element satisfies `p`. */
  lemma FilterExactly<T>(xs: seq<T>, p: T -> bool)
    ensures var kept := Kept(xs, p);
      && |Filter(xs, p)| == |kept|
      && (forall i :: 0 <= i < |kept| ==> kept[i] < |xs| && Filter(xs, p)[i] == xs[kept[i]])
      && (forall i, j :: 0 <= i < j < |kept| ==> kept[i] < kept[j])
      && (forall j :: 0 <= j < |xs| ==> (j in kept <==> p(xs[j])))
  {
    var kept := Kept(xs, p);
    FilterKept(xs, p);
    forall j | 0 <= j < |xs| && j in kept
      ensures p(xs[j])
    {
      var i :| 0 <= i < |kept| && kept[i] == j;
    }
  }

  /** A loop that has visited `xs[..j]` and then visits `xs[j]` has visited `xs[..j + 1]`. */
  lemma TakeSnoc<T>(before: seq<T>, xs: seq<T>, j: nat)
    requires j < |xs|
    ensures xs[..j + 1] == xs[..j] + [xs[j]]
    ensures before + xs[..j + 1] == (before + xs[..j]) + [xs[j]]
    ensures Init(xs[..j + 1]) == xs[..j] && Last(xs[..j + 1]) == xs[j]
    ensures Init(before + xs[..j + 1]) == before + xs[..j] && Last(before + xs[..j + 1]) == xs[j]
  {
    assert xs[..j + 1] == xs[..j] + [xs[j]];
    assert before + xs[..j + 1] == (before + xs[..j]) + [xs[j]];
  }

  /** `xs.map(f).filter(p)` keeps, in order, the images of exactly the positions whose image satisfies `p`. */
  lemma FilterMapExactly<T, R>(xs: seq<T>, f: T -> R, p: R -> bool)
    ensures var kept := Kept(Map(xs, f), p);
      var r := Filter(Map(xs, f), p);
      && |r| == |kept|
      && (forall i :: 0 <= i < |kept| ==> kept[i] < |xs| && r[i] == f(xs[kept[i]]))
      && (forall i, j :: 0 <= i < j < |kept| ==> kept[i] < kept[j])
      && (forall j :: 0 <= j < |xs| ==> (j in kept <==> p(f(xs[j]))))
  {
    var ys := Map(xs, f);
    FilterExactly(ys, p);
  }

  lemma SumThree<T>(xs: seq<T>, f: T -> real)
    requires |xs| == 3
    ensures Sum(xs, f) == f(xs[0]) + f(xs[1]) + f(xs[2])
  {
    assert Init(xs) == xs[..2] && Last(xs) == xs[2];
    assert Init(xs[..2]) == xs[..1] && Last(xs[..2]) == xs[1];
    assert Init(xs[..1]) == [] && Last(xs[..1]) == xs[0];
    assert Sum(xs[..1], f) == f(xs[0]);
    assert Sum(xs[..2], f) == f(xs[0]) + f(xs[1]);
  }

  lemma TotalThree<T>(xs: seq<T>, f: T -> nat)
    requires |xs| == 3
    ensures Total(xs, f) == f(xs[0]) + f(xs[1]) + f(xs[2])
  {
    assert Init(xs) == xs[..2] && Last(xs) == xs[2];
    assert Init(xs[..2]) == xs[..1] && Last(xs[..2]) == xs[1];
    assert Init(xs[..1]) == [] && Last(xs[..1]) == xs[0];
    assert Total(xs[..1], f) == f(xs[0]);
    assert Total(xs[..2], f) == f(xs[0]) + f(xs[1]);
  }

  lemma {:induction false} SumAppend<T>(a: seq<T>, b: seq<T>, f: T -> real)
    ensures Sum(a + b, f) == Sum(a, f) + Sum(b, f)
    decreases |b|
  {
    if b == [] {
      assert a + b == a;
    } else {
      assert Init(a + b) == a + Init(b);
      SumAppend(a, Init(b), f);
    }
  }

  /** The sum of non-negative terms is non-negative. */
  lemma {:induction false} SumNonNegative<T>(xs: seq<T>, f: T -> real)
    requires forall i :: 0 <= i < |xs| ==> f(xs[i]) >= 0.0
    ensures Sum(xs, f) >= 0.0
    decreases |xs|
  {
    if xs != [] {
      SumNonNegative(Init(xs), f);
    }
  }
}
