/**
  A plain JavaScript object used as a dictionary (`Record<string, V>`): its
  values by key, plus the order in which its keys were first inserted, which
  is the order `Object.entries` lists them in (for keys that are not
  array indices).

  `GroupBy` is the group-by idiom every page repeats inside its `forEach`
  loops: create the entry on first sight of its key, then add the element to
  it. The lemmas below say what the grouped object holds: one entry per
  distinct key, keys in first-seen order, and each entry the fold of exactly
  the elements carrying its key.
 */
module JsObjects {
  import opened Folds

  datatype Obj<V> = Obj(keys: seq<string>, vals: map<string, V>)

  /** The empty object literal `{}`. */
  function Empty<V>(): (r: Obj<V>)
  {
    Obj([], map[])
  }

  ghost predicate Distinct(ks: seq<string>)
  {
    forall i, j :: 0 <= i < j < |ks| ==> ks[i] != ks[j]
  }

  /** The key order lists each present key exactly once. */
  ghost predicate Valid<V>(o: Obj<V>)
  {
    && Distinct(o.keys)
    && (forall k :: k in o.vals <==> k in o.keys)
  }

  /**
    One step of the group-by loop, for element `x` with `k := key(x)`:
    `if (!o[k]) { o[k] = init(x) }` then `o[k] = add(o[k], x)`.
   */
  function Upsert<T, V>(o: Obj<V>, x: T, key: T -> string, init: T -> V, add: (V, T) -> V): (r: Obj<V>)
  {
    var k := key(x);
    var seeded := if k in o.vals then o else Obj(o.keys + [k], o.vals[k := init(x)]);
    Obj(seeded.keys, seeded.vals[k := add(seeded.vals[k], x)])
  }

  /** The object the group-by loop has built after visiting `xs` in order. */
  function GroupBy<T, V>(xs: seq<T>, key: T -> string, init: T -> V, add: (V, T) -> V): (r: Obj<V>)
    decreases |xs|
  {
    if xs == [] then Empty() else Upsert(GroupBy(Init(xs), key, init, add), Last(xs), key, init, add)
  }

  /** `Object.entries(o).map(([k, v]) => mk(k, v))` over the keys `ks`. */
  function Rows<V, R>(ks: seq<string>, vals: map<string, V>, mk: (string, V) -> R): (r: seq<R>)
    requires forall k :: k in ks ==> k in vals
    ensures |r| == |ks|
    ensures forall i :: 0 <= i < |ks| ==> r[i] == mk(ks[i], vals[ks[i]])
  {
    seq(|ks|, i requires 0 <= i < |ks| => mk(ks[i], vals[ks[i]]))
  }

  function Pair<V>(k: string, v: V): (r: (string, V))
  {
    (k, v)
  }

  /** `Object.entries(o)`. */
  function Entries<V>(o: Obj<V>): (r: seq<(string, V)>)
    requires Valid(o)
  {
    Rows(o.keys, o.vals, Pair)
  }

  /** The sum of `f` over the values, in key order. */
  function SumValues<V>(ks: seq<string>, vals: map<string, V>, f: V -> real): (r: real)
    decreases |ks|
  {
    if ks == [] then 0.0
    else SumValues(Init(ks), vals, f) + (if Last(ks) in vals then f(vals[Last(ks)]) else 0.0)
  }

  /** Where the first element with key `k` stands in `xs` (`|xs|` if none does). */
  function FirstIndex<T>(xs: seq<T>, key: T -> string, k: string): (i: nat)
    ensures i <= |xs|
    ensures i < |xs| ==> key(xs[i]) == k
    ensures forall j :: 0 <= j < i ==> key(xs[j]) != k
  {
    if xs == [] then 0
    else if key(xs[0]) == k then 0
    else 1 + FirstIndex(xs[1..], key, k)
  }

  lemma MatchingSnoc<T>(xs: seq<T>, key: T -> string, k: string)
    requires xs != []
    ensures Matching(xs, key, k)
         == Matching(Init(xs), key, k) + (if key(Last(xs)) == k then [Last(xs)] else [])
  {
  }

  /** The grouped object is well formed. */
  lemma {:induction false} GroupByValid<T, V>(xs: seq<T>, key: T -> string, init: T -> V, add: (V, T) -> V)
    ensures Valid(GroupBy(xs, key, init, add))
    decreases |xs|
  {
    if xs != [] {
      GroupByValid(Init(xs), key, init, add);
      var o := GroupBy(Init(xs), key, init, add);
      var k := key(Last(xs));
      if k !in o.vals {
        assert k !in o.keys;
      }
    }
  }

  /**
    What the grouped object holds: an entry for key `k` exactly when some
    element carries `k`, and that entry is `init` of the first such element
    with every such element then added in order.
   */
  lemma {:induction false} GroupByMeaning<T, V>(xs: seq<T>, key: T -> string, init: T -> V, add: (V, T) -> V, k: string)
    ensures k in GroupBy(xs, key, init, add).vals <==> Matching(xs, key, k) != []
    ensures k in GroupBy(xs, key, init, add).vals ==>
      var m := Matching(xs, key, k);
      GroupBy(xs, key, init, add).vals[k] == FoldFrom(init(m[0]), add, m)
    decreases |xs|
  {
    if xs != [] {
      var s, x := Init(xs), Last(xs);
      GroupByMeaning(s, key, init, add, k);
      MatchingSnoc(xs, key, k);
      var o := GroupBy(s, key, init, add);
      var o' := Upsert(o, x, key, init, add);
      assert GroupBy(xs, key, init, add) == o';
      var m0, m := Matching(s, key, k), Matching(xs, key, k);
      if key(x) != k {
        assert m == m0;
        assert k in o'.vals <==> k in o.vals;
        assert k in o.vals ==> o'.vals[k] == o.vals[k];
      } else {
        assert m == m0 + [x];
        assert Init(m) == m0 && Last(m) == x;
        if k in o.vals {
          assert m[0] == m0[0];
          assert o'.vals[k] == add(o.vals[k], x);
        } else {
          assert m0 == [];
          assert o'.vals[k] == add(init(x), x);
        }
      }
    }
  }

  /** `FirstIndex` after one more element. */
  lemma {:induction false} FirstIndexSnoc<T>(s: seq<T>, x: T, key: T -> string, k: string)
    ensures FirstIndex(s + [x], key, k)
         == if FirstIndex(s, key, k) < |s| then FirstIndex(s, key, k)
            else if key(x) == k then |s| else |s| + 1
    decreases |s|
  {
    if s != [] && key(s[0]) != k {
      assert (s + [x])[1..] == s[1..] + [x];
      FirstIndexSnoc(s[1..], x, key, k);
    }
  }

  /** An absent key is first seen at the end. */
  lemma NoMatchFirstIndex<T>(s: seq<T>, key: T -> string, k: string)
    requires Matching(s, key, k) == []
    ensures FirstIndex(s, key, k) == |s|
  {
  }

  lemma FirstIndicesKept<T>(s: seq<T>, x: T, key: T -> string, ks: seq<string>)
    requires forall i :: 0 <= i < |ks| ==> FirstIndex(s, key, ks[i]) < |s|
    ensures forall i :: 0 <= i < |ks| ==> FirstIndex(s + [x], key, ks[i]) == FirstIndex(s, key, ks[i])
  {
    forall i | 0 <= i < |ks|
      ensures FirstIndex(s + [x], key, ks[i]) == FirstIndex(s, key, ks[i])
    {
      FirstIndexSnoc(s, x, key, ks[i]);
    }
  }

  /** First-seen order is kept when one more element with a known key is visited. */
  lemma OrderKept<T>(s: seq<T>, x: T, key: T -> string, ks: seq<string>)
    requires forall i :: 0 <= i < |ks| ==> FirstIndex(s, key, ks[i]) < |s|
    requires forall i, j :: 0 <= i < j < |ks| ==> FirstIndex(s, key, ks[i]) < FirstIndex(s, key, ks[j])
    ensures forall i :: 0 <= i < |ks| ==> FirstIndex(s + [x], key, ks[i]) < |s + [x]|
    ensures forall i, j :: 0 <= i < j < |ks| ==> FirstIndex(s + [x], key, ks[i]) < FirstIndex(s + [x], key, ks[j])
  {
    FirstIndicesKept(s, x, key, ks);
  }

  /** First-seen order is kept when a new key is appended for the element just visited. */
  lemma OrderAppended<T>(s: seq<T>, x: T, key: T -> string, ks: seq<string>)
    requires forall i :: 0 <= i < |ks| ==> FirstIndex(s, key, ks[i]) < |s|
    requires forall i, j :: 0 <= i < j < |ks| ==> FirstIndex(s, key, ks[i]) < FirstIndex(s, key, ks[j])
    requires FirstIndex(s, key, key(x)) == |s|
    ensures var ks' := ks + [key(x)];
      && (forall i :: 0 <= i < |ks'| ==> FirstIndex(s + [x], key, ks'[i]) < |s + [x]|)
      && (forall i, j :: 0 <= i < j < |ks'| ==> FirstIndex(s + [x], key, ks'[i]) < FirstIndex(s + [x], key, ks'[j]))
  {
    FirstIndicesKept(s, x, key, ks);
    FirstIndexSnoc(s, x, key, key(x));
    var ks' := ks + [key(x)];
    forall i | 0 <= i < |ks'| ensures FirstIndex(s + [x], key, ks'[i]) < |s + [x]| {
      if i < |ks| {
        assert ks'[i] == ks[i];
      }
    }
    forall i, j | 0 <= i < j < |ks'|
      ensures FirstIndex(s + [x], key, ks'[i]) < FirstIndex(s + [x], key, ks'[j])
    {
      assert ks'[i] == ks[i];
      if j < |ks| {
        assert ks'[j] == ks[j];
      }
    }
  }

  /**
    The keys come in first-seen order, as `Object.entries` returns keys that
    were inserted when first seen, and every key is carried by some element.
   */
  lemma {:induction false} GroupByOrder<T, V>(xs: seq<T>, key: T -> string, init: T -> V, add: (V, T) -> V)
    ensures var ks := GroupBy(xs, key, init, add).keys;
      && (forall i :: 0 <= i < |ks| ==> FirstIndex(xs, key, ks[i]) < |xs|)
      && (forall i, j :: 0 <= i < j < |ks| ==> FirstIndex(xs, key, ks[i]) < FirstIndex(xs, key, ks[j]))
    decreases |xs|
  {
    if xs != [] {
      var s, x := Init(xs), Last(xs);
      assert xs == s + [x];
      GroupByOrder(s, key, init, add);
      var o := GroupBy(s, key, init, add);
      var isNew := key(x) !in o.vals;
      assert GroupBy(xs, key, init, add).keys == if isNew then o.keys + [key(x)] else o.keys;
      if isNew {
        GroupByMeaning(s, key, init, add, key(x));
        NoMatchFirstIndex(s, key, key(x));
        OrderAppended(s, x, key, o.keys);
      } else {
        OrderKept(s, x, key, o.keys);
      }
    }
  }

  lemma {:induction false} SumValuesFrame<V>(ks: seq<string>, vals: map<string, V>, k: string, v: V, f: V -> real)
    requires k !in ks
    ensures SumValues(ks, vals[k := v], f) == SumValues(ks, vals, f)
    decreases |ks|
  {
    if ks != [] {
      SumValuesFrame(Init(ks), vals, k, v, f);
    }
  }

  lemma {:induction false} SumValuesUpdate<V>(ks: seq<string>, vals: map<string, V>, k: string, v: V, f: V -> real)
    requires Distinct(ks) && k in ks && k in vals
    ensures SumValues(ks, vals[k := v], f) == SumValues(ks, vals, f) - f(vals[k]) + f(v)
    decreases |ks|
  {
    if Last(ks) == k {
      assert ks == Init(ks) + [k];
      assert k !in Init(ks);
      SumValuesFrame(Init(ks), vals, k, v, f);
    } else {
      assert k in Init(ks);
      SumValuesUpdate(Init(ks), vals, k, v, f);
    }
  }

  /**
    Grouping neither loses nor duplicates a contribution: when adding an
    element raises the measure `f` of an entry by `g` of that element (and a
    fresh entry measures 0), the entries together measure the sum of `g` over
    all elements.
   */
  lemma {:induction false} GroupBySum<T(!new), V(!new)>(xs: seq<T>, key: T -> string, init: T -> V, add: (V, T) -> V,
                                           f: V -> real, g: T -> real)
    requires forall x :: f(init(x)) == 0.0
    requires forall v, x :: f(add(v, x)) == f(v) + g(x)
    ensures var o := GroupBy(xs, key, init, add); SumValues(o.keys, o.vals, f) == Sum(xs, g)
    decreases |xs|
  {
    if xs != [] {
      var s, x := Init(xs), Last(xs);
      GroupBySum(s, key, init, add, f, g);
      GroupByValid(s, key, init, add);
      var o := GroupBy(s, key, init, add);
      var k := key(x);
      if k in o.vals {
        SumValuesUpdate(o.keys, o.vals, k, add(o.vals[k], x), f);
      } else {
        assert k !in o.keys;
        var v := add(init(x), x);
        var o' := Upsert(o, x, key, init, add);
        assert o'.keys == o.keys + [k] && o'.vals == o.vals[k := v];
        SumValuesFrame(o.keys, o.vals, k, v, f);
        assert Init(o'.keys) == o.keys && Last(o'.keys) == k;
        assert SumValues(o'.keys, o'.vals, f) == SumValues(o.keys, o.vals, f) + f(v);
        assert GroupBy(xs, key, init, add) == o';
        assert Sum(xs, g) == Sum(s, g) + g(x);
      }
    }
  }

  /** Mapping the entries to rows and summing a row field sums the values. */
  lemma {:induction false} SumRows<V(!new), R>(ks: seq<string>, vals: map<string, V>, mk: (string, V) -> R,
                                         f: R -> real, g: V -> real)
    requires forall k :: k in ks ==> k in vals
    requires forall k, v :: f(mk(k, v)) == g(v)
    ensures Sum(Rows(ks, vals, mk), f) == SumValues(ks, vals, g)
    decreases |ks|
  {
    if ks != [] {
      SumRows(Init(ks), vals, mk, f, g);
      assert Init(Rows(ks, vals, mk)) == Rows(Init(ks), vals, mk);
    }
  }
}
