/**
 * The array operations the dashboard uses: `filter`, `flat`, a stable
 * descending sort on an integer key, and `slice(0, n)`.
 */
module Seqs {

  /** `xs.filter(p)`. */
  function Filter<T>(xs: seq<T>, p: T -> bool): (r: seq<T>)
    ensures |r| <= |xs|
    ensures forall k :: 0 <= k < |r| ==> p(r[k])
    ensures multiset(r) <= multiset(xs)
  {
    if |xs| == 0 then []
    else
      var rest := Filter(xs[1..], p);
      assert xs == [xs[0]] + xs[1..];
      if p(xs[0]) then [xs[0]] + rest else rest
  }

  /** The filter keeps every copy of an element that passes and no copy of one that does not. */
  lemma {:induction false} FilterCount<T>(xs: seq<T>, p: T -> bool, x: T)
    ensures multiset(Filter(xs, p))[x] == if p(x) then multiset(xs)[x] else 0
  {
    if |xs| > 0 {
      assert xs == [xs[0]] + xs[1..];
      FilterCount(xs[1..], p, x);
    }
  }

  /** Filtering distributes over concatenation, so it keeps the original order. */
  lemma {:induction false} FilterAppend<T>(xs: seq<T>, ys: seq<T>, p: T -> bool)
    ensures Filter(xs + ys, p) == Filter(xs, p) + Filter(ys, p)
  {
    if |xs| > 0 {
      assert (xs + ys)[1..] == xs[1..] + ys;
      FilterAppend(xs[1..], ys, p);
    } else {
      assert xs + ys == ys;
    }
  }

  /** `arrays.flat()`: the arrays one after the other. */
  function Flatten<T>(xss: seq<seq<T>>): (r: seq<T>)
  {
    if |xss| == 0 then [] else xss[0] + Flatten(xss[1..])
  }

  lemma {:induction false} FlattenAppend<T>(a: seq<seq<T>>, b: seq<seq<T>>)
    ensures Flatten(a + b) == Flatten(a) + Flatten(b)
  {
    if |a| > 0 {
      assert (a + b)[1..] == a[1..] + b;
      FlattenAppend(a[1..], b);
    } else {
      assert a + b == b;
    }
  }

  /** The `i`-th array sits in the flattened array after all arrays before it and before all after it. */
  lemma {:induction false} FlattenAt<T>(xss: seq<seq<T>>, i: int)
    requires 0 <= i < |xss|
    ensures Flatten(xss) == Flatten(xss[..i]) + xss[i] + Flatten(xss[i + 1..])
  {
    assert xss == xss[..i] + xss[i..];
    FlattenAppend(xss[..i], xss[i..]);
    assert xss[i..][1..] == xss[i + 1..];
  }

  /** Every element of every array is in the flattened array, and nothing else is. */
  lemma {:induction false} FlattenMembership<T>(xss: seq<seq<T>>, x: T)
    ensures x in Flatten(xss) <==> exists i :: 0 <= i < |xss| && x in xss[i]
  {
    if |xss| > 0 {
      FlattenMembership(xss[1..], x);
      if x in Flatten(xss[1..]) {
        var i :| 0 <= i < |xss[1..]| && x in xss[1..][i];
        assert x in xss[i + 1];
      }
      if exists i :: 0 <= i < |xss| && x in xss[i] {
        var i :| 0 <= i < |xss| && x in xss[i];
        if i > 0 {
          assert x in xss[1..][i - 1];
        }
      }
    }
  }

  /** The elements are in non-increasing order of `key`. */
  predicate SortedDesc<T>(xs: seq<T>, key: T -> int)
  {
    forall i, j :: 0 <= i < j < |xs| ==> key(xs[i]) >= key(xs[j])
  }

  /** Inserts `x` after every element whose key is at least `key(x)`. */
  function InsertDesc<T>(xs: seq<T>, x: T, key: T -> int): (r: seq<T>)
    requires SortedDesc(xs, key)
    ensures SortedDesc(r, key)
    ensures multiset(r) == multiset(xs) + multiset{x}
    ensures |r| == |xs| + 1
    ensures r[0] == x || (|xs| > 0 && r[0] == xs[0])
  {
    if |xs| == 0 then [x]
    else if key(xs[0]) < key(x) then [x] + xs
    else
      var rest := InsertDesc(xs[1..], x, key);
      assert xs == [xs[0]] + xs[1..];
      assert key(xs[0]) >= key(rest[0]);
      [xs[0]] + rest
  }

  /**
   * A stable sort into non-increasing order of `key`, as JavaScript's
   * `xs.sort((a, b) => key(b) - key(a))` produces it.
   */
  function SortDesc<T>(xs: seq<T>, key: T -> int): (r: seq<T>)
    ensures SortedDesc(r, key)
    ensures multiset(r) == multiset(xs)
    ensures |r| == |xs|
  {
    if |xs| == 0 then []
    else
      var init := xs[..|xs| - 1];
      assert xs == init + [xs[|xs| - 1]];
      var r := InsertDesc(SortDesc(init, key), xs[|xs| - 1], key);
      assert |r| == |multiset(r)| == |xs|;
      r
  }

  /** The elements whose key is `v`. */
  function KeyIs<T>(key: T -> int, v: int): T -> bool
  {
    x => key(x) == v
  }

  /** A filter that no element passes is empty. */
  lemma FilterNone<T>(xs: seq<T>, p: T -> bool)
    requires forall k :: 0 <= k < |xs| ==> !p(xs[k])
    ensures Filter(xs, p) == []
  {
  }

  /** `Filter` of a one-element list. */
  lemma FilterSingle<T>(x: T, p: T -> bool)
    ensures Filter([x], p) == if p(x) then [x] else []
  {
    assert [x][1..] == [];
  }

  /** Filtering `[a] + xs`: `a` when it passes, then the filtered rest. */
  lemma {:induction false} FilterCons<T>(a: T, xs: seq<T>, p: T -> bool)
    ensures Filter([a] + xs, p) == Filter([a], p) + Filter(xs, p)
  {
    FilterAppend([a], xs, p);
  }

  /** Regrouping a concatenation: `x = h + (c + t)` and `d = h + c` give `x = d + t`. */
  lemma Regroup<T>(x: seq<T>, h: seq<T>, b: seq<T>, c: seq<T>, t: seq<T>, d: seq<T>)
    requires x == h + b && b == c + t && d == h + c
    ensures x == d + t
  {
  }

  /** An element inserted in front of larger keys is the only one of its key. */
  lemma {:induction false} InsertFront<T>(xs: seq<T>, x: T, key: T -> int, v: int)
    requires SortedDesc(xs, key) && |xs| > 0 && key(xs[0]) < key(x)
    ensures Filter([x] + xs, KeyIs(key, v)) == Filter(xs, KeyIs(key, v)) + (if key(x) == v then [x] else [])
  {
    var p := KeyIs(key, v);
    FilterCons(x, xs, p);
    FilterSingle(x, p);
    assert p(x) == (key(x) == v);
    if key(x) == v {
      forall k | 0 <= k < |xs|
        ensures !p(xs[k])
      {
        assert key(xs[k]) <= key(xs[0]);
      }
      FilterNone(xs, p);
      assert Filter([x] + xs, p) == [x] + [];
    } else {
      assert Filter([x] + xs, p) == [] + Filter(xs, p);
    }
  }

  lemma {:induction false} InsertLater<T>(a: T, ys: seq<T>, rest: seq<T>, p: T -> bool, tail: seq<T>)
    requires Filter(rest, p) == Filter(ys, p) + tail
    ensures Filter([a] + rest, p) == Filter([a] + ys, p) + tail
  {
    FilterCons(a, rest, p);
    FilterCons(a, ys, p);
    Regroup(Filter([a] + rest, p), Filter([a], p), Filter(rest, p), Filter(ys, p), tail, Filter([a] + ys, p));
  }

  /**
   * Inserting `x` puts it after every element with its key, so among the
   * elements of any one key the order is kept and `x` comes last.
   */
  lemma {:induction false} InsertDescStable<T>(xs: seq<T>, x: T, key: T -> int, v: int)
    requires SortedDesc(xs, key)
    ensures Filter(InsertDesc(xs, x, key), KeyIs(key, v)) == Filter(xs, KeyIs(key, v)) + (if key(x) == v then [x] else [])
  {
    var single := if key(x) == v then [x] else [];
    if |xs| == 0 {
      FilterSingle(x, KeyIs(key, v));
      assert Filter(InsertDesc(xs, x, key), KeyIs(key, v)) == single;
      assert Filter(xs, KeyIs(key, v)) == [];
    } else if key(xs[0]) < key(x) {
      InsertDescFront(xs, x, key);
      InsertFront(xs, x, key, v);
    } else {
      InsertDescLater(xs, x, key);
      InsertDescStable(xs[1..], x, key, v);
      InsertLater(xs[0], xs[1..], InsertDesc(xs[1..], x, key), KeyIs(key, v), single);
    }
  }

  lemma {:induction false} InsertDescFront<T>(xs: seq<T>, x: T, key: T -> int)
    requires SortedDesc(xs, key) && |xs| > 0 && key(xs[0]) < key(x)
    ensures InsertDesc(xs, x, key) == [x] + xs
  {
  }

  lemma {:induction false} InsertDescLater<T>(xs: seq<T>, x: T, key: T -> int)
    requires SortedDesc(xs, key) && |xs| > 0 && key(xs[0]) >= key(x)
    ensures SortedDesc(xs[1..], key)
    ensures InsertDesc(xs, x, key) == [xs[0]] + InsertDesc(xs[1..], x, key)
    ensures xs == [xs[0]] + xs[1..]
  {
  }

  /**
   * The sort is stable: the elements of each key come out in their input
   * order, as JavaScript's `sort` guarantees.
   */
  lemma {:induction false} SortDescStable<T>(xs: seq<T>, key: T -> int, v: int)
    ensures Filter(SortDesc(xs, key), KeyIs(key, v)) == Filter(xs, KeyIs(key, v))
  {
    if |xs| > 0 {
      var init, last := xs[..|xs| - 1], xs[|xs| - 1];
      assert xs == init + [last];
      SortDescStable(init, key, v);
      InsertDescStable(SortDesc(init, key), last, key, v);
      FilterAppend(init, [last], KeyIs(key, v));
      FilterSingle(last, KeyIs(key, v));
    }
  }

  /** Filtering a prefix gives a prefix of the filtered list. */
  lemma {:induction false} FilterPrefix<T>(xs: seq<T>, ys: seq<T>, p: T -> bool)
    requires xs <= ys
    ensures Filter(xs, p) <= Filter(ys, p)
  {
    assert ys == xs + ys[|xs|..];
    FilterAppend(xs, ys[|xs|..], p);
  }

  /** `xs.slice(0, n)`. */
  function Take<T>(xs: seq<T>, n: nat): (r: seq<T>)
    ensures |r| == if |xs| < n then |xs| else n
    ensures r <= xs
    ensures multiset(r) <= multiset(xs)
  {
    if |xs| <= n then xs
    else
      assert xs == xs[..n] + xs[n..];
      assert multiset(xs) == multiset(xs[..n]) + multiset(xs[n..]);
      xs[..n]
  }

  /** A prefix of a sorted list is sorted. */
  lemma TakeSorted<T>(xs: seq<T>, n: nat, key: T -> int)
    requires SortedDesc(xs, key)
    ensures SortedDesc(Take(xs, n), key)
  {
  }

  /**
   * Taking a prefix of a sorted list keeps its top: every element left out
   * has a key no greater than every element kept.
   */
  lemma TakeKeepsTop<T>(xs: seq<T>, n: nat, key: T -> int, x: T)
    requires SortedDesc(xs, key)
    requires x in multiset(xs) - multiset(Take(xs, n))
    ensures forall y :: y in Take(xs, n) ==> key(x) <= key(y)
  {
    var kept := Take(xs, n);
    var m := |kept|;
    assert xs == kept + xs[m..];
    assert multiset(xs) == multiset(kept) + multiset(xs[m..]);
    assert x in multiset(xs[m..]);
    var j :| m <= j < |xs| && xs[j] == x;
    forall y | y in kept
      ensures key(x) <= key(y)
    {
      var i :| 0 <= i < m && kept[i] == y;
      assert xs[i] == y;
    }
  }
}
