/** The LINQ operators the repository composes its queries from, over
    sequences: `Where`, `FirstOrDefault`, `Sum`, `OrderByDescending` and
    `Skip(..).Take(..)`. */
module Sequences {
  import opened Wrappers

  // ---- Where ----

  function Filter<T(!new)>(xs: seq<T>, p: T -> bool): (r: seq<T>)
    ensures |r| <= |xs|
    ensures forall t :: t in r <==> t in xs && p(t)
  {
    if xs == [] then [] else (if p(xs[0]) then [xs[0]] else []) + Filter(xs[1..], p)
  }

  /** `Where` keeps every copy of a selected element and no copy of another. */
  lemma {:induction false} FilterMultiset<T(!new)>(xs: seq<T>, p: T -> bool, x: T)
    ensures multiset(Filter(xs, p))[x] == if p(x) then multiset(xs)[x] else 0
  {
    if xs != [] {
      FilterMultiset(xs[1..], p, x);
      assert xs == [xs[0]] + xs[1..];
    }
  }

  /** Filtering commutes with reordering: a permutation filters to a permutation. */
  lemma FilterPermutation<T(!new)>(xs: seq<T>, ys: seq<T>, p: T -> bool)
    requires multiset(xs) == multiset(ys)
    ensures multiset(Filter(xs, p)) == multiset(Filter(ys, p))
  {
    forall x ensures multiset(Filter(xs, p))[x] == multiset(Filter(ys, p))[x] {
      FilterMultiset(xs, p, x);
      FilterMultiset(ys, p, x);
    }
  }

  /** Two successive `Where` clauses select what their conjunction selects. */
  lemma {:induction false} FilterFilter<T(!new)>(xs: seq<T>, p: T -> bool, q: T -> bool, both: T -> bool)
    requires forall t :: t in xs ==> both(t) == (p(t) && q(t))
    ensures Filter(Filter(xs, p), q) == Filter(xs, both)
  {
    if xs != [] {
      FilterFilter(xs[1..], p, q, both);
      var h := if p(xs[0]) then [xs[0]] else [];
      FilterAppend(h, Filter(xs[1..], p), q);
      if p(xs[0]) {
        assert Filter(h, q) == if q(xs[0]) then [xs[0]] else [] by {
          assert h[1..] == [];
        }
      }
    }
  }

  lemma {:induction false} FilterAppend<T(!new)>(xs: seq<T>, ys: seq<T>, p: T -> bool)
    ensures Filter(xs + ys, p) == Filter(xs, p) + Filter(ys, p)
  {
    if xs != [] {
      FilterAppend(xs[1..], ys, p);
      assert (xs + ys)[0] == xs[0];
      assert (xs + ys)[1..] == xs[1..] + ys;
    } else {
      assert xs + ys == ys;
    }
  }

  /** `Where` only looks at the elements it is given. */
  lemma {:induction false} FilterExtensional<T(!new)>(xs: seq<T>, p: T -> bool, q: T -> bool)
    requires forall t :: t in xs ==> p(t) == q(t)
    ensures Filter(xs, p) == Filter(xs, q)
  {
    if xs != [] {
      assert xs[0] in xs;
      assert forall t :: t in xs[1..] ==> t in xs;
      FilterExtensional(xs[1..], p, q);
    }
  }

  /** A `Where` that selects everything changes nothing. */
  lemma {:induction false} FilterKeepsAll<T(!new)>(xs: seq<T>, p: T -> bool)
    requires forall t :: t in xs ==> p(t)
    ensures Filter(xs, p) == xs
  {
    if xs != [] {
      assert xs[0] in xs;
      assert forall t :: t in xs[1..] ==> t in xs;
      FilterKeepsAll(xs[1..], p);
      assert xs == [xs[0]] + xs[1..];
    }
  }

  /** `Where` keeps every element exactly when all of them are selected. */
  lemma {:induction false} FilterFull<T(!new)>(xs: seq<T>, p: T -> bool)
    ensures |Filter(xs, p)| == |xs| <==> forall t :: t in xs ==> p(t)
  {
    if xs != [] {
      assert xs[0] in xs;
      assert forall t :: t in xs[1..] ==> t in xs;
      assert forall t :: t in xs && t != xs[0] ==> t in xs[1..];
      FilterFull(xs[1..], p);
    }
  }

  /** A weaker condition selects at least as many elements. */
  lemma {:induction false} FilterCountMonotone<T(!new)>(xs: seq<T>, p: T -> bool, q: T -> bool)
    requires forall t :: t in xs && p(t) ==> q(t)
    ensures |Filter(xs, p)| <= |Filter(xs, q)|
  {
    if xs != [] {
      assert xs[0] in xs;
      assert forall t :: t in xs[1..] ==> t in xs;
      FilterCountMonotone(xs[1..], p, q);
    }
  }

  // ---- FirstOrDefault ----

  /** Some element satisfying `p`, or None when there is none. */
  function FirstWhere<T(!new)>(xs: seq<T>, p: T -> bool): (r: Option<T>)
    ensures r.Some? ==> r.value in xs && p(r.value)
    ensures r.None? <==> forall t :: t in xs ==> !p(t)
  {
    if xs == [] then None else if p(xs[0]) then Some(xs[0]) else FirstWhere(xs[1..], p)
  }

  // ---- Sum ----

  function Sum<T(!new)>(xs: seq<T>, f: T -> real): real {
    if xs == [] then 0.0 else f(xs[0]) + Sum(xs[1..], f)
  }

  lemma {:induction false} SumAppend<T(!new)>(xs: seq<T>, ys: seq<T>, f: T -> real)
    ensures Sum(xs + ys, f) == Sum(xs, f) + Sum(ys, f)
  {
    if xs != [] {
      SumAppend(xs[1..], ys, f);
      assert (xs + ys)[0] == xs[0];
      assert (xs + ys)[1..] == xs[1..] + ys;
    } else {
      assert xs + ys == ys;
    }
  }

  /** A sum does not depend on the order of its terms. */
  lemma {:induction false} SumPermutation<T(!new)>(xs: seq<T>, ys: seq<T>, f: T -> real)
    requires multiset(xs) == multiset(ys)
    ensures Sum(xs, f) == Sum(ys, f)
    decreases |xs|
  {
    if xs == [] {
      assert |ys| == |multiset(ys)| == 0;
    } else {
      var x := xs[0];
      assert x in multiset(ys);
      var k :| 0 <= k < |ys| && ys[k] == x;
      RemoveAt(ys, k, f);
      assert xs == [x] + xs[1..];
      assert multiset(xs[1..]) == multiset(xs) - multiset{x};
      SumPermutation(xs[1..], ys[..k] + ys[k + 1..], f);
    }
  }

  /** Taking one term out of a sum. */
  lemma RemoveAt<T(!new)>(ys: seq<T>, k: int, f: T -> real)
    requires 0 <= k < |ys|
    ensures multiset(ys[..k] + ys[k + 1..]) == multiset(ys) - multiset{ys[k]}
    ensures Sum(ys, f) == f(ys[k]) + Sum(ys[..k] + ys[k + 1..], f)
  {
    var before, after := ys[..k], ys[k + 1..];
    SplitAt(ys, k);
    RemoveAtMultiset(before, ys[k], after);
    SumSplit(before, ys[k], after, f);
  }

  lemma SplitAt<T>(ys: seq<T>, k: int)
    requires 0 <= k < |ys|
    ensures ys == ys[..k] + ([ys[k]] + ys[k + 1..])
  {
    assert ys[k..] == [ys[k]] + ys[k + 1..];
    assert ys == ys[..k] + ys[k..];
  }

  lemma SumSplit<T(!new)>(before: seq<T>, x: T, after: seq<T>, f: T -> real)
    ensures Sum(before + ([x] + after), f) == f(x) + Sum(before + after, f)
  {
    SumAppend(before, [x] + after, f);
    SumAppend(before, after, f);
    assert ([x] + after)[1..] == after;
  }

  lemma RemoveAtMultiset<T(!new)>(before: seq<T>, x: T, after: seq<T>)
    ensures multiset(before + after) == multiset(before + ([x] + after)) - multiset{x}
  {
    assert multiset(before + ([x] + after)) == multiset(before) + multiset([x] + after);
    assert multiset([x] + after) == multiset{x} + multiset(after);
  }

  lemma {:induction false} SumNonNegative<T(!new)>(xs: seq<T>, f: T -> real)
    requires forall t :: t in xs ==> f(t) >= 0.0
    ensures Sum(xs, f) >= 0.0
  {
    if xs != [] {
      assert xs[0] in xs;
      assert forall t :: t in xs[1..] ==> t in xs;
      SumNonNegative(xs[1..], f);
    }
  }

  // ---- OrderByDescending ----

  predicate SortedDesc<T(!new)>(xs: seq<T>, key: T -> int) {
    forall i, j :: 0 <= i < j < |xs| ==> key(xs[i]) >= key(xs[j])
  }

  /** Insert `x` before the first element whose key is not larger. */
  function InsertDesc<T(!new)>(x: T, xs: seq<T>, key: T -> int): (r: seq<T>)
    requires SortedDesc(xs, key)
    ensures SortedDesc(r, key)
    ensures multiset(r) == multiset(xs) + multiset{x}
    ensures |r| == |xs| + 1
    ensures r[0] == x || (xs != [] && r[0] == xs[0])
  {
    if xs == [] || key(x) >= key(xs[0]) then
      InsertFront(x, xs, key);
      [x] + xs
    else
      SortedTail(xs, key);
      var rest := InsertDesc(x, xs[1..], key);
      InsertBehind(x, xs, rest, key);
      [xs[0]] + rest
  }

  lemma SortedTail<T(!new)>(xs: seq<T>, key: T -> int)
    requires SortedDesc(xs, key) && xs != []
    ensures SortedDesc(xs[1..], key)
  {
    forall i, j | 0 <= i < j < |xs| - 1 ensures key(xs[1..][i]) >= key(xs[1..][j]) {
      assert xs[1..][i] == xs[i + 1] && xs[1..][j] == xs[j + 1];
    }
  }

  /** `x` goes in front when its key is not smaller than the first one. */
  lemma InsertFront<T(!new)>(x: T, xs: seq<T>, key: T -> int)
    requires SortedDesc(xs, key) && (xs == [] || key(x) >= key(xs[0]))
    ensures SortedDesc([x] + xs, key) && multiset([x] + xs) == multiset(xs) + multiset{x}
  {
    var r := [x] + xs;
    forall i, j | 0 <= i < j < |r| ensures key(r[i]) >= key(r[j]) {
      assert r[j] == xs[j - 1];
      if i > 0 {
        assert r[i] == xs[i - 1];
      }
    }
  }

  /** Otherwise the first element stays first, ahead of the insertion into the rest. */
  lemma InsertBehind<T(!new)>(x: T, xs: seq<T>, rest: seq<T>, key: T -> int)
    requires SortedDesc(xs, key) && xs != [] && key(x) < key(xs[0])
    requires SortedDesc(rest, key) && multiset(rest) == multiset(xs[1..]) + multiset{x}
    requires |rest| == |xs| && (rest[0] == x || (|xs| > 1 && rest[0] == xs[1]))
    ensures SortedDesc([xs[0]] + rest, key) && multiset([xs[0]] + rest) == multiset(xs) + multiset{x}
  {
    assert xs == [xs[0]] + xs[1..];
    InsertFront(xs[0], rest, key);
  }

  /** The elements ordered by descending key; equal keys keep their order. */
  function SortDesc<T(!new)>(xs: seq<T>, key: T -> int): (r: seq<T>)
    ensures SortedDesc(r, key)
    ensures multiset(r) == multiset(xs)
    ensures |r| == |xs|
  {
    if xs == [] then []
    else
      assert xs == [xs[0]] + xs[1..];
      InsertDesc(xs[0], SortDesc(xs[1..], key), key)
  }

  lemma SameElements<T(!new)>(xs: seq<T>, ys: seq<T>)
    requires multiset(xs) == multiset(ys)
    ensures forall t :: t in xs <==> t in ys
  {
    forall t ensures t in xs <==> t in ys {
      assert t in xs <==> t in multiset(xs);
      assert t in ys <==> t in multiset(ys);
    }
  }

  // ---- Skip((page - 1) * pageSize).Take(pageSize) ----

  function Min(a: int, b: int): int {
    if a <= b then a else b
  }

  /** Page `page` (counted from 1) of `pageSize` elements: the elements at
      positions (page - 1) * pageSize onwards, at most `pageSize` of them. */
  function Page<T(!new)>(xs: seq<T>, page: int, pageSize: int): (r: seq<T>)
    requires page >= 1 && pageSize >= 1
    ensures |r| <= pageSize
    ensures Skip(page, pageSize) >= |xs| ==> r == []
    ensures Skip(page, pageSize) < |xs| ==> |r| == Min(pageSize, |xs| - Skip(page, pageSize))
    ensures forall i :: 0 <= i < |r| ==> Skip(page, pageSize) + i < |xs| && r[i] == xs[Skip(page, pageSize) + i]
  {
    var skip := Min(Skip(page, pageSize), |xs|);
    xs[skip..Min(skip + pageSize, |xs|)]
  }

  /** How many elements precede page `page`. */
  function Skip(page: int, pageSize: int): nat
    requires page >= 1 && pageSize >= 1
  {
    (page - 1) * pageSize
  }

  /** Every element is on the page its position says, at the offset it says. */
  lemma EveryElementOnItsPage<T(!new)>(xs: seq<T>, i: int, pageSize: int)
    requires 0 <= i < |xs| && pageSize >= 1
    ensures var p := Page(xs, i / pageSize + 1, pageSize);
            i % pageSize < |p| && p[i % pageSize] == xs[i]
  {
    var q, m := i / pageSize, i % pageSize;
    assert q * pageSize + m == i;
    assert Skip(q + 1, pageSize) == q * pageSize;
  }

  /** A page holds elements of what was paged, in their order. */
  lemma PageOfSorted<T(!new)>(xs: seq<T>, page: int, pageSize: int, key: T -> int)
    requires page >= 1 && pageSize >= 1
    ensures forall t :: t in Page(xs, page, pageSize) ==> t in xs
    ensures SortedDesc(xs, key) ==> SortedDesc(Page(xs, page, pageSize), key)
  {
    var r := Page(xs, page, pageSize);
    var skip := Skip(page, pageSize);
    forall t | t in r ensures t in xs {
      var i :| 0 <= i < |r| && r[i] == t;
      assert xs[skip + i] == t;
    }
    if SortedDesc(xs, key) {
      forall i, j | 0 <= i < j < |r| ensures key(r[i]) >= key(r[j]) {
        assert r[i] == xs[skip + i] && r[j] == xs[skip + j];
      }
    }
  }

  /** The first page of something that fits on it is all of it. */
  lemma FirstPageHoldsAll<T(!new)>(xs: seq<T>, pageSize: int)
    requires 1 <= pageSize && |xs| <= pageSize
    ensures Page(xs, 1, pageSize) == xs
  {
  }
}
