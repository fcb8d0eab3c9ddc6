/** Generic building blocks shared by the whole model: an optional value,
    and the list operations the source spells with `filter`, `reduce` and
    `sort` on arrays. */
module Base {

  datatype Option<T> = None | Some(value: T)

  /** `xs.filter(p)`: the elements that satisfy `p`, in their original order. */
  function Filter<T(!new)>(xs: seq<T>, p: T -> bool): (r: seq<T>)
    ensures |r| <= |xs|
    ensures forall x :: x in r <==> x in xs && p(x)
  {
    if xs == [] then []
    else (if p(xs[0]) then [xs[0]] else []) + Filter(xs[1..], p)
  }

  /** Filtering a concatenation filters each part; with `Filter([x], p)`
      this pins down the order of the result completely. */
  lemma {:induction false} FilterAppend<T(!new)>(a: seq<T>, b: seq<T>, p: T -> bool)
    ensures Filter(a + b, p) == Filter(a, p) + Filter(b, p)
  {
    if a == [] {
      assert a + b == b;
    } else {
      assert (a + b)[1..] == a[1..] + b;
      FilterAppend(a[1..], b, p);
    }
  }

  /** An element `p` rejects leaves the filtered list as it is, wherever it stands. */
  lemma FilterSkip<T(!new)>(a: seq<T>, x: T, b: seq<T>, p: T -> bool)
    requires !p(x)
    ensures Filter(a + [x] + b, p) == Filter(a + b, p)
  {
    FilterThree(a, x, b, p);
    FilterAppend(a, b, p);
    FilterSingle(x, p);
  }

  lemma FilterSingle<T(!new)>(x: T, p: T -> bool)
    ensures Filter([x], p) == if p(x) then [x] else []
  {
    assert [x][1..] == [];
  }

  /** `xs.reduce((sum, x) => sum + f(x), 0)`. */
  function SumBy<T>(xs: seq<T>, f: T -> real): real
  {
    if xs == [] then 0.0 else f(xs[0]) + SumBy(xs[1..], f)
  }

  lemma {:induction false} SumAppend<T>(a: seq<T>, b: seq<T>, f: T -> real)
    ensures SumBy(a + b, f) == SumBy(a, f) + SumBy(b, f)
  {
    if a == [] {
      assert a + b == b;
    } else {
      assert (a + b)[1..] == a[1..] + b;
      SumAppend(a[1..], b, f);
    }
  }

  /** Every element is counted exactly once by one of `p` and its negation. */
  lemma {:induction false} SumFilterSplit<T(!new)>(xs: seq<T>, p: T -> bool, f: T -> real)
    ensures SumBy(xs, f) == SumBy(Filter(xs, p), f) + SumBy(Filter(xs, x => !p(x)), f)
  {
    if xs != [] {
      SumFilterSplit(xs[1..], p, f);
      var q := (x: T) => !p(x);
      var head := if p(xs[0]) then [xs[0]] else [];
      var headNot := if q(xs[0]) then [xs[0]] else [];
      SumAppend(head, Filter(xs[1..], p), f);
      SumAppend(headNot, Filter(xs[1..], q), f);
    }
  }

  lemma {:induction false} SumNonNegative<T>(xs: seq<T>, f: T -> real)
    requires forall x :: x in xs ==> f(x) >= 0.0
    ensures SumBy(xs, f) >= 0.0
  {
    if xs != [] {
      SumNonNegative(xs[1..], f);
    }
  }

  /** With non-negative terms, a filtered sum never exceeds the full sum. */
  lemma SumFilterAtMost<T(!new)>(xs: seq<T>, p: T -> bool, f: T -> real)
    requires forall x :: x in xs ==> f(x) >= 0.0
    ensures SumBy(Filter(xs, p), f) <= SumBy(xs, f)
  {
    SumFilterSplit(xs, p, f);
    SumNonNegative(Filter(xs, x => !p(x)), f);
  }

  /** Where the head of one list sits in a permutation of it: taking it
      out there leaves a permutation of the tail. */
  lemma PermutationSplit<T>(xs: seq<T>, ys: seq<T>) returns (k: nat)
    requires xs != [] && multiset(xs) == multiset(ys)
    ensures k < |ys| && ys[k] == xs[0]
    ensures ys == ys[..k] + [xs[0]] + ys[k + 1..]
    ensures multiset(xs[1..]) == multiset(ys[..k] + ys[k + 1..])
  {
    var x := xs[0];
    assert x in multiset(ys);
    k :| 0 <= k < |ys| && ys[k] == x;
    var a, b := ys[..k], ys[k + 1..];
    assert ys == a + [x] + b;
    assert xs == [x] + xs[1..];
    var m, n := multiset(xs[1..]), multiset(a + b);
    assert multiset(xs) == m + multiset{x};
    assert multiset(ys) == n + multiset{x};
    forall y ensures m[y] == n[y] {
      assert (m + multiset{x})[y] == (n + multiset{x})[y];
    }
    assert m == n;
  }

  /** The sum depends only on which elements occur how often, not on their order. */
  lemma {:induction false} SumPermutation<T>(xs: seq<T>, ys: seq<T>, f: T -> real)
    requires multiset(xs) == multiset(ys)
    ensures SumBy(xs, f) == SumBy(ys, f)
    decreases |xs|
  {
    if xs != [] {
      var k := PermutationSplit(xs, ys);
      var a, b := ys[..k], ys[k + 1..];
      SumPermutation(xs[1..], a + b, f);
      SumAppend(a + [xs[0]], b, f);
      SumAppend(a, [xs[0]], f);
      SumAppend(a, b, f);
    }
  }

  lemma SplitAt<T>(ys: seq<T>, k: nat)
    requires k < |ys|
    ensures ys == ys[..k] + [ys[k]] + ys[k + 1..]
  {
  }

  lemma FilterThree<T(!new)>(a: seq<T>, x: T, b: seq<T>, p: T -> bool)
    ensures Filter(a + [x] + b, p) == Filter(a, p) + Filter([x], p) + Filter(b, p)
  {
    FilterAppend(a + [x], b, p);
    FilterAppend(a, [x], p);
  }

  lemma MultisetMiddle<T>(a: seq<T>, m: seq<T>, b: seq<T>)
    ensures multiset(a + m + b) == multiset(a + b) + multiset(m)
  {
  }

  /** Filtering a list with the element at `k` taken out, and that element alone. */
  lemma FilterRemove<T(!new)>(ys: seq<T>, k: nat, p: T -> bool)
    requires k < |ys|
    ensures multiset(Filter(ys, p)) == multiset(Filter(ys[..k] + ys[k + 1..], p)) + multiset(Filter([ys[k]], p))
  {
    var a, x, b := ys[..k], ys[k], ys[k + 1..];
    SplitAt(ys, k);
    FilterThree(a, x, b, p);
    FilterAppend(a, b, p);
    MultisetMiddle(Filter(a, p), Filter([x], p), Filter(b, p));
  }

  /** Filtering a permutation gives a permutation of the filtered list. */
  lemma {:induction false} FilterPermutation<T(!new)>(xs: seq<T>, ys: seq<T>, p: T -> bool)
    requires multiset(xs) == multiset(ys)
    ensures multiset(Filter(xs, p)) == multiset(Filter(ys, p))
    decreases |xs|
  {
    if xs != [] {
      var k := PermutationSplit(xs, ys);
      FilterPermutation(xs[1..], ys[..k] + ys[k + 1..], p);
      FilterRemove(ys, k, p);
      FilterRemove(xs, 0, p);
      assert xs[..0] + xs[1..] == xs[1..];
    } else {
      assert ys == [] by {
        assert |multiset(ys)| == 0;
      }
    }
  }

  /** Non-decreasing by `key`. */
  ghost predicate SortedByKey<T>(s: seq<T>, key: T -> real)
  {
    forall i, j :: 0 <= i < j < |s| ==> key(s[i]) <= key(s[j])
  }

  /** Places `x` before the first element whose key is not smaller, so that
      equal keys keep their input order (JavaScript's sort is stable). */
  function InsertByKey<T>(x: T, s: seq<T>, key: T -> real): (r: seq<T>)
    ensures multiset(r) == multiset(s) + multiset{x}
  {
    if s == [] then [x]
    else if key(x) <= key(s[0]) then [x] + s
    else
      assert s == [s[0]] + s[1..];
      [s[0]] + InsertByKey(x, s[1..], key)
  }

  /** Every element of the result comes from `s` or is `x`, so a lower
      bound on their keys carries over. */
  lemma InsertBound<T>(x: T, s: seq<T>, key: T -> real, lo: real)
    requires lo <= key(x)
    requires forall y :: y in s ==> lo <= key(y)
    ensures forall y :: y in InsertByKey(x, s, key) ==> lo <= key(y)
  {
    var r := InsertByKey(x, s, key);
    forall y | y in r ensures lo <= key(y) {
      assert y in multiset(r);
      assert y == x || y in multiset(s);
    }
  }

  /** The head of a sorted list bounds the rest, which is sorted too. */
  lemma SortedHead<T>(s: seq<T>, key: T -> real)
    requires s != [] && SortedByKey(s, key)
    ensures SortedByKey(s[1..], key)
    ensures forall y :: y in s[1..] ==> key(s[0]) <= key(y)
  {
    forall y | y in s[1..] ensures key(s[0]) <= key(y) {
      var j :| 0 <= j < |s[1..]| && s[1..][j] == y;
      assert s[j + 1] == y;
    }
  }

  /** A bound of every later key, put in front of a sorted list. */
  lemma SortedCons<T>(h: T, rest: seq<T>, key: T -> real)
    requires SortedByKey(rest, key)
    requires forall y :: y in rest ==> key(h) <= key(y)
    ensures SortedByKey([h] + rest, key)
  {
    var r := [h] + rest;
    forall i, j | 0 <= i < j < |r| ensures key(r[i]) <= key(r[j]) {
      assert r[j] == rest[j - 1];
      if i > 0 {
        assert r[i] == rest[i - 1];
      } else {
        assert r[j] in rest;
      }
    }
  }

  /** Inserting into a sorted list keeps it sorted. */
  lemma {:induction false} InsertSorted<T>(x: T, s: seq<T>, key: T -> real)
    requires SortedByKey(s, key)
    ensures SortedByKey(InsertByKey(x, s, key), key)
  {
    if s == [] {
    } else if key(x) <= key(s[0]) {
      SortedHead(s, key);
      SortedCons(x, s[1..], key);
      assert [x] + s == [x] + ([s[0]] + s[1..]);
      SortedCons(x, s, key);
    } else {
      SortedHead(s, key);
      InsertSorted(x, s[1..], key);
      InsertBound(x, s[1..], key, key(s[0]));
      SortedCons(s[0], InsertByKey(x, s[1..], key), key);
    }
  }

  /** A prefix of a sorted list is sorted, and drawn from the list. */
  lemma TakeSorted<T>(s: seq<T>, key: T -> real, n: nat)
    requires SortedByKey(s, key) && n <= |s|
    ensures SortedByKey(s[..n], key)
    ensures multiset(s[..n]) <= multiset(s)
  {
    assert s == s[..n] + s[n..];
    assert multiset(s) == multiset(s[..n]) + multiset(s[n..]);
    forall i, j | 0 <= i < j < n ensures key(s[..n][i]) <= key(s[..n][j]) {
      assert s[..n][i] == s[i] && s[..n][j] == s[j];
    }
  }

  /** `xs.sort((a, b) => key(a) - key(b))`: a stable insertion sort. */
  function SortByKey<T>(xs: seq<T>, key: T -> real): (r: seq<T>)
    ensures multiset(r) == multiset(xs)
    ensures |r| == |xs|
    ensures SortedByKey(r, key)
  {
    if xs == [] then []
    else
      assert xs == [xs[0]] + xs[1..];
      var sorted := SortByKey(xs[1..], key);
      InsertSorted(xs[0], sorted, key);
      InsertByKey(xs[0], sorted, key)
  }

  /** The test for one key value. */
  function KeyIs<T>(key: T -> real, k: real): T -> bool
  {
    (y: T) => key(y) == k
  }

  /** Passing over the head of `s`: the head is kept where it was, unless
      it fails the test whenever something is placed before it. */
  lemma PassHead<T(!new)>(s: seq<T>, rest: seq<T>, mine: seq<T>, p: T -> bool)
    requires s != []
    requires Filter(rest, p) == mine + Filter(s[1..], p)
    requires mine != [] ==> !p(s[0])
    ensures Filter([s[0]] + rest, p) == mine + Filter(s, p)
  {
    FilterAppend([s[0]], rest, p);
    FilterSingle(s[0], p);
    assert s == [s[0]] + s[1..];
    FilterAppend([s[0]], s[1..], p);
  }

  /** Inserting `x` leaves the elements of any other key where they were,
      and puts `x` in front of the elements of its own key. */
  lemma {:induction false} InsertKeepsKeyOrder<T(!new)>(x: T, s: seq<T>, key: T -> real, k: real)
    ensures Filter(InsertByKey(x, s, key), KeyIs(key, k)) ==
      (if key(x) == k then [x] else []) + Filter(s, KeyIs(key, k))
  {
    FilterSingle(x, KeyIs(key, k));
    if s == [] {
    } else if key(x) <= key(s[0]) {
      FilterAppend([x], s, KeyIs(key, k));
    } else {
      InsertKeepsKeyOrder(x, s[1..], key, k);
      PassHead(s, InsertByKey(x, s[1..], key), if key(x) == k then [x] else [], KeyIs(key, k));
    }
  }

  /** The sort is stable: the elements that share a key come out in the
      order they went in. */
  lemma {:induction false} SortStable<T(!new)>(xs: seq<T>, key: T -> real, k: real)
    ensures Filter(SortByKey(xs, key), KeyIs(key, k)) == Filter(xs, KeyIs(key, k))
  {
    if xs != [] {
      SortStable(xs[1..], key, k);
      SortStep(xs, key);
      InsertKeepsKeyOrder(xs[0], SortByKey(xs[1..], key), key, k);
    }
  }

  /** The sort inserts the head into the sorted tail. */
  lemma SortStep<T>(xs: seq<T>, key: T -> real)
    requires xs != []
    ensures SortByKey(xs, key) == InsertByKey(xs[0], SortByKey(xs[1..], key), key)
  {
  }

  lemma {:induction false} MapAppend<T, U>(a: seq<T>, b: seq<T>, f: T -> U)
    ensures Map(a + b, f) == Map(a, f) + Map(b, f)
  {
    if a == [] {
      assert a + b == b;
    } else {
      assert (a + b)[1..] == a[1..] + b;
      MapAppend(a[1..], b, f);
    }
  }

  /** Filtering then mapping one more element extends the result by that element's image, if it is kept. */
  lemma FilterMapSnoc<T(!new), U>(prefix: seq<T>, t: T, p: T -> bool, f: T -> U)
    ensures Map(Filter(prefix + [t], p), f) == Map(Filter(prefix, p), f) + (if p(t) then [f(t)] else [])
  {
    assert [t][1..] == [];
    FilterAppend(prefix, [t], p);
    MapAppend(Filter(prefix, p), Filter([t], p), f);
  }

  /** The images of the first `i + 1` elements. */
  lemma MapPrefix<T, U>(xs: seq<T>, i: nat, f: T -> U)
    requires i < |xs|
    ensures Map(xs[..i + 1], f) == Map(xs[..i], f) + [f(xs[i])]
  {
    assert xs[..i + 1] == xs[..i] + [xs[i]];
    MapAppend(xs[..i], [xs[i]], f);
  }

  /** `xs.forEach(x => out.push(f(x)))`: pushes the images one by one. */
  method PushAll<T, U>(out0: seq<U>, xs: seq<T>, f: T -> U) returns (out: seq<U>)
    ensures out == out0 + Map(xs, f)
  {
    out := out0;
    var i := 0;
    while i < |xs|
      invariant 0 <= i <= |xs|
      invariant out == out0 + Map(xs[..i], f)
    {
      MapPrefix(xs, i, f);
      out := out + [f(xs[i])];
      i := i + 1;
    }
    assert xs[..|xs|] == xs;
  }

  /** `xs.map(x => pick(x) ? f(x) : x)`: rewrites the picked elements in
      place and leaves every other element, and the order, as it was. */
  function ReplaceWhere<T>(xs: seq<T>, pick: T -> bool, f: T -> T): (r: seq<T>)
    ensures |r| == |xs|
    ensures forall i :: 0 <= i < |xs| ==> r[i] == (if pick(xs[i]) then f(xs[i]) else xs[i])
  {
    if xs == [] then []
    else [if pick(xs[0]) then f(xs[0]) else xs[0]] + ReplaceWhere(xs[1..], pick, f)
  }

  /** How many elements satisfy `p`. */
  function Count<T>(xs: seq<T>, p: T -> bool): nat
  {
    if xs == [] then 0 else (if p(xs[0]) then 1 else 0) + Count(xs[1..], p)
  }

  lemma {:induction false} CountAppend<T>(a: seq<T>, b: seq<T>, p: T -> bool)
    ensures Count(a + b, p) == Count(a, p) + Count(b, p)
  {
    if a == [] {
      assert a + b == b;
    } else {
      assert (a + b)[1..] == a[1..] + b;
      CountAppend(a[1..], b, p);
    }
  }

  /** `xs.map(f)`. */
  function Map<T, U>(xs: seq<T>, f: T -> U): (r: seq<U>)
    ensures |r| == |xs|
    ensures forall i :: 0 <= i < |xs| ==> r[i] == f(xs[i])
  {
    if xs == [] then [] else [f(xs[0])] + Map(xs[1..], f)
  }
}
