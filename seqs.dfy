/** Order-preserving filtering and counting over sequences (`Array.prototype.filter`). */
module Seqs {

  /** The elements of `xs` that satisfy `p`, in their original order. */
  function Filter<T>(xs: seq<T>, p: T -> bool): (r: seq<T>)
    ensures |r| <= |xs|
    ensures forall i :: 0 <= i < |r| ==> r[i] in xs && p(r[i])
    ensures forall i :: 0 <= i < |xs| && p(xs[i]) ==> xs[i] in r
  {
    if xs == [] then []
    else
      var last := xs[|xs| - 1];
      Filter(xs[..|xs| - 1], p) + (if p(last) then [last] else [])
  }

  lemma {:induction false} FilterAppend<T>(a: seq<T>, b: seq<T>, p: T -> bool)
    ensures Filter(a + b, p) == Filter(a, p) + Filter(b, p)
    decreases |b|
  {
    if b == [] {
      assert a + b == a;
    } else {
      var last := b[|b| - 1];
      assert (a + b)[..|a + b| - 1] == a + b[..|b| - 1];
      FilterAppend(a, b[..|b| - 1], p);
    }
  }

  lemma FilterSnoc<T>(xs: seq<T>, x: T, p: T -> bool)
    ensures Filter(xs + [x], p) == Filter(xs, p) + (if p(x) then [x] else [])
  {
    assert (xs + [x])[..|xs|] == xs;
  }

  lemma FilterCons<T>(x: T, xs: seq<T>, p: T -> bool)
    ensures Filter([x] + xs, p) == (if p(x) then [x] else []) + Filter(xs, p)
  {
    assert [x][..0] == [];
    assert Filter([x], p) == (if p(x) then [x] else []);
    FilterAppend([x], xs, p);
  }

  /** If `ys` filters like `xs` followed by `y`, then so does `x` in front of each. */
  lemma FilterConsSnoc<T>(x: T, xs: seq<T>, ys: seq<T>, y: T, p: T -> bool)
    requires Filter(ys, p) == Filter(xs, p) + (if p(y) then [y] else [])
    ensures Filter([x] + ys, p) == Filter([x] + xs, p) + (if p(y) then [y] else [])
  {
    var hx, hy := (if p(x) then [x] else []), (if p(y) then [y] else []);
    FilterCons(x, ys, p);
    FilterCons(x, xs, p);
    ConcatAssoc(hx, Filter(xs, p), hy);
  }

  lemma ConcatAssoc<T>(a: seq<T>, b: seq<T>, c: seq<T>)
    ensures a + (b + c) == (a + b) + c
  {
  }

  /** Nothing survives a filter no element passes. */
  lemma {:induction false} FilterNone<T>(xs: seq<T>, p: T -> bool)
    requires forall i :: 0 <= i < |xs| ==> !p(xs[i])
    ensures Filter(xs, p) == []
  {
    if xs != [] {
      FilterNone(xs[..|xs| - 1], p);
    }
  }

  /** Everything survives a filter every element passes. */
  lemma {:induction false} FilterAll<T>(xs: seq<T>, p: T -> bool)
    requires forall i :: 0 <= i < |xs| ==> p(xs[i])
    ensures Filter(xs, p) == xs
  {
    if xs != [] {
      FilterAll(xs[..|xs| - 1], p);
    }
  }

  /**
   * Splitting by `p`, then splitting what fails `p` by `q`, gives three lists that
   * together hold exactly the elements of `xs`.
   */
  lemma FilterThreeWay<T>(xs: seq<T>, p: T -> bool, notP: T -> bool, q: T -> bool, notQ: T -> bool,
                          a: T -> bool, b: T -> bool)
    requires forall x :: notP(x) == !p(x)
    requires forall x :: notQ(x) == !q(x)
    requires forall x :: a(x) == (notP(x) && q(x))
    requires forall x :: b(x) == (notP(x) && notQ(x))
    ensures multiset(Filter(xs, p)) + multiset(Filter(xs, a)) + multiset(Filter(xs, b)) == multiset(xs)
    ensures |Filter(xs, p)| + |Filter(xs, a)| + |Filter(xs, b)| == |xs|
  {
    var rest := Filter(xs, notP);
    FilterSplit(xs, p, notP);
    FilterSplit(rest, q, notQ);
    FilterFilter(xs, notP, q, a);
    FilterFilter(xs, notP, notQ, b);
  }

  /** Filtering with `p` and with its negation splits `xs` into two parts. */
  lemma {:induction false} FilterSplit<T>(xs: seq<T>, p: T -> bool, q: T -> bool)
    requires forall x :: q(x) == !p(x)
    ensures multiset(Filter(xs, p)) + multiset(Filter(xs, q)) == multiset(xs)
    ensures |Filter(xs, p)| + |Filter(xs, q)| == |xs|
  {
    if xs != [] {
      var init, last := xs[..|xs| - 1], xs[|xs| - 1];
      assert xs == init + [last];
      FilterSplit(init, p, q);
      SplitStep(init, last, p, q);
    }
  }

  lemma SplitStep<T>(init: seq<T>, last: T, p: T -> bool, q: T -> bool)
    requires q(last) == !p(last)
    ensures multiset(Filter(init + [last], p)) + multiset(Filter(init + [last], q))
         == multiset(Filter(init, p)) + multiset(Filter(init, q)) + multiset{last}
    ensures |Filter(init + [last], p)| + |Filter(init + [last], q)|
         == |Filter(init, p)| + |Filter(init, q)| + 1
  {
    FilterSnoc(init, last, p);
    FilterSnoc(init, last, q);
  }

  /** Filtering twice is filtering once by the conjunction. */
  lemma {:induction false} FilterFilter<T>(xs: seq<T>, p: T -> bool, q: T -> bool, pq: T -> bool)
    requires forall x :: pq(x) == (p(x) && q(x))
    ensures Filter(Filter(xs, p), q) == Filter(xs, pq)
  {
    if xs != [] {
      var init, last := xs[..|xs| - 1], xs[|xs| - 1];
      FilterFilter(init, p, q, pq);
      assert Filter(xs, pq) == Filter(init, pq) + (if pq(last) then [last] else []);
      if p(last) {
        assert Filter(xs, p) == Filter(init, p) + [last];
        FilterSnoc(Filter(init, p), last, q);
      } else {
        assert Filter(xs, p) == Filter(init, p);
      }
    }
  }

  /** A stronger filter keeps no more elements. */
  lemma {:induction false} FilterMonotone<T>(xs: seq<T>, p: T -> bool, q: T -> bool)
    requires forall x :: p(x) ==> q(x)
    ensures |Filter(xs, p)| <= |Filter(xs, q)|
  {
    if xs != [] {
      FilterMonotone(xs[..|xs| - 1], p, q);
    }
  }

  /** Filters that agree on every element agree on every list. */
  lemma {:induction false} FilterExt<T>(xs: seq<T>, p: T -> bool, q: T -> bool)
    requires forall x :: p(x) == q(x)
    ensures Filter(xs, p) == Filter(xs, q)
  {
    if xs != [] {
      FilterExt(xs[..|xs| - 1], p, q);
    }
  }

  /** An element that occurs at two positions occurs at least twice. */
  lemma TwoPositions<T>(s: seq<T>, i: nat, j: nat)
    requires i < j < |s| && s[i] == s[j]
    ensures multiset(s)[s[i]] >= 2
  {
    assert s == s[..i] + [s[i]] + s[i + 1..];
    assert s[j] in s[i + 1..];
    assert multiset(s[i + 1..])[s[i]] >= 1;
  }

  /** An element that occurs at least twice has two positions. */
  lemma {:induction false} TwoOccurrences<T>(s: seq<T>, x: T)
    requires multiset(s)[x] >= 2
    ensures exists i, j :: 0 <= i < j < |s| && s[i] == x && s[j] == x
  {
    assert s != [];
    if s[0] == x {
      assert s == [s[0]] + s[1..];
      assert multiset(s[1..])[x] >= 1;
      assert x in s[1..];
      var k :| 0 <= k < |s[1..]| && s[1..][k] == x;
      assert s[k + 1] == x;
    } else {
      assert s == [s[0]] + s[1..];
      assert multiset(s[1..])[x] >= 2;
      TwoOccurrences(s[1..], x);
      var i, j :| 0 <= i < j < |s[1..]| && s[1..][i] == x && s[1..][j] == x;
      assert s[i + 1] == x && s[j + 1] == x;
    }
  }

  /** No two positions hold relevant elements with the same key. */
  predicate UniqueKeys<T, K(==)>(xs: seq<T>, key: T -> K, relevant: T -> bool) {
    forall i, j :: 0 <= i < |xs| && 0 <= j < |xs| && i != j && relevant(xs[i]) ==> key(xs[i]) != key(xs[j])
  }

  /** A position holding `x`. */
  lemma PositionOf<T>(xs: seq<T>, x: T) returns (k: nat)
    requires x in multiset(xs)
    ensures k < |xs| && xs[k] == x
  {
    assert x in xs;
    k :| 0 <= k < |xs| && xs[k] == x;
  }

  /** Unique keys survive any permutation. */
  lemma UniqueKeysPermutation<T, K>(xs: seq<T>, ys: seq<T>, key: T -> K, relevant: T -> bool)
    requires multiset(xs) == multiset(ys)
    requires UniqueKeys(xs, key, relevant)
    ensures UniqueKeys(ys, key, relevant)
  {
    forall i, j | 0 <= i < |ys| && 0 <= j < |ys| && i != j && relevant(ys[i])
      ensures key(ys[i]) != key(ys[j])
    {
      if ys[i] == ys[j] {
        if i < j {
          TwoPositions(ys, i, j);
        } else {
          TwoPositions(ys, j, i);
        }
        TwoOccurrences(xs, ys[i]);
      } else {
        var a := PositionOf(xs, ys[i]);
        var b := PositionOf(xs, ys[j]);
      }
    }
  }

  /** No element occurs twice. */
  predicate Distinct<T(==)>(xs: seq<T>) {
    forall i, j :: 0 <= i < j < |xs| ==> xs[i] != xs[j]
  }

  /** Filtering keeps a sequence free of repetitions. */
  lemma {:induction false} FilterDistinct<T>(xs: seq<T>, p: T -> bool)
    requires Distinct(xs)
    ensures Distinct(Filter(xs, p))
  {
    if xs != [] {
      var init, last := xs[..|xs| - 1], xs[|xs| - 1];
      assert Distinct(init) by {
        forall i, j | 0 <= i < j < |init| ensures init[i] != init[j] {
          assert init[i] == xs[i] && init[j] == xs[j];
        }
      }
      FilterDistinct(init, p);
      var r := Filter(init, p);
      if p(last) {
        forall i | 0 <= i < |r| ensures r[i] != last {
          var k := PositionOf(init, r[i]);
          assert xs[k] == r[i];
        }
      }
    }
  }

  /** A sequence without repetitions has as many elements as its set. */
  lemma {:induction false} DistinctCard<T>(xs: seq<T>)
    requires Distinct(xs)
    ensures |set x | x in xs| == |xs|
  {
    if xs != [] {
      var init, last := xs[..|xs| - 1], xs[|xs| - 1];
      assert Distinct(init) by {
        forall i, j | 0 <= i < j < |init| ensures init[i] != init[j] {
          assert init[i] == xs[i] && init[j] == xs[j];
        }
      }
      DistinctCard(init);
      assert last !in init by {
        forall i | 0 <= i < |init| ensures init[i] != last {
          assert init[i] == xs[i];
        }
      }
      assert (set x | x in xs) == (set x | x in init) + {last} by {
        assert xs == init + [last];
      }
    }
  }
}
