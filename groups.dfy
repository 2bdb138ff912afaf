/**
 * Grouping a sequence by a key, as a JavaScript `Map` from key to array fills up: the
 * keys in the order they are first seen, and for each key the elements carrying it, in
 * input order. Only elements satisfying `relevant` are grouped.
 */
module Groups {
  import opened Seqs

  /** The distinct keys of the relevant elements, in first-seen order. */
  function Keys<T, K(==)>(xs: seq<T>, key: T -> K, relevant: T -> bool): seq<K> {
    if xs == [] then []
    else
      var ks := Keys(xs[..|xs| - 1], key, relevant);
      var x := xs[|xs| - 1];
      if relevant(x) && key(x) !in ks then ks + [key(x)] else ks
  }

  /** The relevant elements with key `k`. */
  function WithKey<T, K(==)>(key: T -> K, relevant: T -> bool, k: K): T -> bool {
    x => relevant(x) && key(x) == k
  }

  /** The keys are distinct, and they are exactly the keys of the relevant elements. */
  lemma {:induction false} KeysFacts<T, K>(xs: seq<T>, key: T -> K, relevant: T -> bool)
    ensures Distinct(Keys(xs, key, relevant))
    ensures forall k :: k in Keys(xs, key, relevant) <==>
      exists i :: 0 <= i < |xs| && relevant(xs[i]) && key(xs[i]) == k
  {
    if xs != [] {
      var init, x := xs[..|xs| - 1], xs[|xs| - 1];
      KeysFacts(init, key, relevant);
      forall k ensures k in Keys(xs, key, relevant) <==>
        exists i :: 0 <= i < |xs| && relevant(xs[i]) && key(xs[i]) == k
      {
        if k in Keys(init, key, relevant) {
          var i :| 0 <= i < |init| && relevant(init[i]) && key(init[i]) == k;
          assert xs[i] == init[i];
        }
        if exists i :: 0 <= i < |xs| && relevant(xs[i]) && key(xs[i]) == k {
          var i :| 0 <= i < |xs| && relevant(xs[i]) && key(xs[i]) == k;
          if i < |init| {
            assert init[i] == xs[i];
          }
        }
      }
    }
  }

  /** A key that is not among the keys has no elements. */
  lemma KeyAbsent<T, K>(xs: seq<T>, key: T -> K, relevant: T -> bool, k: K)
    requires k !in Keys(xs, key, relevant)
    ensures Filter(xs, WithKey(key, relevant, k)) == []
  {
    KeysFacts(xs, key, relevant);
    FilterNone(xs, WithKey(key, relevant, k));
  }

  /** The total size of the groups of `ks`. */
  function SumCounts<T, K(==)>(ks: seq<K>, xs: seq<T>, key: T -> K, relevant: T -> bool): nat {
    if ks == [] then 0
    else SumCounts(ks[..|ks| - 1], xs, key, relevant) + |Filter(xs, WithKey(key, relevant, ks[|ks| - 1]))|
  }

  /** Appending an element whose key is not in `ks` leaves their groups as they were. */
  lemma {:induction false} SumCountsOther<T, K>(ks: seq<K>, xs: seq<T>, x: T, key: T -> K, relevant: T -> bool)
    requires !relevant(x) || key(x) !in ks
    ensures SumCounts(ks, xs + [x], key, relevant) == SumCounts(ks, xs, key, relevant)
  {
    if ks != [] {
      var init, k := ks[..|ks| - 1], ks[|ks| - 1];
      SumCountsOther(init, xs, x, key, relevant);
      FilterSnoc(xs, x, WithKey(key, relevant, k));
    }
  }

  /** Appending an element whose key occurs once in `ks` grows their total by one. */
  lemma {:induction false} SumCountsBump<T, K>(ks: seq<K>, xs: seq<T>, x: T, key: T -> K, relevant: T -> bool)
    requires relevant(x) && key(x) in ks && Distinct(ks)
    ensures SumCounts(ks, xs + [x], key, relevant) == SumCounts(ks, xs, key, relevant) + 1
  {
    var init, k := ks[..|ks| - 1], ks[|ks| - 1];
    FilterSnoc(xs, x, WithKey(key, relevant, k));
    if k == key(x) {
      assert key(x) !in init by {
        forall i | 0 <= i < |init| ensures init[i] != key(x) {
          assert ks[i] == init[i];
        }
      }
      SumCountsOther(init, xs, x, key, relevant);
    } else {
      assert key(x) in init;
      assert Distinct(init) by {
        forall i, j | 0 <= i < j < |init| ensures init[i] != init[j] {
          assert ks[i] == init[i] && ks[j] == init[j];
        }
      }
      SumCountsBump(init, xs, x, key, relevant);
    }
  }

  /** The groups together hold every relevant element. */
  lemma {:induction false} KeysCover<T, K>(xs: seq<T>, key: T -> K, relevant: T -> bool)
    ensures SumCounts(Keys(xs, key, relevant), xs, key, relevant) == |Filter(xs, relevant)|
  {
    if xs != [] {
      var init, x := xs[..|xs| - 1], xs[|xs| - 1];
      var ks := Keys(init, key, relevant);
      KeysCover(init, key, relevant);
      assert xs == init + [x];
      FilterSnoc(init, x, relevant);
      if !relevant(x) {
        SumCountsOther(ks, init, x, key, relevant);
      } else if key(x) in ks {
        KeysFacts(init, key, relevant);
        SumCountsBump(ks, init, x, key, relevant);
      } else {
        SumCountsOther(ks, init, x, key, relevant);
        KeyAbsent(init, key, relevant, key(x));
        FilterSnoc(init, x, WithKey(key, relevant, key(x)));
        assert (ks + [key(x)])[..|ks|] == ks;
      }
    }
  }

  /** The grouping loop: a map from key to the list of its elements, and the keys in insertion order. */
  method GroupBy<T, K(==)>(xs: seq<T>, key: T -> K, relevant: T -> bool)
    returns (order: seq<K>, groups: map<K, seq<T>>)
    ensures order == Keys(xs, key, relevant)
    ensures forall k :: k in groups <==> k in order
    ensures forall k :: k in groups ==> groups[k] == Filter(xs, WithKey(key, relevant, k))
  {
    order, groups := [], map[];
    for i := 0 to |xs|
      invariant order == Keys(xs[..i], key, relevant)
      invariant forall k :: k in groups <==> k in order
      invariant forall k :: k in groups ==> groups[k] == Filter(xs[..i], WithKey(key, relevant, k))
    {
      var x := xs[i];
      assert xs[..i + 1] == xs[..i] + [x];
      forall k ensures Filter(xs[..i + 1], WithKey(key, relevant, k))
        == Filter(xs[..i], WithKey(key, relevant, k)) + (if WithKey(key, relevant, k)(x) then [x] else [])
      {
        FilterSnoc(xs[..i], x, WithKey(key, relevant, k));
      }
      if relevant(x) {
        var k := key(x);
        if k !in groups {
          KeyAbsent(xs[..i], key, relevant, k);
          order := order + [k];
          groups := groups[k := []];
        }
        groups := groups[k := groups[k] + [x]];
      }
    }
    assert xs[..|xs|] == xs;
  }
}
