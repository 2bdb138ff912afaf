/**
 * Ranking match results: by priority (high first), then by score (highest first).
 * The library sort is stable, so results that tie on both keep their input order; the
 * model is a stable insertion sort over a copy of the input.
 */
module Ranking {
  import opened Seqs
  import opened Scoring

  /** `a` is ranked strictly ahead of `b`: the comparator is negative. */
  predicate Before(a: MatchResult, b: MatchResult) {
    a.priority.Rank() < b.priority.Rank()
    || (a.priority.Rank() == b.priority.Rank() && a.eligibilityScore > b.eligibilityScore)
  }

  /** The comparator returns 0: same priority and same score. */
  predicate Tied(a: MatchResult, b: MatchResult) {
    a.priority == b.priority && a.eligibilityScore == b.eligibilityScore
  }

  /** The results with the given priority and score. */
  function TiedWith(priority: Priority, score: real): MatchResult -> bool {
    (r: MatchResult) => r.priority == priority && r.eligibilityScore == score
  }

  /** No result is ranked strictly ahead of an earlier one. */
  predicate Ranked(rs: seq<MatchResult>) {
    forall i, j :: 0 <= i < j < |rs| ==> !Before(rs[j], rs[i])
  }

  lemma RankInjective(p: Priority, q: Priority)
    requires p.Rank() == q.Rank()
    ensures p == q
  {
  }

  /** Neither ahead of the other exactly when tied. */
  lemma TiedIff(a: MatchResult, b: MatchResult)
    ensures !Before(a, b) && !Before(b, a) <==> Tied(a, b)
  {
    if !Before(a, b) && !Before(b, a) {
      RankInjective(a.priority, b.priority);
    }
  }

  /** `x` goes in front of the first element it is strictly ahead of, so after all its ties. */
  function Insert(rs: seq<MatchResult>, x: MatchResult): (r: seq<MatchResult>)
    ensures |r| == |rs| + 1
  {
    if rs == [] then [x]
    else if Before(x, rs[0]) then [x] + rs
    else [rs[0]] + Insert(rs[1..], x)
  }

  /** The ranked copy of `matches`, inserting each result in input order. */
  function RankMatches(matches: seq<MatchResult>): (r: seq<MatchResult>)
    ensures |r| == |matches|
  {
    if matches == [] then []
    else Insert(RankMatches(matches[..|matches| - 1]), matches[|matches| - 1])
  }

  lemma {:induction false} InsertPermutes(rs: seq<MatchResult>, x: MatchResult)
    ensures multiset(Insert(rs, x)) == multiset(rs) + multiset{x}
  {
    if rs != [] && !Before(x, rs[0]) {
      InsertPermutes(rs[1..], x);
      assert rs == [rs[0]] + rs[1..];
    }
  }

  lemma RankedTail(rs: seq<MatchResult>)
    requires Ranked(rs) && rs != []
    ensures Ranked(rs[1..])
  {
    forall i, j | 0 <= i < j < |rs[1..]| ensures !Before(rs[1..][j], rs[1..][i]) {
      assert rs[1..][i] == rs[i + 1] && rs[1..][j] == rs[j + 1];
    }
  }

  lemma {:induction false} InsertRanked(rs: seq<MatchResult>, x: MatchResult)
    requires Ranked(rs)
    ensures Ranked(Insert(rs, x))
  {
    if rs == [] {
    } else if Before(x, rs[0]) {
      var r := [x] + rs;
      forall i, j | 0 <= i < j < |r| ensures !Before(r[j], r[i]) {
        if i > 0 {
          assert r[i] == rs[i - 1] && r[j] == rs[j - 1];
        } else {
          assert r[j] == rs[j - 1];
          assert !Before(rs[j - 1], rs[0]) by {
            if j - 1 > 0 {
              assert !Before(rs[j - 1], rs[0]);
            }
          }
        }
      }
    } else {
      var tail := Insert(rs[1..], x);
      RankedTail(rs);
      InsertRanked(rs[1..], x);
      InsertPermutes(rs[1..], x);
      var r := [rs[0]] + tail;
      forall i, j | 0 <= i < j < |r| ensures !Before(r[j], r[i]) {
        if i > 0 {
          assert r[i] == tail[i - 1] && r[j] == tail[j - 1];
        } else {
          assert r[j] == tail[j - 1];
          assert r[j] in multiset(rs[1..]) + multiset{x};
          if r[j] != x {
            assert r[j] in rs[1..];
            var k :| 0 <= k < |rs[1..]| && rs[1..][k] == r[j];
            assert rs[k + 1] == r[j];
          }
        }
      }
    }
  }

  /** The ranking is a permutation of its input. */
  lemma {:induction false} RankMatchesPermutes(matches: seq<MatchResult>)
    ensures multiset(RankMatches(matches)) == multiset(matches)
  {
    if matches != [] {
      var init, last := matches[..|matches| - 1], matches[|matches| - 1];
      RankMatchesPermutes(init);
      InsertPermutes(RankMatches(init), last);
      assert matches == init + [last];
    }
  }

  /** The ranking is in order: non-decreasing priority rank, non-increasing score within a rank. */
  lemma {:induction false} RankMatchesRanked(matches: seq<MatchResult>)
    ensures Ranked(RankMatches(matches))
  {
    if matches != [] {
      RankMatchesRanked(matches[..|matches| - 1]);
      InsertRanked(RankMatches(matches[..|matches| - 1]), matches[|matches| - 1]);
    }
  }

  /** Neighbours in the ranking: rank non-decreasing, and score non-increasing when the ranks are equal. */
  lemma RankMatchesAdjacent(matches: seq<MatchResult>, i: nat)
    requires i + 1 < |RankMatches(matches)|
    ensures var r := RankMatches(matches);
      r[i].priority.Rank() <= r[i + 1].priority.Rank()
      && (r[i].priority == r[i + 1].priority ==> r[i].eligibilityScore >= r[i + 1].eligibilityScore)
  {
    RankMatchesRanked(matches);
    var r := RankMatches(matches);
    assert !Before(r[i + 1], r[i]);
  }

  /** Nothing in a ranked list headed by a result strictly behind a tied `x` is tied with it. */
  lemma NoneTiedBehind(rs: seq<MatchResult>, x: MatchResult, priority: Priority, score: real)
    requires Ranked(rs) && rs != [] && Before(x, rs[0])
    requires x.priority == priority && x.eligibilityScore == score
    ensures Filter(rs, TiedWith(priority, score)) == []
  {
    var p := TiedWith(priority, score);
    forall k | 0 <= k < |rs| ensures !p(rs[k]) {
      if k > 0 {
        assert !Before(rs[k], rs[0]);
      }
    }
    FilterNone(rs, p);
  }

  lemma InsertStableFront(rs: seq<MatchResult>, x: MatchResult, priority: Priority, score: real)
    requires Ranked(rs) && rs != [] && Before(x, rs[0])
    ensures Filter([x] + rs, TiedWith(priority, score))
      == Filter(rs, TiedWith(priority, score)) + (if TiedWith(priority, score)(x) then [x] else [])
  {
    var p := TiedWith(priority, score);
    FilterCons(x, rs, p);
    if p(x) {
      NoneTiedBehind(rs, x, priority, score);
    }
  }

  /** Inserting into a ranked list keeps the order among the results tied with `x`. */
  lemma {:induction false} InsertStable(rs: seq<MatchResult>, x: MatchResult, priority: Priority, score: real)
    requires Ranked(rs)
    ensures Filter(Insert(rs, x), TiedWith(priority, score))
      == Filter(rs, TiedWith(priority, score)) + (if TiedWith(priority, score)(x) then [x] else [])
  {
    var p := TiedWith(priority, score);
    if rs == [] {
      FilterCons(x, [], p);
    } else if Before(x, rs[0]) {
      InsertStableFront(rs, x, priority, score);
    } else {
      RankedTail(rs);
      InsertStable(rs[1..], x, priority, score);
      FilterConsSnoc(rs[0], rs[1..], Insert(rs[1..], x), x, p);
      assert rs == [rs[0]] + rs[1..];
    }
  }

  /** Stability: the results tied on priority and score appear in the ranking in input order. */
  lemma {:induction false} RankMatchesStable(matches: seq<MatchResult>, priority: Priority, score: real)
    ensures Filter(RankMatches(matches), TiedWith(priority, score)) == Filter(matches, TiedWith(priority, score))
  {
    if matches != [] {
      var init, last := matches[..|matches| - 1], matches[|matches| - 1];
      RankMatchesStable(init, priority, score);
      RankMatchesRanked(init);
      InsertStable(RankMatches(init), last, priority, score);
    }
  }
}
