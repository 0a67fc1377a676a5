/** The final ranking in the optimiser's `main` (xauusd_optimizer.js:718-720):
    all scored parameter sets are sorted in place by descending score, the
    first ten are kept, and the first of those is the best set. */
module Ranking {
  import opened Wrappers
  import opened Market
  import opened Sorting

  /** How many sets the report keeps. */
  const TopCount: nat := 10

  /** The sort key: sorting ascending by the negated score is the comparator
      `(a, b) => b.optimization_score - a.optimization_score`. */
  function NegatedScore(p: ScoredProperty): real
  {
    -p.optimizationScore
  }

  predicate Descending(s: seq<ScoredProperty>)
  {
    forall p, q :: 0 <= p < q < |s| ==> s[p].optimizationScore >= s[q].optimizationScore
  }

  lemma AscendingNegationIsDescending(s: seq<ScoredProperty>)
    requires SortedBy(s, NegatedScore)
    ensures Descending(s)
  {
    forall p, q | 0 <= p < q < |s|
      ensures s[p].optimizationScore >= s[q].optimizationScore
    {
      assert NegatedScore(s[p]) <= NegatedScore(s[q]);
    }
  }

  function TopOf(s: seq<ScoredProperty>): (top: seq<ScoredProperty>)
    ensures |top| == if |s| < TopCount then |s| else TopCount
    ensures top <= s
  {
    if |s| < TopCount then s else s[..TopCount]
  }

  /** `allResults.sort(...)`, `slice(0, 10)` and `[0]`. The sort is stable:
      results with equal scores keep their arrival order. */
  method RankResults(allResults: array<ScoredProperty>) returns (bestOverall10: seq<ScoredProperty>, best: Option<ScoredProperty>)
    modifies allResults
    ensures Descending(allResults[..])
    ensures multiset(allResults[..]) == multiset(old(allResults[..]))
    ensures SameKeyClasses(allResults[..], old(allResults[..]), NegatedScore)
    ensures bestOverall10 == TopOf(allResults[..])
    ensures best == if allResults.Length == 0 then None else Some(allResults[0])
  {
    InsertionSortBy(allResults, NegatedScore);
    AscendingNegationIsDescending(allResults[..]);
    bestOverall10 := TopOf(allResults[..]);
    best := if |bestOverall10| > 0 then Some(bestOverall10[0]) else None;
  }

  /** The best set scores at least as high as every set that was ranked. */
  lemma BestIsMaximum(ranked: seq<ScoredProperty>, results: seq<ScoredProperty>)
    requires Descending(ranked) && multiset(ranked) == multiset(results) && ranked != []
    ensures ranked[0] in results
    ensures forall r :: r in results ==> r.optimizationScore <= ranked[0].optimizationScore
  {
    assert ranked[0] in multiset(ranked);
    forall r | r in results
      ensures r.optimizationScore <= ranked[0].optimizationScore
    {
      assert r in multiset(ranked);
      var k :| 0 <= k < |ranked| && ranked[k] == r;
      if k > 0 {
        assert ranked[0].optimizationScore >= ranked[k].optimizationScore;
      }
    }
  }

  /** Every set kept scores at least as high as every set dropped. */
  lemma TopDominatesRest(ranked: seq<ScoredProperty>)
    requires Descending(ranked)
    ensures forall x, y :: x in TopOf(ranked) && y in ranked[|TopOf(ranked)|..] ==>
      x.optimizationScore >= y.optimizationScore
  {
    var top := TopOf(ranked);
    forall x, y | x in top && y in ranked[|top|..]
      ensures x.optimizationScore >= y.optimizationScore
    {
      var p :| 0 <= p < |top| && top[p] == x;
      var q :| 0 <= q < |ranked| - |top| && ranked[|top|..][q] == y;
      assert ranked[p] == x && ranked[|top| + q] == y;
    }
  }
}
