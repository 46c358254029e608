/**
 The word-count aggregate of the crawler: a map from token to running total,
 and the merge that folds one page's counts into it.
 */
module Counts {

  /** Token to occurrence count, as the crawler's shared `counts` map. */
  type WordCounts = map<string, int>

  /** The stored total for `k`, or 0 when `k` has no entry yet. */
  function Get(m: WordCounts, k: string): int
  {
    if k in m then m[k] else 0
  }

  /** Reference definition of a merge: the pointwise sum over the union of the keys. */
  function Sum(totals: WordCounts, page: WordCounts): WordCounts
  {
    map k | k in totals.Keys + page.Keys :: Get(totals, k) + Get(page, k)
  }

  /**
   One `counts.put` of the merge loop: a token already present gets its old
   total plus `v`, a new token is inserted with `v`.
   */
  function Put(totals: WordCounts, k: string, v: int): (r: WordCounts)
    ensures r.Keys == totals.Keys + {k}
    ensures r[k] == Get(totals, k) + v
    ensures forall j :: j in totals && j != k ==> r[j] == totals[j]
  {
    totals[k := if k in totals then totals[k] + v else v]
  }

  /**
   The merge loop over the page's entries. The entries are visited in an
   arbitrary order (the iteration order of a hash map's entry set), so the
   loop picks any key not yet merged; whatever order it takes, the result is
   the pointwise sum.
   */
  method MergeCounts(totals: WordCounts, page: WordCounts) returns (r: WordCounts)
    ensures r.Keys == totals.Keys + page.Keys
    ensures forall k :: k in page ==> r[k] == Get(totals, k) + page[k]
    ensures forall k :: k in totals && k !in page ==> r[k] == totals[k]
    ensures r == Sum(totals, page)
  {
    r := totals;
    var todo := page.Keys;
    while todo != {}
      invariant todo <= page.Keys
      invariant r.Keys == totals.Keys + (page.Keys - todo)
      invariant forall k :: k in r ==> r[k] == Get(totals, k) + (if k in todo then 0 else Get(page, k))
      decreases todo
    {
      var k :| k in todo;
      r := Put(r, k, page[k]);
      todo := todo - {k};
    }
    SumUnique(totals, page, r);
  }

  /** Any map with the union of the keys and the pointwise sums is `Sum`. */
  lemma SumUnique(totals: WordCounts, page: WordCounts, r: WordCounts)
    requires r.Keys == totals.Keys + page.Keys
    requires forall k :: k in r ==> r[k] == Get(totals, k) + Get(page, k)
    ensures r == Sum(totals, page)
  {
  }

  /** Merging two pages gives the same totals in either order. */
  lemma SumCommutes(totals: WordCounts, a: WordCounts, b: WordCounts)
    ensures Sum(Sum(totals, a), b) == Sum(Sum(totals, b), a)
  {
  }

  /**
   The totals after merging the counts of every page in `urls` into
   `totals`, one page at a time in an order picked from the set; the order
   does not matter (`SumOverRemove`).
   */
  ghost function SumOver(totals: WordCounts, urls: set<string>, pageCounts: string -> WordCounts): WordCounts
    decreases urls
  {
    if urls == {} then totals
    else
      var u :| u in urls;
      Sum(SumOver(totals, urls - {u}, pageCounts), pageCounts(u))
  }

  /** Any page of the set may be merged last. */
  lemma {:induction false} SumOverRemove(totals: WordCounts, urls: set<string>, pageCounts: string -> WordCounts, u: string)
    requires u in urls
    ensures SumOver(totals, urls, pageCounts) == Sum(SumOver(totals, urls - {u}, pageCounts), pageCounts(u))
    decreases urls
  {
    var v :| v in urls && SumOver(totals, urls, pageCounts) == Sum(SumOver(totals, urls - {v}, pageCounts), pageCounts(v));
    if v != u {
      var both := urls - {u} - {v};
      SumOverRemove(totals, urls - {v}, pageCounts, u);
      SumOverRemove(totals, urls - {u}, pageCounts, v);
      assert urls - {v} - {u} == both;
      assert urls - {u} - {v} == both;
      SumCommutes(SumOver(totals, both, pageCounts), pageCounts(u), pageCounts(v));
    }
  }

  /** Merging the pages of `a`, then those of a disjoint `b`, merges the pages of `a + b`. */
  lemma {:induction false} SumOverUnion(totals: WordCounts, a: set<string>, b: set<string>, pageCounts: string -> WordCounts)
    requires a !! b
    ensures SumOver(SumOver(totals, a, pageCounts), b, pageCounts) == SumOver(totals, a + b, pageCounts)
    decreases b
  {
    if b != {} {
      var u :| u in b;
      SumOverRemove(SumOver(totals, a, pageCounts), b, pageCounts, u);
      SumOverUnion(totals, a, b - {u}, pageCounts);
      assert (a + b) - {u} == a + (b - {u});
      SumOverRemove(totals, a + b, pageCounts, u);
    } else {
      assert a + b == a;
    }
  }
}
