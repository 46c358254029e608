/**
 Worked inputs on which the crawl task as written departs from the crawl its
 structure intends, each next to the corrected task on the same input.

 The link graph: `A` links to `B` and `C` and holds the word `x` twice; `B`
 has no links and holds `x` and `y` once; every other page is empty.
 */
module Findings {
  import opened Counts
  import opened Crawl
  import opened FixedCrawl

  function ExamplePage(url: string): Page
  {
    if url == "A" then Page(["B", "C"], map["x" := 2])
    else if url == "B" then Page([], map["x" := 1, "y" := 1])
    else Page([], map[])
  }

  /** No ignore patterns, deadline 10 (every example starts at time 0). */
  function ExampleConfig(): Config
  {
    Config(10, [], (p: Pattern, u: string) => false, ExamplePage)
  }

  function Empty(): State
  {
    State({}, map[])
  }

  /**
   As written: with two hops of depth from `A`, only `A` itself is parsed;
   its links are stored in the task and dropped when the task returns.
   */
  lemma AsWrittenDropsLinks()
    ensures Compute(ExampleConfig(), 0, NewTask(["A"], 2), Empty()).state == State({"A"}, map["x" := 2])
  {
  }

  /** Corrected: from the same input the crawl reaches `B` and `C`, and the totals include `B`'s words. */
  lemma FixedFollowsLinks()
    ensures CrawlBatch(ExampleConfig(), 0, ["A"], 2, Empty()) == State({"A", "B", "C"}, map["x" := 3, "y" := 1])
  {
    FixedVisitsA();
    FixedVisitsBC();
  }

  /** First hop of the corrected crawl: `A` is claimed and the crawl moves on to its links. */
  lemma FixedVisitsA()
    ensures CrawlBatch(ExampleConfig(), 0, ["A"], 2, Empty())
         == CrawlBatch(ExampleConfig(), 0, ["B", "C"], 1, State({"A"}, map["x" := 2]))
  {
    assert ["A"][1..] == [];
    assert Sum(map[], map["x" := 2]) == map["x" := 2];
  }

  /** Second hop of the corrected crawl: `C` as a sibling, then `B`, each with its words merged. */
  lemma FixedVisitsBC()
    ensures CrawlBatch(ExampleConfig(), 0, ["B", "C"], 1, State({"A"}, map["x" := 2]))
         == State({"A", "B", "C"}, map["x" := 3, "y" := 1])
  {
    FixedVisitsC();
  }

  /** The sibling for `C` claims it and adds nothing to the totals. */
  lemma FixedVisitsC()
    ensures Siblings(ExampleConfig(), 0, ["C"], 1, State({"A"}, map["x" := 2])) == State({"A", "C"}, map["x" := 2])
  {
  }

  /**
   As written: a depth budget of 0 does not stop a batch of two seeds, since
   the subtask for the second seed starts at depth -1 and the stop test is
   equality with 0.
   */
  lemma AsWrittenDepthZeroParses()
    ensures Compute(ExampleConfig(), 0, NewTask(["A", "B"], 0), Empty()).state == State({"B"}, map["x" := 1, "y" := 1])
  {
  }

  /** Corrected: a depth budget of 0 leaves the state alone for any batch and any clock. */
  lemma FixedDepthZeroStops(cfg: Config, now: int, batch: seq<string>, st: State)
    ensures CrawlBatch(cfg, now, batch, 0, st) == st
  {
  }
}
