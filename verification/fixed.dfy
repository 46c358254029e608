/**
 The crawl task as its structure evidently intends: after a page is parsed the
 task goes on with the page's links one hop deeper, and split-off siblings
 keep the task's own depth. A depth of 0 stops everything below it.
 */
module FixedCrawl {
  import opened Counts
  import opened Crawl

  /**
   Crawls `batch` with `depth` hops left: stop when timed out, out of depth
   or out of URLs; otherwise run one sibling per URL after the first at the
   same depth, then gate and claim the first URL, merge its page and continue
   with its links one hop lower.
   */
  function CrawlBatch(cfg: Config, now: int, batch: seq<string>, depth: nat, st: State): (r: State)
    ensures depth == 0 || IsTimeOut(cfg, now) ==> r == st
    ensures st.visited <= r.visited
    ensures forall u :: u in r.visited && u !in st.visited ==> !Ignored(cfg, u)
    ensures !IsTimeOut(cfg, now) && depth >= 1 ==>
      forall u :: u in batch && !Ignored(cfg, u) ==> u in r.visited
    decreases depth, |batch|, 0
  {
    if IsTimeOut(cfg, now) || depth == 0 || |batch| == 0 then st
    else
      var afterSiblings := Siblings(cfg, now, batch[1..], depth, st);
      var url := batch[0];
      if Ignored(cfg, url) || url in afterSiblings.visited then afterSiblings
      else
        var page := cfg.parse(url);
        var claimed := State(afterSiblings.visited + {url}, Sum(afterSiblings.counts, page.wordCounts));
        CrawlBatch(cfg, now, page.links, depth - 1, claimed)
  }

  /** One singleton crawl per URL, in order, each at the same depth. */
  function Siblings(cfg: Config, now: int, urls: seq<string>, depth: nat, st: State): (r: State)
    ensures depth == 0 || IsTimeOut(cfg, now) ==> r == st
    ensures st.visited <= r.visited
    ensures forall u :: u in r.visited && u !in st.visited ==> !Ignored(cfg, u)
    ensures !IsTimeOut(cfg, now) && depth >= 1 ==>
      forall u :: u in urls && !Ignored(cfg, u) ==> u in r.visited
    decreases depth, |urls|, 1
  {
    if |urls| == 0 then st
    else
      var first := CrawlBatch(cfg, now, [urls[0]], depth, st);
      assert urls[0] in [urls[0]];
      var r := Siblings(cfg, now, urls[1..], depth, first);
      assert forall u :: u in urls ==> u == urls[0] || u in urls[1..];
      r
  }

  /**
   A page claimed with two or more hops left has every link that no pattern
   ignores crawled as well.
   */
  lemma FollowsLinks(cfg: Config, now: int, url: string, depth: nat, st: State)
    requires !IsTimeOut(cfg, now) && depth >= 2
    requires !Ignored(cfg, url) && url !in st.visited
    ensures forall u :: u in cfg.parse(url).links && !Ignored(cfg, u) ==> u in CrawlBatch(cfg, now, [url], depth, st).visited
  {
  }
}
