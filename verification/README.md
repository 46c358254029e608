# Crawl task of the parallel web crawler, in Dafny

This project models one `CrawlerRecursiveAction` of the parallel web crawler.
A crawl task gets a batch of starting URLs, a depth budget, an absolute
deadline and a list of ignore patterns. Its `compute` does four things in order:

1. **Split.** While the deadline has not passed and the batch holds more than
   one URL, it peels every URL after the first off into a singleton subtask
   with depth `maxDepth - 1`, runs those, and narrows its own batch to the
   first URL.
2. **Gate.** It stops if the depth is exactly 0, if the starting batch is
   empty, or if the first URL fully matches an ignore pattern.
3. **Claim.** It adds the URL to the shared visited set and stops if the URL
   was already there.
4. **Parse and merge.** It parses the page and adds the page's word counts
   into the shared totals. It then stores the page's links as its batch,
   lowers its depth by one, and returns.

The two process-wide synchronized collections of the source become an explicit
`State(visited, counts)`, threaded through the task and its subtasks. The
subtasks of one split run one after another in list order. A lemma shows that
swapping two neighbouring subtasks gives the same state, so the sequential
order stands for whatever order the fork/join pool picks.

Parameters of `Config` replace three things:
- page parsing: `parse: string -> Page`;
- regular-expression full match: `matches: (Pattern, string) -> bool`;
- the clock: an integer `now` compared with an integer `deadline`.

Every subtask is a singleton, so its split test is false whatever the clock
reads. Running subtasks with the parent's `now` is therefore exact
(`CrawlProperties.SingletonIgnoresClock`).

Files:
- `counts.dfy` (module `Counts`): the word-count map and the merge loop.
- `crawl.dfy` (module `Crawl`): the task itself: gates, `createSubtasks`, the split loop and `compute`.
- `properties.dfy` (module `CrawlProperties`): properties that relate several calls.
- `fixed.dfy` (module `FixedCrawl`): the corrected task (see Findings).
- `findings.dfy` (module `Findings`): worked inputs that exhibit each finding.

## Model

| member | source | states |
|---|---|---|
| `Counts.MergeCounts` | src/main/java/com/udacity/webcrawler/CrawlerRecursiveAction.java:116-122 | Whatever order the page's entries are visited in, each page token ends up with its old total (0 if absent) plus the page's count. Tokens not on the page keep their totals. The key set becomes the union. The result equals the reference pointwise sum `Sum`. |
| `Counts.Put` | src/main/java/com/udacity/webcrawler/CrawlerRecursiveAction.java:118-120 | One `put` adds the token if it is missing, sets its total to the old total (0 if absent) plus the value, and leaves every other token unchanged. |
| `Counts.SumCommutes` | src/main/java/com/udacity/webcrawler/CrawlerRecursiveAction.java:116-122 | Merging two pages into the totals gives the same map in either order, so concurrent merges do not depend on scheduling. |
| `Crawl.IsUrlIgnored` | src/main/java/com/udacity/webcrawler/CrawlerRecursiveAction.java:128-135 | The URL is ignored iff some pattern in the list fully matches it. An empty pattern list ignores nothing. |
| `Crawl.Singletons` | src/main/java/com/udacity/webcrawler/CrawlerRecursiveAction.java:156-167 | Builds one fresh task per URL, in order, each over exactly that one URL and with the given depth. |
| `Crawl.CreateSubtasks` | src/main/java/com/udacity/webcrawler/CrawlerRecursiveAction.java:153-170 | For a batch of n URLs it yields exactly n-1 subtasks. Subtask i-1 is a fresh task over `[toCrawl[i]]` at depth `maxDepth - 1`. The task keeps its starting batch and depth, and its batch becomes `[toCrawl[0]]`. |
| `Crawl.Process` | src/main/java/com/udacity/webcrawler/CrawlerRecursiveAction.java:109-126 | If the depth is exactly 0, the starting batch is empty, or the first URL is ignored, nothing changes. The tests run in that order, so an empty batch is never indexed. An already-visited URL also changes nothing. Otherwise the URL is added to visited, its page's counts are merged, the batch becomes the page's links and the depth drops by one. |
| `Crawl.SplitLoop` | src/main/java/com/udacity/webcrawler/CrawlerRecursiveAction.java:105-107 | The loop body runs at most once. It runs exactly when `now` is not strictly after the deadline and the batch has more than one URL, and it then narrows the batch to the first URL. Otherwise task and state are untouched. When it runs, the URLs it adds to visited are exactly the URLs after the first that no pattern ignores, or none at all when the subtask depth `maxDepth - 1` is 0. |
| `Crawl.RunAll` | src/main/java/com/udacity/webcrawler/CrawlerRecursiveAction.java:106 | Every subtask of a split runs. The URLs added to visited are exactly the URLs of the subtasks that pass the depth, empty-batch and ignore gate, and each comes from the subtasks' batches. |
| `Crawl.Compute` | src/main/java/com/udacity/webcrawler/CrawlerRecursiveAction.java:103-126 | The whole task. Visited grows by exactly two parts. The first is what the split claims: the non-ignored URLs after the first, when the split runs and the subtask depth is not 0. The second is the first starting URL, when it passes the gate (whether this task or an earlier one claimed it). Visited never gains an ignored URL, and the starting batch is left as it was. |
| `CrawlProperties.TimeoutOnlySuppressesSplit` | src/main/java/com/udacity/webcrawler/CrawlerRecursiveAction.java:105-115 | Once timed out, `compute` is exactly the gate, claim and parse of the first URL. The timeout skips only the split. |
| `CrawlProperties.SplitsAtDeadline` | src/main/java/com/udacity/webcrawler/CrawlerRecursiveAction.java:145-147 | The timeout test is strict. With `now` equal to the deadline, a batch of two or more still splits and narrows to its first URL. |
| `CrawlProperties.SingletonIgnoresClock` | src/main/java/com/udacity/webcrawler/CrawlerRecursiveAction.java:105-107 | A task with at most one URL behaves the same for every clock reading. |
| `CrawlProperties.FreshTaskClaimsOnlyItsBatch` | src/main/java/com/udacity/webcrawler/CrawlerRecursiveAction.java:112-126 | A freshly built task adds to visited only non-ignored URLs of its own batch. The links of a parsed page are never crawled. |
| `Counts.SumOverRemove` | src/main/java/com/udacity/webcrawler/CrawlerRecursiveAction.java:116-122 | Merging the pages of a set of URLs one at a time gives the same totals whichever URL is merged last. |
| `Counts.SumOverUnion` | src/main/java/com/udacity/webcrawler/CrawlerRecursiveAction.java:116-122 | Merging the pages of two disjoint URL sets one after the other equals merging the pages of their union. |
| `CrawlProperties.CountsMatchClaimsChain` | src/main/java/com/udacity/webcrawler/CrawlerRecursiveAction.java:105-122 | If visited grows from one state to a second and on to a third, and each step's totals are the earlier totals plus the pages of the URLs it claimed, the same holds from the first state to the third. |
| `CrawlProperties.ProcessCountsMatchClaims` | src/main/java/com/udacity/webcrawler/CrawlerRecursiveAction.java:109-122 | The task's own step adds to the totals the word counts of exactly the URL it claims, or nothing if it claims none. |
| `CrawlProperties.ComputeCountsMatchClaims` | src/main/java/com/udacity/webcrawler/CrawlerRecursiveAction.java:103-126 | After a task and all its subtasks, the totals are the old totals plus the word counts of exactly the newly visited URLs, each merged once, in any order. |
| `CrawlProperties.SplitLoopCountsMatchClaims` | src/main/java/com/udacity/webcrawler/CrawlerRecursiveAction.java:105-107 | The same counts invariant for the split loop alone. |
| `CrawlProperties.RunAllCountsMatchClaims` | src/main/java/com/udacity/webcrawler/CrawlerRecursiveAction.java:106 | The same counts invariant for the subtasks of one split, run in list order. |
| `CrawlProperties.NoClaimNoCount` | src/main/java/com/udacity/webcrawler/CrawlerRecursiveAction.java:105-122 | Counts change only through a claim. A task (with all its subtasks) that adds no URL to visited leaves the word counts unchanged. |
| `CrawlProperties.NegativeDepthStillClaims` | src/main/java/com/udacity/webcrawler/CrawlerRecursiveAction.java:109-122 | The depth test is equality with 0 (lines 149-151), so a singleton task at a negative depth still claims its unvisited, non-ignored URL and merges its page. |
| `CrawlProperties.VisitedUrlNotParsedAgain` | src/main/java/com/udacity/webcrawler/CrawlerRecursiveAction.java:112-113 | A singleton task whose URL is already visited leaves visited and counts unchanged. |
| `CrawlProperties.RunAllAtDepthZero` | src/main/java/com/udacity/webcrawler/CrawlerRecursiveAction.java:149-151 | Singleton subtasks at depth 0 leave the state unchanged. |
| `CrawlProperties.DepthOneParsesOnlyFirstUrl` | src/main/java/com/udacity/webcrawler/CrawlerRecursiveAction.java:150-161 | With a depth budget of 1, only the first URL of the whole batch can be claimed, because every subtask starts at depth 0. |
| `CrawlProperties.DuplicateSeedCountedOnce` | src/main/java/com/udacity/webcrawler/CrawlerRecursiveAction.java:105-122 | Before the deadline, the batch `[u, u]` with `u` unvisited and not ignored claims `u` once and merges its counts once, at every depth. |
| `CrawlProperties.SiblingsCommute` | src/main/java/com/udacity/webcrawler/CrawlerRecursiveAction.java:106-122 | Two singleton tasks give the same final state whichever runs first. |
| `CrawlProperties.RunAllSwap` | src/main/java/com/udacity/webcrawler/CrawlerRecursiveAction.java:106 | Swapping any two neighbouring subtasks of a split leaves the final state unchanged. |
| `FixedCrawl.CrawlBatch` | src/main/java/com/udacity/webcrawler/CrawlerRecursiveAction.java:103-126 | Corrected task. Depth 0 or a timeout leaves the state unchanged. Visited only grows, never by an ignored URL. Before the deadline with depth at least 1, every non-ignored URL of the batch ends up visited. |
| `FixedCrawl.Siblings` | src/main/java/com/udacity/webcrawler/CrawlerRecursiveAction.java:153-167 | Corrected subtasks keep the parent's depth. Before the deadline with depth at least 1, they visit every non-ignored URL they are given. |
| `FixedCrawl.FollowsLinks` | src/main/java/com/udacity/webcrawler/CrawlerRecursiveAction.java:124-125 | In the corrected task, a URL claimed with two or more hops left also gets every non-ignored link of its page visited. |
| `Findings.AsWrittenDropsLinks` | src/main/java/com/udacity/webcrawler/CrawlerRecursiveAction.java:124-126 | As written: from `A` (links `B`, `C`) at depth 2, only `A` is visited and the totals are `{x: 2}`. |
| `Findings.FixedFollowsLinks` | src/main/java/com/udacity/webcrawler/CrawlerRecursiveAction.java:124-126 | Corrected: from the same input it visits `A`, `B` and `C` and totals `{x: 3, y: 1}`. |
| `Findings.AsWrittenDepthZeroParses` | src/main/java/com/udacity/webcrawler/CrawlerRecursiveAction.java:149-161 | As written: the batch `[A, B]` at depth 0 still parses `B`, through a subtask at depth -1. |
| `Findings.FixedDepthZeroStops` | src/main/java/com/udacity/webcrawler/CrawlerRecursiveAction.java:149-161 | Corrected: depth 0 leaves the state unchanged for every batch and clock. |

## Findings

| source | as written | input that shows it | evidently intended | confidence | as-written member | corrected member |
|---|---|---|---|---|---|---|
| src/main/java/com/udacity/webcrawler/CrawlerRecursiveAction.java:124-126 | After a parse, the task sets its batch to the page's links and decrements its depth, then `compute` returns. No link is ever crawled. | Seed `A` linking to `B` and `C`, depth 2: only `A` is visited. | The task goes on with the links one hop lower. Storing them and decrementing the depth has no other use. | high (not executed) | `Findings.AsWrittenDropsLinks` | `FixedCrawl.CrawlBatch` (with `FixedCrawl.FollowsLinks`, `Findings.FixedFollowsLinks`) |
| src/main/java/com/udacity/webcrawler/CrawlerRecursiveAction.java:149-161 | Split-off siblings get `maxDepth - 1`, and the stop test is `maxDepth == 0`. | Seeds `[A, B]` at depth 0: `B` is parsed at depth -1. At depth 1 only the first seed is ever parsed (`CrawlProperties.DepthOneParsesOnlyFirstUrl`). | Siblings are URLs of the same hop and keep the task's depth, so depth 0 parses nothing. | medium (not executed) | `Findings.AsWrittenDepthZeroParses` | `FixedCrawl.Siblings` (with `Findings.FixedDepthZeroStops`) |

The as-written task in module `Crawl` is the main model, because it is what
the source does. The properties in `CrawlProperties` are about that task. The
corrected task in `FixedCrawl` fixes the two points above. Its recursive shape
also differs from the source in three further ways:
- It tests the timeout before anything else. A timed-out task stops at once,
  while the source skips only the split and still gates, claims and parses its
  first URL (`CrawlProperties.TimeoutOnlySuppressesSplit`). This is a
  simplification of the corrected crawl, not a claimed defect of the source.
- It tests the depth and an empty batch before splitting. The source splits
  first and gates afterwards.
- It applies the ignore test and the claim to the first URL of the current
  batch. The source uses `startingUrls.get(0)`, which is the same URL for
  every task the source builds but not for a batch of links.
The findings above compare the two tasks only on inputs where none of these
three differences matters: a clock before the deadline and batches built from
seeds.

## Left out

- Fork/join scheduling (`ForkJoinTask.invokeAll`, `RecursiveAction`) and the `synchronized` wrappers are not modelled. Subtasks run one after another against the threaded state. `CrawlProperties.RunAllSwap` covers reordering of siblings, but not interleaving inside one task's steps.
- Page fetching and parsing (`PageParserFactory`, `PageParser`) are not modelled. They are network I/O behind interfaces outside this model, and become the total function `Config.parse`. The source has no parse-failure path, so the model has none either.
- `java.util.regex.Pattern` full matching is not modelled. It becomes the uninterpreted `Config.matches`.
- `Clock`, `Instant` and `Duration` are not modelled. They become integers `now` and `deadline`. The `timeout` field is never used in the task's logic, so it is dropped. Each task reads the clock once. A later reading could only change the split test after the batch has already been narrowed to one URL, so it cannot change the outcome.
- The Builder, the constructor's field copying and the getters (lines 50-101 and 172-219) are plain plumbing. `Crawl.NewTask` stands for a built task.
- `isVisited` (lines 137-139) is never called, so it is not modelled.
- Crawl.Process: the depth drops by one on an unbounded integer. Java `int` arithmetic in `maxDepth -= 1` (line 125) wraps from `Integer.MIN_VALUE` to `Integer.MAX_VALUE`, which is not modelled. Only the returned task's depth field differs; visited and counts do not, since the gate tests only for equality with 0.
- Crawl.CreateSubtasks: the subtask depth `maxDepth - 1` (line 161) is unbounded as well. At `Integer.MIN_VALUE` the source wraps to `Integer.MAX_VALUE`. The subtasks' gate outcome is the same either way, because neither value is 0.
- Counts.MergeCounts: totals are unbounded integers. Java `Integer` overflow in the sums is not modelled.
- The visited set and counts are static fields in the source. Separate crawl runs would share them. The model passes the state explicitly, so one run starting from a non-empty state stands for that sharing.
- The crawl engine that builds the root task, and the profiling method interceptor (`profiler/ProfilingMethodInterceptor.java`), are not part of this model. The interceptor is reflection-based call forwarding plus a clock, and it records into a profiling state that is not part of this model.
