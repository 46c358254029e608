/**
 Properties of one crawl task that relate several calls: the clock, the
 deadline, the order in which sibling subtasks run, duplicate seeds and the
 depth budget handed to subtasks.
 */
module CrawlProperties {
  import opened Counts
  import opened Crawl

  /** Once timed out, the task skips the split but still gates, claims and parses its first URL. */
  lemma TimeoutOnlySuppressesSplit(cfg: Config, now: int, task: Task, st: State)
    requires IsTimeOut(cfg, now)
    ensures Compute(cfg, now, task, st) == Process(cfg, task, st)
  {
  }

  /** At exactly the deadline the task is not yet timed out, so a batch of two or more still splits. */
  lemma SplitsAtDeadline(cfg: Config, task: Task, st: State)
    requires |task.toCrawlUrls| > 1
    ensures SplitLoop(cfg, cfg.deadline, task, st).rounds == 1
    ensures SplitLoop(cfg, cfg.deadline, task, st).task.toCrawlUrls == [task.toCrawlUrls[0]]
  {
  }

  /**
   A task with at most one URL never splits, so the clock cannot change what
   it does; this is why every subtask may be run with the parent's `now`.
   */
  lemma SingletonIgnoresClock(cfg: Config, now1: int, now2: int, task: Task, st: State)
    requires |task.toCrawlUrls| <= 1
    ensures Compute(cfg, now1, task, st) == Compute(cfg, now2, task, st)
  {
  }

  /**
   A fresh task only ever claims URLs of its own batch: the links of a parsed
   page are stored in the task but never crawled.
   */
  lemma FreshTaskClaimsOnlyItsBatch(cfg: Config, now: int, urls: seq<string>, maxDepth: int, st: State)
    ensures forall u :: u in Compute(cfg, now, NewTask(urls, maxDepth), st).state.visited ==>
      u in st.visited || (u in urls && !Ignored(cfg, u))
  {
  }

  /**
   The depth test is equality with 0, so a budget already below 0 never stops
   a task: a singleton task at negative depth still claims and parses its URL.
   */
  lemma NegativeDepthStillClaims(cfg: Config, now: int, url: string, maxDepth: int, st: State)
    requires maxDepth < 0 && !Ignored(cfg, url) && url !in st.visited
    ensures Compute(cfg, now, NewTask([url], maxDepth), st).state
         == State(st.visited + {url}, Sum(st.counts, cfg.parse(url).wordCounts))
  {
  }

  /** The word counts of the page at each URL, as the crawl merges them. */
  function PageCounts(cfg: Config): string -> WordCounts
  {
    u => cfg.parse(u).wordCounts
  }

  /**
   The counts invariant between two states: the totals in `after` are those
   of `before` plus the word counts of exactly the URLs claimed in between.
   */
  ghost predicate CountsMatchClaims(cfg: Config, before: State, after: State)
  {
    after.counts == SumOver(before.counts, after.visited - before.visited, PageCounts(cfg))
  }

  /** The invariant composes along a chain of states whose visited sets grow. */
  lemma CountsMatchClaimsChain(cfg: Config, st: State, mid: State, r: State)
    requires st.visited <= mid.visited <= r.visited
    requires CountsMatchClaims(cfg, st, mid) && CountsMatchClaims(cfg, mid, r)
    ensures CountsMatchClaims(cfg, st, r)
  {
    SumOverUnion(st.counts, mid.visited - st.visited, r.visited - mid.visited, PageCounts(cfg));
    assert (mid.visited - st.visited) + (r.visited - mid.visited) == r.visited - st.visited;
  }

  /** A state that did not change satisfies the invariant. */
  lemma CountsMatchNoClaims(cfg: Config, st: State)
    ensures CountsMatchClaims(cfg, st, st)
  {
    assert st.visited - st.visited == {};
  }

  /** The task's own step merges exactly the page of the URL it claims, if any. */
  lemma ProcessCountsMatchClaims(cfg: Config, task: Task, st: State)
    ensures CountsMatchClaims(cfg, st, Process(cfg, task, st).state)
  {
    var r := Process(cfg, task, st).state;
    if r == st {
      CountsMatchNoClaims(cfg, st);
    } else {
      var url := task.startingUrls[0];
      assert r.visited - st.visited == {url};
      SumOverRemove(st.counts, {url}, PageCounts(cfg), url);
      assert {url} - {url} == {};
    }
  }

  /**
   The totals a task (with all its subtasks) leaves are the old totals plus
   the word counts of exactly the URLs it claimed, merged in any order.
   */
  lemma {:induction false} ComputeCountsMatchClaims(cfg: Config, now: int, task: Task, st: State)
    ensures CountsMatchClaims(cfg, st, Compute(cfg, now, task, st).state)
    decreases |task.toCrawlUrls|, 2, 0
  {
    var s := SplitLoop(cfg, now, task, st);
    SplitLoopCountsMatchClaims(cfg, now, task, st);
    ProcessCountsMatchClaims(cfg, s.task, s.state);
    CountsMatchClaimsChain(cfg, st, s.state, Compute(cfg, now, task, st).state);
  }

  /** The split loop's share of `ComputeCountsMatchClaims`. */
  lemma {:induction false} SplitLoopCountsMatchClaims(cfg: Config, now: int, task: Task, st: State)
    ensures CountsMatchClaims(cfg, st, SplitLoop(cfg, now, task, st).state)
    decreases |task.toCrawlUrls|, 1, 0
  {
    if !IsTimeOut(cfg, now) && |task.toCrawlUrls| > 1 {
      var s := CreateSubtasks(task);
      var after := RunAll(cfg, now, s.subtasks, st);
      RunAllCountsMatchClaims(cfg, now, s.subtasks, st);
      SplitLoopCountsMatchClaims(cfg, now, s.own, after);
      CountsMatchClaimsChain(cfg, st, after, SplitLoop(cfg, now, s.own, after).state);
    } else {
      CountsMatchNoClaims(cfg, st);
    }
  }

  /** The subtasks' share of `ComputeCountsMatchClaims`. */
  lemma {:induction false} RunAllCountsMatchClaims(cfg: Config, now: int, subtasks: seq<Task>, st: State)
    requires forall t :: t in subtasks ==> IsSingleton(t)
    ensures CountsMatchClaims(cfg, st, RunAll(cfg, now, subtasks, st))
    decreases 1, 3, |subtasks|
  {
    if |subtasks| > 0 {
      assert subtasks[0] in subtasks;
      assert IsSingleton(subtasks[0]);
      var first := Compute(cfg, now, subtasks[0], st).state;
      ComputeCountsMatchClaims(cfg, now, subtasks[0], st);
      RunAllCountsMatchClaims(cfg, now, subtasks[1..], first);
      CountsMatchClaimsChain(cfg, st, first, RunAll(cfg, now, subtasks, st));
    } else {
      CountsMatchNoClaims(cfg, st);
    }
  }

  /** Counts change only through a claim: a task that visits nothing new leaves the totals unchanged. */
  lemma NoClaimNoCount(cfg: Config, now: int, task: Task, st: State)
    ensures Compute(cfg, now, task, st).state.visited == st.visited ==>
      Compute(cfg, now, task, st).state.counts == st.counts
  {
    ComputeCountsMatchClaims(cfg, now, task, st);
    assert st.visited - st.visited == {};
  }

  /** A singleton task whose URL is already visited leaves the shared state unchanged. */
  lemma VisitedUrlNotParsedAgain(cfg: Config, now: int, url: string, maxDepth: int, st: State)
    requires url in st.visited
    ensures Compute(cfg, now, NewTask([url], maxDepth), st).state == st
  {
  }

  /** Depth-0 singleton subtasks do nothing at all. */
  lemma {:induction false} RunAllAtDepthZero(cfg: Config, now: int, urls: seq<string>, st: State)
    ensures RunAll(cfg, now, Singletons(urls, 0), st) == st
    decreases |urls|
  {
    if |urls| > 0 {
      var subtasks := Singletons(urls, 0);
      assert subtasks[1..] == Singletons(urls[1..], 0);
      RunAllAtDepthZero(cfg, now, urls[1..], st);
    }
  }

  /**
   With a depth budget of 1 every subtask starts at depth 0 and stops at the
   gate, so of a whole seed list only the first URL can ever be parsed.
   */
  lemma DepthOneParsesOnlyFirstUrl(cfg: Config, now: int, urls: seq<string>, st: State)
    requires |urls| > 0
    ensures Compute(cfg, now, NewTask(urls, 1), st).state.visited <= st.visited + {urls[0]}
  {
    var task := NewTask(urls, 1);
    if !IsTimeOut(cfg, now) && |urls| > 1 {
      var s := CreateSubtasks(task);
      assert s.subtasks == Singletons(urls[1..], 0);
      RunAllAtDepthZero(cfg, now, urls[1..], st);
    }
  }

  /**
   A seed listed twice is claimed and counted once, whatever the depth: the
   subtask for the second copy and the task itself race for one claim.
   */
  lemma DuplicateSeedCountedOnce(cfg: Config, now: int, url: string, maxDepth: int, st: State)
    requires !IsTimeOut(cfg, now)
    requires !Ignored(cfg, url) && url !in st.visited
    ensures Compute(cfg, now, NewTask([url, url], maxDepth), st).state
      == State(st.visited + {url}, Sum(st.counts, cfg.parse(url).wordCounts))
  {
    var task := NewTask([url, url], maxDepth);
    var s := CreateSubtasks(task);
    assert s.subtasks == [NewTask([url], maxDepth - 1)];
    var sub := NewTask([url], maxDepth - 1);
    assert s.subtasks[1..] == [];
    assert RunAll(cfg, now, s.subtasks, st) == RunAll(cfg, now, [], Compute(cfg, now, sub, st).state);
  }

  /** RunAll over a concatenation is RunAll over the first part, then over the second. */
  lemma {:induction false} RunAllAppend(cfg: Config, now: int, xs: seq<Task>, ys: seq<Task>, st: State)
    requires forall t :: t in xs ==> IsSingleton(t)
    requires forall t :: t in ys ==> IsSingleton(t)
    ensures RunAll(cfg, now, xs + ys, st) == RunAll(cfg, now, ys, RunAll(cfg, now, xs, st))
    decreases |xs|
  {
    if |xs| > 0 {
      assert (xs + ys)[0] == xs[0];
      assert (xs + ys)[1..] == xs[1..] + ys;
      assert xs[0] in xs;
      RunAllAppend(cfg, now, xs[1..], ys, Compute(cfg, now, xs[0], st).state);
    } else {
      assert xs + ys == ys;
    }
  }

  /**
   Two singleton subtasks leave the same shared state whichever runs first:
   distinct URLs are claimed independently and their counts commute, and for
   one URL exactly one of the two claims it.
   */
  lemma SiblingsCommute(cfg: Config, now: int, a: Task, b: Task, st: State)
    requires IsSingleton(a) && IsSingleton(b)
    ensures Compute(cfg, now, b, Compute(cfg, now, a, st).state).state
         == Compute(cfg, now, a, Compute(cfg, now, b, st).state).state
  {
  }

  /**
   Swapping two adjacent subtasks of a split does not change the resulting
   shared state, so the sequential order stands for any order the scheduler
   picks for siblings.
   */
  lemma RunAllSwap(cfg: Config, now: int, xs: seq<Task>, a: Task, b: Task, ys: seq<Task>, st: State)
    requires forall t :: t in xs ==> IsSingleton(t)
    requires forall t :: t in ys ==> IsSingleton(t)
    requires IsSingleton(a) && IsSingleton(b)
    ensures RunAll(cfg, now, xs + [a, b] + ys, st) == RunAll(cfg, now, xs + [b, a] + ys, st)
  {
    var mid := RunAll(cfg, now, xs, st);
    RunAllAppend(cfg, now, xs + [a, b], ys, st);
    RunAllAppend(cfg, now, xs + [b, a], ys, st);
    RunAllAppend(cfg, now, xs, [a, b], st);
    RunAllAppend(cfg, now, xs, [b, a], st);
    RunAllPair(cfg, now, a, b, mid);
    RunAllPair(cfg, now, b, a, mid);
    SiblingsCommute(cfg, now, a, b, mid);
  }

  /** Two subtasks in a row: the second runs on the state the first leaves. */
  lemma RunAllPair(cfg: Config, now: int, a: Task, b: Task, st: State)
    requires IsSingleton(a) && IsSingleton(b)
    ensures RunAll(cfg, now, [a, b], st) == Compute(cfg, now, b, Compute(cfg, now, a, st).state).state
  {
    assert [a, b][1..] == [b];
    assert [b][1..] == [];
    var first := Compute(cfg, now, a, st).state;
    assert RunAll(cfg, now, [a, b], st) == RunAll(cfg, now, [b], first);
    assert RunAll(cfg, now, [b], first) == RunAll(cfg, now, [], Compute(cfg, now, b, first).state);
  }
}
