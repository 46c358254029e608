/**
 One crawl task of the parallel web crawler, run sequentially.

 The two process-wide collections of the crawler (the visited-URL set and the
 word-count map) become an explicit `State` threaded through the task and its
 subtasks. Fetching and parsing a page, and regular-expression matching, are
 parameters of the `Config`; the clock is the integer `now`.
 */
module Crawl {
  import opened Counts

  /** An ignore pattern; what it matches is decided by `Config.matches`. */
  datatype Pattern = Pattern(regex: string)

  /** What parsing one URL yields: the outgoing links and the page's word counts. */
  datatype Page = Page(links: seq<string>, wordCounts: WordCounts)

  /**
   The fields a task only reads: the absolute deadline, the ignore patterns,
   full-match of a pattern against a URL, and the page parser.
   */
  datatype Config = Config(
    deadline: int,
    ignoredUrls: seq<Pattern>,
    matches: (Pattern, string) -> bool,
    parse: string -> Page)

  /**
   A task's own fields: the batch it was built with (never reassigned), the
   batch still to crawl, and its depth budget.
   */
  datatype Task = Task(startingUrls: seq<string>, toCrawlUrls: seq<string>, maxDepth: int)

  /** The visited URLs and the running word counts shared by every task. */
  datatype State = State(visited: set<string>, counts: WordCounts)

  /** A task after `compute`: its final fields and the shared state. */
  datatype Outcome = Outcome(task: Task, state: State)

  /** The subtasks peeled off a batch and the task left with the first URL. */
  datatype Split = Split(subtasks: seq<Task>, own: Task)

  /** The split loop's result; `rounds` counts executions of its body. */
  datatype SplitRun = SplitRun(task: Task, state: State, rounds: nat)

  /** A freshly built task: both batch fields start out as the same list. */
  function NewTask(urls: seq<string>, maxDepth: int): Task
  {
    Task(urls, urls, maxDepth)
  }

  /** Timed out means strictly after the deadline: at the deadline itself the task is still on time. */
  predicate IsTimeOut(cfg: Config, now: int)
  {
    now > cfg.deadline
  }

  /** The depth test is equality with zero, so a negative budget never counts as exhausted. */
  predicate IsMaxDepthReached(task: Task)
  {
    task.maxDepth == 0
  }

  /** The starting batch (not the batch left to crawl) has no URL. */
  predicate IsStartEmpty(task: Task)
  {
    |task.startingUrls| == 0
  }

  /** Scans the patterns in order and stops at the first full match. */
  function IsUrlIgnored(patterns: seq<Pattern>, matches: (Pattern, string) -> bool, url: string): (r: bool)
    ensures r <==> exists i :: 0 <= i < |patterns| && matches(patterns[i], url)
    ensures |patterns| == 0 ==> !r
    decreases |patterns|
  {
    if |patterns| == 0 then false
    else if matches(patterns[0], url) then true
    else
      assert forall i :: 1 <= i < |patterns| ==> patterns[i] == patterns[1..][i - 1];
      IsUrlIgnored(patterns[1..], matches, url)
  }

  /** `url` is skipped because some ignore pattern of `cfg` matches it. */
  predicate Ignored(cfg: Config, url: string)
  {
    IsUrlIgnored(cfg.ignoredUrls, cfg.matches, url)
  }

  /**
   The gate in front of the claim: depth not exhausted, a first URL exists,
   and it is not ignored. The tests short-circuit in that order, so an empty
   batch is never indexed.
   */
  predicate Admits(cfg: Config, task: Task)
  {
    !IsMaxDepthReached(task) && !IsStartEmpty(task) && !Ignored(cfg, task.startingUrls[0])
  }

  /** One singleton task per URL, in order, all with the same depth. */
  function Singletons(urls: seq<string>, maxDepth: int): (r: seq<Task>)
    ensures |r| == |urls|
    ensures forall i :: 0 <= i < |urls| ==> r[i] == NewTask([urls[i]], maxDepth)
    decreases |urls|
  {
    if |urls| == 0 then []
    else [NewTask([urls[0]], maxDepth)] + Singletons(urls[1..], maxDepth)
  }

  /**
   Peels every URL after the first off into its own subtask, one depth lower,
   and narrows the task to its first URL. Narrowing an empty batch would fail
   (taking the first element of an empty list), hence the precondition.
   */
  function CreateSubtasks(task: Task): (r: Split)
    requires |task.toCrawlUrls| >= 1
    ensures |r.subtasks| == |task.toCrawlUrls| - 1
    ensures forall i :: 1 <= i < |task.toCrawlUrls| ==>
      r.subtasks[i - 1] == NewTask([task.toCrawlUrls[i]], task.maxDepth - 1)
    ensures forall t :: t in r.subtasks ==> IsSingleton(t)
    ensures r.own == Task(task.startingUrls, [task.toCrawlUrls[0]], task.maxDepth)
  {
    Split(Singletons(task.toCrawlUrls[1..], task.maxDepth - 1), task.(toCrawlUrls := task.toCrawlUrls[..1]))
  }

  /**
   The task's own work after splitting: gate, claim, parse, merge. A URL
   already visited is left alone; a newly claimed one is added to the visited
   set, its page's counts are merged, and the task's batch and depth move on
   to the page's links without crawling them.
   */
  function Process(cfg: Config, task: Task, st: State): (r: Outcome)
    ensures !Admits(cfg, task) ==> r == Outcome(task, st)
    ensures Admits(cfg, task) && task.startingUrls[0] in st.visited ==> r == Outcome(task, st)
    ensures Admits(cfg, task) && task.startingUrls[0] !in st.visited ==>
      var url := task.startingUrls[0];
      var page := cfg.parse(url);
      && r.state.visited == st.visited + {url}
      && r.state.counts == Sum(st.counts, page.wordCounts)
      && r.task == Task(task.startingUrls, page.links, task.maxDepth - 1)
  {
    if IsMaxDepthReached(task) || IsStartEmpty(task) || Ignored(cfg, task.startingUrls[0]) then
      Outcome(task, st)
    else
      var url := task.startingUrls[0];
      if url in st.visited then
        Outcome(task, st)
      else
        var page := cfg.parse(url);
        var claimed := st.visited + {url};
        Outcome(task.(toCrawlUrls := page.links, maxDepth := task.maxDepth - 1),
                State(claimed, Sum(st.counts, page.wordCounts)))
  }

  /**
   From `before` to `after` the visited set only grew, and every URL that
   entered it is one of `urls` and matches no ignore pattern.
   */
  predicate ClaimedOnlyFrom(cfg: Config, before: State, after: State, urls: set<string>)
  {
    && before.visited <= after.visited
    && (forall u :: u in after.visited && u !in before.visited ==> u in urls && !Ignored(cfg, u))
  }

  /** The elements of a batch. */
  function Elems(urls: seq<string>): set<string>
  {
    set u | u in urls
  }

  /** The URLs a task may claim: its batch and its first starting URL. */
  function TaskUrls(task: Task): set<string>
  {
    Elems(task.toCrawlUrls) + (if |task.startingUrls| == 0 then {} else {task.startingUrls[0]})
  }

  /** The URL a task claims if it passes the gate, as a set: empty when the gate stops it. */
  function OwnClaim(cfg: Config, task: Task): set<string>
  {
    if Admits(cfg, task) then {task.startingUrls[0]} else {}
  }

  /**
   The URLs a split hands to subtasks that pass the gate: every URL after the
   first that no pattern ignores, unless the subtasks' depth `maxDepth - 1`
   is exactly 0.
   */
  function SplitClaims(cfg: Config, task: Task): set<string>
  {
    if task.maxDepth - 1 == 0 then {}
    else set i | 1 <= i < |task.toCrawlUrls| && !Ignored(cfg, task.toCrawlUrls[i]) :: task.toCrawlUrls[i]
  }

  /** The first starting URLs of the subtasks that pass the gate. */
  function GatedUrls(cfg: Config, subtasks: seq<Task>): set<string>
  {
    set t | t in subtasks && Admits(cfg, t) :: t.startingUrls[0]
  }

  /** A subtask as `CreateSubtasks` builds it: a fresh task over one URL. */
  predicate IsSingleton(task: Task)
  {
    |task.toCrawlUrls| == 1 && task.startingUrls == task.toCrawlUrls
  }

  /** The URLs in the batches of a list of subtasks. */
  function SubtaskUrls(subtasks: seq<Task>): set<string>
  {
    set t, u | t in subtasks && u in t.toCrawlUrls :: u
  }

  /**
   The whole of `compute`: the split loop, then the task's own URL. Visited
   only grows, only by non-ignored URLs of the batch (or the first starting
   URL), a first starting URL that passes the gate always ends up visited,
   and the starting batch is left as it was.
   */
  function Compute(cfg: Config, now: int, task: Task, st: State): (r: Outcome)
    ensures ClaimedOnlyFrom(cfg, st, r.state, TaskUrls(task))
    ensures Admits(cfg, task) ==> task.startingUrls[0] in r.state.visited
    ensures r.task.startingUrls == task.startingUrls
    ensures r.state.visited == st.visited
      + (if !IsTimeOut(cfg, now) && |task.toCrawlUrls| > 1 then SplitClaims(cfg, task) else {})
      + OwnClaim(cfg, task)
    decreases |task.toCrawlUrls|, 2, 0
  {
    var s := SplitLoop(cfg, now, task, st);
    Process(cfg, s.task, s.state)
  }

  /**
   The loop `while not timed out and more than one URL remains: run the
   subtasks`. After one round the batch holds a single URL, so the body runs
   at most once; a timeout suppresses only the split.
   */
  function SplitLoop(cfg: Config, now: int, task: Task, st: State): (r: SplitRun)
    ensures r.rounds <= 1
    ensures r.rounds == 1 <==> !IsTimeOut(cfg, now) && |task.toCrawlUrls| > 1
    ensures r.rounds == 0 ==> r.task == task && r.state == st
    ensures r.rounds == 1 ==> r.task == Task(task.startingUrls, [task.toCrawlUrls[0]], task.maxDepth)
    ensures ClaimedOnlyFrom(cfg, st, r.state, Elems(task.toCrawlUrls))
    ensures r.rounds == 1 && task.maxDepth - 1 != 0 ==>
      forall i :: 1 <= i < |task.toCrawlUrls| && !Ignored(cfg, task.toCrawlUrls[i]) ==>
        task.toCrawlUrls[i] in r.state.visited
    ensures r.state.visited == st.visited + (if r.rounds == 1 then SplitClaims(cfg, task) else {})
    decreases |task.toCrawlUrls|, 1, 0
  {
    if !IsTimeOut(cfg, now) && |task.toCrawlUrls| > 1 then
      var s := CreateSubtasks(task);
      var after := RunAll(cfg, now, s.subtasks, st);
      var rest := SplitLoop(cfg, now, s.own, after);
      SplitRun(rest.task, rest.state, rest.rounds + 1)
    else
      SplitRun(task, st, 0)
  }

  /**
   The subtasks of one split, run one after another in list order. Every
   subtask runs: each one whose URL passes the gate leaves it visited.
   */
  function RunAll(cfg: Config, now: int, subtasks: seq<Task>, st: State): (r: State)
    requires forall t :: t in subtasks ==> IsSingleton(t)
    ensures ClaimedOnlyFrom(cfg, st, r, SubtaskUrls(subtasks))
    ensures forall t :: t in subtasks && Admits(cfg, t) ==> t.startingUrls[0] in r.visited
    ensures r.visited == st.visited + GatedUrls(cfg, subtasks)
    decreases 1, 3, |subtasks|
  {
    if |subtasks| == 0 then st
    else
      assert subtasks[0] in subtasks;
      assert IsSingleton(subtasks[0]);
      var first := Compute(cfg, now, subtasks[0], st).state;
      var r := RunAll(cfg, now, subtasks[1..], first);
      assert TaskUrls(subtasks[0]) <= SubtaskUrls(subtasks);
      assert SubtaskUrls(subtasks[1..]) <= SubtaskUrls(subtasks) by {
        forall t | t in subtasks[1..] ensures t in subtasks { }
      }
      assert forall t :: t in subtasks ==> t == subtasks[0] || t in subtasks[1..];
      r
  }
}
