/**
 * crawler/tasks.py: `start_crawl_task`, the background job that runs one
 * crawl task. It marks the task running, looks the strategy up by the
 * task's platform name, runs its crawl and records the outcome on the task:
 * completed with the counters, or failed with the cause, which it raises
 * again.
 *
 * The clock is the two parameters `startedAt` and `completedAt`; whether
 * the strategy's constructor raises (its HTTP session and user-agent
 * source are foreign code) is the parameter `initFails`.
 */
module Tasks {
  import opened Wrappers
  import opened MusicModels
  import opened CrawlerModels
  import opened Store
  import opened BaseSpider
  import Netease
  import QQMusic
  import Kugou

  /** `spider.crawl()` for the strategy the registry returned. */
  function StrategyRun(strategy: Strategy, ctx: SpiderCtx, t: CrawlTask, run: Run,
                       fetch: Netease.SearchQuery -> Option<Netease.SearchBody>,
                       faults: (nat, nat) -> Netease.SaveFaults): (r: Run)
    ensures strategy != NeteaseStrategy ==>
              r.tally == ZeroTally && r.catalog == run.catalog && r.progress == run.progress
    ensures strategy == NeteaseStrategy && Netease.CrawlCause(t).Some? ==> r.tally == Tally(0, 0, 1)
  {
    match strategy
    case NeteaseStrategy => Netease.CrawlRun(ctx, t, run, fetch, faults)
    case QQMusicStrategy => QQMusic.CrawlRun(ctx, t, run)
    case KugouStrategy => Kugou.CrawlRun(ctx, t, run)
  }

  /** Whichever the strategy, its crawl only adds progress rows of the task and keeps the catalog's references. */
  lemma StrategyRunAppendsProgressLogs(strategy: Strategy, ctx: SpiderCtx, t: CrawlTask, run: Run,
                                       fetch: Netease.SearchQuery -> Option<Netease.SearchBody>,
                                       faults: (nat, nat) -> Netease.SaveFaults)
    ensures var r := StrategyRun(strategy, ctx, t, run, fetch, faults);
            && AppendsProgressLogs(ctx.task, run.logs, r.logs)
            && (Wellformed(run.catalog) ==> Wellformed(r.catalog))
  {
    if strategy == NeteaseStrategy {
      Netease.CrawlAppendsProgressLogs(ctx, t, run, fetch, faults);
    }
  }

  /** The first save and row: status running, the start time, and the start row. */
  function Begin(s: DbState, id: TaskId, startedAt: Time): (b: DbState)
    requires id in s.tasks
    ensures b.tasks.Keys == s.tasks.Keys && b.tasks[id].status == Running && b.tasks[id].startedAt == Some(startedAt)
    ensures b.tasks[id].(status := s.tasks[id].status, startedAt := s.tasks[id].startedAt) == s.tasks[id]
    ensures forall k | k in s.tasks && k != id :: b.tasks[k] == s.tasks[k]
    ensures b.logs == s.logs + [LogEntry(id, Info, TaskStarted(s.tasks[id].name))]
    ensures b.(tasks := s.tasks, logs := s.logs) == s
  {
    var t := s.tasks[id];
    s.(tasks := s.tasks[id := t.(status := Running, startedAt := Some(startedAt))],
       logs := s.logs + [LogEntry(id, Info, TaskStarted(t.name))])
  }

  /** Why the job fails before any crawl: no strategy for the platform, or its constructor raised. */
  function StartFailure(platform: string, initFails: bool): (e: Option<Cause>)
    ensures e.None? <==> SpiderFor(platform).Some? && !initFails
    ensures SpiderFor(platform).None? ==> e == Some(UnsupportedPlatform(platform))
  {
    if SpiderFor(platform).None? then Some(UnsupportedPlatform(platform))
    else if initFails then Some(SpiderInitFailed)
    else None
  }

  /** The handler: status failed, the end time and the error row. */
  function Fail(s: DbState, id: TaskId, completedAt: Time, e: Cause): (f: DbState)
    requires id in s.tasks
    ensures f.tasks.Keys == s.tasks.Keys && f.tasks[id].status == Failed && f.tasks[id].completedAt == Some(completedAt)
    ensures f.tasks[id].(status := s.tasks[id].status, completedAt := s.tasks[id].completedAt) == s.tasks[id]
    ensures forall k | k in s.tasks && k != id :: f.tasks[k] == s.tasks[k]
    ensures f.logs == s.logs + [LogEntry(id, Error, TaskFailed(e))]
    ensures f.(tasks := s.tasks, logs := s.logs) == s
  {
    s.(tasks := s.tasks[id := s.tasks[id].(status := Failed, completedAt := Some(completedAt))],
       logs := s.logs + [LogEntry(id, Error, TaskFailed(e))])
  }

  /** A finished crawl: status completed, the end time, progress 100, the counters and the completion row. */
  function Complete(s: DbState, id: TaskId, completedAt: Time, tally: Tally): (c: DbState)
    requires id in s.tasks
    ensures c.tasks.Keys == s.tasks.Keys
    ensures var t := c.tasks[id];
            && t.status == Completed && t.completedAt == Some(completedAt) && t.progress == 100
            && t.totalFound == tally.found && t.totalSaved == tally.saved && t.totalFailed == tally.failed
            && t.name == s.tasks[id].name && t.platform == s.tasks[id].platform && t.startedAt == s.tasks[id].startedAt
    ensures forall k | k in s.tasks && k != id :: c.tasks[k] == s.tasks[k]
    ensures c.logs == s.logs + [LogEntry(id, Info, TaskCompleted(tally.found, tally.saved, tally.failed))]
    ensures c.(tasks := s.tasks, logs := s.logs) == s
  {
    s.(tasks := s.tasks[id := s.tasks[id].(status := Completed, completedAt := Some(completedAt), progress := 100,
                                            totalFound := tally.found, totalSaved := tally.saved,
                                            totalFailed := tally.failed)],
       logs := s.logs + [LogEntry(id, Info, TaskCompleted(tally.found, tally.saved, tally.failed))])
  }

  /** The tables after the job, and the exception it lets out (None when it returns). */
  datatype Execution = Execution(state: DbState, raised: Option<Cause>)

  /**
   * `start_crawl_task(id)`. An id with no row fails before anything is
   * written (the handler then has no task to record the failure on).
   */
  function Execute(s: DbState, id: TaskId, startedAt: Time, completedAt: Time, initFails: bool,
                   fetch: Netease.SearchQuery -> Option<Netease.SearchBody>,
                   faults: (nat, nat) -> Netease.SaveFaults): (x: Execution)
    ensures x.raised == if id in s.tasks then StartFailure(s.tasks[id].platform, initFails) else Some(MissingTask)
    ensures id !in s.tasks ==> x.state == s
    ensures x.state.tasks.Keys == s.tasks.Keys
  {
    if id !in s.tasks then Execution(s, Some(MissingTask))
    else
      var begun := Begin(s, id, startedAt);
      var t := begun.tasks[id];
      match StartFailure(t.platform, initFails)
      case Some(e) => Execution(Fail(begun, id, completedAt, e), Some(e))
      case None =>
        var r := StrategyRun(SpiderFor(t.platform).value, SpiderCtx(id, t.platform), t, StartRun(begun, id),
                             fetch, faults);
        Execution(Complete(Apply(begun, id, r), id, completedAt, r.tally), None)
  }

  /** The crawl `Execute` runs, when it gets that far. */
  function CrawlOf(s: DbState, id: TaskId, startedAt: Time,
                   fetch: Netease.SearchQuery -> Option<Netease.SearchBody>,
                   faults: (nat, nat) -> Netease.SaveFaults): (r: Run)
    requires id in s.tasks && SpiderFor(s.tasks[id].platform).Some?
    ensures AppendsProgressLogs(id, s.logs + [LogEntry(id, Info, TaskStarted(s.tasks[id].name))], r.logs)
    ensures Wellformed(s.catalog) ==> Wellformed(r.catalog)
  {
    var begun := Begin(s, id, startedAt);
    var t := begun.tasks[id];
    StrategyRunAppendsProgressLogs(SpiderFor(t.platform).value, SpiderCtx(id, t.platform), t, StartRun(begun, id),
                                   fetch, faults);
    StrategyRun(SpiderFor(t.platform).value, SpiderCtx(id, t.platform), t, StartRun(begun, id), fetch, faults)
  }

  /**
   * Whatever the task's status was, it ends completed when the job returns
   * and failed when it raises, with both times set; the descriptor of the
   * task is not changed.
   */
  lemma ExecuteStatus(s: DbState, id: TaskId, startedAt: Time, completedAt: Time, initFails: bool,
                      fetch: Netease.SearchQuery -> Option<Netease.SearchBody>,
                      faults: (nat, nat) -> Netease.SaveFaults)
    requires id in s.tasks
    ensures var x := Execute(s, id, startedAt, completedAt, initFails, fetch, faults);
            var t, t' := s.tasks[id], x.state.tasks[id];
            && x.raised == StartFailure(t.platform, initFails)
            && (x.raised.None? <==> t'.status == Completed)
            && (x.raised.Some? <==> t'.status == Failed)
            && t'.startedAt == Some(startedAt) && t'.completedAt == Some(completedAt)
            && t'.name == t.name && t'.platform == t.platform && t'.taskType == t.taskType
            && t'.targetUrl == t.targetUrl && t'.searchKeyword == t.searchKeyword
            && t'.maxPages == t.maxPages && t'.delaySeconds == t.delaySeconds && t'.createdAt == t.createdAt
  {
  }

  /**
   * A completed task holds progress 100 and the strategy's counters; a
   * failed one keeps its progress and counters, and the catalog is not
   * touched because no crawl ran.
   */
  lemma ExecuteCounters(s: DbState, id: TaskId, startedAt: Time, completedAt: Time, initFails: bool,
                        fetch: Netease.SearchQuery -> Option<Netease.SearchBody>,
                        faults: (nat, nat) -> Netease.SaveFaults)
    requires id in s.tasks
    ensures var x := Execute(s, id, startedAt, completedAt, initFails, fetch, faults);
            var t, t' := s.tasks[id], x.state.tasks[id];
            && (x.raised.None? ==>
                  var r := CrawlOf(s, id, startedAt, fetch, faults);
                  && t'.progress == 100 && x.state.catalog == r.catalog
                  && t'.totalFound == r.tally.found && t'.totalSaved == r.tally.saved
                  && t'.totalFailed == r.tally.failed)
            && (x.raised.Some? ==>
                  && t'.progress == t.progress && x.state.catalog == s.catalog
                  && t'.totalFound == t.totalFound && t'.totalSaved == t.totalSaved
                  && t'.totalFailed == t.totalFailed)
  {
  }

  /** Nothing but the task's own row, the catalog and the log table changes. */
  lemma ExecuteFrame(s: DbState, id: TaskId, startedAt: Time, completedAt: Time, initFails: bool,
                     fetch: Netease.SearchQuery -> Option<Netease.SearchBody>,
                     faults: (nat, nat) -> Netease.SaveFaults)
    ensures var x := Execute(s, id, startedAt, completedAt, initFails, fetch, faults);
            && x.state.platforms == s.platforms && x.state.nextTaskId == s.nextTaskId
            && x.state.queue == s.queue && x.state.tasks.Keys == s.tasks.Keys
            && (forall k | k in s.tasks && k != id :: x.state.tasks[k] == s.tasks[k])
            && (id !in s.tasks ==> x.state == s)
  {
  }

  /**
   * The rows one execution adds: the start row first, exactly one
   * completion or failure row and it is the last, every row about this
   * task; the last row carries the counters or the cause.
   */
  lemma ExecuteLogs(s: DbState, id: TaskId, startedAt: Time, completedAt: Time, initFails: bool,
                    fetch: Netease.SearchQuery -> Option<Netease.SearchBody>,
                    faults: (nat, nat) -> Netease.SaveFaults)
    requires id in s.tasks
    ensures var x := Execute(s, id, startedAt, completedAt, initFails, fetch, faults);
            var t' := x.state.tasks[id];
            && s.logs <= x.state.logs
            && var added := x.state.logs[|s.logs|..];
            && OneExecution(id, s.tasks[id].name, added)
            && (x.raised.Some? ==> |added| == 2)
            && added[|added| - 1] == (match x.raised
                                      case None => LogEntry(id, Info, TaskCompleted(t'.totalFound, t'.totalSaved, t'.totalFailed))
                                      case Some(e) => LogEntry(id, Error, TaskFailed(e)))
  {
    var start := LogEntry(id, Info, TaskStarted(s.tasks[id].name));
    var x := Execute(s, id, startedAt, completedAt, initFails, fetch, faults);
    if StartFailure(s.tasks[id].platform, initFails).None? {
      var r := CrawlOf(s, id, startedAt, fetch, faults);
      CompletedRows(s, id, startedAt, completedAt, initFails, fetch, faults);
      Bracketed(s.logs, id, s.tasks[id].name, r.logs,
                LogEntry(id, Info, TaskCompleted(r.tally.found, r.tally.saved, r.tally.failed)));
    } else {
      FailedRows(s, id, startedAt, completedAt, initFails, fetch, faults);
      assert (s.logs + [start])[|s.logs + [start]|..] == [];
      Bracketed(s.logs, id, s.tasks[id].name, s.logs + [start], LogEntry(id, Error, TaskFailed(x.raised.value)));
    }
  }

  /**
   * Rows written after `before`: a start row and progress rows of the task,
   * then one terminal row, make one execution.
   */
  lemma Bracketed(before: seq<LogEntry>, id: TaskId, name: string, crawl: seq<LogEntry>, last: LogEntry)
    requires AppendsProgressLogs(id, before + [LogEntry(id, Info, TaskStarted(name))], crawl)
    requires last.task == id && IsTerminal(last.message)
    ensures before <= crawl + [last]
    ensures var added := (crawl + [last])[|before|..];
            && OneExecution(id, name, added)
            && |added| == |crawl| - |before| + 1
            && added[|added| - 1] == last
  {
    var start := LogEntry(id, Info, TaskStarted(name));
    Framed(before, start, crawl, last);
    BetweenStartAndEnd(id, name, crawl[|before| + 1..], last);
  }

  /** A job that reaches the crawl: the crawl's rows, then the completion row with the counters stored on the task. */
  lemma CompletedRows(s: DbState, id: TaskId, startedAt: Time, completedAt: Time, initFails: bool,
                      fetch: Netease.SearchQuery -> Option<Netease.SearchBody>,
                      faults: (nat, nat) -> Netease.SaveFaults)
    requires id in s.tasks && StartFailure(s.tasks[id].platform, initFails).None?
    ensures var x := Execute(s, id, startedAt, completedAt, initFails, fetch, faults);
            var r := CrawlOf(s, id, startedAt, fetch, faults);
            var t' := x.state.tasks[id];
            && x.raised.None?
            && x.state.logs == r.logs + [LogEntry(id, Info, TaskCompleted(r.tally.found, r.tally.saved, r.tally.failed))]
            && t'.totalFound == r.tally.found && t'.totalSaved == r.tally.saved && t'.totalFailed == r.tally.failed
  {
  }

  /** A job that fails before the crawl: the start row, then the failure row. */
  lemma FailedRows(s: DbState, id: TaskId, startedAt: Time, completedAt: Time, initFails: bool,
                   fetch: Netease.SearchQuery -> Option<Netease.SearchBody>,
                   faults: (nat, nat) -> Netease.SaveFaults)
    requires id in s.tasks && StartFailure(s.tasks[id].platform, initFails).Some?
    ensures var x := Execute(s, id, startedAt, completedAt, initFails, fetch, faults);
            && x.raised == StartFailure(s.tasks[id].platform, initFails)
            && x.state.logs == s.logs + [LogEntry(id, Info, TaskStarted(s.tasks[id].name))]
                               + [LogEntry(id, Error, TaskFailed(x.raised.value))]
  {
  }

  /**
   * The rows of one execution of a task: the start row first, every row
   * about the task, and exactly one completion or failure row, the last.
   */
  predicate OneExecution(id: TaskId, name: string, rows: seq<LogEntry>) {
    && |rows| >= 2
    && rows[0] == LogEntry(id, Info, TaskStarted(name))
    && (forall i | 0 <= i < |rows| :: rows[i].task == id)
    && (forall i | 0 <= i < |rows| - 1 :: !IsTerminal(rows[i].message))
    && IsTerminal(rows[|rows| - 1].message)
  }

  /** Progress rows framed by the start row and a closing row make one execution. */
  lemma BetweenStartAndEnd(id: TaskId, name: string, middle: seq<LogEntry>, last: LogEntry)
    requires last.task == id && IsTerminal(last.message)
    requires TaskProgressLogs(id, middle)
    ensures OneExecution(id, name, [LogEntry(id, Info, TaskStarted(name))] + middle + [last])
  {
    var rows := [LogEntry(id, Info, TaskStarted(name))] + middle + [last];
    forall i | 0 < i < |rows| - 1
      ensures rows[i] == middle[i - 1]
    {
    }
  }

  /** Rows appended after a start row, then one more row, seen from before the start row. */
  lemma Framed(before: seq<LogEntry>, start: LogEntry, after: seq<LogEntry>, last: LogEntry)
    requires before + [start] <= after
    ensures (after + [last])[|before|..] == [start] + after[|before| + 1..] + [last]
  {
  }

  /** The crawl keeps the catalog's references, whatever happens. */
  lemma ExecuteWellformed(s: DbState, id: TaskId, startedAt: Time, completedAt: Time, initFails: bool,
                          fetch: Netease.SearchQuery -> Option<Netease.SearchBody>,
                          faults: (nat, nat) -> Netease.SaveFaults)
    requires Wellformed(s.catalog)
    ensures Wellformed(Execute(s, id, startedAt, completedAt, initFails, fetch, faults).state.catalog)
  {
    if id in s.tasks {
      var begun := Begin(s, id, startedAt);
      var t := begun.tasks[id];
      if StartFailure(t.platform, initFails).None? {
        StrategyRunAppendsProgressLogs(SpiderFor(t.platform).value, SpiderCtx(id, t.platform), t,
                                       StartRun(begun, id), fetch, faults);
      }
    }
  }

  /** Afterwards `duration()` is the time between the two stamps the job wrote. */
  lemma ExecuteDuration(s: DbState, id: TaskId, startedAt: Time, completedAt: Time, initFails: bool,
                        fetch: Netease.SearchQuery -> Option<Netease.SearchBody>,
                        faults: (nat, nat) -> Netease.SaveFaults, now: Time)
    requires id in s.tasks
    ensures var x := Execute(s, id, startedAt, completedAt, initFails, fetch, faults);
            Duration(x.state.tasks[id], now) == Some(completedAt - startedAt)
  {
    ExecuteStatus(s, id, startedAt, completedAt, initFails, fetch, faults);
  }

  /**
   * On the NetEase platform, a completed search task's counters satisfy
   * saved <= found, and saved + failed is found plus the pages that could
   * not be listed.
   */
  lemma ExecuteNeteaseSearch(s: DbState, id: TaskId, startedAt: Time, completedAt: Time, initFails: bool,
                             fetch: Netease.SearchQuery -> Option<Netease.SearchBody>,
                             faults: (nat, nat) -> Netease.SaveFaults)
    requires id in s.tasks && s.tasks[id].platform == NeteaseName
    requires s.tasks[id].taskType == SearchType && s.tasks[id].searchKeyword != ""
    ensures var x := Execute(s, id, startedAt, completedAt, initFails, fetch, faults);
            var t := s.tasks[id];
            var t' := x.state.tasks[id];
            x.raised.None? ==>
              && t'.totalSaved <= t'.totalFound
              && t'.totalSaved + t'.totalFailed
                 == t'.totalFound + Netease.FailedPages(t.searchKeyword, t.maxPages, fetch)
  {
    var begun := Begin(s, id, startedAt);
    var t := begun.tasks[id];
    if !initFails {
      Netease.CrawlSuccessTally(SpiderCtx(id, t.platform), t, StartRun(begun, id), fetch, faults);
    }
  }

  // -------------------------------------------------------------- the job

  method BeginTask(db: Store.Database, id: TaskId, startedAt: Time)
    requires db.Valid() && id in db.tasks
    modifies db
    ensures db.Valid() && id in db.tasks
    ensures db.State() == Begin(old(db.State()), id, startedAt)
  {
    var t := db.tasks[id];
    db.tasks := db.tasks[id := t.(status := Running, startedAt := Some(startedAt))];
    Log(db, id, Info, TaskStarted(t.name));
  }

  method FailTask(db: Store.Database, id: TaskId, completedAt: Time, e: Cause)
    requires db.Valid() && id in db.tasks
    modifies db
    ensures db.Valid()
    ensures db.State() == Fail(old(db.State()), id, completedAt, e)
  {
    db.tasks := db.tasks[id := db.tasks[id].(status := Failed, completedAt := Some(completedAt))];
    Log(db, id, Error, TaskFailed(e));
  }

  method CompleteTask(db: Store.Database, id: TaskId, completedAt: Time, tally: Tally)
    requires db.Valid() && id in db.tasks
    modifies db
    ensures db.Valid()
    ensures db.State() == Complete(old(db.State()), id, completedAt, tally)
  {
    db.tasks := db.tasks[id := db.tasks[id].(status := Completed, completedAt := Some(completedAt), progress := 100,
                                              totalFound := tally.found, totalSaved := tally.saved,
                                              totalFailed := tally.failed)];
    Log(db, id, Info, TaskCompleted(tally.found, tally.saved, tally.failed));
  }

  /** `spider.crawl()` on the database. */
  method RunStrategy(db: Store.Database, ctx: SpiderCtx, strategy: Strategy,
                     fetch: Netease.SearchQuery -> Option<Netease.SearchBody>,
                     faults: (nat, nat) -> Netease.SaveFaults)
    returns (tally: Tally)
    requires db.Valid() && CtxOf(db, ctx)
    modifies db
    ensures db.Valid() && CtxOf(db, ctx)
    ensures var r := StrategyRun(strategy, ctx, old(db.tasks)[ctx.task], StartRun(old(db.State()), ctx.task),
                                 fetch, faults);
            tally == r.tally && db.State() == Apply(old(db.State()), ctx.task, r)
  {
    match strategy
    case NeteaseStrategy => tally := Netease.Crawl(db, ctx, fetch, faults);
    case QQMusicStrategy => tally := QQMusic.Crawl(db, ctx);
    case KugouStrategy => tally := Kugou.Crawl(db, ctx);
  }

  /** `start_crawl_task(id)`, as `Execute` describes it. */
  method StartCrawlTask(db: Store.Database, id: TaskId, startedAt: Time, completedAt: Time, initFails: bool,
                        fetch: Netease.SearchQuery -> Option<Netease.SearchBody>,
                        faults: (nat, nat) -> Netease.SaveFaults)
    returns (raised: Option<Cause>)
    requires db.Valid()
    modifies db
    ensures db.Valid()
    ensures Execute(old(db.State()), id, startedAt, completedAt, initFails, fetch, faults)
         == Execution(db.State(), raised)
  {
    if id !in db.tasks {
      return Some(MissingTask);
    }
    var t := db.tasks[id];
    BeginTask(db, id, startedAt);
    var strategy := SpiderFor(t.platform);
    if strategy.None? {
      FailTask(db, id, completedAt, UnsupportedPlatform(t.platform));
      return Some(UnsupportedPlatform(t.platform));
    }
    if initFails {
      FailTask(db, id, completedAt, SpiderInitFailed);
      return Some(SpiderInitFailed);
    }
    var tally := RunStrategy(db, SpiderCtx(id, t.platform), strategy.value, fetch, faults);
    CompleteTask(db, id, completedAt, tally);
    raised := None;
  }
}
