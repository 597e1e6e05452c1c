/**
 * crawler/spiders/qq.py: the QQ Music strategy. Its crawl announces the task type and
 * that the platform is not implemented yet, and finds nothing.
 */
module QQMusic {
  import opened CrawlerModels
  import opened Store
  import opened BaseSpider

  const BaseUrl: string := "https://y.qq.com"

  /** The two rows `crawl` writes, in order. */
  function CrawlLogs(task: TaskId, taskType: string): seq<LogEntry> {
    [LogEntry(task, Info, QQCrawlStarted(taskType)), LogEntry(task, Info, QQNotImplemented)]
  }

  /** `crawl` as a function of the run it starts from. */
  function CrawlRun(ctx: SpiderCtx, t: CrawlTask, run: Run): (r: Run)
    ensures r.catalog == run.catalog && r.progress == run.progress
    ensures r.tally == ZeroTally
    ensures AppendsProgressLogs(ctx.task, run.logs, r.logs)
    ensures r.logs == run.logs + CrawlLogs(ctx.task, t.taskType)
  {
    var r := run.(logs := run.logs + CrawlLogs(ctx.task, t.taskType), tally := ZeroTally);
    assert r.logs[|run.logs|..] == CrawlLogs(ctx.task, t.taskType);
    r
  }

  /** `crawl` on the database. */
  method Crawl(db: Store.Database, ctx: SpiderCtx) returns (tally: Tally)
    requires db.Valid() && CtxOf(db, ctx)
    modifies db
    ensures db.Valid() && CtxOf(db, ctx)
    ensures var r := CrawlRun(ctx, old(db.tasks)[ctx.task], StartRun(old(db.State()), ctx.task));
            tally == r.tally && db.State() == Apply(old(db.State()), ctx.task, r)
  {
    ghost var s0 := db.State();
    var t := db.tasks[ctx.task];
    Log(db, ctx.task, Info, QQCrawlStarted(t.taskType));
    Log(db, ctx.task, Info, QQNotImplemented);
    tally := ZeroTally;
    ApplySameProgress(s0, ctx.task, CrawlRun(ctx, t, StartRun(s0, ctx.task)));
  }
}
