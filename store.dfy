/**
 * The database the ORM reads and writes: the platform table, the three
 * entity tables, the task table with its id sequence, the append-only log
 * table, and the job queue that `start_crawl_task.delay(id)` feeds.
 */
module Store {
  import opened MusicModels
  import opened CrawlerModels

  /** Every table at one instant; methods state their effect as an update of it. */
  datatype DbState = DbState(
    platforms: map<string, PlatformRow>,
    catalog: Catalog,
    tasks: map<TaskId, CrawlTask>,
    nextTaskId: TaskId,
    logs: seq<LogEntry>,
    queue: seq<TaskId>)

  class Database {
    var platforms: map<string, PlatformRow>
    var catalog: Catalog
    var tasks: map<TaskId, CrawlTask>
    var nextTaskId: TaskId          // the auto-increment sequence of CrawlTask.id
    var logs: seq<LogEntry>         // CrawlLog rows in the order they were created
    ghost var queue: seq<TaskId>    // ids handed to the background job queue

    /**
     * Queued ids reference existing tasks and the id sequence is ahead of
     * every id in use. The catalog's references (`Wellformed`) and the log
     * rows' task references are stated about the functions that compute
     * each change instead of being carried here.
     */
    ghost predicate Valid()
      reads this
    {
      && (forall id | id in tasks :: id < nextTaskId)
      && (forall i | 0 <= i < |queue| :: queue[i] in tasks)
    }

    ghost function State(): DbState
      reads this
    {
      DbState(platforms, catalog, tasks, nextTaskId, logs, queue)
    }

    constructor ()
      ensures Valid()
      ensures platforms == map[] && catalog == EmptyCatalog && tasks == map[]
      ensures nextTaskId == 1 && logs == [] && queue == []
    {
      platforms := map[];
      catalog := EmptyCatalog;
      tasks := map[];
      nextTaskId := 1;
      logs := [];
      queue := [];
    }
  }
}
