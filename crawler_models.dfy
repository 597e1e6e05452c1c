/**
 * The task and log records of crawler/models.py: CrawlTask with its status,
 * type and counters, CrawlLog with its level and message, `duration()`, and
 * the newest-first ordering of both tables.
 */
module CrawlerModels {
  import opened Wrappers
  import opened MusicModels
  import opened Ordering

  type TaskId = nat

  /** STATUS_CHOICES; the default is Pending. */
  datatype TaskStatus = Pending | Running | Completed | Failed | Cancelled

  /** TYPE_CHOICES. The column holds a plain string: choices are not enforced on save. */
  const SearchType: string := "search"
  const ArtistType: string := "artist"
  const AlbumType: string := "album"
  const PlaylistType: string := "playlist"

  predicate IsTaskTypeChoice(t: string) {
    t == SearchType || t == ArtistType || t == AlbumType || t == PlaylistType
  }

  /** LEVEL_CHOICES. */
  datatype LogLevel = Debug | Info | Warning | Error | Critical

  /** What an exception's text says, where the core logs `str(e)`. */
  datatype Cause =
    | MissingKey(key: string)             // KeyError on a required dictionary key
    | StoreRejected                       // the database raised on read or write
    | EmptyArtistList                     // IndexError on `song_info['artists'][0]`
    | UnsupportedTaskType(taskType: string)
    | KeywordRequired
    | ArtistIdNotFound
    | UnparsableResponse                  // `response.json()` raised
    | UnsupportedPlatform(platform: string)
    | SpiderInitFailed                    // the strategy's constructor raised
    | MissingTask                         // no task row has the id the job was given

  /** The messages the core writes into CrawlLog rows. */
  datatype Message =
    | ArtistCreated(name: string)
    | AlbumCreated(title: string)
    | SongCreated(title: string, artistName: string)
    | ArtistSaveFailed(cause: Cause)
    | AlbumSaveFailed(cause: Cause)
    | SongSaveFailed(cause: Cause)
    | PageFetched(url: string)
    | PageFetchFailed(url: string)
    | NeteaseCrawlStarted(taskType: string)
    | SearchStarted(keyword: string)
    | SearchParseFailed(cause: Cause)
    | ArtistCrawlStarted(artistId: string)
    | SongParseFailed(cause: Cause)
    | CrawlFailed(cause: Cause)
    | QQCrawlStarted(taskType: string)
    | QQNotImplemented
    | KugouCrawlStarted(taskType: string)
    | KugouNotImplemented
    | TaskStarted(name: string)
    | TaskCompleted(found: nat, saved: nat, failed: nat)
    | TaskFailed(cause: Cause)

  /** A CrawlLog row; each references one task. */
  datatype LogEntry = LogEntry(task: TaskId, level: LogLevel, message: Message)

  /** The two messages that close one execution of a task. */
  predicate IsTerminal(m: Message) {
    m.TaskCompleted? || m.TaskFailed?
  }

  /** A CrawlTask row. `platform` is the referenced platform's name. */
  datatype CrawlTask = CrawlTask(
    name: string,
    platform: string,
    taskType: string,
    targetUrl: string,
    searchKeyword: string,
    status: TaskStatus,
    progress: nat,
    maxPages: nat,
    delaySeconds: nat,
    totalFound: nat,
    totalSaved: nat,
    totalFailed: nat,
    startedAt: Option<Time>,
    completedAt: Option<Time>,
    createdAt: Time)

  /**
   * A new row: the given descriptor, and the column defaults for everything
   * else (max_pages and delay_seconds default to 1 when not given).
   */
  function NewTask(name: string, platform: string, taskType: string, targetUrl: string,
                   searchKeyword: string, maxPages: Option<nat>, delaySeconds: Option<nat>,
                   now: Time): (t: CrawlTask)
    ensures t.status == Pending && t.progress == 0
    ensures t.totalFound == 0 && t.totalSaved == 0 && t.totalFailed == 0
    ensures t.maxPages == maxPages.GetOr(1) && t.delaySeconds == delaySeconds.GetOr(1)
    ensures t.startedAt.None? && t.completedAt.None? && t.createdAt == now
  {
    CrawlTask(name, platform, taskType, targetUrl, searchKeyword, Pending, 0,
              maxPages.GetOr(1), delaySeconds.GetOr(1), 0, 0, 0, None, None, now)
  }

  /** `CrawlTask.duration()`: elapsed time so far, or None if never started. */
  function Duration(t: CrawlTask, now: Time): (d: Option<int>)
    ensures d.None? <==> t.startedAt.None?
    ensures t.startedAt.Some? && t.completedAt.Some? ==> d == Some(t.completedAt.value - t.startedAt.value)
    ensures t.startedAt.Some? && t.completedAt.None? ==> d == Some(now - t.startedAt.value)
  {
    if t.startedAt.Some? && t.completedAt.Some? then Some(t.completedAt.value - t.startedAt.value)
    else if t.startedAt.Some? then Some(now - t.startedAt.value)
    else None
  }

  /** A task together with its id, as a listing returns it. */
  datatype TaskRow = TaskRow(id: TaskId, task: CrawlTask)

  /** `ordering = ['-created_at']` on CrawlTask. */
  function TasksNewestFirst(rows: seq<TaskRow>): (r: seq<TaskRow>)
    ensures NonIncreasing(r, (row: TaskRow) => row.task.createdAt)
    ensures multiset(r) == multiset(rows)
  {
    SortDesc(rows, (row: TaskRow) => row.task.createdAt)
  }

  /**
   * `ordering = ['-created_at']` on CrawlLog. Rows are stamped when they are
   * appended, so the append order is the creation order and newest-first is
   * the reverse of it.
   */
  function LogsNewestFirst(logs: seq<LogEntry>): (r: seq<LogEntry>)
    ensures |r| == |logs|
    ensures forall i | 0 <= i < |logs| :: r[i] == logs[|logs| - 1 - i]
  {
    Reverse(logs)
  }
}
