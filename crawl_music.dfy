/**
 * crawler/management/commands/crawl_music.py: the command that creates a
 * crawl task from its options and enqueues it. The platform must exist,
 * a search needs a keyword and any other type needs a URL, checked in that
 * order; the task is then named, saved and enqueued.
 *
 * The options are what argparse hands over: `--type` is one of the four
 * choices, `--keyword` and `--url` are None when not given, and `--pages`
 * and `--delay` are any integers, 1 when not given. The two counts go to
 * `PositiveIntegerField` columns, whose check constraint refuses a
 * negative value at the insert.
 */
module CrawlMusic {
  import opened Wrappers
  import opened MusicModels
  import opened CrawlerModels
  import opened Store

  datatype Options = Options(platform: string, taskType: string, keyword: Option<string>, url: Option<string>,
                             pages: int, delay: int)

  /** Python truthiness of an optional string: present and not empty. */
  predicate Given(s: Option<string>) {
    s.Some? && s.value != ""
  }

  /** The error the command prints before returning. */
  datatype Problem = UnknownPlatform(name: string) | KeywordRequiredForSearch | UrlRequired

  /** The three checks, in order; the first that fails decides. */
  function Check(platforms: map<string, PlatformRow>, o: Options): (p: Option<Problem>)
    ensures p.None? <==> o.platform in platforms
                         && (o.taskType == SearchType ==> Given(o.keyword))
                         && (o.taskType != SearchType ==> Given(o.url))
    ensures o.platform !in platforms ==> p == Some(UnknownPlatform(o.platform))
    ensures o.platform in platforms && o.taskType == SearchType && !Given(o.keyword) ==> p == Some(KeywordRequiredForSearch)
    ensures o.platform in platforms && o.taskType != SearchType && !Given(o.url) ==> p == Some(UrlRequired)
  {
    if o.platform !in platforms then Some(UnknownPlatform(o.platform))
    else if o.taskType == SearchType && !Given(o.keyword) then Some(KeywordRequiredForSearch)
    else if o.taskType != SearchType && !Given(o.url) then Some(UrlRequired)
    else None
  }

  /** `f"{type}-{keyword or 'url'}-{platform.name}"`. */
  function TaskName(o: Options): (name: string)
    ensures |name| >= |o.taskType| + |o.platform| + 2
    ensures name[..|o.taskType| + 1] == o.taskType + "-"
    ensures name[|name| - |o.platform| - 1..] == "-" + o.platform
    ensures Given(o.keyword) ==> name == o.taskType + "-" + o.keyword.value + "-" + o.platform
    ensures !Given(o.keyword) ==> name == o.taskType + "-url-" + o.platform
  {
    var middle := if Given(o.keyword) then o.keyword.value else "url";
    var name := o.taskType + "-" + middle + "-" + o.platform;
    assert name == (o.taskType + "-") + (middle + "-" + o.platform);
    assert name == (o.taskType + "-" + middle) + ("-" + o.platform);
    name
  }

  /** What one run of the command ends in; `Crashed` is an exception out of the insert, which writes nothing. */
  datatype Outcome = Rejected(problem: Problem) | Crashed | Created(task: CrawlTask)

  /** The columns `max_pages` and `delay_seconds` accept the two counts. */
  predicate CountsStorable(o: Options) {
    o.pages >= 0 && o.delay >= 0
  }

  /**
   * The row the command inserts, with `options.get('url', '')` and
   * `options.get('keyword', '')` as written: argparse always puts both
   * keys, so an option that was not given arrives as None, and the NOT NULL
   * columns `target_url` and `search_keyword` refuse the insert (None), as
   * the count columns refuse a negative count. An insert that goes through
   * stores the same row as the corrected command.
   */
  function DraftAsWritten(o: Options, now: Time): (t: Option<CrawlTask>)
    ensures t.None? <==> o.url.None? || o.keyword.None? || !CountsStorable(o)
    ensures t.Some? ==> CountsStorable(o) && t.value == Draft(o, now)
  {
    if o.url.None? || o.keyword.None? || !CountsStorable(o) then None
    else Some(NewTask(TaskName(o), o.platform, o.taskType, o.url.value, o.keyword.value,
                      Some(o.pages), Some(o.delay), now))
  }

  /** The command as written: the checks decide a rejection, and past them every missing option crashes the insert. */
  function HandleAsWritten(platforms: map<string, PlatformRow>, o: Options, now: Time): (out: Outcome)
    ensures out.Rejected? <==> Check(platforms, o).Some?
    ensures out.Rejected? ==> out.problem == Check(platforms, o).value
    ensures out == Crashed <==> Check(platforms, o).None? && (o.url.None? || o.keyword.None? || !CountsStorable(o))
    ensures out.Created? ==> CountsStorable(o) && out.task == Draft(o, now)
  {
    match Check(platforms, o)
    case Some(p) => Rejected(p)
    case None =>
      match DraftAsWritten(o, now)
      case None => Crashed
      case Some(t) => Created(t)
  }

  /**
   * The ordinary search, `--type search --keyword K` without `--url`,
   * passes every check and then fails on the insert; so does every other
   * type given without `--keyword`. The corrected command creates the task
   * whenever its counts are storable.
   */
  lemma AsWrittenRejectsMissingOption(platforms: map<string, PlatformRow>, o: Options, now: Time)
    requires Check(platforms, o).None?
    requires o.url.None? || o.keyword.None?
    ensures HandleAsWritten(platforms, o, now) == Crashed
    ensures CountsStorable(o) ==> HandleOutcome(platforms, o, now).Created?
  {
  }

  /** A concrete instance: a search on a seeded platform with a keyword and no URL. */
  lemma AsWrittenSearchCrashes(platforms: map<string, PlatformRow>, now: Time)
    requires "网易云音乐" in platforms
    ensures HandleAsWritten(platforms, Options("网易云音乐", SearchType, Some("晴天"), None, 1, 1), now) == Crashed
  {
    AsWrittenRejectsMissingOption(platforms, Options("网易云音乐", SearchType, Some("晴天"), None, 1, 1), now);
  }

  /** The row the command evidently means to insert: an option not given is stored as ''. */
  function Draft(o: Options, now: Time): (t: CrawlTask)
    requires CountsStorable(o)
    ensures t.name == TaskName(o) && t.platform == o.platform && t.taskType == o.taskType
    ensures t.targetUrl == o.url.GetOr("") && t.searchKeyword == o.keyword.GetOr("")
    ensures t.maxPages == o.pages && t.delaySeconds == o.delay
    ensures t.status == Pending && t.progress == 0 && t.createdAt == now
  {
    NewTask(TaskName(o), o.platform, o.taskType, o.url.GetOr(""), o.keyword.GetOr(""), Some(o.pages), Some(o.delay), now)
  }

  /**
   * The command with that correction: it creates a task exactly when the
   * checks pass and the counts are storable; a negative count still
   * crashes the insert, as in the command.
   */
  function HandleOutcome(platforms: map<string, PlatformRow>, o: Options, now: Time): (out: Outcome)
    ensures out.Rejected? <==> Check(platforms, o).Some?
    ensures out.Rejected? ==> out.problem == Check(platforms, o).value
    ensures out == Crashed <==> Check(platforms, o).None? && !CountsStorable(o)
    ensures out.Created? ==> CountsStorable(o) && out.task == Draft(o, now)
  {
    match Check(platforms, o)
    case Some(p) => Rejected(p)
    case None => if CountsStorable(o) then Created(Draft(o, now)) else Crashed
  }

  /** When both options are given the correction changes nothing. */
  lemma CorrectionAgreesWhenGiven(platforms: map<string, PlatformRow>, o: Options, now: Time)
    requires o.url.Some? && o.keyword.Some?
    ensures HandleAsWritten(platforms, o, now) == HandleOutcome(platforms, o, now)
  {
  }

  /**
   * `handle`, corrected: a rejected or crashed run writes nothing;
   * otherwise exactly one task is created under the next id and that id is
   * enqueued once.
   */
  method Handle(db: Store.Database, o: Options, now: Time) returns (out: Outcome)
    requires db.Valid() && IsTaskTypeChoice(o.taskType)
    modifies db
    ensures db.Valid()
    ensures out == HandleOutcome(old(db.platforms), o, now)
    ensures !out.Created? ==> db.State() == old(db.State())
    ensures out.Created? ==>
              var id := old(db.nextTaskId);
              && id !in old(db.tasks)
              && db.State() == old(db.State()).(tasks := old(db.tasks)[id := out.task],
                                                nextTaskId := id + 1, queue := old(db.queue) + [id])
  {
    var problem := Check(db.platforms, o);
    if problem.Some? {
      return Rejected(problem.value);
    }
    if !CountsStorable(o) {
      return Crashed;
    }
    var task := Draft(o, now);
    var id := db.nextTaskId;
    db.tasks := db.tasks[id := task];
    db.nextTaskId := id + 1;
    db.queue := db.queue + [id];
    out := Created(task);
  }
}
