# melody-hunter crawl pipeline, modelled in Dafny

melody-hunter is a Django service that crawls music platforms (NetEase Cloud
Music, QQ Music, Kugou Music) and keeps a catalog of platforms, artists,
albums and songs. A crawl task is a database row. It is created over HTTP or
by a management command, handed to a background job, and run by the
platform's spider. The spider reconciles each record it scrapes against the
catalog (create or update), writes log rows, and reports the counters
`{found, saved, failed}`. The job stores those counters on the task together
with its final status.

This project models that pipeline:

- the records (`MusicModels`, `CrawlerModels`);
- the database as one object whose tables the operations update in place (`Store.Database`);
- the reconciler and the helpers shared by all spiders (`BaseSpider`);
- the three spiders (`Netease`, `QQMusic`, `Kugou`);
- the background job (`Tasks`);
- the task and song endpoints (`CrawlerViews`, `MusicViews`);
- the two management commands (`CrawlMusic`, `InitPlatforms`).

Operations that change the database are methods on `Store.Database`. Each
method is proved against a pure function of the state before the call, and
the properties the code promises are proved about those functions.

The model takes the outside world as parameters:

- **HTTP responses:** a search response is an oracle `fetch` from the query to
  "no response", "undecodable body" or a song list.
- **Database errors:** whether a save raises is an oracle `faults`, indexed by
  page and position.
- **Clocks:** times are explicit `Time` arguments.
- **Spider construction:** whether building the spider fails (user-agent
  lookup, HTTP session) is a boolean argument.

Some entities are modelled with a different shape than their Django tables:

- An entity table is a map keyed by `(platform, platform_id)`, so the
  `unique_together` constraints hold by construction.
- The platform table is keyed by name.
- Log rows form a sequence in creation order. The newest-first listing is its
  reverse.
- The job queue fed by `start_crawl_task.delay(id)` is a ghost sequence of
  task ids.

Three behaviours of the code are worth noting:

- **Job start:** the job moves a task to `running` whatever its status,
  cancelled included (crawler/tasks.py:15).
- **Spider registry:** the registry chooses a spider by platform name only.
  It does not consult `is_active` (crawler/spiders/base.py:176-194).
- **Missing task id:** `start_crawl_task` for an id with no row writes
  nothing and raises. The handler itself then fails on the unbound `task`
  (crawler/tasks.py:52-56). The model reports this as the cause
  `MissingTask`, with the state unchanged.

## Model

| member | source | states |
|---|---|---|
| MusicModels.Pad2 | music/models.py:100 | `{n:02d}` is all digits, at least two long, exactly two below 100, and reads back as n |
| MusicModels.DurationDisplay | music/models.py:95-101 | the text is "未知" exactly when the duration is absent or 0 |
| MusicModels.DurationDisplayRoundTrip | music/models.py:95-101 | for d > 0 the text has the `MM:SS` shape; its minutes are d / 60, its seconds d % 60, and they recombine to d; minutes of 100 or more give more than two minute digits |
| CrawlerModels.NewTask | crawler/models.py:23-44 | a new task is pending with progress 0, zero counters, no start or completion time, and max_pages and delay_seconds defaulting to 1 |
| CrawlerModels.Duration | crawler/models.py:54-60 | `duration()` is None exactly when the task never started; it is completed minus started when both are set, and now minus started while running |
| CrawlerModels.TasksNewestFirst | crawler/models.py:49 | the task listing is a permutation of the rows with creation times non-increasing |
| CrawlerModels.LogsNewestFirst | crawler/models.py:82 | the log listing holds the rows in exactly the reverse of their creation order |
| BaseSpider.SaveError | crawler/spiders/base.py:67-93 | a save raises exactly when the platform id or the required field is missing, or the database faults |
| BaseSpider.UpsertArtist | crawler/spiders/base.py:67-93 | `save_artist` touches only the artist table and adds at most the row under the task's platform and the record's id; it succeeds exactly when id and name are present and the database does not fault; it writes only non-closing rows of this task and keeps every foreign key valid; a failure changes nothing |
| BaseSpider.UpsertArtistEffect | crawler/spiders/base.py:67-93 | other rows are untouched; a failure writes one ERROR row; a create writes one INFO row, and the new row takes the given values or ''; an update writes no row, overwrites the name, and keeps stored values for absent optional keys |
| BaseSpider.UpsertArtistIdempotent | crawler/spiders/base.py:67-93 | saving the same record again leaves the catalog as the first save left it and writes no log |
| BaseSpider.UpsertAlbum | crawler/spiders/base.py:95-123 | as for artists, on the album table; keys stay valid when the artist is stored |
| BaseSpider.UpsertAlbumEffect | crawler/spiders/base.py:95-123 | a create stores the given artist and release date; an update rewrites the title and keeps the artist and the release date |
| BaseSpider.UpsertAlbumIdempotent | crawler/spiders/base.py:95-123 | saving the same album again changes nothing and writes no log |
| BaseSpider.UpsertSong | crawler/spiders/base.py:125-163 | as for artists, on the song table; keys stay valid when the artist and album are stored |
| BaseSpider.UpsertSongEffect | crawler/spiders/base.py:125-163 | a create takes defaults '' and 0 for absent keys; an update overwrites only the keys present and keeps the artist and the album |
| BaseSpider.UpsertSongIdempotent | crawler/spiders/base.py:125-163 | saving the same song again changes nothing and writes no log |
| BaseSpider.Log | crawler/spiders/base.py:35-42 | `log` appends exactly one row for the task and changes nothing else |
| BaseSpider.SaveArtist | crawler/spiders/base.py:67-93 | on the database: the catalog and logs become those of `UpsertArtist` |
| BaseSpider.SaveAlbum | crawler/spiders/base.py:95-123 | on the database: the catalog and logs become those of `UpsertAlbum` |
| BaseSpider.SaveSong | crawler/spiders/base.py:125-163 | on the database: the catalog and logs become those of `UpsertSong` |
| BaseSpider.GetPage | crawler/spiders/base.py:44-59 | `get_page` succeeds as the network decides and appends one DEBUG row on success or one ERROR row on failure |
| BaseSpider.ProgressPercent | crawler/spiders/base.py:165-167 | a total of 0 or less gives progress 0 |
| BaseSpider.ProgressPercentBounds | crawler/spiders/base.py:167 | with a positive total, the last page gives exactly 100, an earlier page less than 100, and none more than 100 |
| BaseSpider.UpdateProgress | crawler/spiders/base.py:165-169 | only the task's progress changes |
| BaseSpider.SpiderFor | crawler/spiders/base.py:176-194 | a spider exists exactly for the three registered names, each mapped to its own strategy |
| Netease.Query | crawler/spiders/netease.py:54-60 | page p asks for 30 song results starting at offset 30·(p−1) |
| Netease.QueryWindowsDisjoint | crawler/spiders/netease.py:58-59 | distinct pages ask for non-overlapping result windows |
| Netease.IdText | crawler/spiders/netease.py:127 | `str(id)` is empty exactly when the id is absent, and otherwise decimal digits that read back as the id |
| Netease.FirstArtist | crawler/spiders/netease.py:124 | taking the first artist fails exactly when the artist list is present and empty |
| Netease.ArtistDataOf | crawler/spiders/netease.py:125-129 | the artist dictionary always carries name and id |
| Netease.AlbumDataOf | crawler/spiders/netease.py:139-143 | the album dictionary always carries title and id |
| Netease.SongDataOf | crawler/spiders/netease.py:147-153 | the song dictionary carries every key; the duration is the floor of the milliseconds divided by 1000 |
| Netease.ParseAndSave | crawler/spiders/netease.py:120-160 | a record is saved exactly as `SongSaved` says (artist saved, then song saved); an empty artist list or a failed artist save leaves the catalog as it was; a record whose album is absent or not saved leaves the album table as it was; every row written is a non-closing row of this task; keys stay valid |
| Netease.ParseAndSaveSongRow | crawler/spiders/netease.py:135-156 | at most the record's own song row changes; a saved row carries the record's title, duration in seconds, play count and URL; a new row points at the first artist, and at the record's album exactly when that album was saved (else no album) |
| Netease.ParseAndSaveAlbumRow | crawler/spiders/netease.py:135-144 | the album table gains at most the record's album key, only when the album is saved, and no other album row changes; the saved row carries the album's name and URL, and a new one belongs to the first artist |
| Netease.ParseAndSaveArtistRow | crawler/spiders/netease.py:124-133 | the artist table gains at most the first artist's key, only when that artist is saved, and no other artist row changes; the saved row carries the artist's name and URL |
| Netease.ParseAndSaveSong | crawler/spiders/netease.py:120-160 | on the database: catalog and logs become those of `ParseAndSave`, and the result is its verdict |
| Netease.FirstMatch | crawler/spiders/netease.py:117 | the leftmost position where `artist\?id=\d+` matches, with no match before it, or None when there is none |
| Netease.DigitRun | crawler/spiders/netease.py:117 | `\d+` takes the longest run of digits: a digit prefix, followed by the end or a non-digit |
| Netease.ExtractArtistId | crawler/spiders/netease.py:115-118 | an id is returned exactly when the pattern matches somewhere; it is a non-empty digit string, the longest digit run after the leftmost match |
| Netease.ArtistUrlRoundTrip | crawler/spiders/netease.py:115-118 | the artist page URL the spider stores gives back the artist's id, whatever non-digit text follows it |
| Netease.SearchTally | crawler/spiders/netease.py:52-85 | saved + failed = found + the pages not listed, and saved ≤ found |
| Netease.PageTally | crawler/spiders/netease.py:62-83 | a listed page counts each of its records as saved or failed; an unlisted page counts one failure and nothing found |
| Netease.ListingStep | crawler/spiders/netease.py:73-77 | one record adds one to saved or to failed, as `SongSaved` decides; found and progress are unchanged |
| Netease.SaveListing | crawler/spiders/netease.py:73-77 | the records of a page add their saved count to saved and the rest to failed |
| Netease.PageOutcome | crawler/spiders/netease.py:62-83 | no response or an undecodable body counts one failure; a song list adds its length to found, saves the records, and sets the progress |
| Netease.SearchPage | crawler/spiders/netease.py:54-83 | a listed page sets progress to its percentage; an unlisted page keeps the progress |
| Netease.SearchUpTo | crawler/spiders/netease.py:54-85 | the page loop writes only non-closing rows of this task and keeps keys valid |
| Netease.SearchUpToTally | crawler/spiders/netease.py:54-85 | the counters after pages 1..n are `SearchTally`, whatever the catalog held |
| Netease.SearchUpToProgress | crawler/spiders/netease.py:79 | the progress after pages 1..n is that of the last listed page, or unchanged when none was listed |
| Netease.SearchOutcome | crawler/spiders/netease.py:41-85 | `crawl_search` raises exactly when the keyword is empty, and then writes nothing |
| Netease.SaveOneRecord | crawler/spiders/netease.py:73-77 | on the database: one record as `ListingStep` |
| Netease.SaveRecords | crawler/spiders/netease.py:73-77 | the inner loop on the database equals `SaveListing` |
| Netease.SaveListedPage | crawler/spiders/netease.py:71-79 | a listed page on the database: its records, then the progress |
| Netease.HandleAnswer | crawler/spiders/netease.py:62-83 | on the database: one response as `PageOutcome` |
| Netease.FetchAndSavePage | crawler/spiders/netease.py:55-83 | on the database: one loop iteration as `SearchPage` |
| Netease.SearchNextPage | crawler/spiders/netease.py:54-83 | one more iteration takes the state of pages 1..p−1 to that of pages 1..p |
| Netease.SearchPages | crawler/spiders/netease.py:54-85 | the page loop on the database equals `SearchUpTo` over all max_pages pages |
| Netease.CrawlSearch | crawler/spiders/netease.py:41-85 | `crawl_search` on the database equals `SearchOutcome` |
| Netease.CrawlCause | crawler/spiders/netease.py:24-33 | `crawl` catches an exception exactly for a search with an empty keyword, an artist URL without an id, or a type outside the four choices |
| Netease.Caught | crawler/spiders/netease.py:35-37 | the handler leaves catalog and progress unchanged, appends exactly one ERROR row naming the cause, and adds one failure to the result in hand, keeping found and saved |
| Netease.CrawlRun | crawler/spiders/netease.py:13-39 | `crawl` writes its start row first; a caught exception gives exactly one failure and the catalog unchanged; a type other than search never touches catalog or progress |
| Netease.CrawlFailure | crawler/spiders/netease.py:35-37 | a caught exception leaves catalog and progress unchanged, adds the start row and one error row naming the cause, and reports exactly one failure |
| Netease.CrawlSuccessTally | crawler/spiders/netease.py:23-31 | otherwise a search reports `SearchTally`, and artist, album and playlist report zeros with the catalog unchanged |
| Netease.CrawlAppendsProgressLogs | crawler/spiders/netease.py:13-39 | `crawl` only appends non-closing rows of this task and keeps keys valid |
| Netease.CrawlSearchProgress | crawler/spiders/netease.py:79 | a search ends at 100% when the last page was listed, below 100% when an earlier page was the last listed, and at the old progress when none was |
| Netease.ReportCaught | crawler/spiders/netease.py:35-37 | on the database: the error row and a result of one failure |
| Netease.CrawlArtist | crawler/spiders/netease.py:87-101 | on the database: an id in the URL gives one start row and zeros; no id gives the caught error |
| Netease.Crawl | crawler/spiders/netease.py:13-39 | `NeteaseSpider.crawl` on the database equals `CrawlRun` |
| QQMusic.CrawlRun | crawler/spiders/qq.py:11-24 | the catalog and progress are unchanged, the result is zeros, and exactly the two INFO rows of this task (start, not implemented) are added |
| QQMusic.Crawl | crawler/spiders/qq.py:11-24 | on the database: the two INFO rows and zeros |
| Kugou.CrawlRun | crawler/spiders/kugou.py:11-24 | the catalog and progress are unchanged, the result is zeros, and exactly the two INFO rows of this task (start, not implemented) are added |
| Kugou.Crawl | crawler/spiders/kugou.py:11-24 | on the database: the two INFO rows and zeros |
| Tasks.StartFailure | crawler/tasks.py:27-32 | the job raises before crawling exactly when no spider is registered for the platform or the spider cannot be built; an unregistered platform is reported as such |
| Tasks.StrategyRun | crawler/tasks.py:32-35 | the QQ Music and Kugou spiders find nothing and leave catalog and progress unchanged; a NetEase crawl that catches an exception reports exactly one failure |
| Tasks.Begin | crawler/tasks.py:14-24 | the task becomes running with the start time, nothing else of it or of any other task changes, and exactly the start row is appended |
| Tasks.Fail | crawler/tasks.py:52-62 | the task becomes failed with the completion time, nothing else of it or of any other task changes, and exactly the error row naming the cause is appended |
| Tasks.Complete | crawler/tasks.py:37-50 | the task becomes completed with the completion time, progress 100 and the spider's counters, no other task changes, and exactly the completion row with those counters is appended |
| Tasks.Execute | crawler/tasks.py:10-65 | the job raises exactly the start failure (no spider, or its constructor raised), or the missing id, never an exception of the crawl; a missing id changes nothing; no task row appears or disappears |
| Tasks.CrawlOf | crawler/tasks.py:14-35 | the crawl the job runs writes, after the start row, only non-closing rows of this task, and keeps keys valid |
| Tasks.CompletedRows | crawler/tasks.py:35-50 | a job that reaches the crawl returns normally; its rows are the crawl's then the completion row, whose counters are the ones stored on the task |
| Tasks.FailedRows | crawler/tasks.py:20-62 | a job that fails before the crawl raises the start failure, and writes exactly the start row then the failure row |
| Tasks.StrategyRunAppendsProgressLogs | crawler/tasks.py:35 | whichever spider runs, it only appends non-closing rows of this task |
| Tasks.ExecuteStatus | crawler/tasks.py:13-56 | from any status the task ends completed when the job returns and failed when it raises; both times are set; the descriptor is unchanged |
| Tasks.ExecuteCounters | crawler/tasks.py:37-44 | a completed task holds progress 100 and the spider's counters; a failed one keeps its progress and counters, and the catalog is not touched |
| Tasks.ExecuteFrame | crawler/tasks.py:10-65 | no other task, platform, queue entry or id changes; a missing id changes nothing |
| Tasks.ExecuteLogs | crawler/tasks.py:20-62 | the job's rows are the start row first, then non-closing rows, then exactly one completion or failure row last, all about this task; the last row carries the counters or the cause; a job that raises writes exactly two rows |
| Tasks.ExecuteWellformed | crawler/tasks.py:35 | the job keeps every foreign key of the catalog valid |
| Tasks.ExecuteDuration | crawler/tasks.py:16-39 | afterwards `duration()` is completed_at − started_at |
| Tasks.ExecuteNeteaseSearch | crawler/tasks.py:35-43 | a completed NetEase search task with a non-empty keyword has saved ≤ found, and saved + failed = found + pages not listed; a blank keyword (allowed by the model, crawler/models.py:27) is caught inside `crawl` as one failure, which `Netease.CrawlFailure` states |
| Tasks.BeginTask | crawler/tasks.py:14-24 | the task becomes running with its start time, and the start row is appended |
| Tasks.FailTask | crawler/tasks.py:52-62 | the task becomes failed with its completion time, and the error row is appended |
| Tasks.CompleteTask | crawler/tasks.py:37-50 | the task becomes completed with progress 100 and the counters, and the completion row is appended |
| Tasks.RunStrategy | crawler/tasks.py:32-35 | on the database: the chosen spider's `crawl` |
| Tasks.StartCrawlTask | crawler/tasks.py:10-65 | `start_crawl_task` on the database equals `Execute` |
| CrawlerViews.PerformCreate | crawler/views.py:25-29 | the task is stored under a fresh id, as a new pending task, and that id is enqueued once |
| CrawlerViews.Start | crawler/views.py:31-40 | only a pending task is enqueued; another status gives 400 and a missing one 404, both with nothing changed |
| CrawlerViews.Cancel | crawler/views.py:42-52 | a pending or running task becomes cancelled and nothing else changes; otherwise 400 or 404 with nothing changed |
| CrawlerViews.Statistics | crawler/views.py:54-65 | the total is the number of tasks, and the five per-status counts add up to it |
| CrawlerViews.StatusPartition | crawler/views.py:57-64 | every task is counted in exactly one of the five statuses |
| CrawlMusic.Check | crawler/management/commands/crawl_music.py:20-41 | the command rejects an unknown platform first, then a search without a keyword, then another type without a URL, and accepts otherwise |
| CrawlMusic.TaskName | crawler/management/commands/crawl_music.py:44 | the name is type, keyword (or "url"), then platform name, joined by '-' |
| CrawlMusic.DraftAsWritten | crawler/management/commands/crawl_music.py:46-54 | as written, the insert fails exactly when `--url` or `--keyword` was omitted or a count is negative; otherwise it stores the same row as `Draft` |
| CrawlMusic.HandleAsWritten | crawler/management/commands/crawl_music.py:20-61 | as written, the command rejects exactly what `Check` rejects, crashes exactly when the checks pass and an option is omitted or a count is negative, and otherwise creates `Draft` |
| CrawlMusic.AsWrittenRejectsMissingOption | crawler/management/commands/crawl_music.py:50-51 | as written, an accepted command that omits `--url` or `--keyword` fails at the insert; corrected, it creates the task when its counts are not negative |
| CrawlMusic.AsWrittenSearchCrashes | crawler/management/commands/crawl_music.py:50-51 | the search command with a keyword and no URL is such a case |
| CrawlMusic.Draft | crawler/management/commands/crawl_music.py:46-54 | for counts the columns accept, the created row carries the options, with '' for an omitted keyword or URL |
| CrawlMusic.HandleOutcome | crawler/management/commands/crawl_music.py:20-61 | corrected, the command rejects exactly what `Check` rejects, fails at the insert exactly when the checks pass and `--pages` or `--delay` is negative (refused by the `PositiveIntegerField` columns, crawler/models.py:33-34), and otherwise creates `Draft` |
| CrawlMusic.CorrectionAgreesWhenGiven | crawler/management/commands/crawl_music.py:50-51 | when both options are given, the corrected command behaves as written |
| CrawlMusic.Handle | crawler/management/commands/crawl_music.py:20-61 | on the database, for any integer `--pages` and `--delay`: a rejection or a failed insert changes nothing; a creation stores the row under a fresh id and enqueues it |
| InitPlatforms.SeededRow | crawler/management/commands/init_platforms.py:39-53 | an entry's row has the listed URL and flag, and keeps its creation time when the row existed or is stamped now when created |
| InitPlatforms.Upsert | crawler/management/commands/init_platforms.py:39-53 | one iteration adds the entry's name to the table, sets that row to `SeededRow`, and leaves every other row as it was |
| InitPlatforms.SeedAll | crawler/management/commands/init_platforms.py:38-53 | the loop never removes a platform row |
| InitPlatforms.CreatedCount | crawler/management/commands/init_platforms.py:37-45 | `created_count` after n entries is at most n |
| InitPlatforms.SeedAllEffect | crawler/management/commands/init_platforms.py:38-53 | each listed name ends with its listed URL and flag and keeps its creation time if it had a row; other rows are untouched; no other row appears |
| InitPlatforms.ReachedIsNew | crawler/management/commands/init_platforms.py:39-44 | an entry finds no row exactly when its name had none before the run |
| InitPlatforms.CreatedCountIsMissing | crawler/management/commands/init_platforms.py:37-45 | `created_count` counts the entries whose name had no row before the run |
| InitPlatforms.CreatedCountIsNew | crawler/management/commands/init_platforms.py:37-45 | `created_count` is the number of listed names that had no row |
| InitPlatforms.SeedAllIdempotent | crawler/management/commands/init_platforms.py:38-53 | a second run leaves the table as it is and creates nothing |
| InitPlatforms.SeededPlatforms | crawler/management/commands/init_platforms.py:9-35 | afterwards every listed platform has its listed URL; the first three are active and the last two are not |
| InitPlatforms.Handle | crawler/management/commands/init_platforms.py:8-60 | on the database: the platform table becomes `SeedAll`, the counter is `CreatedCount`, and the total is the table size |
| MusicViews.Popular | music/views.py:50-55 | `popular` returns min(n, 20) songs with play counts non-increasing, all taken from the table |
| MusicViews.PopularIsTop | music/views.py:53 | no omitted song has a higher play count than any returned one |
| MusicViews.Played1 | music/views.py:61 | the counter goes up by exactly one and every other field stays |
| MusicViews.PlayKeepsCatalog | music/views.py:60-62 | playing keeps the catalog's keys valid and every other song unchanged |
| MusicViews.Play | music/views.py:57-63 | on the database: the song's counter is one higher and the new value is returned; a missing song gives 404 with nothing changed |

## Left out

- HTTP, HTML and JSON decoding are not modelled. A response is an oracle value (no response, an undecodable body, or a decoded song list). The session headers, random delays and the 30-second timeout are left out.
- `parse_page` and BeautifulSoup are not modelled. No modelled operation reads HTML.
- The `logging` module output is not modelled. Only `CrawlLog` rows are. Log messages are a datatype naming each message kind, not the Chinese text.
- The console output of the two management commands (`self.stdout.write` in init_platforms.py and crawl_music.py) is not modelled.
- InitPlatforms.Handle: every row it creates is stamped with the one `now` passed in, where the source reads the clock once per `get_or_create`. Only the creation times of rows created in the same run differ from the source, by the time between iterations.
- Log timestamps are not modelled. Creation order stands in for `created_at`.
- The `updated_at` columns are not modelled.
- Celery scheduling, retries and concurrency are not modelled. A queued id is recorded, and `start_crawl_task` runs as one atomic step.
- BaseSpider.ProgressPercent: the model takes the exact floor of current·100/total. The source computes `int(current / total * 100)` in double precision, which can come out one lower: 29/100·100 is 28.999… in binary floating point, giving 28 where the model gives 29. The proved bounds (at most 100, exactly 100 on the last page, below 100 before it) hold for both. Its own ensures covers only the zero-total case; the bounds are in ProgressPercentBounds.
- Negative JSON numbers and JSON `null` ids are not modelled. Counters and ids are natural numbers, and a missing id is an absent key.
- The `\d` class of the artist-id pattern also matches non-ASCII digits in Python. The model accepts only '0'–'9'.
- The platform `name` column is not unique in the schema. Keying the table by name assumes what `init_platforms` maintains.
- The URLField format checks are not modelled. URLs are strings.
- CrawlerViews.PerformCreate: the serializer's validation (an existing platform, a type among the choices) is taken as a precondition rather than modelled as a 400 reply.
- CrawlerViews.Statistics: the ensures states the total and that the five counts add up. The count per status is the definition itself.
- MusicViews.Popular: songs with equal play counts come back in an unspecified order. The model fixes one order, insertion into a sorted list, and proves only what holds for every order.
- Database writes other than the entity saves are taken to succeed: the progress save (crawler/spiders/base.py:169), the `CrawlLog` inserts of `log` (crawler/spiders/base.py:37-41) and of the job, and the task saves in crawler/tasks.py. In the source a failing progress save after a listed page is caught by the page's handler, which logs it and counts one more failure on top of that page's records (crawler/spiders/netease.py:79-83). Only the entity saves carry a fault oracle.
- Netease.SearchTally: the identity saved + failed = found + unlisted pages holds when the progress saves succeed; a failing progress save adds one failure more per such page. The same holds for Tasks.ExecuteNeteaseSearch, which is stated for a non-empty keyword only: a blank keyword gives the counters 0, 0, 1 of Netease.CrawlFailure instead.
- Netease.SearchUpTo: its own ensures covers logs and keys only. Counters and progress are in SearchUpToTally and SearchUpToProgress.
- The other list and filter endpoints of the view sets, the admin, URL routing and `start.py` are not modelled. They add nothing beyond the generic Django behaviour.

## Findings

| source | as written | input that shows it | evidently intended | confidence | as-written member | corrected member |
|---|---|---|---|---|---|---|
| crawler/management/commands/crawl_music.py:50-51 | `options.get('url', '')` and `options.get('keyword', '')` return None: argparse always stores the key, with None for an omitted option | `--platform 网易云音乐 --type search --keyword 晴天` with no `--url`, so the NOT NULL `target_url` column gets NULL and the insert raises | an omitted option is stored as '' | medium, not executed | CrawlMusic.AsWrittenRejectsMissingOption, CrawlMusic.AsWrittenSearchCrashes | CrawlMusic.Draft, CrawlMusic.HandleOutcome, CrawlMusic.Handle |
