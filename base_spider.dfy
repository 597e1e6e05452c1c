/**
 * crawler/spiders/base.py: the entity reconciler (`save_artist`,
 * `save_album`, `save_song`), the log append, the fetch wrapper's log,
 * `update_progress`, and the platform-name registry.
 *
 * Each save is given by a function on catalog values (what the row becomes
 * and which log rows are written) and a method that performs it on the
 * database. `fault` stands for the database raising during the
 * get-or-create or the save; it is an input because the model has no
 * database engine.
 */
module BaseSpider {
  import opened Wrappers
  import opened MusicModels
  import opened CrawlerModels
  import opened Store

  /** What a spider instance knows: its task and the task's platform. */
  datatype SpiderCtx = SpiderCtx(task: TaskId, platform: string)

  predicate CtxOf(db: Store.Database, ctx: SpiderCtx)
    reads db
  {
    ctx.task in db.tasks && db.tasks[ctx.task].platform == ctx.platform
  }

  /** The input dictionaries; `None` is an absent key. */
  datatype ArtistData = ArtistData(
    platformId: Option<string>,
    name: Option<string>,
    biography: Option<string>,
    platformUrl: Option<string>)

  datatype AlbumData = AlbumData(
    platformId: Option<string>,
    title: Option<string>,
    description: Option<string>,
    platformUrl: Option<string>,
    releaseDate: Option<Date>)

  datatype SongData = SongData(
    platformId: Option<string>,
    title: Option<string>,
    duration: Option<nat>,
    lyrics: Option<string>,
    genre: Option<string>,
    platformUrl: Option<string>,
    audioUrl: Option<string>,
    playCount: Option<nat>,
    likeCount: Option<nat>)

  /** The catalog after a save, the log rows it wrote, and the saved row's key (None on error). */
  datatype Reconciled = Reconciled(catalog: Catalog, logs: seq<LogEntry>, row: Option<EntityKey>)

  /**
   * Why a save raises: the first required key that is missing (the keys are
   * read in this order before the lookup), else a database fault.
   */
  function SaveError(platformId: Option<string>, required: Option<string>, requiredKey: string, fault: bool): (e: Option<Cause>)
    ensures e.None? <==> platformId.Some? && required.Some? && !fault
  {
    if platformId.None? then Some(MissingKey("platform_id"))
    else if required.None? then Some(MissingKey(requiredKey))
    else if fault then Some(StoreRejected)
    else None
  }

  /** Log rows that belong to the task and do not close it. */
  predicate TaskProgressLogs(task: TaskId, logs: seq<LogEntry>) {
    forall i | 0 <= i < |logs| :: logs[i].task == task && !IsTerminal(logs[i].message)
  }

  lemma ProgressLogsConcat(task: TaskId, a: seq<LogEntry>, b: seq<LogEntry>)
    requires TaskProgressLogs(task, a) && TaskProgressLogs(task, b)
    ensures TaskProgressLogs(task, a + b)
  {
    forall i | 0 <= i < |a + b|
      ensures (a + b)[i].task == task && !IsTerminal((a + b)[i].message)
    {
      if i >= |a| {
        assert (a + b)[i] == b[i - |a|];
      }
    }
  }

  // ---------------------------------------------------------------- artists

  function UpsertArtist(ctx: SpiderCtx, c: Catalog, data: ArtistData, fault: bool): (r: Reconciled)
    ensures r.catalog.albums == c.albums && r.catalog.songs == c.songs
    ensures r.catalog.artists.Keys == c.artists.Keys + (if r.row.Some? then {r.row.value} else {})
    ensures r.row.Some? <==> data.platformId.Some? && data.name.Some? && !fault
    ensures r.row.Some? ==> r.row.value == EntityKey(ctx.platform, data.platformId.value)
    ensures TaskProgressLogs(ctx.task, r.logs)
    ensures Wellformed(c) ==> Wellformed(r.catalog)
    ensures r.row.None? ==> r.catalog == c
  {
    var err := SaveError(data.platformId, data.name, "name", fault);
    if err.Some? then
      Reconciled(c, [LogEntry(ctx.task, Error, ArtistSaveFailed(err.value))], None)
    else
      var key := EntityKey(ctx.platform, data.platformId.value);
      if key !in c.artists then
        var row := Artist(data.name.value, data.biography.GetOr(""), data.platformUrl.GetOr(""));
        Reconciled(c.(artists := c.artists[key := row]),
                   [LogEntry(ctx.task, Info, ArtistCreated(data.name.value))], Some(key))
      else
        var stored := c.artists[key];
        var row := Artist(data.name.value, data.biography.GetOr(stored.biography),
                          data.platformUrl.GetOr(stored.platformUrl));
        Reconciled(c.(artists := c.artists[key := row]), [], Some(key))
  }

  /** The effect of `UpsertArtist` on its own row and the log rows it writes. */
  lemma UpsertArtistEffect(ctx: SpiderCtx, c: Catalog, data: ArtistData, fault: bool)
    // rows other than the saved one are untouched
    ensures var r := UpsertArtist(ctx, c, data, fault);
            forall k | k in c.artists && Some(k) != r.row :: r.catalog.artists[k] == c.artists[k]
    // error path: nothing saved, one ERROR row
    ensures var r := UpsertArtist(ctx, c, data, fault);
            r.row.None? ==> r.logs == [LogEntry(ctx.task, Error, ArtistSaveFailed(SaveError(data.platformId, data.name, "name", fault).value))]
    // create: one INFO row; the new row takes the given values or ''
    ensures var r := UpsertArtist(ctx, c, data, fault);
            r.row.Some? && r.row.value !in c.artists ==>
                  && r.logs == [LogEntry(ctx.task, Info, ArtistCreated(data.name.value))]
                  && r.catalog.artists[r.row.value]
                     == Artist(data.name.value, data.biography.GetOr(""), data.platformUrl.GetOr(""))
    // update: no log; name overwritten, an absent optional field keeps the stored value
    ensures var r := UpsertArtist(ctx, c, data, fault);
            r.row.Some? && r.row.value in c.artists ==>
                  var old_ := c.artists[r.row.value];
                  var new_ := r.catalog.artists[r.row.value];
                  && r.logs == []
                  && new_.name == data.name.value
                  && new_.biography == (if data.biography.Some? then data.biography.value else old_.biography)
                  && new_.platformUrl == (if data.platformUrl.Some? then data.platformUrl.value else old_.platformUrl)
  {
  }

  // ----------------------------------------------------------------- albums

  function UpsertAlbum(ctx: SpiderCtx, c: Catalog, data: AlbumData, artist: EntityKey, fault: bool): (r: Reconciled)
    ensures r.catalog.artists == c.artists && r.catalog.songs == c.songs
    ensures r.catalog.albums.Keys == c.albums.Keys + (if r.row.Some? then {r.row.value} else {})
    ensures r.row.Some? <==> data.platformId.Some? && data.title.Some? && !fault
    ensures r.row.Some? ==> r.row.value == EntityKey(ctx.platform, data.platformId.value)
    ensures TaskProgressLogs(ctx.task, r.logs)
    ensures Wellformed(c) && artist in c.artists ==> Wellformed(r.catalog)
    ensures r.row.None? ==> r.catalog == c
  {
    var err := SaveError(data.platformId, data.title, "title", fault);
    if err.Some? then
      Reconciled(c, [LogEntry(ctx.task, Error, AlbumSaveFailed(err.value))], None)
    else
      var key := EntityKey(ctx.platform, data.platformId.value);
      if key !in c.albums then
        var row := Album(data.title.value, artist, data.description.GetOr(""), data.releaseDate,
                         data.platformUrl.GetOr(""));
        Reconciled(c.(albums := c.albums[key := row]),
                   [LogEntry(ctx.task, Info, AlbumCreated(data.title.value))], Some(key))
      else
        var stored := c.albums[key];
        var row := stored.(title := data.title.value,
                           description := data.description.GetOr(stored.description),
                           platformUrl := data.platformUrl.GetOr(stored.platformUrl));
        Reconciled(c.(albums := c.albums[key := row]), [], Some(key))
  }

  /** The effect of `UpsertAlbum` on its own row and the log rows it writes. */
  lemma UpsertAlbumEffect(ctx: SpiderCtx, c: Catalog, data: AlbumData, artist: EntityKey, fault: bool)
    ensures var r := UpsertAlbum(ctx, c, data, artist, fault);
            forall k | k in c.albums && Some(k) != r.row :: r.catalog.albums[k] == c.albums[k]
    ensures var r := UpsertAlbum(ctx, c, data, artist, fault);
            r.row.None? ==> r.logs == [LogEntry(ctx.task, Error, AlbumSaveFailed(SaveError(data.platformId, data.title, "title", fault).value))]
    ensures var r := UpsertAlbum(ctx, c, data, artist, fault);
            r.row.Some? && r.row.value !in c.albums ==>
                  && r.logs == [LogEntry(ctx.task, Info, AlbumCreated(data.title.value))]
                  && r.catalog.albums[r.row.value]
                     == Album(data.title.value, artist, data.description.GetOr(""), data.releaseDate,
                              data.platformUrl.GetOr(""))
    // update: artist and release date are never touched
    ensures var r := UpsertAlbum(ctx, c, data, artist, fault);
            r.row.Some? && r.row.value in c.albums ==>
                  var old_ := c.albums[r.row.value];
                  var new_ := r.catalog.albums[r.row.value];
                  && r.logs == []
                  && new_.title == data.title.value
                  && new_.description == (if data.description.Some? then data.description.value else old_.description)
                  && new_.platformUrl == (if data.platformUrl.Some? then data.platformUrl.value else old_.platformUrl)
                  && new_.artist == old_.artist
                  && new_.releaseDate == old_.releaseDate
  {
  }

  // ------------------------------------------------------------------ songs

  function UpsertSong(ctx: SpiderCtx, c: Catalog, data: SongData, artist: EntityKey,
                      album: Option<EntityKey>, fault: bool): (r: Reconciled)
    requires artist in c.artists   // the caller passes a saved Artist row
    ensures r.catalog.artists == c.artists && r.catalog.albums == c.albums
    ensures r.catalog.songs.Keys == c.songs.Keys + (if r.row.Some? then {r.row.value} else {})
    ensures r.row.Some? <==> data.platformId.Some? && data.title.Some? && !fault
    ensures r.row.Some? ==> r.row.value == EntityKey(ctx.platform, data.platformId.value)
    ensures TaskProgressLogs(ctx.task, r.logs)
    ensures Wellformed(c) && (album.Some? ==> album.value in c.albums) ==> Wellformed(r.catalog)
    ensures r.row.None? ==> r.catalog == c
  {
    var err := SaveError(data.platformId, data.title, "title", fault);
    if err.Some? then
      Reconciled(c, [LogEntry(ctx.task, Error, SongSaveFailed(err.value))], None)
    else
      var key := EntityKey(ctx.platform, data.platformId.value);
      if key !in c.songs then
        var row := Song(data.title.value, artist, album, data.duration, data.lyrics.GetOr(""),
                        data.genre.GetOr(""), data.platformUrl.GetOr(""), data.audioUrl.GetOr(""),
                        data.playCount.GetOr(0), data.likeCount.GetOr(0));
        Reconciled(c.(songs := c.songs[key := row]),
                   [LogEntry(ctx.task, Info, SongCreated(data.title.value, c.artists[artist].name))], Some(key))
      else
        var stored := c.songs[key];
        var row := stored.(title := data.title.value,
                           duration := if data.duration.Some? then data.duration else stored.duration,
                           lyrics := data.lyrics.GetOr(stored.lyrics),
                           genre := data.genre.GetOr(stored.genre),
                           platformUrl := data.platformUrl.GetOr(stored.platformUrl),
                           audioUrl := data.audioUrl.GetOr(stored.audioUrl),
                           playCount := data.playCount.GetOr(stored.playCount),
                           likeCount := data.likeCount.GetOr(stored.likeCount));
        Reconciled(c.(songs := c.songs[key := row]), [], Some(key))
  }

  /** The effect of `UpsertSong` on its own row and the log rows it writes. */
  lemma UpsertSongEffect(ctx: SpiderCtx, c: Catalog, data: SongData, artist: EntityKey,
                      album: Option<EntityKey>, fault: bool)
    requires artist in c.artists
    ensures var r := UpsertSong(ctx, c, data, artist, album, fault);
            forall k | k in c.songs && Some(k) != r.row :: r.catalog.songs[k] == c.songs[k]
    ensures var r := UpsertSong(ctx, c, data, artist, album, fault);
            r.row.None? ==> r.logs == [LogEntry(ctx.task, Error, SongSaveFailed(SaveError(data.platformId, data.title, "title", fault).value))]
    // create: absent text fields become '', absent counters 0, absent duration null
    ensures var r := UpsertSong(ctx, c, data, artist, album, fault);
            r.row.Some? && r.row.value !in c.songs ==>
                  && r.logs == [LogEntry(ctx.task, Info, SongCreated(data.title.value, c.artists[artist].name))]
                  && r.catalog.songs[r.row.value]
                     == Song(data.title.value, artist, album, data.duration, data.lyrics.GetOr(""),
                             data.genre.GetOr(""), data.platformUrl.GetOr(""), data.audioUrl.GetOr(""),
                             data.playCount.GetOr(0), data.likeCount.GetOr(0))
    // update: counters are overwritten (never added to); artist and album are never touched
    ensures var r := UpsertSong(ctx, c, data, artist, album, fault);
            r.row.Some? && r.row.value in c.songs ==>
                  var old_ := c.songs[r.row.value];
                  var new_ := r.catalog.songs[r.row.value];
                  && r.logs == []
                  && new_.title == data.title.value
                  && new_.duration == (if data.duration.Some? then data.duration else old_.duration)
                  && new_.lyrics == (if data.lyrics.Some? then data.lyrics.value else old_.lyrics)
                  && new_.genre == (if data.genre.Some? then data.genre.value else old_.genre)
                  && new_.platformUrl == (if data.platformUrl.Some? then data.platformUrl.value else old_.platformUrl)
                  && new_.audioUrl == (if data.audioUrl.Some? then data.audioUrl.value else old_.audioUrl)
                  && new_.playCount == (if data.playCount.Some? then data.playCount.value else old_.playCount)
                  && new_.likeCount == (if data.likeCount.Some? then data.likeCount.value else old_.likeCount)
                  && new_.artist == old_.artist
                  && new_.album == old_.album
  {
  }

  /**
   * Reconciling the same record twice is the same as once: the second pass
   * finds the row, leaves it as it is and writes no log.
   */
  lemma UpsertArtistIdempotent(ctx: SpiderCtx, c: Catalog, data: ArtistData)
    requires UpsertArtist(ctx, c, data, false).row.Some?
    ensures var once := UpsertArtist(ctx, c, data, false);
            var twice := UpsertArtist(ctx, once.catalog, data, false);
            twice.catalog == once.catalog && twice.row == once.row && twice.logs == []
  {
    var once := UpsertArtist(ctx, c, data, false);
    var twice := UpsertArtist(ctx, once.catalog, data, false);
    var k := once.row.value;
    assert twice.catalog.artists[k] == once.catalog.artists[k];
    assert twice.catalog.artists == once.catalog.artists;
  }

  lemma UpsertAlbumIdempotent(ctx: SpiderCtx, c: Catalog, data: AlbumData, artist: EntityKey)
    requires UpsertAlbum(ctx, c, data, artist, false).row.Some?
    ensures var once := UpsertAlbum(ctx, c, data, artist, false);
            var twice := UpsertAlbum(ctx, once.catalog, data, artist, false);
            twice.catalog == once.catalog && twice.row == once.row && twice.logs == []
  {
    var once := UpsertAlbum(ctx, c, data, artist, false);
    var twice := UpsertAlbum(ctx, once.catalog, data, artist, false);
    var k := once.row.value;
    assert twice.catalog.albums[k] == once.catalog.albums[k];
    assert twice.catalog.albums == once.catalog.albums;
  }

  lemma UpsertSongIdempotent(ctx: SpiderCtx, c: Catalog, data: SongData, artist: EntityKey, album: Option<EntityKey>)
    requires artist in c.artists
    requires UpsertSong(ctx, c, data, artist, album, false).row.Some?
    ensures var once := UpsertSong(ctx, c, data, artist, album, false);
            var twice := UpsertSong(ctx, once.catalog, data, artist, album, false);
            twice.catalog == once.catalog && twice.row == once.row && twice.logs == []
  {
    var once := UpsertSong(ctx, c, data, artist, album, false);
    var twice := UpsertSong(ctx, once.catalog, data, artist, album, false);
    var k := once.row.value;
    assert twice.catalog.songs[k] == once.catalog.songs[k];
    assert twice.catalog.songs == once.catalog.songs;
  }

  // ------------------------------------------------------------ the methods

  /** `log`: append one CrawlLog row for the task. */
  method Log(db: Store.Database, task: TaskId, level: LogLevel, message: Message)
    requires db.Valid() && task in db.tasks
    modifies db
    ensures db.Valid()
    ensures db.State() == old(db.State()).(logs := old(db.logs) + [LogEntry(task, level, message)])
  {
    db.logs := db.logs + [LogEntry(task, level, message)];
  }

  method SaveArtist(db: Store.Database, ctx: SpiderCtx, data: ArtistData, fault: bool)
    returns (artist: Option<EntityKey>)
    requires db.Valid() && CtxOf(db, ctx)
    modifies db
    ensures db.Valid()
    ensures var r := UpsertArtist(ctx, old(db.catalog), data, fault);
            && artist == r.row
            && db.State() == old(db.State()).(catalog := r.catalog, logs := old(db.logs) + r.logs)
  {
    var err := SaveError(data.platformId, data.name, "name", fault);
    if err.Some? {
      Log(db, ctx.task, Error, ArtistSaveFailed(err.value));
      return None;
    }
    var key := EntityKey(ctx.platform, data.platformId.value);
    if key !in db.catalog.artists {
      var row := Artist(data.name.value, data.biography.GetOr(""), data.platformUrl.GetOr(""));
      db.catalog := db.catalog.(artists := db.catalog.artists[key := row]);
      Log(db, ctx.task, Info, ArtistCreated(row.name));
    } else {
      var row := db.catalog.artists[key];
      row := row.(name := data.name.value);
      row := row.(biography := data.biography.GetOr(row.biography));
      row := row.(platformUrl := data.platformUrl.GetOr(row.platformUrl));
      db.catalog := db.catalog.(artists := db.catalog.artists[key := row]);
    }
    artist := Some(key);
  }

  method SaveAlbum(db: Store.Database, ctx: SpiderCtx, data: AlbumData, artist: EntityKey, fault: bool)
    returns (album: Option<EntityKey>)
    requires db.Valid() && CtxOf(db, ctx)
    requires artist in db.catalog.artists
    modifies db
    ensures db.Valid()
    ensures var r := UpsertAlbum(ctx, old(db.catalog), data, artist, fault);
            && album == r.row
            && db.State() == old(db.State()).(catalog := r.catalog, logs := old(db.logs) + r.logs)
  {
    var err := SaveError(data.platformId, data.title, "title", fault);
    if err.Some? {
      Log(db, ctx.task, Error, AlbumSaveFailed(err.value));
      return None;
    }
    var key := EntityKey(ctx.platform, data.platformId.value);
    if key !in db.catalog.albums {
      var row := Album(data.title.value, artist, data.description.GetOr(""), data.releaseDate,
                       data.platformUrl.GetOr(""));
      db.catalog := db.catalog.(albums := db.catalog.albums[key := row]);
      Log(db, ctx.task, Info, AlbumCreated(row.title));
    } else {
      var row := db.catalog.albums[key];
      row := row.(title := data.title.value);
      row := row.(description := data.description.GetOr(row.description));
      row := row.(platformUrl := data.platformUrl.GetOr(row.platformUrl));
      db.catalog := db.catalog.(albums := db.catalog.albums[key := row]);
    }
    album := Some(key);
  }

  method SaveSong(db: Store.Database, ctx: SpiderCtx, data: SongData, artist: EntityKey,
                  album: Option<EntityKey>, fault: bool)
    returns (song: Option<EntityKey>)
    requires db.Valid() && CtxOf(db, ctx)
    requires artist in db.catalog.artists
    requires album.Some? ==> album.value in db.catalog.albums
    modifies db
    ensures db.Valid()
    ensures var r := UpsertSong(ctx, old(db.catalog), data, artist, album, fault);
            && song == r.row
            && db.State() == old(db.State()).(catalog := r.catalog, logs := old(db.logs) + r.logs)
  {
    var err := SaveError(data.platformId, data.title, "title", fault);
    if err.Some? {
      Log(db, ctx.task, Error, SongSaveFailed(err.value));
      return None;
    }
    var key := EntityKey(ctx.platform, data.platformId.value);
    if key !in db.catalog.songs {
      var row := Song(data.title.value, artist, album, data.duration, data.lyrics.GetOr(""),
                      data.genre.GetOr(""), data.platformUrl.GetOr(""), data.audioUrl.GetOr(""),
                      data.playCount.GetOr(0), data.likeCount.GetOr(0));
      var artistName := db.catalog.artists[artist].name;
      db.catalog := db.catalog.(songs := db.catalog.songs[key := row]);
      Log(db, ctx.task, Info, SongCreated(row.title, artistName));
    } else {
      var row := db.catalog.songs[key];
      row := row.(title := data.title.value);
      row := row.(duration := if data.duration.Some? then data.duration else row.duration);
      row := row.(lyrics := data.lyrics.GetOr(row.lyrics));
      row := row.(genre := data.genre.GetOr(row.genre));
      row := row.(platformUrl := data.platformUrl.GetOr(row.platformUrl));
      row := row.(audioUrl := data.audioUrl.GetOr(row.audioUrl));
      row := row.(playCount := data.playCount.GetOr(row.playCount));
      row := row.(likeCount := data.likeCount.GetOr(row.likeCount));
      db.catalog := db.catalog.(songs := db.catalog.songs[key := row]);
    }
    song := Some(key);
  }

  // ------------------------------------------------------------- fetching

  /** The log row `get_page` writes: DEBUG on success, ERROR on failure. */
  function FetchLog(task: TaskId, url: string, ok: bool): LogEntry {
    if ok then LogEntry(task, Debug, PageFetched(url)) else LogEntry(task, Error, PageFetchFailed(url))
  }

  /**
   * `get_page`: `succeeded` is whether the request (with its status check)
   * went through, which the network decides; the outcome is handed on and
   * one log row written.
   */
  method GetPage(db: Store.Database, task: TaskId, url: string, succeeded: bool)
    returns (ok: bool)
    requires db.Valid() && task in db.tasks
    modifies db
    ensures db.Valid()
    ensures ok == succeeded
    ensures db.State() == old(db.State()).(logs := old(db.logs) + [FetchLog(task, url, succeeded)])
  {
    if succeeded {
      Log(db, task, Debug, PageFetched(url));
    } else {
      Log(db, task, Error, PageFetchFailed(url));
    }
    ok := succeeded;
  }

  // ------------------------------------------------------------- progress

  /** `int(current / total * 100)` for total > 0, else 0, in integer arithmetic. */
  function ProgressPercent(current: nat, total: int): (p: nat)
    ensures total <= 0 ==> p == 0
  {
    if total > 0 then (current * 100) / total else 0
  }

  /** The last of `total` pages is 100%, an earlier one is below it. */
  lemma ProgressPercentBounds(current: nat, total: int)
    ensures 0 < total && current <= total ==> ProgressPercent(current, total) <= 100
    ensures 0 < total && current == total ==> ProgressPercent(current, total) == 100
    ensures 0 < total && current < total ==> ProgressPercent(current, total) < 100
  {
    if 0 < total && current <= total {
      var t: nat := total;
      var q := (current * 100) / t;
      var r := (current * 100) % t;
      assert current * 100 == q * t + r && 0 <= r < t;
      if current == total {
        assert 100 * t == q * t + r;
        if q < 100 { MulLe(q + 1, 100, t); }
        if q > 100 { MulLe(101, q, t); }
      } else {
        assert current * 100 < 100 * t;
        if q >= 100 { MulLe(100, q, t); }
      }
    }
  }

  lemma MulLe(x: nat, y: nat, t: nat)
    requires x <= y
    ensures x * t <= y * t
  {
  }

  /** `update_progress`: store the percentage on the task row. */
  method UpdateProgress(db: Store.Database, task: TaskId, current: nat, total: int)
    requires db.Valid() && task in db.tasks
    modifies db
    ensures db.Valid()
    ensures db.State() == old(db.State()).(tasks := old(db.tasks)[task := old(db.tasks)[task].(progress := ProgressPercent(current, total))])
  {
    var progress := if total > 0 then (current * 100) / total else 0;
    db.tasks := db.tasks[task := db.tasks[task].(progress := progress)];
  }

  // ------------------------------------------------------------- registry

  datatype Strategy = NeteaseStrategy | QQMusicStrategy | KugouStrategy

  const NeteaseName: string := "网易云音乐"
  const QQMusicName: string := "QQ音乐"
  const KugouName: string := "酷狗音乐"

  const SpiderMap: map<string, Strategy> :=
    map[NeteaseName := NeteaseStrategy, QQMusicName := QQMusicStrategy, KugouName := KugouStrategy]

  /**
   * `get_spider_by_platform`: a lookup by platform name alone (whether the
   * platform is active is not consulted).
   */
  function SpiderFor(platformName: string): (s: Option<Strategy>)
    ensures s.Some? <==> platformName == NeteaseName || platformName == QQMusicName || platformName == KugouName
    ensures s == Some(NeteaseStrategy) <==> platformName == NeteaseName
    ensures s == Some(QQMusicStrategy) <==> platformName == QQMusicName
    ensures s == Some(KugouStrategy) <==> platformName == KugouName
  {
    if platformName in SpiderMap then Some(SpiderMap[platformName]) else None
  }

  // ---------------------------------------------------------- crawl result

  /** The `{found, saved, failed}` dictionary a strategy returns. */
  datatype Tally = Tally(found: nat, saved: nat, failed: nat)

  const ZeroTally := Tally(0, 0, 0)

  /** `after` is `before` followed by rows of that kind. */
  predicate AppendsProgressLogs(task: TaskId, before: seq<LogEntry>, after: seq<LogEntry>) {
    before <= after && TaskProgressLogs(task, after[|before|..])
  }

  lemma AppendsProgressLogsTrans(task: TaskId, a: seq<LogEntry>, b: seq<LogEntry>, c: seq<LogEntry>)
    requires AppendsProgressLogs(task, a, b) && AppendsProgressLogs(task, b, c)
    ensures AppendsProgressLogs(task, a, c)
  {
    forall i | 0 <= i < |c[|a|..]|
      ensures c[|a|..][i].task == task && !IsTerminal(c[|a|..][i].message)
    {
      if |a| + i < |b| {
        assert c[|a|..][i] == b[|a|..][i];
      } else {
        assert c[|a|..][i] == c[|b|..][|a| + i - |b|];
      }
    }
  }

  function AddTally(a: Tally, b: Tally): Tally {
    Tally(a.found + b.found, a.saved + b.saved, a.failed + b.failed)
  }

  /** What a strategy run has done so far: the catalog, the whole log table, the task's progress and the tally. */
  datatype Run = Run(catalog: Catalog, logs: seq<LogEntry>, progress: nat, tally: Tally)

  /** The run a strategy starts from: the tables as they are and a zero tally. */
  function StartRun(s: DbState, task: TaskId): Run
    requires task in s.tasks
  {
    Run(s.catalog, s.logs, s.tasks[task].progress, ZeroTally)
  }

  /** The database once a run's catalog, logs and the task's progress are written back. */
  function Apply(s: DbState, task: TaskId, r: Run): (s': DbState)
    requires task in s.tasks
    ensures s'.tasks.Keys == s.tasks.Keys
  {
    s.(catalog := r.catalog, logs := r.logs,
       tasks := s.tasks[task := s.tasks[task].(progress := r.progress)])
  }

  /** Writing back the progress the task already has leaves the task table as it is. */
  lemma ApplySameProgress(s: DbState, task: TaskId, r: Run)
    requires task in s.tasks && r.progress == s.tasks[task].progress
    ensures Apply(s, task, r) == s.(catalog := r.catalog, logs := r.logs)
  {
    assert s.tasks[task := s.tasks[task].(progress := r.progress)] == s.tasks;
  }
}
