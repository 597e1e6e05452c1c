/**
 * crawler/spiders/netease.py: the NetEase Cloud Music strategy. The search
 * crawl pages through the search endpoint, turns each song record into an
 * Artist, an optional Album and a Song, and keeps the found / saved / failed
 * counters; the artist crawl extracts an id from the target URL.
 *
 * The network is the oracle `fetch` (None = the request raised) and the
 * database's failures are the oracle `faults`, indexed by page and by the
 * song's position on the page.
 */
module Netease {
  import opened Wrappers
  import opened Text
  import opened MusicModels
  import opened CrawlerModels
  import opened Store
  import opened BaseSpider

  const BaseUrl: string := "https://music.163.com"
  const SearchUrl: string := BaseUrl + "/api/search/get/web"
  const PageSize: nat := 30
  const SongSearchType: nat := 1

  // ----------------------------------------------------------- the records

  /** The dictionaries of a search response; `None` is an absent key. */
  datatype ArtistInfo = ArtistInfo(id: Option<nat>, name: Option<string>)
  datatype AlbumInfo = AlbumInfo(id: Option<nat>, name: Option<string>)

  /**
   * One element of `result.songs`. `album` is None when the key is absent or
   * holds an empty dictionary (both are falsy).
   */
  datatype SongInfo = SongInfo(
    id: Option<nat>,
    name: Option<string>,
    artists: Option<seq<ArtistInfo>>,
    album: Option<AlbumInfo>,
    durationMs: Option<nat>,
    playCount: Option<nat>)

  /** Whether the artist, album and song saves of one record raise in the database. */
  datatype SaveFaults = SaveFaults(artist: bool, album: bool, song: bool)

  /** The query parameters of one search request. */
  datatype SearchQuery = SearchQuery(keyword: string, searchType: nat, offset: nat, limit: nat)

  /** A response body: JSON that does not decode, or the (possibly empty) song list. */
  datatype SearchBody = Unparsable | SongList(songs: seq<SongInfo>)

  /** The request for page `page` (1-based). */
  function Query(keyword: string, page: nat): (q: SearchQuery)
    requires page >= 1
    ensures q.keyword == keyword && q.searchType == SongSearchType && q.limit == PageSize
    ensures q.offset % PageSize == 0 && q.offset / PageSize == page - 1
  {
    SearchQuery(keyword, SongSearchType, (page - 1) * PageSize, PageSize)
  }

  /** Distinct pages ask for disjoint windows of the result list. */
  lemma QueryWindowsDisjoint(keyword: string, p: nat, q: nat)
    requires 1 <= p < q
    ensures Query(keyword, p).offset + PageSize <= Query(keyword, q).offset
  {
    assert (q - 1) * PageSize - (p - 1) * PageSize == (q - p) * PageSize;
  }

  /** `str(x.get('id', ''))`. */
  function IdText(id: Option<nat>): (s: string)
    ensures id.None? <==> s == ""
    ensures id.Some? ==> AllDigits(s) && DigitsValue(s) == id.value
  {
    match id
    case None => ""
    case Some(n) => DecimalRoundTrip(n); Decimal(n)
  }

  const ArtistMarker: string := "artist?id="

  function ArtistUrl(id: Option<nat>): string { BaseUrl + "/" + ArtistMarker + IdText(id) }
  function AlbumUrl(id: Option<nat>): string { BaseUrl + "/album?id=" + IdText(id) }
  function SongUrl(id: Option<nat>): string { BaseUrl + "/song?id=" + IdText(id) }

  /** `song_info.get('artists', [{}])[0]`; None when the list is empty (IndexError). */
  function FirstArtist(info: SongInfo): (a: Option<ArtistInfo>)
    ensures a.None? <==> info.artists == Some([])
  {
    match info.artists
    case None => Some(ArtistInfo(None, None))
    case Some(list) => if |list| == 0 then None else Some(list[0])
  }

  /** The dictionaries handed to the reconciler: every key is present. */
  function ArtistDataOf(a: ArtistInfo): (d: ArtistData)
    ensures d.platformId.Some? && d.name.Some?
  {
    ArtistData(Some(IdText(a.id)), Some(a.name.GetOr("")), None, Some(ArtistUrl(a.id)))
  }

  function AlbumDataOf(a: AlbumInfo): (d: AlbumData)
    ensures d.platformId.Some? && d.title.Some?
  {
    AlbumData(Some(IdText(a.id)), Some(a.name.GetOr("")), None, Some(AlbumUrl(a.id)), None)
  }

  /** Durations arrive in milliseconds and are stored in whole seconds (floor division). */
  function SongDataOf(info: SongInfo): (d: SongData)
    ensures d.platformId.Some? && d.title.Some? && d.duration.Some? && d.playCount.Some?
    ensures d.duration.value * 1000 <= info.durationMs.GetOr(0) < (d.duration.value + 1) * 1000
  {
    SongData(Some(IdText(info.id)), Some(info.name.GetOr("")), Some(info.durationMs.GetOr(0) / 1000),
             None, None, Some(SongUrl(info.id)), None, Some(info.playCount.GetOr(0)), None)
  }

  function SongKey(ctx: SpiderCtx, info: SongInfo): EntityKey { EntityKey(ctx.platform, IdText(info.id)) }
  function ArtistKey(ctx: SpiderCtx, a: ArtistInfo): EntityKey { EntityKey(ctx.platform, IdText(a.id)) }
  function AlbumKey(ctx: SpiderCtx, a: AlbumInfo): EntityKey { EntityKey(ctx.platform, IdText(a.id)) }

  /** The artist is saved: the list is not empty and its save does not fail. */
  predicate ArtistSaved(info: SongInfo, f: SaveFaults) {
    info.artists != Some([]) && !f.artist
  }

  /** The album is saved: the record has one, its artist was saved and its own save does not fail. */
  predicate AlbumSaved(info: SongInfo, f: SaveFaults) {
    ArtistSaved(info, f) && info.album.Some? && !f.album
  }

  /** Whether a record ends up saved; independent of the catalog's contents. */
  predicate SongSaved(info: SongInfo, f: SaveFaults) {
    ArtistSaved(info, f) && !f.song
  }

  datatype Parsed = Parsed(catalog: Catalog, logs: seq<LogEntry>, saved: bool)

  /**
   * `parse_and_save_song`: the artist first (its failure ends the record),
   * then the album when the record has one (its failure only leaves the song
   * without album), then the song.
   */
  function ParseAndSave(ctx: SpiderCtx, c: Catalog, info: SongInfo, f: SaveFaults): (r: Parsed)
    ensures r.saved <==> SongSaved(info, f)
    ensures info.artists == Some([]) ==>
              r.catalog == c && r.logs == [LogEntry(ctx.task, Error, SongParseFailed(EmptyArtistList))]
    ensures f.artist ==> r.catalog == c
    ensures !AlbumSaved(info, f) ==> r.catalog.albums == c.albums
    ensures TaskProgressLogs(ctx.task, r.logs)
    ensures Wellformed(c) ==> Wellformed(r.catalog)
  {
    match FirstArtist(info)
    case None => Parsed(c, [LogEntry(ctx.task, Error, SongParseFailed(EmptyArtistList))], false)
    case Some(a) =>
      var ra := UpsertArtist(ctx, c, ArtistDataOf(a), f.artist);
      if ra.row.None? then Parsed(ra.catalog, ra.logs, false)
      else
        var artist := ra.row.value;
        var rb := if info.album.Some? then UpsertAlbum(ctx, ra.catalog, AlbumDataOf(info.album.value), artist, f.album)
                  else Reconciled(ra.catalog, [], None);
        var rs := UpsertSong(ctx, rb.catalog, SongDataOf(info), artist, rb.row, f.song);
        ProgressLogsConcat(ctx.task, ra.logs, rb.logs);
        ProgressLogsConcat(ctx.task, ra.logs + rb.logs, rs.logs);
        Parsed(rs.catalog, ra.logs + rb.logs + rs.logs, rs.row.Some?)
  }

  /**
   * What a record does to the Song table: at most its own row is added or
   * changed; a saved row carries the record's title, duration in seconds,
   * play count and URL, and a newly created row points at the record's
   * first artist and at the record's album when that was saved.
   */
  lemma ParseAndSaveSongRow(ctx: SpiderCtx, c: Catalog, info: SongInfo, f: SaveFaults)
    ensures var r := ParseAndSave(ctx, c, info, f);
            && r.catalog.songs.Keys == c.songs.Keys + (if r.saved then {SongKey(ctx, info)} else {})
            && (forall k | k in c.songs && (r.saved ==> k != SongKey(ctx, info)) :: r.catalog.songs[k] == c.songs[k])
    ensures var r := ParseAndSave(ctx, c, info, f);
            r.saved ==>
              var s := r.catalog.songs[SongKey(ctx, info)];
              && s.title == info.name.GetOr("")
              && s.duration == Some(info.durationMs.GetOr(0) / 1000)
              && s.playCount == info.playCount.GetOr(0)
              && s.platformUrl == SongUrl(info.id)
              && (SongKey(ctx, info) !in c.songs ==>
                    && s.artist == ArtistKey(ctx, FirstArtist(info).value)
                    && s.album == (if AlbumSaved(info, f) then Some(AlbumKey(ctx, info.album.value)) else None))
  {
    var r := ParseAndSave(ctx, c, info, f);
    if FirstArtist(info).Some? {
      var a := FirstArtist(info).value;
      var ra := UpsertArtist(ctx, c, ArtistDataOf(a), f.artist);
      if ra.row.Some? {
        var rb := if info.album.Some? then UpsertAlbum(ctx, ra.catalog, AlbumDataOf(info.album.value), ra.row.value, f.album)
                  else Reconciled(ra.catalog, [], None);
        assert rb.catalog.songs == c.songs;
        assert rb.row == if AlbumSaved(info, f) then Some(AlbumKey(ctx, info.album.value)) else None;
        var rs := UpsertSong(ctx, rb.catalog, SongDataOf(info), ra.row.value, rb.row, f.song);
        UpsertSongEffect(ctx, rb.catalog, SongDataOf(info), ra.row.value, rb.row, f.song);
        assert r.catalog == rs.catalog && r.saved == rs.row.Some?;
      }
    }
  }

  /**
   * What a record does to the Album table: only an album that is saved adds
   * or changes a row, its own; that row carries the record's album name and
   * URL, and a newly created one belongs to the record's first artist.
   */
  lemma ParseAndSaveAlbumRow(ctx: SpiderCtx, c: Catalog, info: SongInfo, f: SaveFaults)
    ensures var r := ParseAndSave(ctx, c, info, f);
            && r.catalog.albums.Keys == c.albums.Keys + (if AlbumSaved(info, f) then {AlbumKey(ctx, info.album.value)} else {})
            && (forall k | k in c.albums && (AlbumSaved(info, f) ==> k != AlbumKey(ctx, info.album.value)) ::
                  r.catalog.albums[k] == c.albums[k])
    ensures var r := ParseAndSave(ctx, c, info, f);
            AlbumSaved(info, f) ==>
              var b := r.catalog.albums[AlbumKey(ctx, info.album.value)];
              && b.title == info.album.value.name.GetOr("")
              && b.platformUrl == AlbumUrl(info.album.value.id)
              && (AlbumKey(ctx, info.album.value) !in c.albums ==> b.artist == ArtistKey(ctx, FirstArtist(info).value))
  {
    var r := ParseAndSave(ctx, c, info, f);
    if AlbumSaved(info, f) {
      var a := FirstArtist(info).value;
      var ra := UpsertArtist(ctx, c, ArtistDataOf(a), f.artist);
      var rb := UpsertAlbum(ctx, ra.catalog, AlbumDataOf(info.album.value), ra.row.value, f.album);
      UpsertAlbumEffect(ctx, ra.catalog, AlbumDataOf(info.album.value), ra.row.value, f.album);
      var rs := UpsertSong(ctx, rb.catalog, SongDataOf(info), ra.row.value, rb.row, f.song);
      assert r.catalog.albums == rb.catalog.albums == rs.catalog.albums;
    }
  }

  /**
   * What a record does to the Artist table: only a saved first artist adds
   * or changes a row, its own, which carries the artist's name and URL.
   */
  lemma ParseAndSaveArtistRow(ctx: SpiderCtx, c: Catalog, info: SongInfo, f: SaveFaults)
    ensures var r := ParseAndSave(ctx, c, info, f);
            && r.catalog.artists.Keys == c.artists.Keys + (if ArtistSaved(info, f) then {ArtistKey(ctx, FirstArtist(info).value)} else {})
            && (forall k | k in c.artists && (ArtistSaved(info, f) ==> k != ArtistKey(ctx, FirstArtist(info).value)) ::
                  r.catalog.artists[k] == c.artists[k])
    ensures var r := ParseAndSave(ctx, c, info, f);
            ArtistSaved(info, f) ==>
              var a := r.catalog.artists[ArtistKey(ctx, FirstArtist(info).value)];
              && a.name == FirstArtist(info).value.name.GetOr("")
              && a.platformUrl == ArtistUrl(FirstArtist(info).value.id)
  {
    var r := ParseAndSave(ctx, c, info, f);
    if ArtistSaved(info, f) {
      var a := FirstArtist(info).value;
      var ra := UpsertArtist(ctx, c, ArtistDataOf(a), f.artist);
      UpsertArtistEffect(ctx, c, ArtistDataOf(a), f.artist);
      var rb := if info.album.Some? then UpsertAlbum(ctx, ra.catalog, AlbumDataOf(info.album.value), ra.row.value, f.album)
                else Reconciled(ra.catalog, [], None);
      var rs := UpsertSong(ctx, rb.catalog, SongDataOf(info), ra.row.value, rb.row, f.song);
      assert r.catalog.artists == ra.catalog.artists == rs.catalog.artists;
    }
  }

  /** `parse_and_save_song` on the database, through the three save methods. */
  method ParseAndSaveSong(db: Store.Database, ctx: SpiderCtx, info: SongInfo, f: SaveFaults)
    returns (saved: bool)
    requires db.Valid() && CtxOf(db, ctx)
    modifies db
    ensures db.Valid() && CtxOf(db, ctx)
    ensures var p := ParseAndSave(ctx, old(db.catalog), info, f);
            && saved == p.saved
            && db.State() == old(db.State()).(catalog := p.catalog, logs := old(db.logs) + p.logs)
  {
    var first := FirstArtist(info);
    if first.None? {
      Log(db, ctx.task, Error, SongParseFailed(EmptyArtistList));
      return false;
    }
    ghost var c0, l0 := db.catalog, db.logs;
    var artist := SaveArtist(db, ctx, ArtistDataOf(first.value), f.artist);
    ghost var ra := UpsertArtist(ctx, c0, ArtistDataOf(first.value), f.artist);
    if artist.None? {
      assert ParseAndSave(ctx, c0, info, f) == Parsed(ra.catalog, ra.logs, false);
      return false;
    }
    var album: Option<EntityKey> := None;
    ghost var rb := Reconciled(ra.catalog, [], None);
    if info.album.Some? {
      album := SaveAlbum(db, ctx, AlbumDataOf(info.album.value), artist.value, f.album);
      rb := UpsertAlbum(ctx, ra.catalog, AlbumDataOf(info.album.value), artist.value, f.album);
    }
    assert db.catalog == rb.catalog && db.logs == l0 + ra.logs + rb.logs && album == rb.row;
    var song := SaveSong(db, ctx, SongDataOf(info), artist.value, album, f.song);
    ghost var rs := UpsertSong(ctx, rb.catalog, SongDataOf(info), artist.value, rb.row, f.song);
    assert ParseAndSave(ctx, c0, info, f) == Parsed(rs.catalog, ra.logs + rb.logs + rs.logs, rs.row.Some?);
    ConcatAssoc(l0, ra.logs, rb.logs, rs.logs);
    saved := song.Some?;
  }

  lemma ConcatAssoc<T>(a: seq<T>, b: seq<T>, c: seq<T>, d: seq<T>)
    ensures a + b + c + d == a + (b + c + d)
  {
  }

  // ---------------------------------------------------- artist id extraction

  /** The pattern `artist\?id=(\d+)` matches at position i. */
  predicate MatchAt(url: string, i: nat) {
    i + |ArtistMarker| < |url| && url[i..i + |ArtistMarker|] == ArtistMarker && IsDigit(url[i + |ArtistMarker|])
  }

  /** The leftmost match at or after `from`. */
  function FirstMatch(url: string, from: nat): (m: Option<nat>)
    ensures m.Some? ==> from <= m.value && MatchAt(url, m.value)
    ensures m.Some? ==> forall j | from <= j < m.value :: !MatchAt(url, j)
    ensures m.None? ==> forall j | from <= j :: !MatchAt(url, j)
    decreases |url| - from
  {
    if from + |ArtistMarker| >= |url| then None
    else if MatchAt(url, from) then Some(from)
    else FirstMatch(url, from + 1)
  }

  /** The longest prefix of digits (what `\d+` takes greedily). */
  function DigitRun(s: string): (r: string)
    ensures AllDigits(r) && r <= s
    ensures |r| == |s| || !IsDigit(s[|r|])
  {
    if |s| == 0 || !IsDigit(s[0]) then "" else [s[0]] + DigitRun(s[1..])
  }

  /** `extract_artist_id`: the digits after the leftmost `artist?id=`, or None. */
  function ExtractArtistId(url: string): (id: Option<string>)
    ensures id.Some? <==> exists i: nat :: MatchAt(url, i)
    ensures id.Some? ==> |id.value| >= 1 && AllDigits(id.value)
    ensures id.Some? ==> exists i: nat :: && MatchAt(url, i) && (forall j | 0 <= j < i :: !MatchAt(url, j))
                                          && id.value == DigitRun(url[i + |ArtistMarker|..])
  {
    match FirstMatch(url, 0)
    case None => None
    case Some(i) => Some(DigitRun(url[i + |ArtistMarker|..]))
  }

  /**
   * The artist page URL the spider stores for an artist with a numeric id
   * gives that id back, whatever non-digit text follows it.
   */
  lemma {:induction false} ArtistUrlRoundTrip(n: nat, rest: string)
    requires |rest| == 0 || !IsDigit(rest[0])
    ensures ExtractArtistId(ArtistUrl(Some(n)) + rest) == Some(Decimal(n))
  {
    var url := ArtistUrl(Some(n)) + rest;
    var at := |BaseUrl| + 1;
    ArtistUrlShape(n, rest);
    SiteHasNoMarkerStart();
    NoMatchInPrefix(url, BaseUrl + "/");
    NoEarlierMatch(url, 0, at);
    ExtractAt(url, at);
    DigitRunOfDecimal(Decimal(n), rest);
  }

  /** The stored URL is the site, a slash, the marker, then the digits. */
  lemma ArtistUrlShape(n: nat, rest: string)
    ensures var url := ArtistUrl(Some(n)) + rest;
            var at := |BaseUrl| + 1;
            && BaseUrl + "/" <= url
            && MatchAt(url, at) && url[at + |ArtistMarker|..] == Decimal(n) + rest
  {
    var prefix := BaseUrl + "/";
    var digits := Decimal(n) + rest;
    assert ArtistUrl(Some(n)) + rest == prefix + ArtistMarker + digits;
    ThreeParts(prefix, ArtistMarker, digits);
    assert digits[0] == Decimal(n)[0];
  }

  /** Cutting a concatenation of three strings at the seams gives the parts back. */
  lemma ThreeParts(p: string, m: string, d: string)
    ensures var u := p + m + d;
            p <= u && u[|p|..|p| + |m|] == m && u[|p| + |m|..] == d
  {
  }


  lemma SiteHasNoMarkerStart()
    ensures 'a' !in BaseUrl + "/"
  {
  }

  lemma ExtractAt(url: string, at: nat)
    requires FirstMatch(url, 0) == Some(at)
    ensures ExtractArtistId(url) == Some(DigitRun(url[at + |ArtistMarker|..]))
  {
  }

  /** The marker starts with 'a', so it cannot start inside a text without one. */
  lemma NoMatchInPrefix(url: string, prefix: string)
    requires prefix <= url && 'a' !in prefix
    ensures forall j: nat | j < |prefix| :: !MatchAt(url, j)
  {
    forall j: nat | j < |prefix|
      ensures !MatchAt(url, j)
    {
      assert url[j] == prefix[j];
    }
  }

  lemma {:induction false} NoEarlierMatch(url: string, from: nat, at: nat)
    requires from <= at && MatchAt(url, at)
    requires forall j | from <= j < at :: !MatchAt(url, j)
    ensures FirstMatch(url, from) == Some(at)
    decreases at - from
  {
    if from < at {
      NoEarlierMatch(url, from + 1, at);
    }
  }

  lemma {:induction false} DigitRunOfDecimal(d: string, rest: string)
    requires AllDigits(d)
    requires |rest| == 0 || !IsDigit(rest[0])
    ensures DigitRun(d + rest) == d
  {
    if |d| > 0 {
      assert (d + rest)[1..] == d[1..] + rest;
      DigitRunOfDecimal(d[1..], rest);
    } else {
      assert d + rest == rest;
    }
  }

  // ------------------------------------------------------------ the search

  /** Page `page` was fetched and decoded into a song list. */
  predicate Listed(keyword: string, page: nat, fetch: SearchQuery -> Option<SearchBody>)
    requires page >= 1
  {
    var answer := fetch(Query(keyword, page));
    answer.Some? && answer.value.SongList?
  }

  /** How many of the first n records of a page end up saved. */
  function CountSaved(songs: seq<SongInfo>, page: nat, faults: (nat, nat) -> SaveFaults, n: nat): (k: nat)
    requires n <= |songs|
    ensures k <= n
  {
    if n == 0 then 0
    else CountSaved(songs, page, faults, n - 1) + (if SongSaved(songs[n - 1], faults(page, n - 1)) then 1 else 0)
  }

  /** Pages among 1..n that were not listed (request or decoding failed). */
  function FailedPages(keyword: string, n: nat, fetch: SearchQuery -> Option<SearchBody>): (k: nat)
    ensures k <= n
  {
    if n == 0 then 0 else FailedPages(keyword, n - 1, fetch) + (if Listed(keyword, n, fetch) then 0 else 1)
  }

  /** The last listed page among 1..n. */
  function LastListed(keyword: string, n: nat, fetch: SearchQuery -> Option<SearchBody>): (p: Option<nat>)
    ensures p.Some? ==> 1 <= p.value <= n && Listed(keyword, p.value, fetch)
    ensures p.Some? ==> forall q | p.value < q <= n :: !Listed(keyword, q, fetch)
    ensures p.None? ==> forall q | 1 <= q <= n :: !Listed(keyword, q, fetch)
  {
    if n == 0 then None
    else if Listed(keyword, n, fetch) then Some(n)
    else LastListed(keyword, n - 1, fetch)
  }

  /**
   * The counters of pages 1..n, computed from the responses and the faults
   * alone: every listed record is found and then either saved or failed,
   * and every unlisted page counts one failure.
   */
  function SearchTally(keyword: string, n: nat, fetch: SearchQuery -> Option<SearchBody>,
                       faults: (nat, nat) -> SaveFaults): (t: Tally)
    ensures t.saved + t.failed == t.found + FailedPages(keyword, n, fetch)
    ensures t.saved <= t.found
  {
    if n == 0 then ZeroTally
    else AddTally(SearchTally(keyword, n - 1, fetch, faults), PageTally(keyword, n, fetch, faults))
  }

  /** The counters one page adds: its records when listed, one failure otherwise. */
  function PageTally(keyword: string, page: nat, fetch: SearchQuery -> Option<SearchBody>,
                     faults: (nat, nat) -> SaveFaults): (t: Tally)
    requires page >= 1
    ensures t.saved <= t.found
    ensures Listed(keyword, page, fetch) ==> t.saved + t.failed == t.found
    ensures !Listed(keyword, page, fetch) ==> t == Tally(0, 0, 1)
  {
    var answer := fetch(Query(keyword, page));
    if answer.Some? && answer.value.SongList? then
      var songs := answer.value.songs;
      var k := CountSaved(songs, page, faults, |songs|);
      Tally(|songs|, k, |songs| - k)
    else
      Tally(0, 0, 1)
  }


  /** One record of a listed page through `parse_and_save_song`, counted as saved or failed. */
  function ListingStep(ctx: SpiderCtx, prev: Run, info: SongInfo, f: SaveFaults): (r: Run)
    ensures r.progress == prev.progress && r.tally.found == prev.tally.found
    ensures SongSaved(info, f) ==> r.tally == prev.tally.(saved := prev.tally.saved + 1)
    ensures !SongSaved(info, f) ==> r.tally == prev.tally.(failed := prev.tally.failed + 1)
    ensures AppendsProgressLogs(ctx.task, prev.logs, r.logs)
    ensures Wellformed(prev.catalog) ==> Wellformed(r.catalog)
  {
    var p := ParseAndSave(ctx, prev.catalog, info, f);
    var r := prev.(catalog := p.catalog, logs := prev.logs + p.logs,
                   tally := if p.saved then prev.tally.(saved := prev.tally.saved + 1)
                            else prev.tally.(failed := prev.tally.failed + 1));
    assert r.logs[|prev.logs|..] == p.logs;
    r
  }

  /** The records 0..n-1 of one page, in order, each through `parse_and_save_song`. */
  function SaveListing(ctx: SpiderCtx, run: Run, page: nat, songs: seq<SongInfo>,
                       faults: (nat, nat) -> SaveFaults, n: nat): (r: Run)
    requires n <= |songs|
    ensures r.progress == run.progress
    ensures var k := CountSaved(songs, page, faults, n);
            r.tally == Tally(run.tally.found, run.tally.saved + k, run.tally.failed + (n - k))
    ensures AppendsProgressLogs(ctx.task, run.logs, r.logs)
    ensures Wellformed(run.catalog) ==> Wellformed(r.catalog)
  {
    if n == 0 then run
    else
      var prev := SaveListing(ctx, run, page, songs, faults, n - 1);
      var next := ListingStep(ctx, prev, songs[n - 1], faults(page, n - 1));
      AppendsProgressLogsTrans(ctx.task, run.logs, prev.logs, next.logs);
      next
  }

  /**
   * What happens to a page after its request: `fetched` already holds the
   * fetch log row. No response and an undecodable one each count one
   * failure; a song list counts its records as found and saves them in
   * order, then records the progress.
   */
  function PageOutcome(ctx: SpiderCtx, fetched: Run, maxPages: nat, page: nat, answer: Option<SearchBody>,
                       faults: (nat, nat) -> SaveFaults): (r: Run)
    ensures answer.None? ==> r == fetched.(tally := fetched.tally.(failed := fetched.tally.failed + 1))
    ensures answer.Some? && answer.value.Unparsable? ==>
              r.catalog == fetched.catalog && r.progress == fetched.progress
              && r.tally == fetched.tally.(failed := fetched.tally.failed + 1)
    ensures answer.Some? && answer.value.SongList? ==>
              var n := |answer.value.songs|;
              && r.progress == ProgressPercent(page, maxPages)
              && r.tally.found == fetched.tally.found + n
              && r.tally.saved + r.tally.failed == fetched.tally.saved + fetched.tally.failed + n
    ensures AppendsProgressLogs(ctx.task, fetched.logs, r.logs)
    ensures Wellformed(fetched.catalog) ==> Wellformed(r.catalog)
  {
    if answer.None? then
      fetched.(tally := fetched.tally.(failed := fetched.tally.failed + 1))
    else if answer.value.Unparsable? then
      var r := fetched.(logs := fetched.logs + [LogEntry(ctx.task, Error, SearchParseFailed(UnparsableResponse))],
                        tally := fetched.tally.(failed := fetched.tally.failed + 1));
      assert r.logs[|fetched.logs|..] == [LogEntry(ctx.task, Error, SearchParseFailed(UnparsableResponse))];
      r
    else
      var songs := answer.value.songs;
      var listed := SaveListing(ctx, fetched.(tally := fetched.tally.(found := fetched.tally.found + |songs|)),
                                page, songs, faults, |songs|);
      listed.(progress := ProgressPercent(page, maxPages))
  }

  /** One iteration of the page loop of `crawl_search`: the request, its log row, then the outcome. */
  function SearchPage(ctx: SpiderCtx, run: Run, keyword: string, maxPages: nat, page: nat,
                      fetch: SearchQuery -> Option<SearchBody>, faults: (nat, nat) -> SaveFaults): (r: Run)
    requires page >= 1
    ensures Listed(keyword, page, fetch) ==> r.progress == ProgressPercent(page, maxPages)
    ensures !Listed(keyword, page, fetch) ==> r.progress == run.progress
    ensures !Listed(keyword, page, fetch) ==>
              r.catalog == run.catalog && r.tally == run.tally.(failed := run.tally.failed + 1)
    ensures AppendsProgressLogs(ctx.task, run.logs, r.logs)
    ensures Wellformed(run.catalog) ==> Wellformed(r.catalog)
  {
    var answer := fetch(Query(keyword, page));
    var fetched := run.(logs := run.logs + [FetchLog(ctx.task, SearchUrl, answer.Some?)]);
    assert fetched.logs[|run.logs|..] == [FetchLog(ctx.task, SearchUrl, answer.Some?)];
    var r := PageOutcome(ctx, fetched, maxPages, page, answer, faults);
    AppendsProgressLogsTrans(ctx.task, run.logs, fetched.logs, r.logs);
    r
  }

  /** Pages 1..n of `crawl_search`, in order; only progress rows are logged. */
  function SearchUpTo(ctx: SpiderCtx, run: Run, keyword: string, maxPages: nat, n: nat,
                      fetch: SearchQuery -> Option<SearchBody>, faults: (nat, nat) -> SaveFaults): (r: Run)
    ensures AppendsProgressLogs(ctx.task, run.logs, r.logs)
    ensures Wellformed(run.catalog) ==> Wellformed(r.catalog)
  {
    if n == 0 then run
    else
      var prev := SearchUpTo(ctx, run, keyword, maxPages, n - 1, fetch, faults);
      var r := SearchPage(ctx, prev, keyword, maxPages, n, fetch, faults);
      AppendsProgressLogsTrans(ctx.task, run.logs, prev.logs, r.logs);
      r
  }

  /**
   * The counters of pages 1..n are those of `SearchTally`: they do not
   * depend on what the catalog held before.
   */
  lemma {:induction false} SearchUpToTally(ctx: SpiderCtx, run: Run, keyword: string, maxPages: nat, n: nat,
                                           fetch: SearchQuery -> Option<SearchBody>, faults: (nat, nat) -> SaveFaults)
    ensures SearchUpTo(ctx, run, keyword, maxPages, n, fetch, faults).tally
         == AddTally(run.tally, SearchTally(keyword, n, fetch, faults))
  {
    if n > 0 {
      var prev := SearchUpTo(ctx, run, keyword, maxPages, n - 1, fetch, faults);
      SearchUpToTally(ctx, run, keyword, maxPages, n - 1, fetch, faults);
      SearchPageTally(ctx, prev, keyword, maxPages, n, fetch, faults);
      SearchUpToStep(ctx, run, keyword, maxPages, n, fetch, faults);
      AddTallyAssoc(run.tally, SearchTally(keyword, n - 1, fetch, faults), PageTally(keyword, n, fetch, faults));
      assert SearchTally(keyword, n, fetch, faults)
          == AddTally(SearchTally(keyword, n - 1, fetch, faults), PageTally(keyword, n, fetch, faults));
    }
  }

  lemma AddTallyAssoc(a: Tally, b: Tally, c: Tally)
    ensures AddTally(AddTally(a, b), c) == AddTally(a, AddTally(b, c))
  {
  }

  /** One page adds `PageTally` to the counters. */
  lemma SearchPageTally(ctx: SpiderCtx, run: Run, keyword: string, maxPages: nat, page: nat,
                        fetch: SearchQuery -> Option<SearchBody>, faults: (nat, nat) -> SaveFaults)
    requires page >= 1
    ensures SearchPage(ctx, run, keyword, maxPages, page, fetch, faults).tally
         == AddTally(run.tally, PageTally(keyword, page, fetch, faults))
  {
    var answer := fetch(Query(keyword, page));
    if answer.Some? && answer.value.SongList? {
      var fetched := run.(logs := run.logs + [FetchLog(ctx.task, SearchUrl, true)]);
      assert SearchPage(ctx, run, keyword, maxPages, page, fetch, faults)
          == PageOutcome(ctx, fetched, maxPages, page, answer, faults);
    }
  }


  /**
   * After pages 1..n the progress is that of the last listed page, or the
   * progress the run started with when no page was listed.
   */
  lemma {:induction false} SearchUpToProgress(ctx: SpiderCtx, run: Run, keyword: string, maxPages: nat, n: nat,
                                              fetch: SearchQuery -> Option<SearchBody>, faults: (nat, nat) -> SaveFaults)
    ensures SearchUpTo(ctx, run, keyword, maxPages, n, fetch, faults).progress
         == match LastListed(keyword, n, fetch)
            case None => run.progress
            case Some(p) => ProgressPercent(p, maxPages)
  {
    if n > 0 {
      SearchUpToProgress(ctx, run, keyword, maxPages, n - 1, fetch, faults);
    }
  }

  /**
   * `crawl_search` as a function of the starting run: an empty keyword
   * raises before anything is written; otherwise one start row, then
   * pages 1..max_pages.
   */
  function SearchOutcome(ctx: SpiderCtx, t: CrawlTask, run: Run,
                         fetch: SearchQuery -> Option<SearchBody>, faults: (nat, nat) -> SaveFaults): (o: Result<Run, Cause>)
    ensures o.Err? <==> t.searchKeyword == ""
    ensures o.Err? ==> o.error == KeywordRequired
  {
    if t.searchKeyword == "" then Err(KeywordRequired)
    else
      var started := run.(logs := run.logs + [LogEntry(ctx.task, Info, SearchStarted(t.searchKeyword))],
                          tally := ZeroTally);
      Ok(SearchUpTo(ctx, started, t.searchKeyword, t.maxPages, t.maxPages, fetch, faults))
  }

  /** The body of the inner loop of `crawl_search`. */
  method SaveOneRecord(db: Store.Database, ctx: SpiderCtx, info: SongInfo, f: SaveFaults, tally0: Tally)
    returns (tally: Tally)
    requires db.Valid() && CtxOf(db, ctx)
    modifies db
    ensures db.Valid() && CtxOf(db, ctx)
    ensures var r := ListingStep(ctx, Run(old(db.catalog), old(db.logs), old(db.tasks)[ctx.task].progress, tally0), info, f);
            tally == r.tally && db.State() == old(db.State()).(catalog := r.catalog, logs := r.logs)
  {
    var saved := ParseAndSaveSong(db, ctx, info, f);
    if saved {
      tally := tally0.(saved := tally0.saved + 1);
    } else {
      tally := tally0.(failed := tally0.failed + 1);
    }
  }

  /** The inner loop of `crawl_search`: the records of one listed page, in order. */
  method SaveRecords(db: Store.Database, ctx: SpiderCtx, page: nat, songs: seq<SongInfo>,
                     faults: (nat, nat) -> SaveFaults, tally0: Tally)
    returns (tally: Tally)
    requires db.Valid() && CtxOf(db, ctx)
    modifies db
    ensures db.Valid() && CtxOf(db, ctx)
    ensures var r := SaveListing(ctx, Run(old(db.catalog), old(db.logs), old(db.tasks)[ctx.task].progress, tally0),
                                 page, songs, faults, |songs|);
            tally == r.tally && db.State() == old(db.State()).(catalog := r.catalog, logs := r.logs)
  {
    ghost var s0 := db.State();
    ghost var run := Run(db.catalog, db.logs, db.tasks[ctx.task].progress, tally0);
    tally := tally0;
    var i := 0;
    while i < |songs|
      invariant 0 <= i <= |songs|
      invariant db.Valid() && CtxOf(db, ctx)
      invariant var r := SaveListing(ctx, run, page, songs, faults, i);
                tally == r.tally && db.State() == s0.(catalog := r.catalog, logs := r.logs)
    {
      ghost var prev := SaveListing(ctx, run, page, songs, faults, i);
      assert Run(db.catalog, db.logs, db.tasks[ctx.task].progress, tally) == prev;
      tally := SaveOneRecord(db, ctx, songs[i], faults(page, i), tally);
      assert SaveListing(ctx, run, page, songs, faults, i + 1) == ListingStep(ctx, prev, songs[i], faults(page, i));
      i := i + 1;
    }
  }

  /** A listed page: its records, then the progress update. */
  method SaveListedPage(db: Store.Database, ctx: SpiderCtx, page: nat, maxPages: nat, songs: seq<SongInfo>,
                        faults: (nat, nat) -> SaveFaults, tally0: Tally)
    returns (tally: Tally)
    requires db.Valid() && CtxOf(db, ctx)
    modifies db
    ensures db.Valid() && CtxOf(db, ctx)
    ensures var r := SaveListing(ctx, Run(old(db.catalog), old(db.logs), old(db.tasks)[ctx.task].progress, tally0),
                                 page, songs, faults, |songs|);
            tally == r.tally
            && db.State() == Apply(old(db.State()), ctx.task, r.(progress := ProgressPercent(page, maxPages)))
  {
    tally := SaveRecords(db, ctx, page, songs, faults, tally0);
    UpdateProgress(db, ctx.task, page, maxPages);
  }

  /** The outcome of one request on the database. */
  method HandleAnswer(db: Store.Database, ctx: SpiderCtx, page: nat, maxPages: nat, answer: Option<SearchBody>,
                      faults: (nat, nat) -> SaveFaults, tally0: Tally)
    returns (tally: Tally)
    requires db.Valid() && CtxOf(db, ctx)
    modifies db
    ensures db.Valid() && CtxOf(db, ctx)
    ensures var r := PageOutcome(ctx, Run(old(db.catalog), old(db.logs), old(db.tasks)[ctx.task].progress, tally0),
                                 maxPages, page, answer, faults);
            tally == r.tally && db.State() == Apply(old(db.State()), ctx.task, r)
  {
    ghost var s0 := db.State();
    ghost var fetched := Run(db.catalog, db.logs, db.tasks[ctx.task].progress, tally0);
    if answer.None? {
      tally := tally0.(failed := tally0.failed + 1);
      ApplySameProgress(s0, ctx.task, fetched.(tally := tally));
    } else if answer.value.Unparsable? {
      Log(db, ctx.task, Error, SearchParseFailed(UnparsableResponse));
      tally := tally0.(failed := tally0.failed + 1);
      ApplySameProgress(s0, ctx.task, fetched.(logs := db.logs, tally := tally));
    } else {
      var songs := answer.value.songs;
      tally := SaveListedPage(db, ctx, page, maxPages, songs, faults, tally0.(found := tally0.found + |songs|));
    }
  }

  /** One iteration of the page loop of `crawl_search`. */
  method FetchAndSavePage(db: Store.Database, ctx: SpiderCtx, keyword: string, maxPages: nat, page: nat,
                          fetch: SearchQuery -> Option<SearchBody>, faults: (nat, nat) -> SaveFaults, tally0: Tally)
    returns (tally: Tally)
    requires page >= 1
    requires db.Valid() && CtxOf(db, ctx)
    modifies db
    ensures db.Valid() && CtxOf(db, ctx)
    ensures var r := SearchPage(ctx, Run(old(db.catalog), old(db.logs), old(db.tasks)[ctx.task].progress, tally0),
                                keyword, maxPages, page, fetch, faults);
            tally == r.tally && db.State() == Apply(old(db.State()), ctx.task, r)
  {
    var answer := fetch(Query(keyword, page));
    var ok := GetPage(db, ctx.task, SearchUrl, answer.Some?);
    tally := HandleAnswer(db, ctx, page, maxPages, answer, faults, tally0);
  }

  lemma ApplyTwice(s: DbState, task: TaskId, a: Run, b: Run)
    requires task in s.tasks
    ensures Apply(Apply(s, task, a), task, b) == Apply(s, task, b)
  {
  }

  lemma SearchUpToStep(ctx: SpiderCtx, run: Run, keyword: string, maxPages: nat, n: nat,
                       fetch: SearchQuery -> Option<SearchBody>, faults: (nat, nat) -> SaveFaults)
    requires n >= 1
    ensures SearchUpTo(ctx, run, keyword, maxPages, n, fetch, faults)
         == SearchPage(ctx, SearchUpTo(ctx, run, keyword, maxPages, n - 1, fetch, faults), keyword, maxPages, n, fetch, faults)
  {
  }

  /** One more page of the loop, stated against the fold of the pages before it. */
  method SearchNextPage(db: Store.Database, ctx: SpiderCtx, keyword: string, maxPages: nat, page: nat,
                        fetch: SearchQuery -> Option<SearchBody>, faults: (nat, nat) -> SaveFaults,
                        tally0: Tally, ghost s0: DbState, ghost start: Run)
    returns (tally: Tally)
    requires page >= 1 && ctx.task in s0.tasks
    requires db.Valid() && CtxOf(db, ctx)
    requires var prev := SearchUpTo(ctx, start, keyword, maxPages, page - 1, fetch, faults);
             tally0 == prev.tally && db.State() == Apply(s0, ctx.task, prev)
    modifies db
    ensures db.Valid() && CtxOf(db, ctx)
    ensures var r := SearchUpTo(ctx, start, keyword, maxPages, page, fetch, faults);
            tally == r.tally && db.State() == Apply(s0, ctx.task, r)
  {
    ghost var prev := SearchUpTo(ctx, start, keyword, maxPages, page - 1, fetch, faults);
    assert Run(db.catalog, db.logs, db.tasks[ctx.task].progress, tally0) == prev;
    tally := FetchAndSavePage(db, ctx, keyword, maxPages, page, fetch, faults, tally0);
    ApplyTwice(s0, ctx.task, prev, SearchPage(ctx, prev, keyword, maxPages, page, fetch, faults));
    SearchUpToStep(ctx, start, keyword, maxPages, page, fetch, faults);
  }

  /** The page loop of `crawl_search`: pages 1..max_pages in order. */
  method SearchPages(db: Store.Database, ctx: SpiderCtx, keyword: string, maxPages: nat,
                     fetch: SearchQuery -> Option<SearchBody>, faults: (nat, nat) -> SaveFaults)
    returns (tally: Tally)
    requires db.Valid() && CtxOf(db, ctx)
    modifies db
    ensures db.Valid() && CtxOf(db, ctx)
    ensures var r := SearchUpTo(ctx, StartRun(old(db.State()), ctx.task), keyword, maxPages, maxPages, fetch, faults);
            tally == r.tally && db.State() == Apply(old(db.State()), ctx.task, r)
  {
    ghost var s0 := db.State();
    ghost var start := StartRun(s0, ctx.task);
    ApplySameProgress(s0, ctx.task, start);
    tally := ZeroTally;
    var done := 0;
    while done < maxPages
      invariant done <= maxPages
      invariant db.Valid() && CtxOf(db, ctx)
      invariant var r := SearchUpTo(ctx, start, keyword, maxPages, done, fetch, faults);
                tally == r.tally && db.State() == Apply(s0, ctx.task, r)
    {
      tally := SearchNextPage(db, ctx, keyword, maxPages, done + 1, fetch, faults, tally, s0, start);
      done := done + 1;
    }
  }

  /** `crawl_search`. */
  method CrawlSearch(db: Store.Database, ctx: SpiderCtx,
                     fetch: SearchQuery -> Option<SearchBody>, faults: (nat, nat) -> SaveFaults)
    returns (outcome: Result<Tally, Cause>)
    requires db.Valid() && CtxOf(db, ctx)
    modifies db
    ensures db.Valid() && CtxOf(db, ctx)
    ensures var o := SearchOutcome(ctx, old(db.tasks)[ctx.task], StartRun(old(db.State()), ctx.task), fetch, faults);
            match o
            case Err(e) => outcome == Err(e) && db.State() == old(db.State())
            case Ok(r) => outcome == Ok(r.tally) && db.State() == Apply(old(db.State()), ctx.task, r)
  {
    var t := db.tasks[ctx.task];
    if t.searchKeyword == "" {
      return Err(KeywordRequired);
    }
    Log(db, ctx.task, Info, SearchStarted(t.searchKeyword));
    var tally := SearchPages(db, ctx, t.searchKeyword, t.maxPages, fetch, faults);
    outcome := Ok(tally);
  }

  // ------------------------------------------------------------ dispatch

  /** Why `crawl` catches an exception for a task, or None when its type's routine returns normally. */
  function CrawlCause(t: CrawlTask): (e: Option<Cause>)
    ensures t.taskType == SearchType ==> (e.Some? <==> t.searchKeyword == "")
    ensures t.taskType == ArtistType ==> (e.Some? <==> ExtractArtistId(t.targetUrl).None?)
    ensures t.taskType in {AlbumType, PlaylistType} ==> e.None?
    ensures !IsTaskTypeChoice(t.taskType) ==> e == Some(UnsupportedTaskType(t.taskType))
  {
    if t.taskType == SearchType then
      if t.searchKeyword == "" then Some(KeywordRequired) else None
    else if t.taskType == ArtistType then
      if ExtractArtistId(t.targetUrl).None? then Some(ArtistIdNotFound) else None
    else if t.taskType == AlbumType || t.taskType == PlaylistType then None
    else Some(UnsupportedTaskType(t.taskType))
  }

  /**
   * The handler of `crawl`: one error row naming the cause, and one more
   * failure on the result in hand (the initial all-zero one, since the
   * routine that raised never returned its own).
   */
  function Caught(ctx: SpiderCtx, run: Run, e: Cause): (r: Run)
    ensures r.catalog == run.catalog && r.progress == run.progress
    ensures r.tally.found == run.tally.found && r.tally.saved == run.tally.saved
    ensures r.tally.failed == run.tally.failed + 1
    ensures AppendsProgressLogs(ctx.task, run.logs, r.logs)
    ensures |r.logs| == |run.logs| + 1 && r.logs[|run.logs|] == LogEntry(ctx.task, Error, CrawlFailed(e))
  {
    var r := run.(logs := run.logs + [LogEntry(ctx.task, Error, CrawlFailed(e))],
                  tally := run.tally.(failed := run.tally.failed + 1));
    assert r.logs[|run.logs|..] == [LogEntry(ctx.task, Error, CrawlFailed(e))];
    r
  }

  /**
   * `crawl` of the NetEase strategy: the start row, then the routine of the
   * task's type; an exception it raises is caught, logged and counted as
   * one failure.
   */
  function CrawlRun(ctx: SpiderCtx, t: CrawlTask, run: Run,
                    fetch: SearchQuery -> Option<SearchBody>, faults: (nat, nat) -> SaveFaults): (r: Run)
    ensures run.logs + [LogEntry(ctx.task, Info, NeteaseCrawlStarted(t.taskType))] <= r.logs
    ensures CrawlCause(t).Some? ==> r.tally == Tally(0, 0, 1) && r.catalog == run.catalog
    ensures t.taskType != SearchType ==> r.catalog == run.catalog && r.progress == run.progress
  {
    var started := run.(logs := run.logs + [LogEntry(ctx.task, Info, NeteaseCrawlStarted(t.taskType))],
                        tally := ZeroTally);
    if t.taskType == SearchType then
      match SearchOutcome(ctx, t, started, fetch, faults)
      case Ok(searched) => searched
      case Err(e) => Caught(ctx, started, e)
    else if t.taskType == ArtistType then
      match ExtractArtistId(t.targetUrl)
      case Some(id) => started.(logs := started.logs + [LogEntry(ctx.task, Info, ArtistCrawlStarted(id))])
      case None => Caught(ctx, started, ArtistIdNotFound)
    else if t.taskType == AlbumType || t.taskType == PlaylistType then started
    else Caught(ctx, started, UnsupportedTaskType(t.taskType))
  }

  /**
   * A caught exception leaves the catalog and the progress as they were,
   * adds exactly the start row and one error row naming the cause, and
   * the result is exactly one failure.
   */
  lemma CrawlFailure(ctx: SpiderCtx, t: CrawlTask, run: Run,
                     fetch: SearchQuery -> Option<SearchBody>, faults: (nat, nat) -> SaveFaults)
    requires CrawlCause(t).Some?
    ensures var r := CrawlRun(ctx, t, run, fetch, faults);
            && r.tally == Tally(0, 0, 1)
            && r.catalog == run.catalog && r.progress == run.progress
            && r.logs == run.logs + [LogEntry(ctx.task, Info, NeteaseCrawlStarted(t.taskType)),
                                     LogEntry(ctx.task, Error, CrawlFailed(CrawlCause(t).value))]
  {
  }

  /**
   * Otherwise the counters are those of the search (every listed record
   * found, then saved or failed; every unlisted page one failure), and
   * zero for the other types.
   */
  lemma CrawlSuccessTally(ctx: SpiderCtx, t: CrawlTask, run: Run,
                          fetch: SearchQuery -> Option<SearchBody>, faults: (nat, nat) -> SaveFaults)
    requires CrawlCause(t).None?
    ensures var r := CrawlRun(ctx, t, run, fetch, faults);
            && (t.taskType == SearchType ==> r.tally == SearchTally(t.searchKeyword, t.maxPages, fetch, faults))
            && (t.taskType != SearchType ==> r.tally == ZeroTally && r.catalog == run.catalog)
  {
    if t.taskType == SearchType {
      var started := run.(logs := run.logs + [LogEntry(ctx.task, Info, NeteaseCrawlStarted(t.taskType))],
                          tally := ZeroTally);
      var begun := started.(logs := started.logs + [LogEntry(ctx.task, Info, SearchStarted(t.searchKeyword))]);
      SearchUpToTally(ctx, begun, t.searchKeyword, t.maxPages, t.maxPages, fetch, faults);
    }
  }

  /**
   * `crawl` never lets an exception out, never closes the task, and keeps
   * the catalog's references: every row it adds belongs to this task and
   * none is a completion or failure row.
   */
  lemma CrawlAppendsProgressLogs(ctx: SpiderCtx, t: CrawlTask, run: Run,
                                 fetch: SearchQuery -> Option<SearchBody>, faults: (nat, nat) -> SaveFaults)
    ensures var r := CrawlRun(ctx, t, run, fetch, faults);
            && AppendsProgressLogs(ctx.task, run.logs, r.logs)
            && (Wellformed(run.catalog) ==> Wellformed(r.catalog))
  {
    var started := run.(logs := run.logs + [LogEntry(ctx.task, Info, NeteaseCrawlStarted(t.taskType))],
                        tally := ZeroTally);
    assert started.logs[|run.logs|..] == [LogEntry(ctx.task, Info, NeteaseCrawlStarted(t.taskType))];
    var r := CrawlRun(ctx, t, run, fetch, faults);
    if t.taskType == SearchType && t.searchKeyword != "" {
      var begun := started.(logs := started.logs + [LogEntry(ctx.task, Info, SearchStarted(t.searchKeyword))]);
      assert begun.logs[|started.logs|..] == [LogEntry(ctx.task, Info, SearchStarted(t.searchKeyword))];
      AppendsProgressLogsTrans(ctx.task, run.logs, started.logs, begun.logs);
      AppendsProgressLogsTrans(ctx.task, run.logs, begun.logs, r.logs);
    } else if r.logs != started.logs {
      assert r.logs == started.logs + [r.logs[|r.logs| - 1]];
      assert r.logs[|started.logs|..] == [r.logs[|r.logs| - 1]];
      AppendsProgressLogsTrans(ctx.task, run.logs, started.logs, r.logs);
    }
  }

  /**
   * The progress a search leaves: 100 when the last page was listed,
   * below 100 when an earlier page was the last one listed, and what the
   * task had before when no page was listed.
   */
  lemma CrawlSearchProgress(ctx: SpiderCtx, t: CrawlTask, run: Run,
                            fetch: SearchQuery -> Option<SearchBody>, faults: (nat, nat) -> SaveFaults)
    requires t.taskType == SearchType && t.searchKeyword != ""
    ensures var r := CrawlRun(ctx, t, run, fetch, faults);
            && (t.maxPages >= 1 && Listed(t.searchKeyword, t.maxPages, fetch) ==> r.progress == 100)
            && var last := LastListed(t.searchKeyword, t.maxPages, fetch);
            && (last.Some? && last.value < t.maxPages ==> r.progress < 100)
            && (last.None? ==> r.progress == run.progress)
  {
    var started := run.(logs := run.logs + [LogEntry(ctx.task, Info, NeteaseCrawlStarted(t.taskType))],
                        tally := ZeroTally);
    var begun := started.(logs := started.logs + [LogEntry(ctx.task, Info, SearchStarted(t.searchKeyword))]);
    SearchUpToProgress(ctx, begun, t.searchKeyword, t.maxPages, t.maxPages, fetch, faults);
    var last := LastListed(t.searchKeyword, t.maxPages, fetch);
    if last.Some? {
      ProgressPercentBounds(last.value, t.maxPages);
    }
  }

  /** `crawl`'s exception handler on the database. */
  method ReportCaught(db: Store.Database, ctx: SpiderCtx, e: Cause) returns (tally: Tally)
    requires db.Valid() && CtxOf(db, ctx)
    modifies db
    ensures db.Valid() && CtxOf(db, ctx)
    ensures var r := Caught(ctx, StartRun(old(db.State()), ctx.task), e);
            tally == r.tally && db.State() == Apply(old(db.State()), ctx.task, r)
  {
    ghost var s0 := db.State();
    Log(db, ctx.task, Error, CrawlFailed(e));
    tally := Tally(0, 0, 1);
    ApplySameProgress(s0, ctx.task, Caught(ctx, StartRun(s0, ctx.task), e));
  }

  /** `crawl_artist`. */
  method CrawlArtist(db: Store.Database, ctx: SpiderCtx, targetUrl: string) returns (tally: Tally)
    requires db.Valid() && CtxOf(db, ctx)
    modifies db
    ensures db.Valid() && CtxOf(db, ctx)
    ensures var started := StartRun(old(db.State()), ctx.task);
            var r := match ExtractArtistId(targetUrl)
                     case Some(id) => started.(logs := started.logs + [LogEntry(ctx.task, Info, ArtistCrawlStarted(id))])
                     case None => Caught(ctx, started, ArtistIdNotFound);
            tally == r.tally && db.State() == Apply(old(db.State()), ctx.task, r)
  {
    ghost var s0 := db.State();
    var artistId := ExtractArtistId(targetUrl);
    if artistId.None? {
      tally := ReportCaught(db, ctx, ArtistIdNotFound);
    } else {
      Log(db, ctx.task, Info, ArtistCrawlStarted(artistId.value));
      tally := ZeroTally;
      ApplySameProgress(s0, ctx.task, Run(db.catalog, db.logs, s0.tasks[ctx.task].progress, ZeroTally));
    }
  }

  /** `NeteaseSpider.crawl` on the database, as `CrawlRun` computes it. */
  method Crawl(db: Store.Database, ctx: SpiderCtx,
               fetch: SearchQuery -> Option<SearchBody>, faults: (nat, nat) -> SaveFaults)
    returns (tally: Tally)
    requires db.Valid() && CtxOf(db, ctx)
    modifies db
    ensures db.Valid() && CtxOf(db, ctx)
    ensures var r := CrawlRun(ctx, old(db.tasks)[ctx.task], StartRun(old(db.State()), ctx.task), fetch, faults);
            tally == r.tally && db.State() == Apply(old(db.State()), ctx.task, r)
  {
    ghost var s0 := db.State();
    var t := db.tasks[ctx.task];
    Log(db, ctx.task, Info, NeteaseCrawlStarted(t.taskType));
    ghost var s1 := db.State();
    ghost var started := StartRun(s1, ctx.task);
    ApplySameProgress(s0, ctx.task, started);
    if t.taskType == SearchType {
      var outcome := CrawlSearch(db, ctx, fetch, faults);
      match outcome
      case Ok(found) => tally := found;
      case Err(e) => tally := ReportCaught(db, ctx, e);
    } else if t.taskType == ArtistType {
      tally := CrawlArtist(db, ctx, t.targetUrl);
    } else if t.taskType == AlbumType || t.taskType == PlaylistType {
      tally := ZeroTally;
    } else {
      tally := ReportCaught(db, ctx, UnsupportedTaskType(t.taskType));
    }
  }
}
