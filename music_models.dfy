/**
 * The catalog records of music/models.py: platforms, artists, albums and
 * songs. An entity table is a map from its natural key
 * `(platform, platform_id)` to the row, so the `unique_together` constraint
 * of each of Artist, Album and Song holds by construction.
 */
module MusicModels {
  import opened Wrappers
  import opened Text

  /** Wall-clock instants and calendar dates, as opaque numbers. */
  type Time = int
  type Date = int

  /** A Platform row; the table is keyed by the platform's name. */
  datatype PlatformRow = PlatformRow(baseUrl: string, isActive: bool, createdAt: Time)

  /** The natural key `(platform, platform_id)` of an artist, album or song. */
  datatype EntityKey = EntityKey(platform: string, platformId: string)

  datatype Artist = Artist(name: string, biography: string, platformUrl: string)

  datatype Album = Album(
    title: string,
    artist: EntityKey,
    description: string,
    releaseDate: Option<Date>,
    platformUrl: string)

  datatype Song = Song(
    title: string,
    artist: EntityKey,
    album: Option<EntityKey>,
    duration: Option<nat>,   // seconds; the column is nullable
    lyrics: string,
    genre: string,
    platformUrl: string,
    audioUrl: string,
    playCount: nat,
    likeCount: nat)

  /** The three entity tables. */
  datatype Catalog = Catalog(
    artists: map<EntityKey, Artist>,
    albums: map<EntityKey, Album>,
    songs: map<EntityKey, Song>)

  const EmptyCatalog := Catalog(map[], map[], map[])

  /**
   * Referential integrity of the foreign keys: every album references one
   * stored artist, every song one stored artist and at most one stored album.
   */
  predicate Wellformed(c: Catalog) {
    && (forall k | k in c.albums :: c.albums[k].artist in c.artists)
    && (forall k | k in c.songs :: c.songs[k].artist in c.artists)
    && (forall k | k in c.songs && c.songs[k].album.Some? :: c.songs[k].album.value in c.albums)
  }

  const UnknownDuration: string := "未知"

  /** The format `{n:02d}`: at least two digits, zero-padded. */
  function Pad2(n: nat): (s: string)
    ensures AllDigits(s) && 2 <= |s|
    ensures DigitsValue(s) == n
    ensures n < 100 ==> |s| == 2
    ensures n >= 10 ==> s == Decimal(n)
  {
    DecimalRoundTrip(n);
    if n < 10 then
      LeadingZero(Decimal(n));
      "0" + Decimal(n)
    else
      assert n < 100 ==> Decimal(n) == Decimal(n / 10) + [DigitChar(n % 10)];
      Decimal(n)
  }

  /** A string shaped `MM:SS`: two or more minute digits, a colon, two second digits below 60. */
  predicate IsClock(r: string) {
    && |r| >= 5
    && r[|r| - 3] == ':'
    && AllDigits(r[..|r| - 3])
    && AllDigits(r[|r| - 2..])
    && DigitsValue(r[|r| - 2..]) < 60
  }

  function ClockMinutes(r: string): nat
    requires IsClock(r)
  {
    DigitsValue(r[..|r| - 3])
  }

  function ClockSeconds(r: string): nat
    requires IsClock(r)
  {
    DigitsValue(r[|r| - 2..])
  }

  /** `Song.duration_display`. */
  function DurationDisplay(duration: Option<nat>): (r: string)
    ensures r == UnknownDuration <==> duration.None? || duration == Some(0)
  {
    if duration.None? || duration == Some(0) then UnknownDuration
    else
      var d := duration.value;
      Pad2(d / 60) + ":" + Pad2(d % 60)
  }

  /**
   * A known duration is shown as `MM:SS` whose parts read back as
   * `d / 60` minutes and `d % 60` seconds, so the display loses nothing.
   */
  lemma DurationDisplayRoundTrip(d: nat)
    requires d > 0
    ensures IsClock(DurationDisplay(Some(d)))
    ensures ClockMinutes(DurationDisplay(Some(d))) == d / 60
    ensures ClockSeconds(DurationDisplay(Some(d))) == d % 60
    ensures 60 * ClockMinutes(DurationDisplay(Some(d))) + ClockSeconds(DurationDisplay(Some(d))) == d
    ensures d / 60 >= 100 ==> |DurationDisplay(Some(d))| > 5
  {
    var m, s := Pad2(d / 60), Pad2(d % 60);
    var r := DurationDisplay(Some(d));
    assert r == m + ":" + s;
    assert r[..|r| - 3] == m;
    assert r[|r| - 2..] == s;
  }
}
