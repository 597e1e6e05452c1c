/**
 * music/views.py: the two song endpoints beyond list and filter. `play`
 * adds one to a song's play counter and reports the new value; `popular`
 * lists the twenty most played songs.
 */
module MusicViews {
  import opened MusicModels
  import opened Store
  import Ordering

  /** The reply of `play`: the new counter, or 404 from `get_object`. */
  datatype PlayReply = Played(playCount: nat) | NotFound

  const PopularLimit: nat := 20

  function PlayCount(s: Song): int {
    s.playCount
  }

  /**
   * `popular`: `order_by('-play_count')[:20]` over the song rows, listed in
   * the order the database enumerates them (songs with equal counts come
   * back in an order the query does not fix).
   */
  function Popular(rows: seq<Song>): (r: seq<Song>)
    ensures |r| == if |rows| < PopularLimit then |rows| else PopularLimit
    ensures Ordering.NonIncreasing(r, PlayCount)
    ensures multiset(r) <= multiset(rows)
  {
    var sorted := Ordering.SortDesc(rows, PlayCount);
    var r := Ordering.Take(sorted, PopularLimit);
    Ordering.PrefixRest(sorted, |r|);
    Ordering.PrefixSorted(sorted, |r|, PlayCount);
    r
  }

  /**
   * No song left out of `popular` was played more often than any song it
   * lists: each omitted row's counter is at most every returned counter.
   */
  lemma PopularIsTop(rows: seq<Song>)
    ensures var r := Popular(rows);
            forall x, i | x in multiset(rows) - multiset(r) && 0 <= i < |r| :: x.playCount <= r[i].playCount
  {
    var sorted := Ordering.SortDesc(rows, PlayCount);
    var r := Popular(rows);
    assert r == sorted[..|r|];
    Ordering.PrefixIsTop(sorted, |r|, PlayCount);
  }

  /** The row `play` saves: the counter one higher, every other field as it was. */
  function Played1(s: Song): (r: Song)
    ensures r.playCount == s.playCount + 1
    ensures r.(playCount := s.playCount) == s
  {
    s.(playCount := s.playCount + 1)
  }

  /** Playing a song keeps every foreign key of the catalog valid and every other row as it was. */
  lemma PlayKeepsCatalog(c: Catalog, key: EntityKey)
    requires key in c.songs
    ensures var c' := c.(songs := c.songs[key := Played1(c.songs[key])]);
            && (Wellformed(c) ==> Wellformed(c'))
            && c'.songs.Keys == c.songs.Keys
            && (forall k | k in c.songs && k != key :: c'.songs[k] == c.songs[k])
  {
    var c' := c.(songs := c.songs[key := Played1(c.songs[key])]);
    if Wellformed(c) {
      forall k | k in c'.songs
        ensures c'.songs[k].artist == c.songs[k].artist && c'.songs[k].album == c.songs[k].album
      {
      }
    }
  }

  /** `play`: the song's counter goes up by one and the new value is returned; a missing song is 404. */
  method Play(db: Store.Database, key: EntityKey) returns (reply: PlayReply)
    requires db.Valid()
    modifies db
    ensures db.Valid()
    ensures key !in old(db.catalog.songs) ==> reply == NotFound && db.State() == old(db.State())
    ensures key in old(db.catalog.songs) ==>
              && reply == Played(old(db.catalog.songs[key].playCount) + 1)
              && db.State() == old(db.State()).(catalog := old(db.catalog).(
                   songs := old(db.catalog.songs)[key := Played1(old(db.catalog.songs[key]))]))
  {
    if key !in db.catalog.songs {
      return NotFound;
    }
    var song := db.catalog.songs[key];
    song := song.(playCount := song.playCount + 1);
    db.catalog := db.catalog.(songs := db.catalog.songs[key := song]);
    reply := Played(song.playCount);
  }
}
