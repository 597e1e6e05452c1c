/**
 * crawler/management/commands/init_platforms.py: the command that seeds
 * the platform table. For each of the five listed platforms it creates the
 * row when no row has that name, and otherwise rewrites the row's base URL
 * and active flag; it counts the rows it created.
 */
module InitPlatforms {
  import opened MusicModels
  import opened Store

  /** One entry of the list. */
  datatype Seed = Seed(name: string, baseUrl: string, isActive: bool)

  const Seeds: seq<Seed> := [
    Seed("网易云音乐", "https://music.163.com", true),
    Seed("QQ音乐", "https://y.qq.com", true),
    Seed("酷狗音乐", "https://www.kugou.com", true),
    Seed("酷我音乐", "https://www.kuwo.cn", false),
    Seed("咪咕音乐", "https://www.migu.cn", false)
  ]

  predicate DistinctNames(seeds: seq<Seed>) {
    forall i, j | 0 <= i < j < |seeds| :: seeds[i].name != seeds[j].name
  }

  /** The names of the first n entries. */
  function Names(seeds: seq<Seed>, n: nat): set<string>
    requires n <= |seeds|
  {
    if n == 0 then {} else Names(seeds, n - 1) + {seeds[n - 1].name}
  }

  /** A name among the first n entries belongs to one of them. */
  lemma {:induction false} IndexOf(seeds: seq<Seed>, n: nat, k: string) returns (i: nat)
    requires n <= |seeds| && k in Names(seeds, n)
    ensures i < n && seeds[i].name == k
  {
    if seeds[n - 1].name == k {
      i := n - 1;
    } else {
      i := IndexOf(seeds, n - 1, k);
    }
  }

  /** With distinct names, a later entry's name is not among the first n. */
  lemma {:induction false} NotEarlier(seeds: seq<Seed>, n: nat, k: nat)
    requires n <= k < |seeds| && DistinctNames(seeds)
    ensures seeds[k].name !in Names(seeds, n)
  {
    if n > 0 {
      NotEarlier(seeds, n - 1, k);
      assert seeds[n - 1].name != seeds[k].name;
    }
  }

  /** The row an entry leaves: a new row stamped `now`, or the old row with the two fields rewritten. */
  function SeededRow(ps: map<string, PlatformRow>, sd: Seed, now: Time): (row: PlatformRow)
    ensures row.baseUrl == sd.baseUrl && row.isActive == sd.isActive
    ensures sd.name in ps ==> row.createdAt == ps[sd.name].createdAt
    ensures sd.name !in ps ==> row.createdAt == now
  {
    PlatformRow(sd.baseUrl, sd.isActive, if sd.name in ps then ps[sd.name].createdAt else now)
  }

  /** One iteration: `get_or_create(name=...)`, then the update of an existing row. */
  function Upsert(ps: map<string, PlatformRow>, sd: Seed, now: Time): (r: map<string, PlatformRow>)
    ensures r.Keys == ps.Keys + {sd.name}
    ensures r[sd.name] == SeededRow(ps, sd, now)
    ensures forall k | k in ps && k != sd.name :: r[k] == ps[k]
  {
    ps[sd.name := SeededRow(ps, sd, now)]
  }

  /** The table after the first n entries. */
  function SeedAll(ps: map<string, PlatformRow>, seeds: seq<Seed>, n: nat, now: Time): (r: map<string, PlatformRow>)
    requires n <= |seeds|
    ensures ps.Keys <= r.Keys
  {
    if n == 0 then ps else Upsert(SeedAll(ps, seeds, n - 1, now), seeds[n - 1], now)
  }

  /** `created_count` after the first n entries: the entries whose name had no row when reached. */
  function CreatedCount(ps: map<string, PlatformRow>, seeds: seq<Seed>, n: nat, now: Time): (k: nat)
    requires n <= |seeds|
    ensures k <= n
  {
    if n == 0 then 0
    else CreatedCount(ps, seeds, n - 1, now) + (if seeds[n - 1].name in SeedAll(ps, seeds, n - 1, now) then 0 else 1)
  }

  /**
   * With distinct names, each listed name ends with the listed base URL and
   * flag (and keeps its creation time if it had a row); every other row is
   * untouched and no other row appears.
   */
  lemma {:induction false} SeedAllEffect(ps: map<string, PlatformRow>, seeds: seq<Seed>, n: nat, now: Time)
    requires n <= |seeds| && DistinctNames(seeds)
    ensures var r := SeedAll(ps, seeds, n, now);
            && r.Keys == ps.Keys + Names(seeds, n)
            && (forall i | 0 <= i < n :: seeds[i].name in r && r[seeds[i].name] == SeededRow(ps, seeds[i], now))
            && (forall k | k in ps && k !in Names(seeds, n) :: r[k] == ps[k])
  {
    if n > 0 {
      SeedAllEffect(ps, seeds, n - 1, now);
      var prev := SeedAll(ps, seeds, n - 1, now);
      var sd := seeds[n - 1];
      NotEarlier(seeds, n - 1, n - 1);
      assert sd.name in prev <==> sd.name in ps;
      forall i | 0 <= i < n - 1
        ensures seeds[i].name in SeedAll(ps, seeds, n, now)
        ensures SeedAll(ps, seeds, n, now)[seeds[i].name] == SeededRow(ps, seeds[i], now)
      {
        assert seeds[i].name != sd.name;
      }
    }
  }

  /** Adding a name to a set of names grows its part outside `keys` by one exactly when the name is in neither. */
  lemma AddName(names: set<string>, keys: set<string>, x: string)
    requires x !in names
    ensures |(names + {x}) - keys| == |names - keys| + (if x in keys then 0 else 1)
  {
    if x in keys {
      assert (names + {x}) - keys == names - keys;
    } else {
      assert (names + {x}) - keys == (names - keys) + {x};
    }
  }

  /** How many of the first n entries have a name outside `keys`. */
  function Missing(keys: set<string>, seeds: seq<Seed>, n: nat): nat
    requires n <= |seeds|
  {
    if n == 0 then 0 else Missing(keys, seeds, n - 1) + (if seeds[n - 1].name in keys then 0 else 1)
  }

  /** With distinct names, that is the number of listed names without a row. */
  lemma {:induction false} MissingIsNewNames(keys: set<string>, seeds: seq<Seed>, n: nat)
    requires n <= |seeds| && DistinctNames(seeds)
    ensures Missing(keys, seeds, n) == |Names(seeds, n) - keys|
  {
    if n > 0 {
      MissingIsNewNames(keys, seeds, n - 1);
      NotEarlier(seeds, n - 1, n - 1);
      AddName(Names(seeds, n - 1), keys, seeds[n - 1].name);
    }
  }

  /** One entry adds one to `created_count` exactly when its name had no row before the run. */
  lemma CreatedCountStep(ps: map<string, PlatformRow>, seeds: seq<Seed>, n: nat, now: Time)
    requires 0 < n <= |seeds| && DistinctNames(seeds)
    ensures CreatedCount(ps, seeds, n, now)
            == CreatedCount(ps, seeds, n - 1, now) + (if seeds[n - 1].name in ps.Keys then 0 else 1)
  {
    ReachedIsNew(ps, seeds, n - 1, now);
  }

  /** `created_count` counts the entries whose name had no row before the run. */
  lemma {:induction false} CreatedCountIsMissing(ps: map<string, PlatformRow>, seeds: seq<Seed>, n: nat, now: Time)
    requires n <= |seeds| && DistinctNames(seeds)
    ensures CreatedCount(ps, seeds, n, now) == Missing(ps.Keys, seeds, n)
  {
    if n > 0 {
      CreatedCountIsMissing(ps, seeds, n - 1, now);
      CreatedCountStep(ps, seeds, n, now);
    }
  }

  /** `created_count` is the number of listed names that had no row before the run. */
  lemma CreatedCountIsNew(ps: map<string, PlatformRow>, seeds: seq<Seed>, n: nat, now: Time)
    requires n <= |seeds| && DistinctNames(seeds)
    ensures CreatedCount(ps, seeds, n, now) == |Names(seeds, n) - ps.Keys|
  {
    CreatedCountIsMissing(ps, seeds, n, now);
    MissingIsNewNames(ps.Keys, seeds, n);
  }

  /** An entry finds no row exactly when its name had none before the run. */
  lemma ReachedIsNew(ps: map<string, PlatformRow>, seeds: seq<Seed>, n: nat, now: Time)
    requires n < |seeds| && DistinctNames(seeds)
    ensures seeds[n].name in SeedAll(ps, seeds, n, now) <==> seeds[n].name in ps
  {
    SeedAllEffect(ps, seeds, n, now);
    NotEarlier(seeds, n, n);
  }

  /** A second run leaves the table as the first left it, and creates nothing. */
  lemma SeedAllIdempotent(ps: map<string, PlatformRow>, seeds: seq<Seed>, now: Time, later: Time)
    requires DistinctNames(seeds)
    ensures var once := SeedAll(ps, seeds, |seeds|, now);
            && SeedAll(once, seeds, |seeds|, later) == once
            && CreatedCount(once, seeds, |seeds|, later) == 0
  {
    var once := SeedAll(ps, seeds, |seeds|, now);
    SeedAllEffect(ps, seeds, |seeds|, now);
    SeedAllEffect(once, seeds, |seeds|, later);
    CreatedCountIsNew(once, seeds, |seeds|, later);
    var twice := SeedAll(once, seeds, |seeds|, later);
    forall k | k in once
      ensures twice[k] == once[k]
    {
      if k in Names(seeds, |seeds|) {
        var i := IndexOf(seeds, |seeds|, k);
        assert twice[k] == SeededRow(once, seeds[i], later);
      }
    }
    assert Names(seeds, |seeds|) - once.Keys == {};
  }

  lemma SeedsDistinct()
    ensures DistinctNames(Seeds)
  {
  }

  /**
   * After the command each listed platform has its listed base URL; the
   * first three (NetEase Cloud Music, QQ Music, Kugou Music) are active and
   * the last two (Kuwo Music, Migu Music) inactive.
   */
  lemma SeededPlatforms(ps: map<string, PlatformRow>, now: Time)
    ensures var r := SeedAll(ps, Seeds, |Seeds|, now);
            forall i | 0 <= i < |Seeds| ::
              && Seeds[i].name in r && r[Seeds[i].name].baseUrl == Seeds[i].baseUrl
              && (r[Seeds[i].name].isActive <==> i < 3)
  {
    SeedsDistinct();
    SeedAllEffect(ps, Seeds, |Seeds|, now);
  }

  /**
   * `handle`: the loop over the list with its counter; the total is
   * `Platform.objects.count()` afterwards.
   */
  method Handle(db: Store.Database, now: Time) returns (createdCount: nat, total: nat)
    requires db.Valid()
    modifies db
    ensures db.Valid()
    ensures db.State() == old(db.State()).(platforms := SeedAll(old(db.platforms), Seeds, |Seeds|, now))
    ensures createdCount == CreatedCount(old(db.platforms), Seeds, |Seeds|, now)
    ensures total == |db.platforms|
  {
    ghost var ps := db.platforms;
    createdCount := 0;
    var i := 0;
    while i < |Seeds|
      invariant 0 <= i <= |Seeds|
      invariant db.Valid()
      invariant db.State() == old(db.State()).(platforms := SeedAll(ps, Seeds, i, now))
      invariant createdCount == CreatedCount(ps, Seeds, i, now)
    {
      var sd := Seeds[i];
      if sd.name !in db.platforms {
        db.platforms := db.platforms[sd.name := PlatformRow(sd.baseUrl, sd.isActive, now)];
        createdCount := createdCount + 1;
      } else {
        var row := db.platforms[sd.name];
        db.platforms := db.platforms[sd.name := row.(baseUrl := sd.baseUrl, isActive := sd.isActive)];
      }
      i := i + 1;
    }
    total := |db.platforms|;
  }
}
