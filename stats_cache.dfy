/** The stats cache: a table of JSON documents keyed by a unique cache key
    (backend/app/models/stats_cache_model.py), the repository that reads, upserts and deletes
    its rows (backend/app/repositories/stats_cache_repo.py) and the service that serves the
    overview from it until it is older than the TTL (backend/app/service/stats_cache_service.py).
    Times are microsecond counts; the two clocks the source reads (local time and UTC) and the
    instant the model module was imported are parameters. */
module StatsCache {
  import opened Wrappers
  import opened Transactions
  import opened Stats

  /** One stats_cache row; the key is the map key of the table. */
  datatype CacheRow<D> = CacheRow(id: nat, data: D, createdAt: int, updatedAt: int)

  /** `select ... where cache_key == key`, scalar_one_or_none. */
  function Lookup<D>(rows: map<string, CacheRow<D>>, key: string): Option<CacheRow<D>> {
    if key in rows then Some(rows[key]) else None
  }

  /** The table after a successful upsert. An existing row gets the new data and
      updated_at = utcnow(); a new row gets the next id, and created_at and updated_at take
      the column default, datetime.now() evaluated once when the model was imported. */
  function Upsert<D>(rows: map<string, CacheRow<D>>, nextId: nat, key: string, data: D, utcNow: int, importTime: int)
    : map<string, CacheRow<D>>
  {
    if key in rows then rows[key := rows[key].(data := data, updatedAt := utcNow)]
    else rows[key := CacheRow(nextId, data, importTime, importTime)]
  }

  /** Every id was drawn from the autoincrement sequence before `nextId`. */
  predicate IdsBelow<D>(rows: map<string, CacheRow<D>>, nextId: nat) {
    forall k | k in rows :: rows[k].id < nextId
  }

  /** No two rows share an id. */
  predicate IdsDistinct<D>(rows: map<string, CacheRow<D>>) {
    forall k1, k2 | k1 in rows && k2 in rows && k1 != k2 :: rows[k1].id != rows[k2].id
  }

  /** After an upsert, a get on the same key returns the upserted data, and every other key
      reads as before. */
  lemma UpsertThenLookup<D>(rows: map<string, CacheRow<D>>, nextId: nat, key: string, data: D, utcNow: int, importTime: int)
    ensures Lookup(Upsert(rows, nextId, key, data, utcNow, importTime), key).Some?
    ensures Lookup(Upsert(rows, nextId, key, data, utcNow, importTime), key).value.data == data
    ensures forall k | k != key :: Lookup(Upsert(rows, nextId, key, data, utcNow, importTime), k) == Lookup(rows, k)
  {
  }

  /** An upsert on an existing key keeps its id and creation time and adds no row; on a
      missing key it adds exactly one row, stamped with the import time. */
  lemma UpsertRows<D>(rows: map<string, CacheRow<D>>, nextId: nat, key: string, data: D, utcNow: int, importTime: int)
    ensures var r := Upsert(rows, nextId, key, data, utcNow, importTime);
      r.Keys == rows.Keys + {key}
      && (key in rows ==> |r| == |rows| && r[key] == CacheRow(rows[key].id, data, rows[key].createdAt, utcNow))
      && (key !in rows ==> |r| == |rows| + 1 && r[key] == CacheRow(nextId, data, importTime, importTime))
  {
    var r := Upsert(rows, nextId, key, data, utcNow, importTime);
    if key in rows {
      assert r.Keys == rows.Keys;
    } else {
      assert r.Keys == rows.Keys + {key};
    }
  }

  /** Upserts keep row ids unique: a new row takes the next id of the sequence. */
  lemma UpsertKeepsIds<D>(rows: map<string, CacheRow<D>>, nextId: nat, key: string, data: D, utcNow: int, importTime: int)
    requires IdsBelow(rows, nextId) && IdsDistinct(rows)
    ensures var r := Upsert(rows, nextId, key, data, utcNow, importTime);
      IdsBelow(r, if key in rows then nextId else nextId + 1) && IdsDistinct(r)
  {
  }

  /** A deleted key reads as missing; every other key reads as before. */
  lemma RemoveThenLookup<D>(rows: map<string, CacheRow<D>>, key: string)
    ensures Lookup(rows - {key}, key) == None
    ensures forall k | k != key :: Lookup(rows - {key}, k) == Lookup(rows, k)
    ensures key in rows ==> |rows - {key}| == |rows| - 1
  {
    if key in rows {
      assert rows.Keys == (rows - {key}).Keys + {key};
    }
  }

  /** StatsCacheRepository over the stats_cache table. Database errors are parameters: a
      failed read, or the message of the SQLAlchemyError an upsert or delete raises. */
  class StatsCacheRepository<D> {
    /** The committed rows, by cache_key. */
    var rows: map<string, CacheRow<D>>
    /** The next value of the id sequence. */
    var nextId: nat

    ghost predicate Valid()
      reads this
    {
      IdsBelow(rows, nextId) && IdsDistinct(rows)
    }

    constructor()
      ensures rows == map[] && nextId == 1 && Valid()
    {
      rows := map[];
      nextId := 1;
    }

    /** get_cached_stats: the row for the key, or None; a database error is logged and also
        yields None. */
    method GetCachedStats(key: string, failure: bool) returns (r: Option<CacheRow<D>>)
      ensures r.Some? <==> !failure && key in rows
      ensures r.Some? ==> r.value == rows[key]
    {
      if failure {
        return None;
      }
      r := Lookup(rows, key);
    }

    /** upsert_cached_stats: update the existing row in place or insert a new one, commit and
        return it; on a database error the session is rolled back and the error re-raised. */
    method UpsertCachedStats(key: string, data: D, utcNow: int, importTime: int, failure: Option<string>)
      returns (r: Result<CacheRow<D>, string>)
      requires Valid()
      modifies this
      ensures Valid()
      ensures failure.Some? ==> r == Failure(failure.value) && unchanged(this)
      ensures failure.None? ==>
        rows == Upsert(old(rows), old(nextId), key, data, utcNow, importTime)
        && r == Success(rows[key])
        && nextId == (if key in old(rows) then old(nextId) else old(nextId) + 1)
    {
      if failure.Some? {
        return Failure(failure.value);
      }
      UpsertKeepsIds(rows, nextId, key, data, utcNow, importTime);
      var existing := Lookup(rows, key);
      if existing.Some? {
        var row := existing.value.(data := data, updatedAt := utcNow);
        rows := rows[key := row];
        r := Success(row);
      } else {
        var row := CacheRow(nextId, data, importTime, importTime);
        rows := rows[key := row];
        nextId := nextId + 1;
        r := Success(row);
      }
    }

    /** delete_cached_stats: look the row up with get_cached_stats (whose errors are
        swallowed, so a failed read answers False), then delete and commit; a database error
        in the delete is rolled back and re-raised. */
    method DeleteCachedStats(key: string, readFailure: bool, failure: Option<string>) returns (r: Result<bool, string>)
      requires Valid()
      modifies this
      ensures Valid() && nextId == old(nextId)
      ensures readFailure || key !in old(rows) ==> r == Success(false) && rows == old(rows)
      ensures !readFailure && key in old(rows) && failure.Some? ==> r == Failure(failure.value) && rows == old(rows)
      ensures !readFailure && key in old(rows) && failure.None? ==> r == Success(true) && rows == old(rows) - {key}
    {
      var existing := GetCachedStats(key, readFailure);
      if existing.None? {
        return Success(false);
      }
      if failure.Some? {
        return Failure(failure.value);
      }
      rows := rows - {key};
      r := Success(true);
    }
  }

  // ---------------------------------------------------------------------------------------
  // The service

  /** CACHE_TTL_MINUTES. */
  const CacheTtlMinutes: int := 1000000
  const MicrosPerMinute: int := 60000000
  /** STATS_OVERVIEW_KEY. */
  const StatsOverviewKey: string := "stats_overview"

  /** The clock readings one request makes: datetime.now() (local time, used for the age),
      datetime.utcnow() (used to stamp an update), and the local time at which the model
      module was imported (the column defaults). */
  datatype Clock = Clock(now: int, utcNow: int, importTime: int)

  /** The distinct values get_distinct_filter returns for each column. */
  datatype DistinctValues = DistinctValues(
    countries: seq<Option<string>>, categories: seq<Option<string>>, devices: seq<Option<string>>,
    channels: seq<Option<string>>, distances: seq<Option<int>>)

  /** `cache_age < timedelta(minutes=CACHE_TTL_MINUTES)`. */
  predicate Fresh<D>(row: CacheRow<D>, now: int) {
    now - row.updatedAt < CacheTtlMinutes * MicrosPerMinute
  }

  /** Whether get_stats_overview answers from the cache: not forced, the read succeeded,
      the row exists (an ORM object is always truthy) and it is younger than the TTL. */
  predicate ServedFromCache<D>(forceRefresh: bool, readFailure: bool, rows: map<string, CacheRow<D>>, now: int) {
    !forceRefresh && !readFailure && StatsOverviewKey in rows && Fresh(rows[StatsOverviewKey], now)
  }

  /** _compute_stats_overview as a value. */
  ghost function ComputedOverview<S>(values: DistinctValues, stats: TransactionFilter -> S): map<Category, map<Key, S>> {
    Overview(ServiceDimensions(values.countries, values.categories, values.devices, values.channels, values.distances), stats)
  }

  /** Once the overview has been written, a later unforced request whose read succeeds is
      served that data exactly while it is younger than the TTL, measured from utcnow() of the
      write when the row existed and from the import time when the write created it. */
  lemma RefreshedOverviewServed<D>(rows: map<string, CacheRow<D>>, nextId: nat, data: D, clock: Clock, later: int)
    ensures var r := Upsert(rows, nextId, StatsOverviewKey, data, clock.utcNow, clock.importTime);
      var stamp := if StatsOverviewKey in rows then clock.utcNow else clock.importTime;
      (ServedFromCache(false, false, r, later) <==> later - stamp < CacheTtlMinutes * MicrosPerMinute)
      && r[StatsOverviewKey].data == data
  {
    UpsertRows(rows, nextId, StatsOverviewKey, data, clock.utcNow, clock.importTime);
  }

  /** A forced refresh or a failed read never answers from the cache; an unforced read of a
      row stamped at the current local time always does. */
  lemma ServedFromCacheCases<D>(rows: map<string, CacheRow<D>>, now: int)
    ensures !ServedFromCache(true, false, rows, now) && !ServedFromCache(false, true, rows, now)
    ensures StatsOverviewKey in rows && rows[StatsOverviewKey].updatedAt == now ==> ServedFromCache(false, false, rows, now)
  {
  }

  /** _compute_stats_overview over the given distinct values. */
  method Recompute<S>(values: DistinctValues, stats: TransactionFilter -> S) returns (response: map<Category, map<Key, S>>)
    ensures response == ComputedOverview(values, stats)
    ensures response.Keys == ServiceCategories
  {
    response := ComputeStatsOverview(values.countries, values.categories, values.devices,
                                     values.channels, values.distances, stats);
  }

  /** StatsCacheService. */
  class StatsCacheService<S> {
    const cacheRepo: StatsCacheRepository<map<Category, map<Key, S>>>

    constructor(repo: StatsCacheRepository<map<Category, map<Key, S>>>)
      ensures cacheRepo == repo
    {
      cacheRepo := repo;
    }

    /** get_stats_overview: answer a fresh cached overview unchanged, with no recompute and
        no write; otherwise recompute the seven categories, upsert them under
        "stats_overview" and answer them. An upsert error propagates. */
    method GetStatsOverview(forceRefresh: bool, values: DistinctValues, stats: TransactionFilter -> S, clock: Clock,
                            readFailure: bool, writeFailure: Option<string>)
      returns (r: Result<map<Category, map<Key, S>>, string>)
      requires cacheRepo.Valid()
      modifies cacheRepo
      ensures cacheRepo.Valid()
      ensures ServedFromCache(forceRefresh, readFailure, old(cacheRepo.rows), clock.now) ==>
        r == Success(old(cacheRepo.rows)[StatsOverviewKey].data) && unchanged(cacheRepo)
      ensures !ServedFromCache(forceRefresh, readFailure, old(cacheRepo.rows), clock.now) && writeFailure.Some? ==>
        r == Failure(writeFailure.value) && unchanged(cacheRepo)
      ensures !ServedFromCache(forceRefresh, readFailure, old(cacheRepo.rows), clock.now) && writeFailure.None? ==>
        r == Success(ComputedOverview(values, stats))
        && cacheRepo.rows == Upsert(old(cacheRepo.rows), old(cacheRepo.nextId), StatsOverviewKey,
                                    ComputedOverview(values, stats), clock.utcNow, clock.importTime)
    {
      if !forceRefresh {
        var cached := cacheRepo.GetCachedStats(StatsOverviewKey, readFailure);
        if cached.Some? {
          if clock.now - cached.value.updatedAt < CacheTtlMinutes * MicrosPerMinute {
            return Success(cached.value.data);
          }
        }
      }
      var statsData := Recompute(values, stats);
      var written := cacheRepo.UpsertCachedStats(StatsOverviewKey, statsData, clock.utcNow, clock.importTime, writeFailure);
      if written.Failure? {
        return Failure(written.error);
      }
      r := Success(statsData);
    }

    /** refresh_cache: get_stats_overview(force_refresh=True), so the overview is always
        recomputed and written. */
    method RefreshCache(values: DistinctValues, stats: TransactionFilter -> S, clock: Clock, writeFailure: Option<string>)
      returns (r: Result<map<Category, map<Key, S>>, string>)
      requires cacheRepo.Valid()
      modifies cacheRepo
      ensures cacheRepo.Valid()
      ensures writeFailure.Some? ==> r == Failure(writeFailure.value) && unchanged(cacheRepo)
      ensures writeFailure.None? ==>
        r == Success(ComputedOverview(values, stats))
        && cacheRepo.rows == Upsert(old(cacheRepo.rows), old(cacheRepo.nextId), StatsOverviewKey,
                                    ComputedOverview(values, stats), clock.utcNow, clock.importTime)
    {
      r := GetStatsOverview(true, values, stats, clock, false, writeFailure);
    }
  }
}
