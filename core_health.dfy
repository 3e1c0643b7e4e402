/**
 * The `health_check` view (backend/src/core/health.py): the three checks run in turn,
 * `health_status` is updated in place after each, and the view returns it. Unlike the view
 * in backend/src/core/utils/health.py, a Redis value that reads back wrong marks Redis
 * unhealthy but leaves the overall status alone.
 */
module CoreHealth {
  import opened Strings
  import opened Assoc
  import opened HealthProbes

  /** The overall status `health_check` ends with: unhealthy exactly when a check raised. */
  function CoreStatus(db: Probe, redis: RedisProbe, storage: Probe): (s: string)
    ensures s == Unhealthy <==> db.Raised? || redis.CacheRaised? || storage.Raised?
    ensures s == Healthy || s == Unhealthy
  {
    if db.Raised? || redis.CacheRaised? || storage.Raised? then Unhealthy else Healthy
  }

  method HealthCheck(db: Probe, redis: RedisProbe, storage: Probe) returns (report: Report)
    ensures report == Report(CoreStatus(db, redis, storage), Services(db, redis, storage))
  {
    var status := Healthy;
    var services: seq<(string, string)> := [];

    match db {
    case Passed =>
      services := Put(services, "database", Healthy);
    case Raised(e) =>
      services := Put(services, "database", "unhealthy: " + e);
      status := Unhealthy;
    }
    assert services == [("database", ProbeValue(db))];

    forall v: string ensures Put(services, "redis", v) == services + [("redis", v)] {
      PutFresh(services, "redis", v);
    }
    match redis {
    case CacheOk =>
      services := Put(services, "redis", Healthy);
    case CacheUnexpected =>
      services := Put(services, "redis", Unhealthy);
    case CacheRaised(e) =>
      services := Put(services, "redis", "unhealthy: " + e);
      status := Unhealthy;
    }
    assert services == [("database", ProbeValue(db)), ("redis", RedisValue(redis))];

    forall v: string ensures Put(services, "storage", v) == services + [("storage", v)] {
      PutFresh(services, "storage", v);
    }
    match storage {
    case Passed =>
      services := Put(services, "storage", Healthy);
    case Raised(e) =>
      services := Put(services, "storage", "unhealthy: " + e);
      status := Unhealthy;
    }

    report := Report(status, services);
  }

  /**
   * The overall status is unhealthy exactly when some service entry records an exception;
   * an entry of plain `"unhealthy"` (the wrong Redis value) does not count.
   */
  lemma CoreStatusFromEntries(db: Probe, redis: RedisProbe, storage: Probe)
    ensures var s := Services(db, redis, storage);
      CoreStatus(db, redis, storage) == Unhealthy <==>
      exists i | 0 <= i < |s| :: StartsWith(s[i].1, "unhealthy: ")
  {
    RaisedEntries(db, redis, storage);
  }

  /** A wrong Redis value changes the Redis entry and nothing else about the report. */
  lemma UnexpectedRedisKeepsStatus(db: Probe, storage: Probe)
    ensures CoreStatus(db, CacheUnexpected, storage) == CoreStatus(db, CacheOk, storage)
    ensures Services(db, CacheUnexpected, storage)[1] == ("redis", Unhealthy)
  {
  }
}
