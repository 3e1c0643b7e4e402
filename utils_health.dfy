/**
 * The `view_healthcheck` view (backend/src/core/utils/health.py): the three checks run in
 * turn, `health_status` is updated in place after each, every step is logged through the
 * shared `PackLogger`, and the view returns the status. Here any Redis failure, a wrong
 * value read back included, makes the overall status unhealthy.
 */
module UtilsHealth {
  import opened Wrappers
  import opened Assoc
  import opened JsonValue
  import opened BackendLogger
  import opened HealthProbes

  const Endpoint := "/api/health/"

  /** The overall status `view_healthcheck` ends with: healthy only when every check passed. */
  function UtilsStatus(db: Probe, redis: RedisProbe, storage: Probe): (s: string)
    ensures s == Healthy <==> db.Passed? && redis.CacheOk? && storage.Passed?
    ensures s == Healthy || s == Unhealthy
  {
    if db.Raised? || !redis.CacheOk? || storage.Raised? then Unhealthy else Healthy
  }

  /** The call logged after a database or storage check. */
  function ProbeCall(p: Probe, passed: string, failed: string): LoggerCall
  {
    match p
    case Passed => LoggerCall(PyLevel.Debug, passed, [])
    case Raised(e) => LoggerCall(PyLevel.Error, failed, [("error", JStr(e))])
  }

  /** The call logged after the Redis check. */
  function RedisCall(p: RedisProbe): LoggerCall
  {
    match p
    case CacheOk => LoggerCall(PyLevel.Debug, "Redis health check passed", [])
    case CacheUnexpected =>
      LoggerCall(PyLevel.Warning, "Redis health check failed - cache get returned unexpected value", [])
    case CacheRaised(e) => LoggerCall(PyLevel.Error, "Redis health check failed", [("error", JStr(e))])
  }

  /** The closing call: `success` (which logs at info) when healthy, `warning` with the status otherwise. */
  function FinalCall(status: string, services: seq<(string, string)>): LoggerCall
  {
    if status == Healthy then
      LoggerCall(PyLevel.Info, "Health check completed successfully", [("services", ServicesJson(services))])
    else
      LoggerCall(PyLevel.Warning, "Health check completed with errors",
                 [("status", JStr(status)), ("services", ServicesJson(services))])
  }

  /** The opening `log.debug`. */
  const StartCall := LoggerCall(PyLevel.Debug, "Health check called", [("endpoint", JStr(Endpoint))])

  const DbPassed := "Database health check passed"
  const DbFailed := "Database health check failed"
  const StoragePassed := "Storage (S3/MinIO) health check passed"
  const StorageFailed := "Storage (S3/MinIO) health check failed"

  /** Every call one `view_healthcheck` logs, in order. */
  function HealthLog(db: Probe, redis: RedisProbe, storage: Probe): seq<LoggerCall>
  {
    [StartCall,
     ProbeCall(db, DbPassed, DbFailed),
     RedisCall(redis),
     ProbeCall(storage, StoragePassed, StorageFailed),
     FinalCall(UtilsStatus(db, redis, storage), Services(db, redis, storage))]
  }

  /** One logging call at a level other than `success`, with data that neither collides nor holds `None`. */
  method Emit(log: PackLogger, level: PyLevel, message: string, kwargs: Fields)
    requires level != PyLevel.Success && !Collides(kwargs)
    requires forall i | 0 <= i < |kwargs| :: !kwargs[i].1.JNull?
    modifies log, log.console
    ensures log.calls == old(log.calls) + [LoggerCall(level, message, kwargs)]
    ensures log.console.lines == old(log.console.lines) + Printed(level, message, kwargs)
  {
    DropNoneNoNull(kwargs);
    var _ := log.Forward(level, message, kwargs);
  }

  /** The `log.debug` of a passing check or the `log.error` of a raising one. */
  method LogProbe(log: PackLogger, p: Probe, passed: string, failed: string)
    modifies log, log.console
    ensures var c := ProbeCall(p, passed, failed);
      log.calls == old(log.calls) + [c] && log.console.lines == old(log.console.lines) + Printed(c.level, c.message, c.extra)
  {
    match p {
    case Passed => Emit(log, PyLevel.Debug, passed, []);
    case Raised(e) => Emit(log, PyLevel.Error, failed, [("error", JStr(e))]);
    }
  }

  method LogRedis(log: PackLogger, p: RedisProbe)
    modifies log, log.console
    ensures var c := RedisCall(p);
      log.calls == old(log.calls) + [c] && log.console.lines == old(log.console.lines) + Printed(c.level, c.message, c.extra)
  {
    match p {
    case CacheOk => Emit(log, PyLevel.Debug, "Redis health check passed", []);
    case CacheUnexpected =>
      Emit(log, PyLevel.Warning, "Redis health check failed - cache get returned unexpected value", []);
    case CacheRaised(e) => Emit(log, PyLevel.Error, "Redis health check failed", [("error", JStr(e))]);
    }
  }

  method LogFinal(log: PackLogger, status: string, services: seq<(string, string)>)
    modifies log, log.console
    ensures var c := FinalCall(status, services);
      log.calls == old(log.calls) + [c] && log.console.lines == old(log.console.lines) + Printed(c.level, c.message, c.extra)
  {
    if status == Healthy {
      DropNoneNoNull([("services", ServicesJson(services))]);
      var _ := log.Success("Health check completed successfully", [("services", ServicesJson(services))]);
    } else {
      Emit(log, PyLevel.Warning, "Health check completed with errors",
           [("status", JStr(status)), ("services", ServicesJson(services))]);
    }
  }

  method ViewHealthcheck(db: Probe, redis: RedisProbe, storage: Probe, log: PackLogger) returns (report: Report)
    modifies log, log.console
    ensures report == Report(UtilsStatus(db, redis, storage), Services(db, redis, storage))
    ensures log.calls == old(log.calls) + HealthLog(db, redis, storage)
    ensures log.console.lines == old(log.console.lines) + PrintedAll(HealthLog(db, redis, storage))
  {
    ghost var calls0, lines0 := log.calls, log.console.lines;
    ghost var done: seq<LoggerCall> := [];
    assert calls0 + done == calls0 && lines0 + PrintedAll(done) == lines0;
    Emit(log, PyLevel.Debug, "Health check called", [("endpoint", JStr(Endpoint))]);
    LoggedStep(calls0, lines0, done, StartCall);
    done := done + [StartCall];
    assert log.calls == calls0 + done && log.console.lines == lines0 + PrintedAll(done);

    var status := Healthy;
    var services: seq<(string, string)> := [];

    services := Put(services, "database", ProbeValue(db));
    if db.Raised? {
      status := Unhealthy;
    }
    LogProbe(log, db, DbPassed, DbFailed);
    LoggedStep(calls0, lines0, done, ProbeCall(db, DbPassed, DbFailed));
    done := done + [ProbeCall(db, DbPassed, DbFailed)];
    assert log.calls == calls0 + done && log.console.lines == lines0 + PrintedAll(done);

    services := Put(services, "redis", RedisValue(redis));
    if !redis.CacheOk? {
      status := Unhealthy;
    }
    LogRedis(log, redis);
    LoggedStep(calls0, lines0, done, RedisCall(redis));
    done := done + [RedisCall(redis)];
    assert log.calls == calls0 + done && log.console.lines == lines0 + PrintedAll(done);

    services := Put(services, "storage", ProbeValue(storage));
    if storage.Raised? {
      status := Unhealthy;
    }
    LogProbe(log, storage, StoragePassed, StorageFailed);
    LoggedStep(calls0, lines0, done, ProbeCall(storage, StoragePassed, StorageFailed));
    done := done + [ProbeCall(storage, StoragePassed, StorageFailed)];
    assert log.calls == calls0 + done && log.console.lines == lines0 + PrintedAll(done);

    ServicesBuilt(db, redis, storage);
    assert status == UtilsStatus(db, redis, storage);
    LogFinal(log, status, services);
    LoggedStep(calls0, lines0, done, FinalCall(status, services));
    done := done + [FinalCall(status, services)];
    assert log.calls == calls0 + done && log.console.lines == lines0 + PrintedAll(done);
    HealthLogSteps(db, redis, storage);
    assert done == HealthLog(db, redis, storage);

    report := Report(status, services);
  }

  /** Logging one more call extends both the recorded calls and the console by that call. */
  lemma LoggedStep(calls0: seq<LoggerCall>, lines0: seq<ConsoleLine>, done: seq<LoggerCall>, c: LoggerCall)
    ensures calls0 + done + [c] == calls0 + (done + [c])
    ensures lines0 + PrintedAll(done) + Printed(c.level, c.message, c.extra) == lines0 + PrintedAll(done + [c])
  {
    PrintedAllSnoc(done, c);
  }

  /** The three `health_status["services"][...] = ...` assignments build the services dict. */
  lemma ServicesBuilt(db: Probe, redis: RedisProbe, storage: Probe)
    ensures Put(Put(Put([], "database", ProbeValue(db)), "redis", RedisValue(redis)), "storage", ProbeValue(storage))
      == Services(db, redis, storage)
  {
    var s1 := Put([], "database", ProbeValue(db));
    assert s1 == [("database", ProbeValue(db))];
    PutFresh(s1, "redis", RedisValue(redis));
    var s2 := Put(s1, "redis", RedisValue(redis));
    PutFresh(s2, "storage", ProbeValue(storage));
  }

  lemma HealthLogSteps(db: Probe, redis: RedisProbe, storage: Probe)
    ensures [] + [StartCall] + [ProbeCall(db, DbPassed, DbFailed)] + [RedisCall(redis)]
      + [ProbeCall(storage, StoragePassed, StorageFailed)]
      + [FinalCall(UtilsStatus(db, redis, storage), Services(db, redis, storage))] == HealthLog(db, redis, storage)
  {
  }

  /** The overall status is healthy exactly when every service entry is `"healthy"`. */
  lemma UtilsStatusFromEntries(db: Probe, redis: RedisProbe, storage: Probe)
    ensures var s := Services(db, redis, storage);
      UtilsStatus(db, redis, storage) == Healthy <==> forall i | 0 <= i < |s| :: s[i].1 == Healthy
  {
    var s := Services(db, redis, storage);
    if UtilsStatus(db, redis, storage) != Healthy {
      if db.Raised? { assert s[0].1 != Healthy; }
      else if !redis.CacheOk? { assert s[1].1 != Healthy; }
      else { assert s[2].1 != Healthy; }
    }
  }

  /** The closing call is at info (through `success`) exactly when the status is healthy, else at warning. */
  lemma FinalLogLevel(db: Probe, redis: RedisProbe, storage: Probe)
    ensures var calls := HealthLog(db, redis, storage);
      |calls| == 5 &&
      (calls[4].level == PyLevel.Info <==> UtilsStatus(db, redis, storage) == Healthy) &&
      (calls[4].level == PyLevel.Warning <==> UtilsStatus(db, redis, storage) == Unhealthy) &&
      Lookup(calls[4].extra, "services") == Some(ServicesJson(Services(db, redis, storage)))
  {
    var c := HealthLog(db, redis, storage)[4];
    if UtilsStatus(db, redis, storage) == Healthy {
      LookupCons(c.extra[0], [], "services");
      assert c.extra == [c.extra[0]] + [];
    } else {
      LookupCons(c.extra[0], [c.extra[1]], "services");
      LookupCons(c.extra[1], [], "services");
      assert c.extra == [c.extra[0]] + ([c.extra[1]] + []);
    }
  }

  /** Some call is logged at error exactly when some check raised, and each carries the exception text. */
  lemma ErrorCalls(db: Probe, redis: RedisProbe, storage: Probe)
    ensures var calls := HealthLog(db, redis, storage);
      (exists i | 0 <= i < |calls| :: calls[i].level == PyLevel.Error) <==>
      (db.Raised? || redis.CacheRaised? || storage.Raised?)
    ensures db.Raised? ==> HealthLog(db, redis, storage)[1].extra == [("error", JStr(db.error))]
    ensures redis.CacheRaised? ==> HealthLog(db, redis, storage)[2].extra == [("error", JStr(redis.error))]
    ensures storage.Raised? ==> HealthLog(db, redis, storage)[3].extra == [("error", JStr(storage.error))]
  {
    var calls := HealthLog(db, redis, storage);
    assert calls[0].level != PyLevel.Error && calls[4].level != PyLevel.Error;
    assert calls[1].level == PyLevel.Error <==> db.Raised?;
    assert calls[2].level == PyLevel.Error <==> redis.CacheRaised?;
    assert calls[3].level == PyLevel.Error <==> storage.Raised?;
  }
}
