/**
 * What the two health views (backend/src/core/utils/health.py and
 * backend/src/core/health.py) learn from their three service checks, and the report they
 * both return. The database query, the Redis round trip and the S3 `head_bucket` call are
 * not modelled: each is an input that says how the check ended.
 */
module HealthProbes {
  import opened Wrappers
  import opened Strings
  import opened Assoc
  import opened JsonValue

  /** A check that either completes or raises an exception whose text is `error`. */
  datatype Probe = Passed | Raised(error: string)

  /** The Redis check: the value read back is `'ok'`, is something else, or the cache raises. */
  datatype RedisProbe = CacheOk | CacheUnexpected | CacheRaised(error: string)

  /** `health_status`: the overall status and the `services` dict in insertion order. */
  datatype Report = Report(status: string, services: seq<(string, string)>)

  const Healthy := "healthy"
  const Unhealthy := "unhealthy"

  /** The service entry for a completed or a raising check. */
  function ProbeValue(p: Probe): (r: string)
    ensures p.Passed? <==> r == Healthy
    ensures p.Raised? ==> r == "unhealthy: " + p.error
  {
    match p
    case Passed => Healthy
    case Raised(e) => "unhealthy: " + e
  }

  /** The Redis entry: `"unhealthy"` with no detail when the value read back is wrong. */
  function RedisValue(p: RedisProbe): (r: string)
    ensures p.CacheOk? <==> r == Healthy
    ensures p.CacheUnexpected? ==> r == Unhealthy
    ensures p.CacheRaised? ==> r == "unhealthy: " + p.error
  {
    match p
    case CacheOk => Healthy
    case CacheUnexpected => Unhealthy
    case CacheRaised(e) => "unhealthy: " + e
  }

  /** The `services` dict both views build: one entry per check, in the order of the checks. */
  function Services(db: Probe, redis: RedisProbe, storage: Probe): seq<(string, string)>
  {
    [("database", ProbeValue(db)), ("redis", RedisValue(redis)), ("storage", ProbeValue(storage))]
  }

  /** The services dict as the JSON object `JsonResponse` serialises. */
  function ServicesJson(s: seq<(string, string)>): (r: Json)
    ensures r.JObj? && |r.fields| == |s|
    ensures forall i | 0 <= i < |s| :: r.fields[i] == (s[i].0, JStr(s[i].1))
  {
    JObj(seq(|s|, i requires 0 <= i < |s| => (s[i].0, JStr(s[i].1))))
  }

  /** The body of `JsonResponse(health_status)`. */
  function ReportBody(r: Report): Fields
  {
    [("status", JStr(r.status)), ("services", ServicesJson(r.services))]
  }

  /** Both views report the three services under their names, in check order, without duplicates. */
  lemma ServicesKeys(db: Probe, redis: RedisProbe, storage: Probe)
    ensures Keys(Services(db, redis, storage)) == ["database", "redis", "storage"]
    ensures DistinctKeys(Services(db, redis, storage))
  {
  }

  /** A raising check, and only a raising check, leaves an entry that starts `unhealthy: `. */
  lemma RaisedEntries(db: Probe, redis: RedisProbe, storage: Probe)
    ensures var s := Services(db, redis, storage);
      (db.Raised? || redis.CacheRaised? || storage.Raised?) <==>
      exists i | 0 <= i < |s| :: StartsWith(s[i].1, "unhealthy: ")
  {
    var s := Services(db, redis, storage);
    assert !StartsWith(Healthy, "unhealthy: ");
    assert !StartsWith(Unhealthy, "unhealthy: ");
    assert forall e: string :: StartsWith("unhealthy: " + e, "unhealthy: ") by {
      forall e: string ensures StartsWith("unhealthy: " + e, "unhealthy: ") {
        assert ("unhealthy: " + e)[..|"unhealthy: "|] == "unhealthy: ";
      }
    }
    if db.Raised? {
      assert StartsWith(s[0].1, "unhealthy: ");
    } else if redis.CacheRaised? {
      assert StartsWith(s[1].1, "unhealthy: ");
    } else if storage.Raised? {
      assert StartsWith(s[2].1, "unhealthy: ");
    }
  }

  lemma LookupPairEntries(a: (string, Json), b: (string, Json), k: string)
    ensures Lookup([a, b], k) == if a.0 == k then Some(a.1) else if b.0 == k then Some(b.1) else None
  {
    assert [a, b] == [a] + ([b] + []);
    LookupCons(a, [b] + [], k);
    LookupCons(b, [], k);
  }

  /** The response body carries the status and every service entry as a string. */
  lemma ReportBodyFields(r: Report)
    ensures Lookup(ReportBody(r), "status") == Some(JStr(r.status))
    ensures Lookup(ReportBody(r), "services").Some?
    ensures var s := Lookup(ReportBody(r), "services").value;
      s.JObj? && Keys(s.fields) == Keys(r.services) &&
      forall i | 0 <= i < |r.services| :: s.fields[i].1 == JStr(r.services[i].1)
  {
    var b := ReportBody(r);
    LookupPairEntries(b[0], b[1], "status");
    LookupPairEntries(b[0], b[1], "services");
    var s := ServicesJson(r.services);
    assert |Keys(s.fields)| == |Keys(r.services)|;
    assert forall i | 0 <= i < |r.services| :: Keys(s.fields)[i] == Keys(r.services)[i];
  }
}
