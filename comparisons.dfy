/**
 * Properties that relate the components to each other: the two health views, the health
 * screen reading either view's report, the log screen reading the log endpoint, and the
 * frontend and backend loggers' differing rules for the same inputs.
 */
module Comparisons {
  import opened Wrappers
  import opened Strings
  import opened JsonValue
  import HealthProbes
  import CoreHealth
  import UtilsHealth
  import HealthScreen
  import LogView
  import LogsScreen
  import FrontendLogger
  import BackendLogger
  import LoggingMiddleware

  // ---------------------------------------------------------------- the two health views

  /** The views report the same services; their statuses differ exactly when Redis reads back a wrong value. */
  lemma HealthViewsDiffer(db: HealthProbes.Probe, redis: HealthProbes.RedisProbe, storage: HealthProbes.Probe)
    ensures UtilsHealth.UtilsStatus(db, redis, storage) != CoreHealth.CoreStatus(db, redis, storage) <==>
      redis.CacheUnexpected? && db.Passed? && storage.Passed?
    ensures redis.CacheUnexpected? && db.Passed? && storage.Passed? ==>
      UtilsHealth.UtilsStatus(db, redis, storage) == HealthProbes.Unhealthy &&
      CoreHealth.CoreStatus(db, redis, storage) == HealthProbes.Healthy
  {
  }

  // ---------------------------------------------------------------- health screen on either report

  lemma HealthyFacts()
    ensures Contains("healthy", "healthy")
    ensures !Contains("healthy", "unhealthy") && !Contains("healthy", "error")
  {
    assert OccursAt("healthy", "healthy", 0);
    NotContainsWithoutChar("healthy", "error", 1);
  }

  /** As written, the screen draws every status either view can report in the success colour with a check mark. */
  lemma AsWrittenScreenAllGreen(p: HealthProbes.Probe, r: HealthProbes.RedisProbe, status: string)
    requires status == HealthProbes.Healthy || status == HealthProbes.Unhealthy
    ensures HealthScreen.StatusColorAsWritten(HealthProbes.ProbeValue(p)) == HealthScreen.SuccessColor
    ensures HealthScreen.StatusColorAsWritten(HealthProbes.RedisValue(r)) == HealthScreen.SuccessColor
    ensures HealthScreen.StatusColorAsWritten(status) == HealthScreen.SuccessColor
    ensures HealthScreen.BadgeAsWritten(HealthProbes.ProbeValue(p)) == "✓"
  {
    HealthyFacts();
    HealthScreen.AsWrittenUnhealthyLooksHealthy(if p.Raised? then p.error else "");
    HealthScreen.AsWrittenUnhealthyLooksHealthy(if r.CacheRaised? then r.error else "");
  }

  /** With the failure tests first, a service is green exactly when its check passed, and red otherwise. */
  lemma CorrectedScreenColours(p: HealthProbes.Probe, r: HealthProbes.RedisProbe)
    ensures HealthScreen.StatusColor(HealthProbes.ProbeValue(p)) ==
      if p.Passed? then HealthScreen.SuccessColor else HealthScreen.ErrorColor
    ensures HealthScreen.StatusColor(HealthProbes.RedisValue(r)) ==
      if r.CacheOk? then HealthScreen.SuccessColor else HealthScreen.ErrorColor
    ensures HealthScreen.StatusColor(HealthProbes.Unhealthy) == HealthScreen.ErrorColor
  {
    HealthyFacts();
    assert OccursAt("unhealthy", "unhealthy", 0);
    HealthScreen.StartsWithUnhealthy(if p.Raised? then p.error else "");
    HealthScreen.StartsWithUnhealthy(if r.CacheRaised? then r.error else "");
  }

  /** The services both views report are shown as Database, Redis and Storage. */
  lemma ServiceNamesShown(db: HealthProbes.Probe, redis: HealthProbes.RedisProbe, storage: HealthProbes.Probe)
    ensures var s := HealthProbes.Services(db, redis, storage);
      HealthScreen.Capitalize(s[0].0) == "Database" && HealthScreen.Capitalize(s[1].0) == "Redis" &&
      HealthScreen.Capitalize(s[2].0) == "Storage"
  {
  }

  // ---------------------------------------------------------------- log screen on the log endpoint

  /** The HTTP client resolves 2xx responses with their body and rejects every other status. */
  function ClientResult(r: LogView.Response): (res: LogsScreen.LogsResult)
    ensures res.LogsFetched? <==> 200 <= r.status < 300
    ensures res.LogsFailed? ==> res.status == Some(r.status)
  {
    if 200 <= r.status < 300 then LogsScreen.LogsFetched(JObj(r.body)) else LogsScreen.LogsFailed(Some(r.status))
  }

  /**
   * The screen shows the endpoint's own texts for 403 and 404, the body of a readable file,
   * and its generic text for a read failure, whose detail it drops.
   */
  lemma LogScreenOnEndpoint(debug: bool, file: LogView.LogFile)
    ensures var res := ClientResult(LogView.ViewLogs(debug, file));
      (!debug ==> res.LogsFailed? && LogsScreen.FailureMessage(res.status) == LogView.DevOnlyText) &&
      (debug && file.Missing? ==> res.LogsFailed? && LogsScreen.FailureMessage(res.status) == LogView.NotFoundText) &&
      (debug && file.ReadError? ==> res.LogsFailed? && LogsScreen.FailureMessage(res.status) == LogsScreen.GenericMessage) &&
      (debug && file.Lines? ==> res == LogsScreen.LogsFetched(JObj(LogView.ViewLogs(debug, file).body)))
  {
  }

  // ---------------------------------------------------------------- the two loggers' rules

  /** No frontend pattern occurs in `api_key`. */
  lemma SnakeKeyMissesFrontendPatterns()
    ensures forall j | 0 <= j < |FrontendLogger.SensitivePatterns| ::
      !Contains("api_key", Lower(FrontendLogger.SensitivePatterns[j]))
  {
    forall j | 0 <= j < |FrontendLogger.SensitivePatterns|
      ensures !Contains("api_key", Lower(FrontendLogger.SensitivePatterns[j]))
    {
      var p := Lower(FrontendLogger.SensitivePatterns[j]);
      if j == 0 { assert p == "password"; NotContainsWithoutChar("api_key", p, 2); }
      else if j == 1 { assert p == "token"; NotContainsWithoutChar("api_key", p, 0); }
      else if j == 2 { assert p == "secret"; NotContainsWithoutChar("api_key", p, 0); }
      else if j == 3 {
        assert p == "apikey";
        assert !OccursAt("api_key", p, 0) by { assert "api_key"[3] != p[3]; }
        assert !OccursAt("api_key", p, 1) by { assert "api_key"[1] != p[0]; }
      }
      else if j == 4 { assert p == "cardnumber"; NotContainsWithoutChar("api_key", p, 0); }
      else { assert p == "cvv"; NotContainsWithoutChar("api_key", p, 0); }
    }
  }

  /** No middleware field name occurs in `apikey`. */
  lemma CamelKeyMissesMiddlewareFields()
    ensures forall j | 0 <= j < |LoggingMiddleware.SensitiveBodyFields| ::
      !Contains("apikey", LoggingMiddleware.SensitiveBodyFields[j])
  {
    forall j | 0 <= j < |LoggingMiddleware.SensitiveBodyFields|
      ensures !Contains("apikey", LoggingMiddleware.SensitiveBodyFields[j])
    {
      var p := LoggingMiddleware.SensitiveBodyFields[j];
      if j == 0 { NotContainsWithoutChar("apikey", p, 2); }
      else if j == 1 { NotContainsWithoutChar("apikey", p, 0); }
      else if j == 2 { NotContainsWithoutChar("apikey", p, 0); }
      else if j == 3 { NotContainsWithoutChar("apikey", p, 3); }
      else if j == 4 { NotContainsWithoutChar("apikey", p, 1); }
      else if j == 5 { NotContainsWithoutChar("apikey", p, 0); }
      else if j == 6 { NotContainsWithoutChar("apikey", p, 0); }
      else if j == 7 { NotContainsWithoutChar("apikey", p, 0); }
      else { NotContainsWithoutChar("apikey", p, 0); }
    }
  }

  /** `api_key` is masked by the middleware but not by the frontend logger; `apiKey` the other way round. */
  lemma MaskingRulesDiffer()
    ensures LoggingMiddleware.IsSensitiveField("api_key") && !FrontendLogger.IsSensitiveKey("api_key")
    ensures FrontendLogger.IsSensitiveKey("apiKey") && !LoggingMiddleware.IsSensitiveField("apiKey")
  {
    assert Lower("api_key") == "api_key";
    assert OccursAt("api_key", "api_key", 0);
    assert LoggingMiddleware.SensitiveBodyFields[3] == "api_key";
    assert Lower("apiKey") == "apikey";
    assert Lower(FrontendLogger.SensitivePatterns[3]) == "apikey";
    assert OccursAt("apikey", "apikey", 0);
    SnakeKeyMissesFrontendPatterns();
    CamelKeyMissesMiddlewareFields();
  }

  /** The loggers agree above 399 and disagree below 200 and from 300 to 399, where only the backend calls it info. */
  lemma ResponseLevelsDiffer(status: int)
    ensures status >= 500 <==>
      FrontendLogger.ResponseLevel(status) == FrontendLogger.Error && BackendLogger.ResponseLevel(status) == BackendLogger.Error
    ensures 400 <= status < 500 <==>
      FrontendLogger.ResponseLevel(status) == FrontendLogger.Warn && BackendLogger.ResponseLevel(status) == BackendLogger.Warning
    ensures (status < 200 || 300 <= status < 400) <==>
      FrontendLogger.ResponseLevel(status) == FrontendLogger.Warn && BackendLogger.ResponseLevel(status) == BackendLogger.Info
  {
  }
}
