/**
 * The Python `PackLogger` and `configure_logging`
 * (packages/pack-logger/backend/pack_logger/logger.py).
 *
 * Each `_log` call prints the message to the shared Rich console, prints the non-`None`
 * keyword data after it when there is any, and hands the message and that data to the
 * standard `logging.Logger` method of the level. Console lines and logger calls are
 * recorded as values; Rich styling, JSON pretty-printing and the standard library's own
 * level filtering are not modelled. Python's `None` is `JNull`.
 */
module BackendLogger {
  import opened Wrappers
  import opened Strings
  import opened Assoc
  import opened JsonValue

  /** The level names `_log` accepts. */
  datatype PyLevel = Debug | Info | Warning | Error | Success

  function LevelName(l: PyLevel): string
  {
    match l
    case Debug => "debug"
    case Info => "info"
    case Warning => "warning"
    case Error => "error"
    case Success => "success"
  }

  /** One `console.print`: a styled message, or the dumped data. */
  datatype ConsoleLine = Text(text: string, style: string) | Dump(data: Fields)

  /** One call `log_func(message, extra={'extra_data': extra})` on the standard logger. */
  datatype LoggerCall = LoggerCall(level: PyLevel, message: string, extra: Fields)

  /**
   * How a logging call ends: normally, with a `TypeError` because the keyword data holds
   * `self`, `level` or `message` (which the method already binds), or with an `AttributeError` because
   * `logging.Logger` has no `success` method.
   */
  datatype Outcome = Done | TypeError | AttributeError

  /** The global Rich console, shared by every logger. */
  class Console {
    var lines: seq<ConsoleLine>

    constructor()
      ensures lines == []
    {
      lines := [];
    }
  }

  // ---------------------------------------------------------------- the record

  /** `{k: v for k, v in kwargs.items() if v is not None}`. */
  function DropNone(d: Fields): (r: Fields)
    ensures forall i | 0 <= i < |r| :: !r[i].1.JNull?
    ensures forall e :: e in r <==> e in d && !e.1.JNull?
    ensures |r| <= |d|
  {
    if d == [] then []
    else if d[0].1.JNull? then
      assert forall e :: e in d <==> e == d[0] || e in d[1..];
      DropNone(d[1..])
    else
      assert forall e :: e in d <==> e == d[0] || e in d[1..];
      [d[0]] + DropNone(d[1..])
  }

  /** In a dict, a key keeps its value after dropping `None`s, unless that value is `None`. */
  lemma {:induction false} LookupDropNone(d: Fields, k: string)
    requires DistinctKeys(d)
    ensures Lookup(DropNone(d), k) ==
      if Lookup(d, k).Some? && !Lookup(d, k).value.JNull? then Lookup(d, k) else None
  {
    if d != [] {
      var t := d[1..];
      assert DistinctKeys(t) by {
        forall i, j | 0 <= i < j < |t| ensures t[i].0 != t[j].0 {
          assert t[i] == d[i + 1] && t[j] == d[j + 1];
        }
      }
      LookupDropNone(t, k);
      LookupCons(d[0], t, k);
      assert d == [d[0]] + t;
      if d[0].0 == k {
        assert !HasKey(t, k) by {
          forall i | 0 <= i < |t| ensures t[i].0 != k {
            assert t[i] == d[i + 1];
          }
        }
      }
      if !d[0].1.JNull? {
        LookupCons(d[0], DropNone(t), k);
      }
    }
  }

  /**
   * Keyword data that rebinds a named parameter: `self`, `level` and `message` are bound
   * already, so Python raises `TypeError` before the method body runs.
   */
  predicate Collides(data: Fields)
  {
    HasKey(data, "self") || HasKey(data, "level") || HasKey(data, "message")
  }

  function CallOutcome(level: PyLevel, data: Fields): (o: Outcome)
    ensures o == Done <==> !Collides(data) && level != Success
  {
    if Collides(data) then TypeError else if level == Success then AttributeError else Done
  }

  /** What `_log` prints: the message in the level's style, then the data only when there is any. */
  function Printed(level: PyLevel, message: string, extra: Fields): (r: seq<ConsoleLine>)
    ensures |r| == if |extra| > 0 then 2 else 1
    ensures r[0] == Text(message, LevelName(level))
    ensures |extra| > 0 ==> r[1] == Dump(extra)
  {
    if |extra| > 0 then [Text(message, LevelName(level)), Dump(extra)]
    else [Text(message, LevelName(level))]
  }

  /** Data without `None` values is logged as it is. */
  lemma {:induction false} DropNoneNoNull(d: Fields)
    requires forall i | 0 <= i < |d| :: !d[i].1.JNull?
    ensures DropNone(d) == d
  {
    if d != [] {
      var t := d[1..];
      assert forall i | 0 <= i < |t| :: !t[i].1.JNull? by {
        forall i | 0 <= i < |t| ensures !t[i].1.JNull? {
          assert t[i] == d[i + 1];
        }
      }
      DropNoneNoNull(t);
      assert !d[0].1.JNull?;
      assert DropNone(d) == [d[0]] + DropNone(t);
      assert d == [d[0]] + t;
    }
  }

  /** The console lines of a run of calls that all ended normally, in call order. */
  function PrintedAll(calls: seq<LoggerCall>): (r: seq<ConsoleLine>)
    ensures |r| >= |calls|
    ensures calls != [] ==> r[0] == Text(calls[0].message, LevelName(calls[0].level))
  {
    if calls == [] then []
    else Printed(calls[0].level, calls[0].message, calls[0].extra) + PrintedAll(calls[1..])
  }

  lemma {:induction false} PrintedAllAppend(a: seq<LoggerCall>, b: seq<LoggerCall>)
    ensures PrintedAll(a + b) == PrintedAll(a) + PrintedAll(b)
  {
    if a != [] {
      assert (a + b)[0] == a[0];
      assert (a + b)[1..] == a[1..] + b;
      PrintedAllAppend(a[1..], b);
      assert PrintedAll(a + b) == Printed(a[0].level, a[0].message, a[0].extra) + PrintedAll(a[1..] + b);
    } else {
      assert a + b == b;
    }
  }

  lemma PrintedAllSnoc(a: seq<LoggerCall>, c: LoggerCall)
    ensures PrintedAll(a + [c]) == PrintedAll(a) + Printed(c.level, c.message, c.extra)
  {
    PrintedAllAppend(a, [c]);
    assert [c][1..] == [];
  }

  // ---------------------------------------------------------------- api_request

  /** The named parameters of `api_request`: Python binds these, so `**kwargs` never holds them. */
  const RequestParams: seq<string> := ["method", "path", "user", "ip", "headers", "query_params", "body", "content_type"]

  /** `request_data` before the `**kwargs` update. */
  function RequestBase(httpMethod: string, path: string, user: Json, ip: Json,
                       headers: Json, queryParams: Json, body: Json, contentType: Json): Fields
  {
    var r0: Fields := [("method", JStr(httpMethod)), ("path", JStr(path)), ("user", user), ("ip", ip)];
    var r1 := PutIf(r0, PyTruthy(headers), "headers", headers);
    var r2 := PutIf(r1, PyTruthy(queryParams), "query_params", queryParams);
    var r3 := PutIf(r2, !body.JNull?, "body", body);
    PutIf(r3, PyTruthy(contentType), "content_type", contentType)
  }

  /** `request_data` as passed to `_log`: the base record updated with the extra keyword data. */
  function RequestRecord(httpMethod: string, path: string, user: Json, ip: Json,
                         headers: Json, queryParams: Json, body: Json, contentType: Json, kwargs: Fields): Fields
  {
    Update(RequestBase(httpMethod, path, user, ip, headers, queryParams, body, contentType), kwargs)
  }

  /** What the base request record holds under each key. */
  function RequestField(httpMethod: string, path: string, user: Json, ip: Json,
                        headers: Json, queryParams: Json, body: Json, contentType: Json, k: string): Option<Json>
  {
    if k == "method" then Some(JStr(httpMethod))
    else if k == "path" then Some(JStr(path))
    else if k == "user" then Some(user)
    else if k == "ip" then Some(ip)
    else if k == "headers" then (if PyTruthy(headers) then Some(headers) else None)
    else if k == "query_params" then (if PyTruthy(queryParams) then Some(queryParams) else None)
    else if k == "body" then (if !body.JNull? then Some(body) else None)
    else if k == "content_type" then (if PyTruthy(contentType) then Some(contentType) else None)
    else None
  }

  lemma LookupFour(a: (string, Json), b: (string, Json), c: (string, Json), e: (string, Json), k: string)
    ensures Lookup([a, b, c, e], k) ==
      if a.0 == k then Some(a.1) else if b.0 == k then Some(b.1)
      else if c.0 == k then Some(c.1) else if e.0 == k then Some(e.1) else None
  {
    assert [a, b, c, e] == [a] + ([b] + ([c] + ([e] + [])));
    LookupCons(a, [b] + ([c] + ([e] + [])), k);
    LookupCons(b, [c] + ([e] + []), k);
    LookupCons(c, [e] + [], k);
    LookupCons(e, [], k);
  }

  /**
   * `method`, `path`, `user` and `ip` are always set, `headers`, `query_params` and
   * `content_type` only when truthy, `body` whenever it is not `None`, and nothing else;
   * the keys are distinct.
   */
  lemma RequestBaseFields(httpMethod: string, path: string, user: Json, ip: Json,
                          headers: Json, queryParams: Json, body: Json, contentType: Json, k: string)
    ensures Lookup(RequestBase(httpMethod, path, user, ip, headers, queryParams, body, contentType), k) ==
      RequestField(httpMethod, path, user, ip, headers, queryParams, body, contentType, k)
    ensures DistinctKeys(RequestBase(httpMethod, path, user, ip, headers, queryParams, body, contentType))
  {
    var r0: Fields := [("method", JStr(httpMethod)), ("path", JStr(path)), ("user", user), ("ip", ip)];
    var r1 := PutIf(r0, PyTruthy(headers), "headers", headers);
    var r2 := PutIf(r1, PyTruthy(queryParams), "query_params", queryParams);
    var r3 := PutIf(r2, !body.JNull?, "body", body);
    LookupPutIf(r3, PyTruthy(contentType), "content_type", contentType, k);
    LookupPutIf(r2, !body.JNull?, "body", body, k);
    LookupPutIf(r1, PyTruthy(queryParams), "query_params", queryParams, k);
    LookupPutIf(r0, PyTruthy(headers), "headers", headers, k);
    LookupFour(r0[0], r0[1], r0[2], r0[3], k);
    DistinctPutIf(r0, PyTruthy(headers), "headers", headers);
    DistinctPutIf(r1, PyTruthy(queryParams), "query_params", queryParams);
    DistinctPutIf(r2, !body.JNull?, "body", body);
    DistinctPutIf(r3, PyTruthy(contentType), "content_type", contentType);
  }

  /** A key of the extra keyword data overrides the base record; every other key is as in the base. */
  lemma RequestRecordFields(httpMethod: string, path: string, user: Json, ip: Json,
                            headers: Json, queryParams: Json, body: Json, contentType: Json, kwargs: Fields, k: string)
    requires DistinctKeys(kwargs)
    ensures Lookup(RequestRecord(httpMethod, path, user, ip, headers, queryParams, body, contentType, kwargs), k) ==
      if HasKey(kwargs, k) then Lookup(kwargs, k)
      else RequestField(httpMethod, path, user, ip, headers, queryParams, body, contentType, k)
  {
    RequestBaseFields(httpMethod, path, user, ip, headers, queryParams, body, contentType, k);
    LookupUpdate(RequestBase(httpMethod, path, user, ip, headers, queryParams, body, contentType), kwargs, k);
  }

  /**
   * The data `api_request` logs: a key of the extra keyword data overrides the base record,
   * and a `None` value (an absent `user` or `ip`, say) is dropped.
   */
  lemma RequestExtraFields(httpMethod: string, path: string, user: Json, ip: Json,
                           headers: Json, queryParams: Json, body: Json, contentType: Json, kwargs: Fields, k: string)
    requires DistinctKeys(kwargs)
    ensures var v := if HasKey(kwargs, k) then Lookup(kwargs, k)
                     else RequestField(httpMethod, path, user, ip, headers, queryParams, body, contentType, k);
      Lookup(DropNone(RequestRecord(httpMethod, path, user, ip, headers, queryParams, body, contentType, kwargs)), k) ==
        if v.Some? && !v.value.JNull? then v else None
  {
    var base := RequestBase(httpMethod, path, user, ip, headers, queryParams, body, contentType);
    RequestBaseFields(httpMethod, path, user, ip, headers, queryParams, body, contentType, k);
    LookupUpdate(base, kwargs, k);
    DistinctUpdate(base, kwargs);
    LookupDropNone(Update(base, kwargs), k);
  }

  function RequestMessage(httpMethod: string, path: string): string
  {
    "API Request: " + httpMethod + " " + path
  }

  // ---------------------------------------------------------------- api_response

  const ResponseParams: seq<string> := ["method", "path", "status", "duration_ms", "headers", "body"]

  /** `'info' if status < 400 else 'error' if status >= 500 else 'warning'`. */
  function ResponseLevel(status: int): (l: PyLevel)
    ensures l == Info <==> status < 400
    ensures l == Error <==> status >= 500
    ensures l == Warning <==> 400 <= status < 500
  {
    if status < 400 then Info else if status >= 500 then Error else Warning
  }

  /** `response_data` before the `**kwargs` update; the duration is a whole number of milliseconds. */
  function ResponseBase(httpMethod: string, path: string, status: int, durationMs: int, headers: Json, body: Json): Fields
  {
    var r0: Fields := [("method", JStr(httpMethod)), ("path", JStr(path)), ("status", JNum(status)), ("duration_ms", JNum(durationMs))];
    var r1 := PutIf(r0, PyTruthy(headers), "headers", headers);
    PutIf(r1, !body.JNull?, "body", body)
  }

  function ResponseRecord(httpMethod: string, path: string, status: int, durationMs: int, headers: Json, body: Json, kwargs: Fields): Fields
  {
    Update(ResponseBase(httpMethod, path, status, durationMs, headers, body), kwargs)
  }

  function ResponseField(httpMethod: string, path: string, status: int, durationMs: int, headers: Json, body: Json, k: string): Option<Json>
  {
    if k == "method" then Some(JStr(httpMethod))
    else if k == "path" then Some(JStr(path))
    else if k == "status" then Some(JNum(status))
    else if k == "duration_ms" then Some(JNum(durationMs))
    else if k == "headers" then (if PyTruthy(headers) then Some(headers) else None)
    else if k == "body" then (if !body.JNull? then Some(body) else None)
    else None
  }

  /** `method`, `path`, `status` and `duration_ms` are always set, `headers` when truthy, `body` when not `None`. */
  lemma ResponseBaseFields(httpMethod: string, path: string, status: int, durationMs: int, headers: Json, body: Json, k: string)
    ensures Lookup(ResponseBase(httpMethod, path, status, durationMs, headers, body), k) ==
      ResponseField(httpMethod, path, status, durationMs, headers, body, k)
    ensures DistinctKeys(ResponseBase(httpMethod, path, status, durationMs, headers, body))
  {
    var r0: Fields := [("method", JStr(httpMethod)), ("path", JStr(path)), ("status", JNum(status)), ("duration_ms", JNum(durationMs))];
    var r1 := PutIf(r0, PyTruthy(headers), "headers", headers);
    LookupPutIf(r1, !body.JNull?, "body", body, k);
    LookupPutIf(r0, PyTruthy(headers), "headers", headers, k);
    LookupFour(r0[0], r0[1], r0[2], r0[3], k);
    DistinctPutIf(r0, PyTruthy(headers), "headers", headers);
    DistinctPutIf(r1, !body.JNull?, "body", body);
  }

  /**
   * The data `api_response` logs: method, path and status are always there unless the extra
   * keyword data overrides them with another value.
   */
  lemma ResponseExtraFields(httpMethod: string, path: string, status: int, durationMs: int, headers: Json, body: Json, kwargs: Fields, k: string)
    requires DistinctKeys(kwargs)
    ensures var v := if HasKey(kwargs, k) then Lookup(kwargs, k)
                     else ResponseField(httpMethod, path, status, durationMs, headers, body, k);
      Lookup(DropNone(ResponseRecord(httpMethod, path, status, durationMs, headers, body, kwargs)), k) ==
        if v.Some? && !v.value.JNull? then v else None
  {
    var base := ResponseBase(httpMethod, path, status, durationMs, headers, body);
    ResponseBaseFields(httpMethod, path, status, durationMs, headers, body, k);
    LookupUpdate(base, kwargs, k);
    DistinctUpdate(base, kwargs);
    LookupDropNone(Update(base, kwargs), k);
  }

  /** `f"API Response: {method} {path} [{status}] {duration_ms:.2f}ms"` for a whole number of milliseconds. */
  function ResponseMessage(httpMethod: string, path: string, status: int, durationMs: int): string
  {
    "API Response: " + httpMethod + " " + path + " [" + IntToString(status) + "] " + IntToString(durationMs) + ".00ms"
  }

  // ---------------------------------------------------------------- the logger object

  class PackLogger {
    const name: string
    const debugMode: bool
    const console: Console
    /** Every call made on the underlying standard logger, oldest first. */
    var calls: seq<LoggerCall>

    constructor(name: string, debug: bool, console: Console)
      ensures this.name == name && debugMode == debug && this.console == console && calls == []
    {
      this.name := name;
      debugMode := debug;
      this.console := console;
      calls := [];
    }

    /** `_log(level, message, **kwargs)`. */
    method Log(level: PyLevel, message: string, kwargs: Fields) returns (outcome: Outcome)
      requires !Collides(kwargs)
      modifies this, console
      ensures outcome == CallOutcome(level, kwargs)
      ensures console.lines == old(console.lines) + if outcome == Done then Printed(level, message, DropNone(kwargs)) else []
      ensures calls == old(calls) + if outcome == Done then [LoggerCall(level, message, DropNone(kwargs))] else []
    {
      if level == PyLevel.Success {
        return AttributeError;
      }
      var extra := DropNone(kwargs);
      var style := LevelName(level);
      if |extra| > 0 {
        console.lines := console.lines + [Text(message, style)];
        console.lines := console.lines + [Dump(extra)];
      } else {
        console.lines := console.lines + [Text(message, style)];
      }
      calls := calls + [LoggerCall(level, message, extra)];
      return Done;
    }

    /** The shape shared by `debug`, `info`, `warning`, `error` and `success`: forward to `_log`. */
    method Forward(level: PyLevel, message: string, kwargs: Fields) returns (outcome: Outcome)
      modifies this, console
      ensures outcome == CallOutcome(level, kwargs)
      ensures console.lines == old(console.lines) + if outcome == Done then Printed(level, message, DropNone(kwargs)) else []
      ensures calls == old(calls) + if outcome == Done then [LoggerCall(level, message, DropNone(kwargs))] else []
    {
      if Collides(kwargs) {
        return TypeError;
      }
      outcome := Log(level, message, kwargs);
    }

    method Debug(message: string, kwargs: Fields) returns (outcome: Outcome)
      modifies this, console
      ensures outcome == CallOutcome(PyLevel.Debug, kwargs)
      ensures console.lines == old(console.lines) + if outcome == Done then Printed(PyLevel.Debug, message, DropNone(kwargs)) else []
      ensures calls == old(calls) + if outcome == Done then [LoggerCall(PyLevel.Debug, message, DropNone(kwargs))] else []
    {
      outcome := Forward(PyLevel.Debug, message, kwargs);
    }

    method Info(message: string, kwargs: Fields) returns (outcome: Outcome)
      modifies this, console
      ensures outcome == CallOutcome(PyLevel.Info, kwargs)
      ensures console.lines == old(console.lines) + if outcome == Done then Printed(PyLevel.Info, message, DropNone(kwargs)) else []
      ensures calls == old(calls) + if outcome == Done then [LoggerCall(PyLevel.Info, message, DropNone(kwargs))] else []
    {
      outcome := Forward(PyLevel.Info, message, kwargs);
    }

    method Warning(message: string, kwargs: Fields) returns (outcome: Outcome)
      modifies this, console
      ensures outcome == CallOutcome(PyLevel.Warning, kwargs)
      ensures console.lines == old(console.lines) + if outcome == Done then Printed(PyLevel.Warning, message, DropNone(kwargs)) else []
      ensures calls == old(calls) + if outcome == Done then [LoggerCall(PyLevel.Warning, message, DropNone(kwargs))] else []
    {
      outcome := Forward(PyLevel.Warning, message, kwargs);
    }

    method Error(message: string, kwargs: Fields) returns (outcome: Outcome)
      modifies this, console
      ensures outcome == CallOutcome(PyLevel.Error, kwargs)
      ensures console.lines == old(console.lines) + if outcome == Done then Printed(PyLevel.Error, message, DropNone(kwargs)) else []
      ensures calls == old(calls) + if outcome == Done then [LoggerCall(PyLevel.Error, message, DropNone(kwargs))] else []
    {
      outcome := Forward(PyLevel.Error, message, kwargs);
    }

    /** `success` logs at info: the record and the console line are exactly those of `info`. */
    method Success(message: string, kwargs: Fields) returns (outcome: Outcome)
      modifies this, console
      ensures outcome == CallOutcome(PyLevel.Info, kwargs)
      ensures console.lines == old(console.lines) + if outcome == Done then Printed(PyLevel.Info, message, DropNone(kwargs)) else []
      ensures calls == old(calls) + if outcome == Done then [LoggerCall(PyLevel.Info, message, DropNone(kwargs))] else []
    {
      outcome := Forward(PyLevel.Info, message, kwargs);
    }

    /** `api_request`: build `request_data` step by step, update it with `kwargs`, log at info. */
    method ApiRequest(httpMethod: string, path: string, user: Json, ip: Json,
                      headers: Json, queryParams: Json, body: Json, contentType: Json, kwargs: Fields)
      returns (outcome: Outcome)
      requires forall n | n in RequestParams :: !HasKey(kwargs, n)
      modifies this, console
      ensures var data := RequestRecord(httpMethod, path, user, ip, headers, queryParams, body, contentType, kwargs);
        outcome == CallOutcome(PyLevel.Info, data) &&
        console.lines == old(console.lines) + (if outcome == Done then Printed(PyLevel.Info, RequestMessage(httpMethod, path), DropNone(data)) else []) &&
        calls == old(calls) + (if outcome == Done then [LoggerCall(PyLevel.Info, RequestMessage(httpMethod, path), DropNone(data))] else [])
    {
      var requestData: Fields := [("method", JStr(httpMethod)), ("path", JStr(path)), ("user", user), ("ip", ip)];
      if PyTruthy(headers) {
        requestData := Put(requestData, "headers", headers);
      }
      if PyTruthy(queryParams) {
        requestData := Put(requestData, "query_params", queryParams);
      }
      if !body.JNull? {
        requestData := Put(requestData, "body", body);
      }
      if PyTruthy(contentType) {
        requestData := Put(requestData, "content_type", contentType);
      }
      requestData := Update(requestData, kwargs);
      outcome := Forward(PyLevel.Info, RequestMessage(httpMethod, path), requestData);
    }

    /** `api_response`: the level from the status, `response_data` step by step, then `kwargs`. */
    method ApiResponse(httpMethod: string, path: string, status: int, durationMs: int, headers: Json, body: Json, kwargs: Fields)
      returns (outcome: Outcome)
      requires forall n | n in ResponseParams :: !HasKey(kwargs, n)
      modifies this, console
      ensures var data := ResponseRecord(httpMethod, path, status, durationMs, headers, body, kwargs);
        var message := ResponseMessage(httpMethod, path, status, durationMs);
        outcome == CallOutcome(ResponseLevel(status), data) &&
        console.lines == old(console.lines) + (if outcome == Done then Printed(ResponseLevel(status), message, DropNone(data)) else []) &&
        calls == old(calls) + (if outcome == Done then [LoggerCall(ResponseLevel(status), message, DropNone(data))] else [])
    {
      var level := if status < 400 then PyLevel.Info else if status >= 500 then PyLevel.Error else PyLevel.Warning;
      var responseData: Fields := [("method", JStr(httpMethod)), ("path", JStr(path)), ("status", JNum(status)), ("duration_ms", JNum(durationMs))];
      if PyTruthy(headers) {
        responseData := Put(responseData, "headers", headers);
      }
      if !body.JNull? {
        responseData := Put(responseData, "body", body);
      }
      responseData := Update(responseData, kwargs);
      outcome := Forward(level, ResponseMessage(httpMethod, path, status, durationMs), responseData);
    }
  }

  // ---------------------------------------------------------------- configure_logging

  datatype Formatter = Formatter(format: string, style: string)

  datatype Handler = Handler(
    className: string, level: string, richTracebacks: bool, showTime: bool, showLevel: bool,
    showPath: bool, tracebacksShowLocals: bool, markup: bool)

  datatype LoggerConf = LoggerConf(level: string, handlers: seq<string>, propagate: bool)

  datatype RootConf = RootConf(level: string, handlers: seq<string>)

  /** The dictionary Django's `LOGGING` setting receives. */
  datatype LoggingConfig = LoggingConfig(
    version: int, disableExistingLoggers: bool,
    formatters: seq<(string, Formatter)>, handlers: seq<(string, Handler)>,
    loggers: seq<(string, LoggerConf)>, root: RootConf)

  function DebugOrInfo(debug: bool): string
  {
    if debug then "DEBUG" else "INFO"
  }

  /** A logger that writes to the console handler only. */
  function ConsoleLogger(level: string): LoggerConf
  {
    LoggerConf(level, ["console"], false)
  }

  /** The loggers named in the literal after the application's own, in order, with their levels. */
  const FixedLoggers: seq<(string, string)> := [
    ("django", "INFO"), ("django.request", "ERROR"), ("django.server", "INFO"),
    ("botocore", "WARNING"), ("boto3", "WARNING"), ("urllib3", "WARNING")]

  /**
   * The `loggers` dict literal. A dict display assigns its keys in order, so an application
   * named like one of the fixed loggers keeps its first position and takes the later value.
   */
  function ConfiguredLoggers(debug: bool, appName: string): seq<(string, LoggerConf)>
  {
    var l0 := Put([], appName, ConsoleLogger(DebugOrInfo(debug)));
    var l1 := Put(l0, "django", ConsoleLogger("INFO"));
    var l2 := Put(l1, "django.request", ConsoleLogger("ERROR"));
    var l3 := Put(l2, "django.server", ConsoleLogger("INFO"));
    var l4 := Put(l3, "botocore", ConsoleLogger("WARNING"));
    var l5 := Put(l4, "boto3", ConsoleLogger("WARNING"));
    Put(l5, "urllib3", ConsoleLogger("WARNING"))
  }

  function ConfigureLogging(debug: bool, appName: string): LoggingConfig
  {
    LoggingConfig(
      1, false,
      [("verbose", Formatter("{levelname} {asctime} {module} {process:d} {thread:d} {message}", "{"))],
      [("console", Handler("rich.logging.RichHandler", DebugOrInfo(debug), true, true, true, false, debug, false))],
      ConfiguredLoggers(debug, appName),
      RootConf(DebugOrInfo(debug), ["console"]))
  }

  /** The level configured for a logger name: a fixed logger's own level wins over the application's. */
  function ConfiguredLevel(debug: bool, appName: string, k: string): Option<string>
  {
    if k == "urllib3" || k == "boto3" || k == "botocore" then Some("WARNING")
    else if k == "django.request" then Some("ERROR")
    else if k == "django" || k == "django.server" then Some("INFO")
    else if k == appName then Some(DebugOrInfo(debug))
    else None
  }

  /** Every configured logger writes only to the console, does not propagate, and has the level above. */
  lemma ConfiguredLoggersFields(debug: bool, appName: string, k: string)
    ensures var r := Lookup(ConfiguredLoggers(debug, appName), k);
      r.Some? == ConfiguredLevel(debug, appName, k).Some? &&
      (r.Some? ==> r.value == ConsoleLogger(ConfiguredLevel(debug, appName, k).value))
  {
    var l0 := Put([], appName, ConsoleLogger(DebugOrInfo(debug)));
    var l1 := Put(l0, "django", ConsoleLogger("INFO"));
    var l2 := Put(l1, "django.request", ConsoleLogger("ERROR"));
    var l3 := Put(l2, "django.server", ConsoleLogger("INFO"));
    var l4 := Put(l3, "botocore", ConsoleLogger("WARNING"));
    var l5 := Put(l4, "boto3", ConsoleLogger("WARNING"));
    LookupPut(l5, "urllib3", ConsoleLogger("WARNING"), k);
    LookupPut(l4, "boto3", ConsoleLogger("WARNING"), k);
    LookupPut(l3, "botocore", ConsoleLogger("WARNING"), k);
    LookupPut(l2, "django.server", ConsoleLogger("INFO"), k);
    LookupPut(l1, "django.request", ConsoleLogger("ERROR"), k);
    LookupPut(l0, "django", ConsoleLogger("INFO"), k);
    LookupPut([], appName, ConsoleLogger(DebugOrInfo(debug)), k);
  }

  /** Every logger in `d` writes to the console only and does not propagate. */
  predicate Quiet(d: seq<(string, LoggerConf)>)
  {
    forall e | e in d :: !e.1.propagate && e.1.handlers == ["console"]
  }

  lemma PutQuiet(d: seq<(string, LoggerConf)>, k: string, level: string)
    requires Quiet(d)
    ensures Quiet(Put(d, k, ConsoleLogger(level)))
  {
    EntriesPut(d, k, ConsoleLogger(level));
  }

  /** No configured logger propagates, and each writes to the console handler only. */
  lemma ConfiguredLoggersQuiet(debug: bool, appName: string)
    ensures forall e | e in ConfiguredLoggers(debug, appName) :: !e.1.propagate && e.1.handlers == ["console"]
  {
    var l0 := Put([], appName, ConsoleLogger(DebugOrInfo(debug)));
    var l1 := Put(l0, "django", ConsoleLogger("INFO"));
    var l2 := Put(l1, "django.request", ConsoleLogger("ERROR"));
    var l3 := Put(l2, "django.server", ConsoleLogger("INFO"));
    var l4 := Put(l3, "botocore", ConsoleLogger("WARNING"));
    var l5 := Put(l4, "boto3", ConsoleLogger("WARNING"));
    PutQuiet([], appName, DebugOrInfo(debug));
    PutQuiet(l0, "django", "INFO");
    PutQuiet(l1, "django.request", "ERROR");
    PutQuiet(l2, "django.server", "INFO");
    PutQuiet(l3, "botocore", "WARNING");
    PutQuiet(l4, "boto3", "WARNING");
    PutQuiet(l5, "urllib3", "WARNING");
    assert Quiet(ConfiguredLoggers(debug, appName));
  }

  /**
   * The handler, the root and (unless it shares a fixed logger's name) the application
   * logger are at DEBUG exactly when `debug` is set, and at INFO otherwise.
   */
  lemma ConfigureLoggingDebugLevels(debug: bool, appName: string)
    requires forall i | 0 <= i < |FixedLoggers| :: FixedLoggers[i].0 != appName
    ensures var c := ConfigureLogging(debug, appName);
      (c.handlers[0].1.level == "DEBUG" <==> debug) &&
      (c.root.level == "DEBUG" <==> debug) &&
      Lookup(c.loggers, appName).Some? &&
      (Lookup(c.loggers, appName).value.level == "DEBUG" <==> debug) &&
      (Lookup(c.loggers, appName).value.level == "INFO" <==> !debug)
  {
    assert appName != FixedLoggers[0].0 && appName != FixedLoggers[1].0 && appName != FixedLoggers[2].0;
    assert appName != FixedLoggers[3].0 && appName != FixedLoggers[4].0 && appName != FixedLoggers[5].0;
    ConfiguredLoggersFields(debug, appName, appName);
  }
}
