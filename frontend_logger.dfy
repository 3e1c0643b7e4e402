/**
 * The browser/React Native `PackLogger` (packages/pack-logger/frontend/src/logger.ts).
 *
 * A logger is built with a name and a development-mode flag; outside development mode
 * only errors get through. Each emitted `console.group` is modelled as one `Group`
 * appended to `output`; styling and pretty-printing are not modelled. The logger masks
 * sensitive keys of request headers and bodies, bands response statuses into levels
 * and summarises large array bodies.
 */
module FrontendLogger {
  import opened Wrappers
  import opened Strings
  import opened Assoc
  import opened JsonValue

  datatype Level = Debug | Info | Warn | Error | Success

  /**
   * One `console.group`: the level (which picks the header colour), the zero-padded
   * milliseconds of the timestamp, the logger's name, the message, and the "Data:"
   * section, present only when the data had at least one key.
   */
  datatype Group = Group(level: Level, millis: string, app: string, message: string, data: Option<Fields>)

  /** The optional parts of an `apiRequest` call (`ApiRequestData`); an absent argument has every part absent. */
  datatype RequestData = RequestData(
    headers: Option<Json>, params: Option<Json>, queryParams: Option<Json>,
    body: Option<Json>, contentType: Option<Json>)

  /** The optional parts of an `apiResponse`/`apiError` call that these use (`ApiResponseData`). */
  datatype ResponseData = ResponseData(headers: Option<Json>, body: Option<Json>)

  // ---------------------------------------------------------------- the gate and the record

  /** The development-mode gate of `log`. */
  predicate Passes(isDev: bool, level: Level)
  {
    isDev || level == Error
  }

  /** The "Data:" section: shown only for data with at least one key. */
  function DataSection(data: Option<Fields>): (r: Option<Fields>)
    ensures r.Some? <==> data.Some? && |data.value| > 0
    ensures r.Some? ==> r == data
  {
    if data.Some? && |data.value| > 0 then data else None
  }

  /** The millisecond part of `getTime`: `ms.toString().padStart(3, "0")`. */
  function PadMs(ms: nat): string
  {
    PadStart(NatToString(ms), 3, '0')
  }

  /** For a clock reading 0..999 the millisecond part is exactly three digits that read back as `ms`. */
  lemma PadMsThreeDigits(ms: nat)
    requires ms < 1000
    ensures |PadMs(ms)| == 3 && AllDigits(PadMs(ms)) && DigitsValue(PadMs(ms)) == ms
  {
    var s := NatToString(ms);
    NatToStringRoundTrip(ms);
    NatToStringLength(ms, 3, Pow10(3));
    assert PadMs(ms) == Repeat('0', 3 - |s|) + s;
    ZeroPaddingValue(s, 3 - |s|);
  }

  /** What one `log(level, message, data)` call emits. */
  function Emitted(isDev: bool, level: Level, app: string, ms: nat, message: string, data: Option<Fields>): seq<Group>
  {
    if Passes(isDev, level) then [Group(level, PadMs(ms), app, message, DataSection(data))] else []
  }

  /** Outside development mode a call emits nothing unless it is an error, and then exactly one group. */
  lemma QuietGate(level: Level, app: string, ms: nat, message: string, data: Option<Fields>)
    ensures |Emitted(false, level, app, ms, message, data)| == if level == Error then 1 else 0
    ensures level == Error ==> Emitted(false, level, app, ms, message, data)[0].level == Error
  {
  }

  // ---------------------------------------------------------------- masking

  const SensitivePatterns: seq<string> := ["password", "token", "secret", "apiKey", "cardNumber", "cvv"]

  /** A key is sensitive when its lower-case form contains a lower-cased pattern. */
  predicate IsSensitiveKey(key: string)
  {
    exists i | 0 <= i < |SensitivePatterns| :: Contains(Lower(key), Lower(SensitivePatterns[i]))
  }

  /** The key `for...in` yields for index `i` of an array. */
  function IndexKey(i: nat): string
  {
    NatToString(i)
  }

  /** What `maskSensitive` computes, as a function of its input. */
  function Masked(v: Json): Json
    decreases v, 0
  {
    if !JsTruthy(v) || !TypeofObject(v) then v
    else match v
      case JArr(items) =>
        JArr(seq(|items|, i requires 0 <= i < |items| => MaskedEntry(IndexKey(i), items[i])))
      case JObj(fields) =>
        JObj(seq(|fields|, i requires 0 <= i < |fields| => (fields[i].0, MaskedEntry(fields[i].0, fields[i].1))))
      case _ => v
  }

  /** The new value of one entry of the copy: masked, recursed into, or kept. */
  function MaskedEntry(key: string, value: Json): Json
    decreases value, 1
  {
    if IsSensitiveKey(key) then JStr("***")
    else if TypeofObject(value) then Masked(value)
    else value
  }

  /** No array index is a sensitive key: its decimal digits contain none of the patterns. */
  lemma IndexKeyNotSensitive(i: nat)
    ensures !IsSensitiveKey(IndexKey(i))
  {
    var key := IndexKey(i);
    NatToStringRoundTrip(i);
    forall j | 0 <= j < |SensitivePatterns|
      ensures !Contains(Lower(key), Lower(SensitivePatterns[j]))
    {
      var p := Lower(SensitivePatterns[j]);
      assert IsLetter(SensitivePatterns[j][0]);
      assert IsLetter(p[0]);
      forall k | 0 <= k < |key| ensures Lower(key)[k] != p[0] {
        assert IsDigit(key[k]);
      }
      NotContainsWithoutFirstChar(Lower(key), p);
    }
  }

  /** An input that is falsy or not an object comes back unchanged. */
  lemma MaskedKeepsScalars(v: Json)
    requires !JsTruthy(v) || !TypeofObject(v)
    ensures Masked(v) == v
  {
  }

  /**
   * The copy has the same shape: an object keeps its keys in order, with each sensitive
   * key's value replaced by "***"; an array keeps its length and no element is replaced,
   * each nested object or array being masked in turn.
   */
  lemma MaskedShape(v: Json)
    ensures v.JObj? ==> Masked(v).JObj? && Keys(Masked(v).fields) == Keys(v.fields)
    ensures v.JObj? ==> forall i | 0 <= i < |v.fields| ::
      Masked(v).fields[i].1 == if IsSensitiveKey(v.fields[i].0) then JStr("***") else Masked(v.fields[i].1)
    ensures v.JArr? ==> Masked(v).JArr? && |Masked(v).items| == |v.items|
    ensures v.JArr? ==> forall i | 0 <= i < |v.items| :: Masked(v).items[i] == Masked(v.items[i])
  {
    if v.JArr? {
      forall i | 0 <= i < |v.items| ensures Masked(v).items[i] == Masked(v.items[i]) {
        IndexKeyNotSensitive(i);
      }
    }
  }

  /** Masking twice is masking once: "***" is a string, which masking keeps. */
  lemma {:induction false} MaskedIdempotent(v: Json)
    ensures Masked(Masked(v)) == Masked(v)
    decreases v, 0
  {
    if JsTruthy(v) && TypeofObject(v) {
      match v
      case JArr(items) =>
        var m := Masked(v);
        forall i | 0 <= i < |items| ensures MaskedEntry(IndexKey(i), m.items[i]) == m.items[i] {
          EntryIdempotent(IndexKey(i), items[i]);
        }
        assert Masked(m).items == m.items;
      case JObj(fields) =>
        var m := Masked(v);
        forall i | 0 <= i < |fields| ensures MaskedEntry(m.fields[i].0, m.fields[i].1) == m.fields[i].1 {
          EntryIdempotent(fields[i].0, fields[i].1);
        }
        assert Masked(m).fields == m.fields;
    }
  }

  lemma {:induction false} EntryIdempotent(key: string, value: Json)
    ensures MaskedEntry(key, MaskedEntry(key, value)) == MaskedEntry(key, value)
    decreases value, 1
  {
    if !IsSensitiveKey(key) && TypeofObject(value) {
      MaskedIdempotent(value);
    }
  }

  // ---------------------------------------------------------------- paths into a value

  /** One step into a value: an array index or an object key. */
  datatype Step = Index(i: nat) | Key(k: string)

  /** The key `maskSensitive` tests for a step. */
  function StepKey(s: Step): string
  {
    match s
    case Index(i) => IndexKey(i)
    case Key(k) => k
  }

  /** The value reached by following `path` from `v`, if there is one. */
  function At(v: Json, path: seq<Step>): Option<Json>
    decreases |path|
  {
    if path == [] then Some(v)
    else match path[0]
      case Index(i) => if v.JArr? && i < |v.items| then At(v.items[i], path[1..]) else None
      case Key(k) => if v.JObj? && Lookup(v.fields, k).Some? then At(Lookup(v.fields, k).value, path[1..]) else None
  }

  predicate CleanPath(path: seq<Step>)
  {
    forall j | 0 <= j < |path| :: !IsSensitiveKey(StepKey(path[j]))
  }

  lemma LookupMasked(fields: Fields, k: string)
    requires !IsSensitiveKey(k)
    ensures Lookup(seq(|fields|, i requires 0 <= i < |fields| => (fields[i].0, MaskedEntry(fields[i].0, fields[i].1))), k)
      == if Lookup(fields, k).Some? then Some(MaskedEntry(k, Lookup(fields, k).value)) else None
    decreases |fields|
  {
    var m := seq(|fields|, i requires 0 <= i < |fields| => (fields[i].0, MaskedEntry(fields[i].0, fields[i].1)));
    if fields != [] && fields[0].0 != k {
      var tail := fields[1..];
      assert m[1..] == seq(|tail|, i requires 0 <= i < |tail| => (tail[i].0, MaskedEntry(tail[i].0, tail[i].1)));
      LookupMasked(tail, k);
    }
  }

  /**
   * Along a path of non-sensitive keys the masked value has the same structure: what is
   * reached there is the masked form of what the input has there (so every scalar on such
   * a path is kept).
   */
  lemma {:induction false} MaskedAtCleanPath(v: Json, path: seq<Step>)
    requires CleanPath(path)
    ensures At(Masked(v), path) == if At(v, path).Some? then Some(Masked(At(v, path).value)) else None
    decreases |path|
  {
    if path != [] {
      assert CleanPath(path[1..]) by {
        forall j | 0 <= j < |path[1..]| ensures !IsSensitiveKey(StepKey(path[1..][j])) {
          assert path[1..][j] == path[j + 1];
        }
      }
      assert !IsSensitiveKey(StepKey(path[0]));
      match path[0]
      case Index(i) =>
        if v.JArr? && i < |v.items| {
          MaskedShape(v);
          MaskedAtCleanPath(v.items[i], path[1..]);
        }
      case Key(k) =>
        if v.JObj? {
          LookupMasked(v.fields, k);
          if Lookup(v.fields, k).Some? {
            var x := Lookup(v.fields, k).value;
            assert MaskedEntry(k, x) == Masked(x);
            MaskedAtCleanPath(x, path[1..]);
          }
        }
    }
  }

  /**
   * At every depth: a sensitive key reached through non-sensitive keys holds "***" in the
   * masked value, whatever it held before.
   */
  lemma MaskedAtSensitiveKey(v: Json, path: seq<Step>, k: string)
    requires CleanPath(path) && IsSensitiveKey(k)
    requires At(v, path + [Key(k)]).Some?
    ensures At(Masked(v), path + [Key(k)]) == Some(JStr("***"))
  {
    AtAppend(v, path, Key(k));
    var parent := At(v, path).value;
    MaskedAtCleanPath(v, path);
    AtAppend(Masked(v), path, Key(k));
    assert parent.JObj? && Lookup(parent.fields, k).Some?;
    LookupMaskedSensitive(parent.fields, k);
  }

  lemma LookupMaskedSensitive(fields: Fields, k: string)
    requires IsSensitiveKey(k) && Lookup(fields, k).Some?
    ensures Lookup(seq(|fields|, i requires 0 <= i < |fields| => (fields[i].0, MaskedEntry(fields[i].0, fields[i].1))), k)
      == Some(JStr("***"))
    decreases |fields|
  {
    var m := seq(|fields|, i requires 0 <= i < |fields| => (fields[i].0, MaskedEntry(fields[i].0, fields[i].1)));
    if fields[0].0 != k {
      var tail := fields[1..];
      assert m[1..] == seq(|tail|, i requires 0 <= i < |tail| => (tail[i].0, MaskedEntry(tail[i].0, tail[i].1)));
      LookupMaskedSensitive(tail, k);
    }
  }

  lemma {:induction false} AtAppend(v: Json, path: seq<Step>, s: Step)
    ensures At(v, path + [s]) == if At(v, path).Some? then At(At(v, path).value, [s]) else None
    decreases |path|
  {
    if path != [] {
      assert (path + [s])[0] == path[0] && (path + [s])[1..] == path[1..] + [s];
      match path[0]
      case Index(i) =>
        if v.JArr? && i < |v.items| { AtAppend(v.items[i], path[1..], s); }
      case Key(k) =>
        if v.JObj? && Lookup(v.fields, k).Some? { AtAppend(Lookup(v.fields, k).value, path[1..], s); }
    } else {
      assert path + [s] == [s];
    }
  }

  // ---------------------------------------------------------------- API records

  /** The `apiResponse` level: 2xx success, 5xx and above error, anything else a warning. */
  function ResponseLevel(status: int): (l: Level)
    ensures l == Success <==> 200 <= status < 300
    ensures l == Error <==> status >= 500
    ensures l == Warn <==> status < 200 || 300 <= status < 500
  {
    if status >= 200 && status < 300 then Success else if status >= 500 then Error else Warn
  }

  const TruncationNotice := "[Truncated - too many items]"

  /** The logged form of a response body: arrays of more than ten items are summarised. */
  function Truncated(body: Json): Json
  {
    if body.JArr? && |body.items| > 10 then
      JObj([("itemsCount", JNum(|body.items|)), ("firstItems", JArr(body.items[..3])), ("message", JStr(TruncationNotice))])
    else body
  }

  /** A summarised body carries the true item count and exactly the first three items, never the rest. */
  lemma TruncatedSummary(items: seq<Json>)
    requires |items| > 10
    ensures var r := Truncated(JArr(items));
      Member(r, "itemsCount") == Some(JNum(|items|)) &&
      Member(r, "firstItems") == Some(JArr(items[..3])) && |items[..3]| == 3 &&
      Member(r, "message") == Some(JStr(TruncationNotice))
  {
    var a, b, c := ("itemsCount", JNum(|items|)), ("firstItems", JArr(items[..3])), ("message", JStr(TruncationNotice));
    assert [a, b, c] == [a] + ([b] + [c]);
    LookupCons(a, [b] + [c], "firstItems");
    LookupCons(b, [c], "firstItems");
    LookupCons(a, [b] + [c], "message");
    LookupCons(b, [c], "message");
    LookupCons(c, [], "message");
  }

  function MaskedValue(o: Option<Json>): Json
  {
    if o.Some? then Masked(o.value) else JNull
  }

  function TruncatedValue(o: Option<Json>): Json
  {
    if o.Some? then Truncated(o.value) else JNull
  }

  /** The `logData` of `apiRequest`: each part assigned only when it is truthy. */
  function RequestLogData(d: RequestData): Fields
  {
    var r0: Fields := [];
    var r1 := PutIf(r0, JsPresent(d.headers), "headers", MaskedValue(d.headers));
    var r2 := PutIf(r1, JsPresent(d.params), "params", OrNull(d.params));
    var r3 := PutIf(r2, JsPresent(d.queryParams), "queryParams", OrNull(d.queryParams));
    var r4 := PutIf(r3, JsPresent(d.body), "body", MaskedValue(d.body));
    PutIf(r4, JsPresent(d.contentType), "contentType", OrNull(d.contentType))
  }

  /** What `apiRequest` logs under each key, key by key. */
  function RequestField(d: RequestData, k: string): Option<Json>
  {
    if k == "headers" then (if JsPresent(d.headers) then Some(Masked(d.headers.value)) else None)
    else if k == "params" then (if JsPresent(d.params) then d.params else None)
    else if k == "queryParams" then (if JsPresent(d.queryParams) then d.queryParams else None)
    else if k == "body" then (if JsPresent(d.body) then Some(Masked(d.body.value)) else None)
    else if k == "contentType" then (if JsPresent(d.contentType) then d.contentType else None)
    else None
  }

  /**
   * `apiRequest` logs masked headers and body and verbatim params, query params and content
   * type, each exactly when it is truthy, and no other key.
   */
  lemma RequestLogDataFields(d: RequestData, k: string)
    ensures Lookup(RequestLogData(d), k) == RequestField(d, k)
  {
    var r0: Fields := [];
    var r1 := PutIf(r0, JsPresent(d.headers), "headers", MaskedValue(d.headers));
    var r2 := PutIf(r1, JsPresent(d.params), "params", OrNull(d.params));
    var r3 := PutIf(r2, JsPresent(d.queryParams), "queryParams", OrNull(d.queryParams));
    var r4 := PutIf(r3, JsPresent(d.body), "body", MaskedValue(d.body));
    LookupPutIf(r4, JsPresent(d.contentType), "contentType", OrNull(d.contentType), k);
    LookupPutIf(r3, JsPresent(d.body), "body", MaskedValue(d.body), k);
    LookupPutIf(r2, JsPresent(d.queryParams), "queryParams", OrNull(d.queryParams), k);
    LookupPutIf(r1, JsPresent(d.params), "params", OrNull(d.params), k);
    LookupPutIf(r0, JsPresent(d.headers), "headers", MaskedValue(d.headers), k);
  }

  /** The request record never holds a key twice. */
  lemma RequestLogDataDistinct(d: RequestData)
    ensures DistinctKeys(RequestLogData(d))
  {
    var r0: Fields := [];
    var r1 := PutIf(r0, JsPresent(d.headers), "headers", MaskedValue(d.headers));
    var r2 := PutIf(r1, JsPresent(d.params), "params", OrNull(d.params));
    var r3 := PutIf(r2, JsPresent(d.queryParams), "queryParams", OrNull(d.queryParams));
    var r4 := PutIf(r3, JsPresent(d.body), "body", MaskedValue(d.body));
    DistinctPutIf(r0, JsPresent(d.headers), "headers", MaskedValue(d.headers));
    DistinctPutIf(r1, JsPresent(d.params), "params", OrNull(d.params));
    DistinctPutIf(r2, JsPresent(d.queryParams), "queryParams", OrNull(d.queryParams));
    DistinctPutIf(r3, JsPresent(d.body), "body", MaskedValue(d.body));
    DistinctPutIf(r4, JsPresent(d.contentType), "contentType", OrNull(d.contentType));
  }

  /** The `logData` of `apiResponse`: status and duration first, then headers and body only when truthy. */
  function ResponseLogData(status: int, duration: int, d: ResponseData): Fields
  {
    var r0: Fields := [("status", JNum(status)), ("duration", JStr(IntToString(duration) + "ms"))];
    var r1 := PutIf(r0, JsPresent(d.headers), "headers", OrNull(d.headers));
    PutIf(r1, JsPresent(d.body), "body", TruncatedValue(d.body))
  }

  /** What `apiResponse` logs under each key. */
  function ResponseField(status: int, duration: int, d: ResponseData, k: string): Option<Json>
  {
    if k == "status" then Some(JNum(status))
    else if k == "duration" then Some(JStr(IntToString(duration) + "ms"))
    else if k == "headers" then (if JsPresent(d.headers) then d.headers else None)
    else if k == "body" then (if JsPresent(d.body) then Some(Truncated(d.body.value)) else None)
    else None
  }

  /** The lookup in a two-entry literal record. */
  lemma LookupPair(a: (string, Json), b: (string, Json), k: string)
    ensures Lookup([a, b], k) == if a.0 == k then Some(a.1) else if b.0 == k then Some(b.1) else None
  {
    assert [a, b][1..] == [b];
    assert [b][1..] == [];
  }

  /**
   * `apiResponse` always logs the status and the duration in milliseconds, the headers when
   * truthy and, when truthy, the body in its possibly summarised form; nothing else.
   */
  lemma ResponseLogDataFields(status: int, duration: int, d: ResponseData, k: string)
    ensures Lookup(ResponseLogData(status, duration, d), k) == ResponseField(status, duration, d, k)
  {
    var r0: Fields := [("status", JNum(status)), ("duration", JStr(IntToString(duration) + "ms"))];
    var r1 := PutIf(r0, JsPresent(d.headers), "headers", OrNull(d.headers));
    LookupPutIf(r1, JsPresent(d.body), "body", TruncatedValue(d.body), k);
    LookupPutIf(r0, JsPresent(d.headers), "headers", OrNull(d.headers), k);
    LookupPair(r0[0], r0[1], k);
  }

  /**
   * The body `apiResponse` logs: none when the body is falsy, the body itself unless it is
   * an array of more than ten items, and otherwise the summary with the true count and the
   * first three items.
   */
  lemma ResponseLogBody(status: int, duration: int, d: ResponseData)
    ensures !JsPresent(d.body) ==> Lookup(ResponseLogData(status, duration, d), "body") == None
    ensures JsPresent(d.body) && !(d.body.value.JArr? && |d.body.value.items| > 10) ==>
      Lookup(ResponseLogData(status, duration, d), "body") == d.body
    ensures JsPresent(d.body) && d.body.value.JArr? && |d.body.value.items| > 10 ==>
      var b := Lookup(ResponseLogData(status, duration, d), "body");
      var items := d.body.value.items;
      b.Some? && Member(b.value, "itemsCount") == Some(JNum(|items|)) &&
      Member(b.value, "firstItems") == Some(JArr(items[..3])) &&
      Member(b.value, "message") == Some(JStr(TruncationNotice))
  {
    ResponseLogDataFields(status, duration, d, "body");
    if JsPresent(d.body) && d.body.value.JArr? && |d.body.value.items| > 10 {
      TruncatedSummary(d.body.value.items);
    }
  }

  lemma ResponseLogDataDistinct(status: int, duration: int, d: ResponseData)
    ensures DistinctKeys(ResponseLogData(status, duration, d))
  {
    var r0: Fields := [("status", JNum(status)), ("duration", JStr(IntToString(duration) + "ms"))];
    var r1 := PutIf(r0, JsPresent(d.headers), "headers", OrNull(d.headers));
    DistinctPutIf(r0, JsPresent(d.headers), "headers", OrNull(d.headers));
    DistinctPutIf(r1, JsPresent(d.body), "body", TruncatedValue(d.body));
  }

  /** `error.message || error`. */
  function ErrorText(error: Json): Json
  {
    if JsPresent(Member(error, "message")) then Member(error, "message").value else error
  }

  /** `error.response?.status`, undefined when the error carries no response. */
  function ErrorStatus(error: Json): Json
  {
    OrNull(OptMember(Member(error, "response"), "status"))
  }

  /** `error.response?.data`. */
  function ServerErrorBody(error: Json): Option<Json>
  {
    OptMember(Member(error, "response"), "data")
  }

  function DurationText(duration: Option<int>): Json
  {
    if duration.Some? then JStr(IntToString(duration.value) + "ms") else JNull
  }

  /** The `logData` of `apiError`. */
  function ErrorLogData(error: Json, duration: Option<int>, d: ResponseData): Fields
  {
    var r0: Fields := [("error", ErrorText(error)), ("status", ErrorStatus(error))];
    var r1 := PutIf(r0, duration.Some? && duration.value != 0, "duration", DurationText(duration));
    var r2 := PutIf(r1, JsPresent(d.headers), "headers", OrNull(d.headers));
    PutIf(r2, JsPresent(ServerErrorBody(error)), "responseData", OrNull(ServerErrorBody(error)))
  }

  /** What `apiError` logs under each key. */
  function ErrorField(error: Json, duration: Option<int>, d: ResponseData, k: string): Option<Json>
  {
    if k == "error" then Some(ErrorText(error))
    else if k == "status" then Some(ErrorStatus(error))
    else if k == "duration" then
      (if duration.Some? && duration.value != 0 then Some(JStr(IntToString(duration.value) + "ms")) else None)
    else if k == "headers" then (if JsPresent(d.headers) then d.headers else None)
    else if k == "responseData" then (if JsPresent(ServerErrorBody(error)) then ServerErrorBody(error) else None)
    else None
  }

  /**
   * `apiError` always logs the error text and the status, the duration only when it is a
   * non-zero number, and the headers and the server's error body when truthy; nothing else.
   */
  lemma ErrorLogDataFields(error: Json, duration: Option<int>, d: ResponseData, k: string)
    ensures Lookup(ErrorLogData(error, duration, d), k) == ErrorField(error, duration, d, k)
  {
    var p1 := duration.Some? && duration.value != 0;
    var r0: Fields := [("error", ErrorText(error)), ("status", ErrorStatus(error))];
    var r1 := PutIf(r0, p1, "duration", DurationText(duration));
    var r2 := PutIf(r1, JsPresent(d.headers), "headers", OrNull(d.headers));
    LookupPutIf(r2, JsPresent(ServerErrorBody(error)), "responseData", OrNull(ServerErrorBody(error)), k);
    LookupPutIf(r1, JsPresent(d.headers), "headers", OrNull(d.headers), k);
    LookupPutIf(r0, p1, "duration", DurationText(duration), k);
    LookupPair(r0[0], r0[1], k);
  }

  lemma ErrorLogDataDistinct(error: Json, duration: Option<int>, d: ResponseData)
    ensures DistinctKeys(ErrorLogData(error, duration, d))
  {
    var p1 := duration.Some? && duration.value != 0;
    var r0: Fields := [("error", ErrorText(error)), ("status", ErrorStatus(error))];
    var r1 := PutIf(r0, p1, "duration", DurationText(duration));
    var r2 := PutIf(r1, JsPresent(d.headers), "headers", OrNull(d.headers));
    DistinctPutIf(r0, p1, "duration", DurationText(duration));
    DistinctPutIf(r1, JsPresent(d.headers), "headers", OrNull(d.headers));
    DistinctPutIf(r2, JsPresent(ServerErrorBody(error)), "responseData", OrNull(ServerErrorBody(error)));
  }

  function RequestMessage(httpMethod: string, url: string): string
  {
    "API Request: " + httpMethod + " " + url
  }

  function ResponseMessage(httpMethod: string, url: string, status: int, duration: int): string
  {
    "API Response: " + httpMethod + " " + url + " [" + IntToString(status) + "] " + IntToString(duration) + "ms"
  }

  function ErrorMessage(httpMethod: string, url: string): string
  {
    "API Error: " + httpMethod + " " + url
  }

  // ---------------------------------------------------------------- the logger object

  class PackLogger {
    const appName: string
    const isDev: bool
    /** Every group emitted so far, oldest first. */
    var output: seq<Group>

    /** `new PackLogger()` is named "pack" and in development mode. */
    constructor(appName: string := "pack", isDev: bool := true)
      ensures this.appName == appName && this.isDev == isDev && output == []
    {
      this.appName := appName;
      this.isDev := isDev;
      output := [];
    }

    /** `log(level, message, data)`, with `ms` the millisecond reading of the clock at the call. */
    method Log(level: Level, message: string, data: Option<Fields>, ms: nat)
      modifies this`output
      ensures output == old(output) + Emitted(isDev, level, appName, ms, message, data)
    {
      if !isDev && level != Level.Error {
        return;
      }
      var time := PadMs(ms);
      var section: Option<Fields> := None;
      if data.Some? && |data.value| > 0 {
        section := data;
      }
      output := output + [Group(level, time, appName, message, section)];
    }

    method Debug(message: string, data: Option<Fields>, ms: nat)
      modifies this`output
      ensures output == old(output) + Emitted(isDev, Level.Debug, appName, ms, message, data)
    {
      Log(Level.Debug, message, data, ms);
    }

    method Info(message: string, data: Option<Fields>, ms: nat)
      modifies this`output
      ensures output == old(output) + Emitted(isDev, Level.Info, appName, ms, message, data)
    {
      Log(Level.Info, message, data, ms);
    }

    method Warn(message: string, data: Option<Fields>, ms: nat)
      modifies this`output
      ensures output == old(output) + Emitted(isDev, Level.Warn, appName, ms, message, data)
    {
      Log(Level.Warn, message, data, ms);
    }

    method Error(message: string, data: Option<Fields>, ms: nat)
      modifies this`output
      ensures output == old(output) + Emitted(isDev, Level.Error, appName, ms, message, data)
    {
      Log(Level.Error, message, data, ms);
    }

    method Success(message: string, data: Option<Fields>, ms: nat)
      modifies this`output
      ensures output == old(output) + Emitted(isDev, Level.Success, appName, ms, message, data)
    {
      Log(Level.Success, message, data, ms);
    }

    /** `maskSensitive`: copy the array or object, then overwrite each entry of the copy. */
    method MaskSensitive(data: Json) returns (r: Json)
      ensures r == Masked(data)
      decreases data
    {
      if !JsTruthy(data) || !TypeofObject(data) {
        return data;
      }
      if data.JArr? {
        var masked := data.items;
        var i := 0;
        while i < |masked|
          invariant 0 <= i <= |masked| == |data.items|
          invariant forall j | 0 <= j < i :: masked[j] == MaskedEntry(IndexKey(j), data.items[j])
          invariant forall j | i <= j < |masked| :: masked[j] == data.items[j]
        {
          var key := IndexKey(i);
          if IsSensitiveKey(key) {
            masked := masked[i := JStr("***")];
          } else if TypeofObject(masked[i]) {
            var m := MaskSensitive(masked[i]);
            masked := masked[i := m];
          }
          i := i + 1;
        }
        r := JArr(masked);
      } else {
        var masked := data.fields;
        var i := 0;
        while i < |masked|
          invariant 0 <= i <= |masked| == |data.fields|
          invariant forall j | 0 <= j < i :: masked[j] == (data.fields[j].0, MaskedEntry(data.fields[j].0, data.fields[j].1))
          invariant forall j | i <= j < |masked| :: masked[j] == data.fields[j]
        {
          var key := masked[i].0;
          if IsSensitiveKey(key) {
            masked := masked[i := (key, JStr("***"))];
          } else if TypeofObject(masked[i].1) {
            assert masked[i].1 == data.fields[i].1;
            var m := MaskSensitive(masked[i].1);
            masked := masked[i := (key, m)];
          }
          i := i + 1;
        }
        r := JObj(masked);
      }
    }

    /** `apiRequest`: build `logData` entry by entry, then log it at info. */
    method ApiRequest(httpMethod: string, url: string, data: RequestData, ms: nat)
      modifies this`output
      ensures output == old(output) + Emitted(isDev, Level.Info, appName, ms, RequestMessage(httpMethod, url), Some(RequestLogData(data)))
    {
      var logData: Fields := [];
      if JsPresent(data.headers) {
        var h := MaskSensitive(data.headers.value);
        logData := Put(logData, "headers", h);
      }
      if JsPresent(data.params) {
        logData := Put(logData, "params", data.params.value);
      }
      if JsPresent(data.queryParams) {
        logData := Put(logData, "queryParams", data.queryParams.value);
      }
      if JsPresent(data.body) {
        var b := MaskSensitive(data.body.value);
        logData := Put(logData, "body", b);
      }
      if JsPresent(data.contentType) {
        logData := Put(logData, "contentType", data.contentType.value);
      }
      Log(Level.Info, RequestMessage(httpMethod, url), Some(logData), ms);
    }

    /** `apiResponse`: the level from the status, then status, duration and the optional parts. */
    method ApiResponse(httpMethod: string, url: string, status: int, duration: int, data: ResponseData, ms: nat)
      modifies this`output
      ensures output == old(output) + Emitted(isDev, ResponseLevel(status), appName, ms,
                                              ResponseMessage(httpMethod, url, status, duration),
                                              Some(ResponseLogData(status, duration, data)))
    {
      var level := if status >= 200 && status < 300 then Level.Success else if status >= 500 then Level.Error else Level.Warn;
      var logData: Fields := [("status", JNum(status)), ("duration", JStr(IntToString(duration) + "ms"))];
      if JsPresent(data.headers) {
        logData := Put(logData, "headers", data.headers.value);
      }
      if JsPresent(data.body) {
        var body := if data.body.value.JArr? && |data.body.value.items| > 10
          then JObj([("itemsCount", JNum(|data.body.value.items|)),
                     ("firstItems", JArr(data.body.value.items[..3])),
                     ("message", JStr(TruncationNotice))])
          else data.body.value;
        logData := Put(logData, "body", body);
      }
      Log(level, ResponseMessage(httpMethod, url, status, duration), Some(logData), ms);
    }

    /**
     * `apiError`. Reading `error.message` of `null` or `undefined` throws a `TypeError`
     * before anything is logged; `threw` reports that case.
     */
    method ApiError(httpMethod: string, url: string, error: Json, duration: Option<int>, data: ResponseData, ms: nat)
      returns (threw: bool)
      modifies this`output
      ensures threw <==> error.JNull?
      ensures threw ==> output == old(output)
      ensures !threw ==> output == old(output) + Emitted(isDev, Level.Error, appName, ms, ErrorMessage(httpMethod, url),
                                                         Some(ErrorLogData(error, duration, data)))
    {
      if error.JNull? {
        return true;
      }
      threw := false;
      var message := Member(error, "message");
      var response := Member(error, "response");
      var logData: Fields := [("error", if JsPresent(message) then message.value else error),
                              ("status", OrNull(OptMember(response, "status")))];
      if duration.Some? && duration.value != 0 {
        logData := Put(logData, "duration", JStr(IntToString(duration.value) + "ms"));
      }
      if JsPresent(data.headers) {
        logData := Put(logData, "headers", data.headers.value);
      }
      if JsPresent(OptMember(response, "data")) {
        logData := Put(logData, "responseData", OptMember(response, "data").value);
      }
      Log(Level.Error, ErrorMessage(httpMethod, url), Some(logData), ms);
    }
  }

  /**
   * A logger built outside development mode that is sent one call of each level emits
   * exactly one group, the error.
   */
  method QuietLoggerKeepsOnlyErrors(app: string, message: string, data: Option<Fields>, ms: nat)
    returns (out: seq<Group>)
    ensures |out| == 1 && out[0].level == Level.Error && out[0].message == message && out[0].app == app
  {
    var logger := new PackLogger(app, false);
    logger.Debug(message, data, ms);
    logger.Info(message, data, ms);
    logger.Warn(message, data, ms);
    logger.Success(message, data, ms);
    logger.Error(message, data, ms);
    out := logger.output;
  }
}
