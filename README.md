# olivin-app: logging, redaction, health and path logic in Dafny

This project models the decision logic of the olivin-app repository and proves properties of
it. That logic lives in small pieces around logging, sensitive-data masking, health reporting
and path composition:

- **Frontend `PackLogger`** (`FrontendLogger`): the development-mode gate, the millisecond
  padding of the timestamp, the recursive `maskSensitive`, the banding of response statuses
  into levels, the summary of large array bodies, and the request, response and error records.
  Each emitted `console.group` is one `Group` appended to a sequence.
- **Backend `PackLogger` and `configure_logging`** (`BackendLogger`): `_log` drops `None`
  fields, prints the message and then the data, and calls the standard logger. `success` is
  an alias for info. `api_request` and `api_response` build their records step by step, and
  `configure_logging` returns one dictionary literal.
- **`ApiLoggingMiddleware`** (`LoggingMiddleware`):
  - path exclusion by prefix;
  - header masking, and body masking (dicts only, one level into lists);
  - the collection of request headers, the request body by content type, the response headers
    and the response body summary;
  - the client address, and the two hooks that log through the backend logger.
- **`view_logs`** (`LogView`): the 403 / 404 / 500 guards and the last 100 lines of a log file,
  with the file as an abstract input.
- **The two health views** (`HealthProbes`, `UtilsHealth`, `CoreHealth`): each folds three
  abstract check outcomes into a services dict and an overall status. `view_healthcheck` also
  logs every step. The two views treat one case differently: a wrong Redis value read back.
- **S3 storage classes** (`Storages`): the class attributes per class, the slash handling of
  `custom_domain_with_bucket`, and the field rewrite in `__init__`.
- **`load_valid_envs`** (`EnvPaths`): the ordered env files handed to `load_dotenv`, or the
  `ValueError`.
- **Platform helpers** (`PlatformStyles`): `webOnly`, `nativeOnly`, `androidOnly`, `iosOnly`,
  `platformSelect` and `platformValue`, over an explicit `Platform` value.
- **Screens** (`HealthScreen`, `LogsScreen`):
  - the health screen's status colour, badge, and service-name capitalisation;
  - the log screen's line colour;
  - the error texts, and the state a fetch leaves.

`Comparisons` relates the pieces to each other:
- the two health views;
- the health screen reading either view's report;
- the log screen reading the log endpoint;
- the two loggers' masking and status rules.

The helper modules are:
- `Wrappers` (`Option`);
- `Strings` (ASCII case mapping, substring tests, decimal digits, padding, stripping, title case);
- `Assoc` (insertion-ordered association lists, which model Python dicts and JavaScript objects);
- `JsonValue` (the payload type and JavaScript and Python truthiness).

Three facts about the code shape the frontend part of the model:
- There is no base-URL resolver: frontend/config/api.ts is a fixed constant, so none is
  modelled.
- The axios clients' interceptors only print to the console, and they are not part of this
  model. `Comparisons.ClientResult` models only how the client settles a promise (2xx
  resolves, anything else rejects).
- `apiError` puts the URL only in the message. Its record holds the error, the status, the
  duration, the headers and the server's error body, as `FrontendLogger.ErrorLogDataFields`
  states.

## Model

| member | source | states |
|---|---|---|
| FrontendLogger.DataSection | packages/pack-logger/frontend/src/logger.ts:67 | the "Data:" section is present exactly when the data has at least one key, and is then that data |
| FrontendLogger.PadMsThreeDigits | packages/pack-logger/frontend/src/logger.ts:46 | for 0..999 the padded millisecond part has three digits that read back as the reading |
| FrontendLogger.QuietGate | packages/pack-logger/frontend/src/logger.ts:54 | outside development mode a call emits one group if it is an error and none otherwise |
| FrontendLogger.PackLogger.constructor | packages/pack-logger/frontend/src/logger.ts:31-34 | name and mode are fixed at construction, "pack" and development mode by default; nothing has been emitted |
| FrontendLogger.PackLogger.Log | packages/pack-logger/frontend/src/logger.ts:53-79 | appends one group (level, padded ms, name, message, data section) when the gate passes, and nothing otherwise |
| FrontendLogger.PackLogger.Debug | packages/pack-logger/frontend/src/logger.ts:81-83 | logs at debug |
| FrontendLogger.PackLogger.Info | packages/pack-logger/frontend/src/logger.ts:85-87 | logs at info |
| FrontendLogger.PackLogger.Warn | packages/pack-logger/frontend/src/logger.ts:89-91 | logs at warn |
| FrontendLogger.PackLogger.Error | packages/pack-logger/frontend/src/logger.ts:93-95 | logs at error |
| FrontendLogger.PackLogger.Success | packages/pack-logger/frontend/src/logger.ts:97-99 | logs at success |
| FrontendLogger.QuietLoggerKeepsOnlyErrors | packages/pack-logger/frontend/src/logger.ts:54 | a logger outside development mode that is sent one call of each level emits exactly the error group |
| FrontendLogger.PackLogger.MaskSensitive | packages/pack-logger/frontend/src/logger.ts:104-119 | the copy filled entry by entry in a loop equals the masking function `Masked` |
| FrontendLogger.MaskedKeepsScalars | packages/pack-logger/frontend/src/logger.ts:105 | a falsy or non-object input comes back unchanged |
| FrontendLogger.MaskedShape | packages/pack-logger/frontend/src/logger.ts:108-118 | an object keeps its keys in order, with a sensitive key's value replaced by "***" and every other value masked; an array keeps its length and its elements are masked |
| FrontendLogger.IndexKeyNotSensitive | packages/pack-logger/frontend/src/logger.ts:110-111 | an array index, the key `for...in` yields, is never a sensitive key |
| FrontendLogger.MaskedAtCleanPath | packages/pack-logger/frontend/src/logger.ts:112-115 | along non-sensitive keys the masked value holds the masked form of what the input holds, so scalars there are kept |
| FrontendLogger.MaskedAtSensitiveKey | packages/pack-logger/frontend/src/logger.ts:107-112 | a sensitive key reached through non-sensitive keys holds "***" after masking, at any depth |
| FrontendLogger.MaskedIdempotent | packages/pack-logger/frontend/src/logger.ts:104-119 | masking twice is masking once |
| FrontendLogger.ResponseLevel | packages/pack-logger/frontend/src/logger.ts:152 | success iff 200..299, error iff at least 500, warn iff below 200 or 300..499 |
| FrontendLogger.TruncatedSummary | packages/pack-logger/frontend/src/logger.ts:164-171 | the summary's `itemsCount` is the true length and `firstItems` exactly the first three items |
| FrontendLogger.ResponseLogBody | packages/pack-logger/frontend/src/logger.ts:163-173 | the response record has no `body` for a falsy body, the body itself unless it is an array of more than ten items, and otherwise the summary with the true count, the first three items and the notice |
| FrontendLogger.RequestLogDataFields | packages/pack-logger/frontend/src/logger.ts:125-145 | the request record holds masked headers and body and verbatim params, query params and content type, each exactly when truthy, and no other key |
| FrontendLogger.RequestLogDataDistinct | packages/pack-logger/frontend/src/logger.ts:129-143 | the request record never holds a key twice |
| FrontendLogger.PackLogger.ApiRequest | packages/pack-logger/frontend/src/logger.ts:125-145 | emits the request record as built step by step, under "API Request: M U", at info |
| FrontendLogger.ResponseLogDataFields | packages/pack-logger/frontend/src/logger.ts:151-176 | the response record always holds status and duration, holds headers when truthy and the possibly summarised body when truthy, and nothing else |
| FrontendLogger.ResponseLogDataDistinct | packages/pack-logger/frontend/src/logger.ts:154-173 | the response record never holds a key twice |
| FrontendLogger.PackLogger.ApiResponse | packages/pack-logger/frontend/src/logger.ts:151-176 | emits the response record at the banded level, with the status and duration in the message |
| FrontendLogger.ErrorLogDataFields | packages/pack-logger/frontend/src/logger.ts:181-200 | the error record always holds the error text and status, holds the duration only when it is non-zero, and holds headers and the server body when truthy |
| FrontendLogger.ErrorLogDataDistinct | packages/pack-logger/frontend/src/logger.ts:182-198 | the error record never holds a key twice |
| FrontendLogger.PackLogger.ApiError | packages/pack-logger/frontend/src/logger.ts:181-200 | an error that is `null` or `undefined` throws before anything is emitted; any other error emits the error record at error |
| LoggingMiddleware.ShouldLogSlashes | packages/pack-logger/backend/pack_logger/middleware.py:26 | the excluded prefixes include their trailing slash: "/api/health" and "/admin" are logged, "/api/health/" and "/favicon.icons" are not |
| LoggingMiddleware.ExcludedExtends | packages/pack-logger/backend/pack_logger/middleware.py:31-33 | exclusion is by prefix: any extension of an excluded path is excluded |
| LoggingMiddleware.MaskedHeaders | packages/pack-logger/backend/pack_logger/middleware.py:35-44 | the masked headers keep the keys, their order and their number |
| LoggingMiddleware.LookupMaskedHeaders | packages/pack-logger/backend/pack_logger/middleware.py:38-43 | a header's value becomes "***MASKED***" exactly when its lower-cased name contains a sensitive name |
| LoggingMiddleware.MaskedHeadersIdempotent | packages/pack-logger/backend/pack_logger/middleware.py:35-44 | masking headers twice is masking them once |
| LoggingMiddleware.MaskSensitiveHeaders | packages/pack-logger/backend/pack_logger/middleware.py:35-44 | the dict filled key by key in a loop equals `MaskedHeaders` |
| LoggingMiddleware.MaskedBody | packages/pack-logger/backend/pack_logger/middleware.py:46-63 | a non-dict input, a top-level list included, is returned unchanged; a dict keeps its keys in order |
| LoggingMiddleware.MaskedBodyAtPath | packages/pack-logger/backend/pack_logger/middleware.py:52-62 | along non-sensitive dict keys every dict is masked in turn and a value reached is its masked form |
| LoggingMiddleware.MaskedBodyAtSensitiveKey | packages/pack-logger/backend/pack_logger/middleware.py:54-55 | a sensitive key at any dict depth holds "***MASKED***" after masking |
| LoggingMiddleware.NestedListKept | packages/pack-logger/backend/pack_logger/middleware.py:58-60 | lists are entered one level only: a list inside a list is kept verbatim |
| LoggingMiddleware.MaskedBodyIdempotent | packages/pack-logger/backend/pack_logger/middleware.py:46-63 | masking a body twice is masking it once |
| LoggingMiddleware.MaskSensitiveBody | packages/pack-logger/backend/pack_logger/middleware.py:46-63 | the dict filled key by key, recursing into dicts, equals `MaskedBody` |
| LoggingMiddleware.MaskListItems | packages/pack-logger/backend/pack_logger/middleware.py:59-60 | the list comprehension masks the dict items and keeps every other item |
| LoggingMiddleware.RequestHeadersTitled | packages/pack-logger/backend/pack_logger/middleware.py:96 | every header name that `request.headers` yields is title-cased, and none occurs twice |
| LoggingMiddleware.UsefulHeadersLookup | packages/pack-logger/backend/pack_logger/middleware.py:90-93 | a listed name is stored exactly when its header is present and non-empty, with that header's value |
| LoggingMiddleware.AddSelectedLookup | packages/pack-logger/backend/pack_logger/middleware.py:96-98 | a selected header ends up with its own value; every other key is as before |
| LoggingMiddleware.AsWrittenSkipsCustomHeaders | packages/pack-logger/backend/pack_logger/middleware.py:96-98 | as written, the collected headers hold only listed names and Authorization/Cookie, never a custom X- header |
| LoggingMiddleware.CustomHeaderExample | packages/pack-logger/backend/pack_logger/middleware.py:96-98 | the header `X-Id: 7` is dropped as written and kept by the corrected test |
| LoggingMiddleware.CorrectedKeepsCustomHeaders | packages/pack-logger/backend/pack_logger/middleware.py:95-100 | corrected, every X- header of the request is logged with its own value, masked when sensitive |
| LoggingMiddleware.GetRequestHeaders | packages/pack-logger/backend/pack_logger/middleware.py:65-100 | the two loops and the masking produce the masked collected headers; `asWritten` true is the source's case-sensitive `x-` test, false the corrected one |
| LoggingMiddleware.RequestBody | packages/pack-logger/backend/pack_logger/middleware.py:102-136 | an empty body gives None; a JSON body gives its masked parse, or None when parsing fails; a form body gives the posted dict unmasked when it is non-empty, else None; a multipart body gives exactly the field names and the file names, in order; any other content type gives None |
| LoggingMiddleware.FormFieldsInClear | packages/pack-logger/backend/pack_logger/middleware.py:126-128 | a sensitive form field reaches the log with its own value, where the same data as JSON is masked |
| LoggingMiddleware.GetResponseHeaders | packages/pack-logger/backend/pack_logger/middleware.py:138-163 | the loop keeps exactly the listed response headers that are present and non-empty |
| LoggingMiddleware.SummarisedFields | packages/pack-logger/backend/pack_logger/middleware.py:197-202 | the summary's `items_count` is the true length and `first_items` exactly the first three items |
| LoggingMiddleware.ResponseBodyCases | packages/pack-logger/backend/pack_logger/middleware.py:165-211 | a response without content gives None; a JSON response (or `application/json` content) gives None when it does not parse, the summary for a list of more than ten items and the parsed body otherwise; other content gives the HTML or binary notice with its byte count in decimal |
| LoggingMiddleware.ClientIp | packages/pack-logger/backend/pack_logger/middleware.py:213-218 | with a non-empty X-Forwarded-For the result has no comma and no surrounding space; otherwise it is REMOTE_ADDR or "unknown" |
| LoggingMiddleware.ClientIpFirstHop | packages/pack-logger/backend/pack_logger/middleware.py:217 | for a chain `a,rest` the client is `a` with its whitespace stripped |
| LoggingMiddleware.ClientIpSingleHop | packages/pack-logger/backend/pack_logger/middleware.py:215-217 | a non-empty X-Forwarded-For without a comma gives that address with its whitespace stripped |
| LoggingMiddleware.RequestLogRecordAt | packages/pack-logger/backend/pack_logger/middleware.py:235-245 | key by key, the request record: `user_id` from the keyword data, every other key from the base record, with the headers collected by the test `asWritten` picks |
| LoggingMiddleware.RequestLogRecordFields | packages/pack-logger/backend/pack_logger/middleware.py:235-245 | the request record names method, path, user, ip and user id |
| LoggingMiddleware.RequestLogRecordLogs | packages/pack-logger/backend/pack_logger/middleware.py:235-245 | the request record never holds `self`, `level` or `message`, so logging it always succeeds |
| LoggingMiddleware.ResponseLogRecordLogs | packages/pack-logger/backend/pack_logger/middleware.py:262-269 | the response record never holds `self`, `level` or `message`, so logging it always succeeds |
| LoggingMiddleware.ApiLoggingMiddleware.constructor | packages/pack-logger/backend/pack_logger/middleware.py:10-13 | the middleware writes to the given logger and uses the given header test |
| LoggingMiddleware.ApiLoggingMiddleware.ProcessRequest | packages/pack-logger/backend/pack_logger/middleware.py:220-245 | an excluded path changes nothing; otherwise the start time is set and exactly one info call is logged, with the request record built by the middleware's header test (`asWritten` true is the source's, false the corrected one) |
| LoggingMiddleware.ApiLoggingMiddleware.ProcessResponse | packages/pack-logger/backend/pack_logger/middleware.py:247-271 | the very response is returned; an excluded path logs nothing; otherwise one call at the banded level with the response record |
| BackendLogger.DropNone | packages/pack-logger/backend/pack_logger/logger.py:84 | the kept entries are exactly the input's entries whose value is not None |
| BackendLogger.LookupDropNone | packages/pack-logger/backend/pack_logger/logger.py:84 | in a dict, a key keeps its value unless that value is None |
| BackendLogger.DropNoneNoNull | packages/pack-logger/backend/pack_logger/logger.py:84 | data without None values is kept as it is |
| BackendLogger.CallOutcome | packages/pack-logger/backend/pack_logger/logger.py:82 | a call ends normally iff its data does not rebind `self`/`level`/`message` and the level is not `success` |
| BackendLogger.Printed | packages/pack-logger/backend/pack_logger/logger.py:97-108 | the message is printed in the level's style, followed by the data only when there is any |
| BackendLogger.PrintedAll | packages/pack-logger/backend/pack_logger/logger.py:97-108 | a run of calls prints at least one line per call, the first call's message first |
| BackendLogger.PrintedAllAppend | packages/pack-logger/backend/pack_logger/logger.py:97-108 | the console output of two runs of calls is the concatenation of their outputs |
| BackendLogger.Console.constructor | packages/pack-logger/backend/pack_logger/logger.py:15-21 | the shared console starts empty |
| BackendLogger.PackLogger.constructor | packages/pack-logger/backend/pack_logger/logger.py:43-66 | name, mode and console are fixed; no call has been made |
| BackendLogger.PackLogger.Log | packages/pack-logger/backend/pack_logger/logger.py:68-111 | prints per `Printed` and records one call with the None-free data, or fails with AttributeError for `success` |
| BackendLogger.PackLogger.Forward | packages/pack-logger/backend/pack_logger/logger.py:113-127 | a keyword named `self`, `level` or `message` ends in TypeError with no output; otherwise as `_log` |
| BackendLogger.PackLogger.Debug | packages/pack-logger/backend/pack_logger/logger.py:113-115 | forwards at debug; a keyword named `self`, `level` or `message` ends in TypeError with no output |
| BackendLogger.PackLogger.Info | packages/pack-logger/backend/pack_logger/logger.py:117-119 | forwards at info; a keyword named `self`, `level` or `message` ends in TypeError with no output |
| BackendLogger.PackLogger.Warning | packages/pack-logger/backend/pack_logger/logger.py:121-123 | forwards at warning; a keyword named `self`, `level` or `message` ends in TypeError with no output |
| BackendLogger.PackLogger.Error | packages/pack-logger/backend/pack_logger/logger.py:125-127 | forwards at error; a keyword named `self`, `level` or `message` ends in TypeError with no output |
| BackendLogger.PackLogger.Success | packages/pack-logger/backend/pack_logger/logger.py:129-131 | `success` has exactly the outcome, console output and recorded call of `info` |
| BackendLogger.RequestBaseFields | packages/pack-logger/backend/pack_logger/logger.py:159-173 | method/path/user/ip always; headers, query_params and content_type when truthy; body when not None; nothing else; keys distinct |
| BackendLogger.RequestRecordFields | packages/pack-logger/backend/pack_logger/logger.py:175 | a keyword key overrides the base record, and every other key is as in the base |
| BackendLogger.RequestExtraFields | packages/pack-logger/backend/pack_logger/logger.py:159-181 | the logged request data is the base record overridden by the keywords, without None values |
| BackendLogger.PackLogger.ApiRequest | packages/pack-logger/backend/pack_logger/logger.py:133-181 | logs the record at info under "API Request: {method} {path}" |
| BackendLogger.ResponseLevel | packages/pack-logger/backend/pack_logger/logger.py:205 | info iff below 400, error iff at least 500, warning iff 400..499 |
| BackendLogger.ResponseBaseFields | packages/pack-logger/backend/pack_logger/logger.py:207-217 | method/path/status/duration_ms always; headers when truthy; body when not None; keys distinct |
| BackendLogger.ResponseExtraFields | packages/pack-logger/backend/pack_logger/logger.py:207-219 | the logged response data keeps method, path and status unless a keyword overrides them |
| BackendLogger.PackLogger.ApiResponse | packages/pack-logger/backend/pack_logger/logger.py:183-225 | logs the record at the banded level under the response message |
| BackendLogger.ConfiguredLoggersFields | packages/pack-logger/backend/pack_logger/logger.py:260-297 | each configured logger has its level (django.request ERROR, botocore/boto3/urllib3 WARNING, the app DEBUG or INFO) and writes to the console only |
| BackendLogger.ConfiguredLoggersQuiet | packages/pack-logger/backend/pack_logger/logger.py:260-297 | no configured logger propagates, and each uses only the console handler |
| BackendLogger.ConfigureLoggingDebugLevels | packages/pack-logger/backend/pack_logger/logger.py:251 | handler, root and application logger are at DEBUG iff `debug`, else INFO |
| LogView.Tail | backend/src/core/utils/logs.py:28 | the last min(100, n) lines, as a suffix of the input |
| LogView.Shown | backend/src/core/utils/logs.py:31 | line by line, each line without its trailing newlines |
| LogView.DeniedFirst | backend/src/core/utils/logs.py:12-13 | outside DEBUG the answer is 403 with the error text, whatever the file |
| LogView.MissingFile | backend/src/core/utils/logs.py:17-22 | a missing file gives 404 with no lines, total 0 and the not-found message |
| LogView.ReadableFile | backend/src/core/utils/logs.py:28-34 | 200 with total_lines = n, showing = min(100, n), and the last lines in order, stripped |
| LogView.StrippedLine | backend/src/core/utils/logs.py:31 | a stripped line is a prefix of the line followed only by newlines, and does not end in one |
| LogView.UnreadableFile | backend/src/core/utils/logs.py:35-38 | a read failure gives 500 with only an `error` field carrying the failure text |
| HealthProbes.ProbeValue | backend/src/core/utils/health.py:30-33 | "healthy" iff the check passed; "unhealthy: " and the text of the exception otherwise |
| HealthProbes.RedisValue | backend/src/core/utils/health.py:38-50 | "healthy" iff the value read back is right, "unhealthy" for a wrong value, "unhealthy: " and the text when the cache raised |
| HealthProbes.ServicesJson | backend/src/core/utils/health.py:78 | the services dict serialised as an object with one string entry per service |
| HealthProbes.ServicesKeys | backend/src/core/health.py:22-55 | the services are exactly database, redis and storage, in check order |
| HealthProbes.RaisedEntries | backend/src/core/health.py:26-28 | some check raised iff some entry starts with "unhealthy: " |
| HealthProbes.ReportBodyFields | backend/src/core/health.py:57 | the response body carries the status and every service entry |
| CoreHealth.CoreStatus | backend/src/core/health.py:16-55 | unhealthy exactly when some check raised |
| CoreHealth.HealthCheck | backend/src/core/health.py:11-57 | the dict updated in place after each check ends as the core status and the three services |
| CoreHealth.CoreStatusFromEntries | backend/src/core/health.py:16-55 | unhealthy exactly when some service entry records an exception |
| CoreHealth.UnexpectedRedisKeepsStatus | backend/src/core/health.py:35-36 | a wrong Redis value marks Redis "unhealthy" but leaves the overall status as it was |
| UtilsHealth.UtilsStatus | backend/src/core/utils/health.py:21-68 | healthy exactly when every check passed |
| UtilsHealth.LogProbe | backend/src/core/utils/health.py:27-35 | a passed check logs at debug, a raising one at error with the exception text |
| UtilsHealth.LogRedis | backend/src/core/utils/health.py:38-50 | the Redis check logs at debug, at warning (wrong value) or at error with the text |
| UtilsHealth.LogFinal | backend/src/core/utils/health.py:71-76 | the closing call: `success` when healthy, otherwise a warning with the status and services |
| UtilsHealth.ViewHealthcheck | backend/src/core/utils/health.py:17-78 | returns the utils status and the three services, and logs exactly the five calls of `HealthLog`, in order |
| UtilsHealth.UtilsStatusFromEntries | backend/src/core/utils/health.py:21-68 | healthy exactly when every service entry is "healthy" |
| UtilsHealth.FinalLogLevel | backend/src/core/utils/health.py:71-76 | the closing call is at info iff healthy and at warning iff unhealthy, and carries the services |
| UtilsHealth.ErrorCalls | backend/src/core/utils/health.py:32-35 | a call at error is logged iff some check raised, each carrying the exception text |
| Storages.Base | backend/src/core/storages.py:27-94 | every class inherits from one of the four base classes |
| Storages.ClassDomain | backend/src/core/storages.py:11 | the class domain is the configured domain without trailing slashes, and does not end in one |
| Storages.DomainWithBucket | backend/src/core/storages.py:13-17 | the domain, a slash, the stripped bucket and a slash: it ends in '/' and starts with domain + "/" |
| Storages.BucketSegment | backend/src/core/storages.py:16-17 | the bucket segment between the slashes has no slash at either end, and a clean bucket name is kept |
| Storages.Storage.CustomDomainWithBucket | backend/src/core/storages.py:13-17 | the property, read from the current field, ends in '/' and starts with that field + "/" |
| Storages.Storage.constructor | backend/src/core/storages.py:19-24 | the domain gains a trailing slash with AWS, or otherwise becomes the domain-with-bucket |
| Storages.ConstructedDomain | backend/src/core/storages.py:19-24 | whichever branch `__init__` takes, the domain ends in '/' and starts with the class domain + "/" |
| Storages.ClassFlags | backend/src/core/storages.py:27-61 | only PublicStorageExpire signs URLs, with a 600 s expiry; the public classes overwrite files and the private ones do not and are "private" |
| Storages.ConcreteBuckets | backend/src/core/storages.py:64-94 | the static bucket comes from settings; the other bucket names are distinct and slash-free |
| EnvPaths.DotEnv.LoadDotenv | backend/src/core/paths.py:14 | each load appends its path |
| EnvPaths.EnvironmentFiles | backend/src/core/paths.py:18-27 | files exist iff ENV is dev, prod or test: three files for dev, one otherwise, django.env first |
| EnvPaths.LoadValidEnvs | backend/src/core/paths.py:10-27 | loads the main .env if it exists, then the environment's files in order, or ends in "Invalid environment: ENV" |
| EnvPaths.MainEnvFirst | backend/src/core/paths.py:12-14 | the main .env is loaded first and only if it exists, and is loaded even when ENV is then rejected |
| EnvPaths.UnsetIsDev | backend/src/core/paths.py:16 | an unset ENV loads what ENV=dev loads: django.env, postgres.env and minio.env |
| EnvPaths.OwnDirectoryOnly | backend/src/core/paths.py:18-25 | each environment loads only files under its own directory |
| PlatformStyles.WebNativeSplit | frontend/styles/platformStyles.ts:9 | on every platform exactly one of webOnly and nativeOnly passes the styles through |
| PlatformStyles.NativeFamilies | frontend/styles/platformStyles.ts:27 | androidOnly and iosOnly pass the styles only on their own platform, never both |
| PlatformStyles.Candidates | frontend/styles/platformStyles.ts:49-61 | the candidates in priority order: own option, native (off the web), default |
| PlatformStyles.FirstTruthy | frontend/styles/platformStyles.ts:49-61 | the result is {} or some truthy candidate |
| PlatformStyles.FirstDefined | frontend/styles/platformStyles.ts:74-86 | undefined exactly when every candidate is undefined |
| PlatformStyles.PlatformSelectPriority | frontend/styles/platformStyles.ts:49-61 | platformSelect is the first truthy candidate in priority order, else {} |
| PlatformStyles.PlatformValuePriority | frontend/styles/platformStyles.ts:74-86 | platformValue is the first defined candidate in the same order |
| PlatformStyles.WebIgnoresNative | frontend/styles/platformStyles.ts:58 | on the web the native option is never consulted by either function |
| PlatformStyles.FalsyOptions | frontend/styles/platformStyles.ts:74-86 | a falsy option is skipped by platformSelect but returned by platformValue |
| PlatformStyles.NoDefaultUndefined | frontend/styles/platformStyles.ts:86 | without an applicable option or a default, platformValue is undefined |
| HealthScreen.UnhealthyContainsHealthy | frontend/app/health.tsx:84-87 | every string containing "unhealthy" contains "healthy" |
| HealthScreen.StatusColorAsWrittenBands | frontend/app/health.tsx:83-91 | as written: success iff "healthy" occurs, error iff only "error" occurs, warning otherwise |
| HealthScreen.AsWrittenUnhealthyLooksHealthy | frontend/app/health.tsx:83-91 | as written, "unhealthy" and "unhealthy: ..." get the success colour and a check mark |
| HealthScreen.StatusColor | frontend/app/health.tsx:83-91 | corrected: error iff "unhealthy" or "error" occurs; success iff "healthy" occurs and neither of those does |
| HealthScreen.Badge | frontend/app/health.tsx:174 | corrected: a check mark exactly when the corrected colour is success |
| HealthScreen.CorrectedDiffersOnlyOnFailures | frontend/app/health.tsx:83-91 | the corrected colour departs from the written one only on strings that report a failure |
| HealthScreen.Capitalize | frontend/app/health.tsx:163 | same length, first character upper-cased, rest kept |
| HealthScreen.CapitalizeIdempotent | frontend/app/health.tsx:163 | capitalising twice is capitalising once |
| HealthScreen.ErrorText | frontend/app/health.tsx:55-58 | the error text is always truthy |
| HealthScreen.ErrorTextPriority | frontend/app/health.tsx:55-58 | the server's message wins over the client's; the fixed text is used only when both are falsy |
| HealthScreen.FailureStateFields | frontend/app/health.tsx:60-65 | after a failure the state is status "error" with one service `api` carrying the error text, drawn in the error colour |
| HealthScreen.FetchedBodyShown | frontend/app/health.tsx:38-65 | a fetched body is kept exactly when its `services` is neither null nor undefined; any other body becomes the failure state with status "error", carrying the TypeError's message |
| HealthScreen.HealthScreen.constructor | frontend/app/health.tsx:24-26 | no status yet, loading, not refreshing |
| HealthScreen.HealthScreen.FetchHealth | frontend/app/health.tsx:28-70 | stores the body when its `services` can be read; a rejected request, or a body whose reading throws a TypeError, leaves the failure state; both flags are cleared |
| HealthScreen.HealthScreen.OnRefresh | frontend/app/health.tsx:77-81 | refetches with the same outcomes as `fetchHealth`, and leaves both flags cleared |
| LogsScreen.LogLevelColor | frontend/app/logs.tsx:61-75 | the colour by priority ERROR/CRITICAL, WARN, INFO, DEBUG, else undefined: red, orange, blue, green and undefined each as an iff |
| LogsScreen.WarningContainsWarn | frontend/app/logs.tsx:65 | every line with WARNING has WARN, so that test adds nothing |
| LogsScreen.ErrorBeatsInfo | frontend/app/logs.tsx:62-70 | a line with both ERROR and INFO is coloured as an error |
| LogsScreen.LowerCaseLineUncoloured | frontend/app/logs.tsx:61-75 | matching is case-sensitive: a line without capitals gets no colour |
| LogsScreen.FailureMessage | frontend/app/logs.tsx:38-44 | the development-mode text iff 403, the not-found text iff 404, the generic text otherwise |
| LogsScreen.LogsScreen.constructor | frontend/app/logs.tsx:24-27 | no data, no error, loading, not refreshing |
| LogsScreen.LogsScreen.FetchLogs | frontend/app/logs.tsx:29-50 | success stores the data and clears the error; failure stores the message and clears the data; data iff no error; both flags cleared |
| LogsScreen.LogsScreen.OnRefresh | frontend/app/logs.tsx:56-59 | refetches, and leaves both flags cleared |
| Comparisons.HealthViewsDiffer | backend/src/core/health.py:35-36 | the two views' statuses differ exactly when only Redis failed, by reading back a wrong value |
| Comparisons.AsWrittenScreenAllGreen | frontend/app/health.tsx:83-91 | as written, every status either view can report is drawn green with a check mark |
| Comparisons.CorrectedScreenColours | frontend/app/health.tsx:83-91 | corrected, a service is green exactly when its check passed, and red otherwise |
| Comparisons.ServiceNamesShown | frontend/app/health.tsx:163 | the services are shown as Database, Redis and Storage |
| Comparisons.ClientResult | frontend/app/logs.tsx:31-38 | the HTTP client resolves exactly the 2xx responses and rejects the others with their status |
| Comparisons.LogScreenOnEndpoint | frontend/app/logs.tsx:38-44 | the screen shows the endpoint's own texts for 403 and 404, the body of a readable file, and its generic text for a read failure |
| Comparisons.MaskingRulesDiffer | packages/pack-logger/backend/pack_logger/middleware.py:28-29 | `api_key` is masked by the middleware but not by the frontend logger; `apiKey` the other way round |
| Comparisons.ResponseLevelsDiffer | packages/pack-logger/backend/pack_logger/logger.py:205 | the loggers agree from 400 up, and disagree below 200 and on 300..399, where only the backend says info |

## Left out

- The database query, the Redis round trip and the S3 `head_bucket` call are not modelled. Each check is an input saying how it ended: passed, raised with a text, or (Redis) read back a wrong value.
- The log file read in `view_logs` is not modelled. The file is an input: missing, its lines, or a read error with a text.
- `load_dotenv`'s effect on the process environment is not modelled. The loader only records the paths it is given. The existence of the main `.env` and the value of `ENV` are inputs.
- Pathlib joining is modelled as `dir + "/" + rel`. The root directory and `..` cases are not modelled.
- Clocks and locale are not modelled. The frontend timestamp is reduced to its zero-padded milliseconds, with the reading as a parameter. `toLocaleTimeString` is not modelled. The middleware's start time and the current time are integer parameters.
- BackendLogger.ResponseMessage: durations are whole milliseconds, so `round(duration_ms, 2)` and `:.2f` are modelled only for integers ("<n>.00"). Python floats are not modelled.
- FrontendLogger.PackLogger.ApiResponse: durations are integer milliseconds, so a fractional JavaScript number and its printed form are not modelled. FrontendLogger.PackLogger.ApiError takes the same integer durations.
- Rendering is not modelled: Rich styles, `console.group` and `%c` CSS, JSON pretty-printing, and the `"Data:"` listing format. The standard library's own level filtering and `RichHandler` setup are not modelled either.
- JavaScript `undefined` values inside records are represented by `JNull`; only the key set and the values matter here.
- Django's `HttpRequest`, `HttpResponse` and `JsonResponse` are reduced to the fields the middleware reads. Decoding and JSON parsing are inputs, as are `request.POST` and `request.FILES`, given as parsed values and key lists.
- LoggingMiddleware.ApiLoggingMiddleware.ProcessRequest: requires the parsed JSON body's objects to have distinct keys, as every Python dict does.
- LoggingMiddleware.MaskSensitiveHeaders: requires distinct header names, as every Python dict has.
- BackendLogger.PackLogger.ApiRequest: requires that no keyword argument repeats a named parameter. BackendLogger.PackLogger.ApiResponse has the same requirement. Python rejects such a call before the body runs.
- `S3Boto3Storage` internals are not modelled. This includes what `DefaultStorage` inherits from the library (`querystring_auth`, `file_overwrite`, `default_acl`), which the model leaves unset (`None`). `endpoint_url`, `secure_urls`, `use_ssl`, `url_protocol` and `location` are constants the model does not carry.
- Unicode is not modelled. Case mapping and whitespace are ASCII, and `str.strip()` strips ASCII whitespace only.
- JSX layout, theme values and the screens' own logging calls are not modelled; `console.error` is left out too. A theme colour is named by its role.
- The asynchronous interleaving of fetches is not modelled. A fetch is one step from its result to the new state.
- The message of a JavaScript `TypeError` is engine text, so the health screen's fetch takes it as a parameter (`typeErrorText`).
- The axios clients and their interceptors are not modelled. frontend/api/client.ts and frontend/app/src/api/client.ts only print to the console. frontend/config/api.ts is a fixed constant, and its endpoint map lacks the `HEALTH` and `LOGS` keys the screens use.
- `DefaultStorage.endpoint_url` and the settings modules are configuration constants and environment reads, so they are not modelled. The settings define `AWS_S3_CUSTOM_DOMAIN` only when `USE_AWS` is set (backend/src/core/settings/components/storage.py:42 against 52-63), so as the project is configured backend/src/core/storages.py cannot be imported without AWS, and the non-AWS branch of `Storage.constructor` is reachable only under other settings.

## Findings

| source | as written | input that shows it | evidently intended | confidence | as-written member | corrected member |
|---|---|---|---|---|---|---|
| frontend/app/health.tsx:83-91 | `getStatusColor` tests `includes("healthy")` first. Every "unhealthy..." string contains "healthy", so a failed service gets the success colour. The badge at line 174 shows ✓ for it, by the same test. | the status `"unhealthy: connection refused"` (or `"unhealthy"`) | failures in the error colour with ✗; only a plain "healthy" in the success colour | not executed | HealthScreen.AsWrittenUnhealthyLooksHealthy | HealthScreen.StatusColor |
| packages/pack-logger/backend/pack_logger/middleware.py:96-98 | The second loop of `get_request_headers` selects `key.startswith('x-')`. Django's `request.headers` yields title-cased names (`X-Id`), so no custom X- header is ever logged. | request META `{"HTTP_X_ID": "7"}`, which gives the header `X-Id: 7` | every X- header logged (masked when sensitive), comparing the lower-cased name | not executed | LoggingMiddleware.AsWrittenSkipsCustomHeaders | LoggingMiddleware.CorrectedKeepsCustomHeaders |
