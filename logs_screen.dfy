/**
 * The decision logic of the log screen (frontend/app/logs.tsx): the colour of a log line
 * and the state `fetchLogs` leaves after a successful or a rejected request. Layout and
 * the `console.error` of a failure are not modelled.
 */
module LogsScreen {
  import opened Wrappers
  import opened Strings
  import opened JsonValue

  const ErrorRed := "#FF3B30"
  const WarningOrange := "#FF9500"
  const InfoBlue := "#007AFF"
  const DebugGreen := "#34C759"

  /** `getLogLevelColor`: case-sensitive tests, the most severe level first; `undefined` is `None`. */
  function LogLevelColor(line: string): (r: Option<string>)
    ensures r == Some(ErrorRed) <==> Contains(line, "ERROR") || Contains(line, "CRITICAL")
    ensures r == Some(WarningOrange) <==>
      !Contains(line, "ERROR") && !Contains(line, "CRITICAL") && Contains(line, "WARN")
    ensures r == Some(InfoBlue) <==>
      !Contains(line, "ERROR") && !Contains(line, "CRITICAL") && !Contains(line, "WARN") && Contains(line, "INFO")
    ensures r == None <==>
      !Contains(line, "ERROR") && !Contains(line, "CRITICAL") && !Contains(line, "WARN") &&
      !Contains(line, "INFO") && !Contains(line, "DEBUG")
    ensures r == Some(DebugGreen) <==>
      !Contains(line, "ERROR") && !Contains(line, "CRITICAL") && !Contains(line, "WARN") &&
      !Contains(line, "INFO") && Contains(line, "DEBUG")
  {
    WarningContainsWarn(line);
    if Contains(line, "ERROR") || Contains(line, "CRITICAL") then Some(ErrorRed)
    else if Contains(line, "WARNING") || Contains(line, "WARN") then Some(WarningOrange)
    else if Contains(line, "INFO") then Some(InfoBlue)
    else if Contains(line, "DEBUG") then Some(DebugGreen)
    else None
  }

  /** Every line with `WARNING` has `WARN`, so the `WARNING` test adds nothing. */
  lemma WarningContainsWarn(line: string)
    ensures Contains(line, "WARNING") ==> Contains(line, "WARN")
  {
    if Contains(line, "WARNING") {
      assert OccursAt("WARNING", "WARN", 0);
      ContainsTransitive(line, "WARNING", "WARN");
    }
  }

  /** A line mentioning both ERROR and INFO is coloured as an error. */
  lemma ErrorBeatsInfo(line: string)
    requires Contains(line, "ERROR") && Contains(line, "INFO")
    ensures LogLevelColor(line) == Some(ErrorRed)
  {
  }

  /** Matching is case-sensitive: a line without capital letters gets no colour at all. */
  lemma LowerCaseLineUncoloured(line: string)
    requires forall k | 0 <= k < |line| :: !IsUpperAscii(line[k])
    ensures LogLevelColor(line) == None
  {
    NotContainsWithoutFirstChar(line, "ERROR");
    NotContainsWithoutFirstChar(line, "CRITICAL");
    NotContainsWithoutFirstChar(line, "WARN");
    NotContainsWithoutFirstChar(line, "INFO");
    NotContainsWithoutFirstChar(line, "DEBUG");
  }

  const DevOnlyMessage := "Logs are only available in development mode."
  const NotFoundMessage := "Log file not found."
  const GenericMessage := "Unable to fetch logs. Please try again later."

  /** The message for a rejected request, from `err.response?.status` (`None` without a response). */
  function FailureMessage(status: Option<int>): (m: string)
    ensures m == DevOnlyMessage <==> status == Some(403)
    ensures m == NotFoundMessage <==> status == Some(404)
    ensures m == GenericMessage <==> status != Some(403) && status != Some(404)
  {
    if status == Some(403) then DevOnlyMessage
    else if status == Some(404) then NotFoundMessage
    else GenericMessage
  }

  /** How one `apiClient.get` ends: with the response body, or rejected with the response status if any. */
  datatype LogsResult = LogsFetched(data: Json) | LogsFailed(status: Option<int>)

  class LogsScreen {
    var logsData: Option<Json>
    var error: Option<string>
    var loading: bool
    var refreshing: bool

    constructor()
      ensures logsData == None && error == None && loading && !refreshing
    {
      logsData := None;
      error := None;
      loading := true;
      refreshing := false;
    }

    /** `fetchLogs`: on success the data and no error, on failure the message and no data; both flags cleared. */
    method FetchLogs(result: LogsResult)
      modifies this
      ensures result.LogsFetched? ==> logsData == Some(result.data) && error == None
      ensures result.LogsFailed? ==> logsData == None && error == Some(FailureMessage(result.status))
      ensures logsData.Some? <==> error.None?
      ensures !loading && !refreshing
    {
      match result {
      case LogsFetched(data) =>
        logsData := Some(data);
        error := None;
      case LogsFailed(status) =>
        if status == Some(403) {
          error := Some(DevOnlyMessage);
        } else if status == Some(404) {
          error := Some(NotFoundMessage);
        } else {
          error := Some(GenericMessage);
        }
        logsData := None;
      }
      loading := false;
      refreshing := false;
    }

    /** `onRefresh`: raise the refreshing flag and fetch again. */
    method OnRefresh(result: LogsResult)
      modifies this
      ensures result.LogsFetched? ==> logsData == Some(result.data) && error == None
      ensures result.LogsFailed? ==> logsData == None && error == Some(FailureMessage(result.status))
      ensures !loading && !refreshing
    {
      refreshing := true;
      FetchLogs(result);
    }
  }
}
