/**
 * The decision logic of the health screen (frontend/app/health.tsx): the colour a status
 * string gets, the check mark of a service, the displayed service name, the error text
 * after a failed fetch and the screen state a fetch leaves. Layout, theme values and the
 * screen's own logging calls are not modelled; a theme colour is named by its role.
 */
module HealthScreen {
  import opened Wrappers
  import opened Strings
  import opened Assoc
  import opened JsonValue

  /** `theme.colors.success`, `theme.colors.error`, `theme.colors.warning`. */
  datatype ThemeColor = SuccessColor | ErrorColor | WarningColor

  /**
   * `getStatusColor` as written: the `"healthy"` test comes first, and every string that
   * contains `"unhealthy"` contains `"healthy"` too.
   */
  function StatusColorAsWritten(status: string): ThemeColor
  {
    if Contains(status, "healthy") then SuccessColor
    else if Contains(status, "unhealthy") || Contains(status, "error") then ErrorColor
    else WarningColor
  }

  /** `"unhealthy"` contains `"healthy"`, so the second test of `getStatusColor` never sees it. */
  lemma UnhealthyContainsHealthy(status: string)
    ensures Contains(status, "unhealthy") ==> Contains(status, "healthy")
  {
    if Contains(status, "unhealthy") {
      assert OccursAt("unhealthy", "healthy", 2);
      ContainsTransitive(status, "unhealthy", "healthy");
    }
  }

  /** As written, the colour is success whenever `"healthy"` occurs, error only through `"error"`. */
  lemma StatusColorAsWrittenBands(status: string)
    ensures StatusColorAsWritten(status) == SuccessColor <==> Contains(status, "healthy")
    ensures StatusColorAsWritten(status) == ErrorColor <==> !Contains(status, "healthy") && Contains(status, "error")
    ensures StatusColorAsWritten(status) == WarningColor <==> !Contains(status, "healthy") && !Contains(status, "error")
  {
    UnhealthyContainsHealthy(status);
  }

  /** The badge as written: a check mark whenever `"healthy"` occurs. */
  function BadgeAsWritten(status: string): string
  {
    if Contains(status, "healthy") then "✓" else "✗"
  }

  lemma StartsWithUnhealthy(e: string)
    ensures Contains("unhealthy: " + e, "unhealthy")
  {
    assert ("unhealthy: " + e)[0..|"unhealthy"|] == "unhealthy";
    assert OccursAt("unhealthy: " + e, "unhealthy", 0);
  }

  /** A failed check reported as `"unhealthy: ..."` or `"unhealthy"` is drawn green with a check mark. */
  lemma AsWrittenUnhealthyLooksHealthy(e: string)
    ensures StatusColorAsWritten("unhealthy: " + e) == SuccessColor && BadgeAsWritten("unhealthy: " + e) == "✓"
    ensures StatusColorAsWritten("unhealthy") == SuccessColor && BadgeAsWritten("unhealthy") == "✓"
  {
    StartsWithUnhealthy(e);
    UnhealthyContainsHealthy("unhealthy: " + e);
    assert OccursAt("unhealthy", "unhealthy", 0);
    UnhealthyContainsHealthy("unhealthy");
  }

  /** `getStatusColor` with the failure tests first, as its second branch intends. */
  function StatusColor(status: string): (c: ThemeColor)
    ensures c == ErrorColor <==> Contains(status, "unhealthy") || Contains(status, "error")
    ensures c == SuccessColor <==> Contains(status, "healthy") && !Contains(status, "unhealthy") && !Contains(status, "error")
  {
    if Contains(status, "unhealthy") || Contains(status, "error") then ErrorColor
    else if Contains(status, "healthy") then SuccessColor
    else WarningColor
  }

  /** The badge that agrees with the corrected colour. */
  function Badge(status: string): (b: string)
    ensures b == "✓" <==> StatusColor(status) == SuccessColor
  {
    if StatusColor(status) == SuccessColor then "✓" else "✗"
  }

  /** The corrected colour only departs from the written one on strings that report a failure. */
  lemma CorrectedDiffersOnlyOnFailures(status: string)
    ensures StatusColor(status) != StatusColorAsWritten(status) ==>
      Contains(status, "healthy") && (Contains(status, "unhealthy") || Contains(status, "error"))
  {
  }

  /** `service.charAt(0).toUpperCase() + service.slice(1)`. */
  function Capitalize(s: string): (r: string)
    ensures |r| == |s|
    ensures |s| > 0 ==> r[0] == UpperChar(s[0]) && r[1..] == s[1..]
  {
    if s == [] then [] else [UpperChar(s[0])] + s[1..]
  }

  /** Capitalising twice is capitalising once, and a capitalised name keeps its lower-case tail. */
  lemma CapitalizeIdempotent(s: string)
    ensures Capitalize(Capitalize(s)) == Capitalize(s)
  {
    if s != [] {
      assert !IsLowerAscii(UpperChar(s[0]));
      assert Capitalize(s)[1..] == s[1..];
    }
  }

  /** What a rejected request exposes: `error.message` and `error.response?.data`. */
  datatype FetchError = FetchError(message: Option<Json>, responseData: Option<Json>)

  /** `error.response?.data?.message || error.message || "Unable to fetch health status"`. */
  function ErrorText(err: FetchError): (r: Json)
    ensures JsTruthy(r)
  {
    var fromBody := if err.responseData.Some? then Member(err.responseData.value, "message") else None;
    if JsPresent(fromBody) then fromBody.value
    else if JsPresent(err.message) then err.message.value
    else JStr("Unable to fetch health status")
  }

  /** The server's message wins over the client's, and the fixed text is used only when both are falsy. */
  lemma ErrorTextPriority(err: FetchError)
    ensures var body := if err.responseData.Some? then Member(err.responseData.value, "message") else None;
      (JsPresent(body) ==> ErrorText(err) == body.value) &&
      (!JsPresent(body) && JsPresent(err.message) ==> ErrorText(err) == err.message.value) &&
      (ErrorText(err) == JStr("Unable to fetch health status") <==>
        (!JsPresent(body) || body.value == JStr("Unable to fetch health status")) &&
        (JsPresent(body) || !JsPresent(err.message) || err.message.value == JStr("Unable to fetch health status")))
  {
  }

  /** `{status: "error", services: {api: errorMessage}}`. */
  function FailureState(message: Json): Json
  {
    JObj([("status", JStr("error")), ("services", JObj([("api", message)]))])
  }

  /** How one `apiClient.get` ends: with the response body, or rejected. */
  datatype FetchResult = Fetched(data: Json) | Failed(error: FetchError)

  /**
   * After storing the body, the `try` block reads `response.data.status` and
   * `Object.keys(response.data.services)`; both succeed exactly when the body is an object
   * whose `services` is neither `null` nor `undefined`.
   */
  predicate ServicesReadable(data: Json)
  {
    var services := Member(data, "services");
    services.Some? && !services.value.JNull?
  }

  /** The error the catch block sees for a `TypeError` thrown inside the `try`: a message and no response. */
  function TypeErrorOf(text: string): FetchError
  {
    FetchError(Some(JStr(text)), None)
  }

  /**
   * The state `fetchHealth` leaves. `typeErrorText` is the message of the `TypeError` the
   * JavaScript engine raises when a fetched body cannot be read.
   */
  function AfterFetch(result: FetchResult, typeErrorText: string): Json
  {
    match result
    case Fetched(data) =>
      if ServicesReadable(data) then data else FailureState(ErrorText(TypeErrorOf(typeErrorText)))
    case Failed(err) => FailureState(ErrorText(err))
  }

  /** After a failure the screen shows status `error`, in the error colour, and one service `api` carrying the error text. */
  lemma FailureStateFields(err: FetchError)
    ensures var s := AfterFetch(Failed(err), "");
      Member(s, "status") == Some(JStr("error")) &&
      Member(s, "services") == Some(JObj([("api", ErrorText(err))])) &&
      Member(Member(s, "services").value, "api") == Some(ErrorText(err))
    ensures StatusColor("error") == ErrorColor && StatusColorAsWritten("error") == ErrorColor
  {
    var fields := AfterFetch(Failed(err), "").fields;
    assert fields == [fields[0]] + ([fields[1]] + []);
    LookupCons(fields[0], [fields[1]] + [], "services");
    LookupCons(fields[1], [], "services");
    LookupCons(fields[0], [fields[1]] + [], "status");
    var api := [("api", ErrorText(err))];
    assert api == [api[0]] + [];
    LookupCons(api[0], [], "api");
    assert OccursAt("error", "error", 0);
    assert !Contains("error", "healthy");
    assert !Contains("error", "unhealthy");
  }

  /**
   * A fetched body is shown as it is exactly when its `services` can be read; any other
   * body (a page of HTML, an array, `null`, an object without `services`) ends in the
   * failure state carrying the `TypeError`'s message, or the fixed text when it has none.
   */
  lemma FetchedBodyShown(data: Json, typeErrorText: string)
    ensures AfterFetch(Fetched(data), typeErrorText) == data <==> ServicesReadable(data) || data == FailureState(ErrorText(TypeErrorOf(typeErrorText)))
    ensures ServicesReadable(data) ==> AfterFetch(Fetched(data), typeErrorText) == data
    ensures !ServicesReadable(data) ==>
      AfterFetch(Fetched(data), typeErrorText) == AfterFetch(Failed(TypeErrorOf(typeErrorText)), typeErrorText) &&
      Member(AfterFetch(Fetched(data), typeErrorText), "status") == Some(JStr("error"))
    ensures !ServicesReadable(data) && typeErrorText != "" ==>
      AfterFetch(Fetched(data), typeErrorText) == FailureState(JStr(typeErrorText))
  {
    if !ServicesReadable(data) {
      FailureStateFields(TypeErrorOf(typeErrorText));
    }
  }

  class HealthScreen {
    var healthStatus: Option<Json>
    var loading: bool
    var refreshing: bool

    constructor()
      ensures healthStatus == None && loading && !refreshing
    {
      healthStatus := None;
      loading := true;
      refreshing := false;
    }

    /**
     * `fetchHealth`: store the body, or the failure state when the request is rejected or
     * the stored body cannot be read, then clear both flags in `finally`.
     */
    method FetchHealth(result: FetchResult, typeErrorText: string)
      modifies this
      ensures healthStatus == Some(AfterFetch(result, typeErrorText))
      ensures !loading && !refreshing
    {
      match result {
      case Fetched(data) =>
        healthStatus := Some(data);
        if !ServicesReadable(data) {
          var errorMessage := ErrorText(TypeErrorOf(typeErrorText));
          healthStatus := Some(FailureState(errorMessage));
        }
      case Failed(err) =>
        var errorMessage := ErrorText(err);
        healthStatus := Some(FailureState(errorMessage));
      }
      loading := false;
      refreshing := false;
    }

    /** `onRefresh`: raise the refreshing flag and fetch again. */
    method OnRefresh(result: FetchResult, typeErrorText: string)
      modifies this
      ensures healthStatus == Some(AfterFetch(result, typeErrorText))
      ensures !loading && !refreshing
    {
      refreshing := true;
      FetchHealth(result, typeErrorText);
    }
  }
}
