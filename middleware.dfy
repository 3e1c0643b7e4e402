/**
 * Django's `ApiLoggingMiddleware` (packages/pack-logger/backend/pack_logger/middleware.py).
 *
 * The middleware skips a few path prefixes, masks sensitive request headers and body
 * fields, summarises large response bodies, extracts the client address and hands all of
 * it to the backend `PackLogger`. The request's `META`, its parsed body and the response
 * are abstract inputs; the clock is a parameter.
 */
module LoggingMiddleware {
  import opened Wrappers
  import opened Strings
  import opened Assoc
  import opened JsonValue
  import BackendLogger

  const ExcludedPaths: seq<string> := ["/admin/", "/static/", "/media/", "/favicon.ico", "/api/health/"]
  const SensitiveHeaders: seq<string> := ["authorization", "cookie", "x-csrftoken", "x-api-key", "session"]
  const SensitiveBodyFields: seq<string> :=
    ["password", "token", "secret", "api_key", "access_token", "refresh_token", "card_number", "cvv", "ssn"]
  const MaskText := "***MASKED***"

  /** Header names and values, in order. */
  type Headers = seq<(string, string)>

  // ---------------------------------------------------------------- should_log

  /** `should_log`: no excluded prefix starts the path. */
  predicate ShouldLog(path: string)
  {
    !exists i | 0 <= i < |ExcludedPaths| :: StartsWith(path, ExcludedPaths[i])
  }

  /** Exclusion is by prefix: whatever follows an excluded path is excluded too. */
  lemma ExcludedExtends(path: string, rest: string)
    requires !ShouldLog(path)
    ensures !ShouldLog(path + rest)
  {
    var i :| 0 <= i < |ExcludedPaths| && StartsWith(path, ExcludedPaths[i]);
    assert (path + rest)[..|ExcludedPaths[i]|] == path[..|ExcludedPaths[i]|];
  }

  /** The health endpoint is excluded only with its trailing slash; the admin prefix needs it as well. */
  lemma ShouldLogSlashes()
    ensures !ShouldLog("/api/health/") && ShouldLog("/api/health")
    ensures !ShouldLog("/admin/login/") && ShouldLog("/admin")
    ensures !ShouldLog("/favicon.icons")
  {
    assert StartsWith("/api/health/", ExcludedPaths[4]);
    assert StartsWith("/admin/login/", ExcludedPaths[0]);
    assert StartsWith("/favicon.icons", ExcludedPaths[3]);
    var h := "/api/health";
    forall i | 0 <= i < |ExcludedPaths| ensures !StartsWith(h, ExcludedPaths[i]) && !StartsWith("/admin", ExcludedPaths[i]) {
      if i == 0 { assert h[2] != ExcludedPaths[0][2]; }
      else if i == 1 || i == 2 { assert h[1] != ExcludedPaths[i][1]; }
    }
  }

  // ---------------------------------------------------------------- mask_sensitive_headers

  /** A header is sensitive when its lower-case name contains one of the sensitive names. */
  predicate IsSensitiveHeader(key: string)
  {
    exists i | 0 <= i < |SensitiveHeaders| :: Contains(Lower(key), SensitiveHeaders[i])
  }

  function MaskedHeaderValue(key: string, value: string): string
  {
    if IsSensitiveHeader(key) then MaskText else value
  }

  /** The headers with every sensitive value replaced, keys and order unchanged. */
  function MaskedHeaders(h: Headers): (r: Headers)
    ensures |r| == |h| && Keys(r) == Keys(h)
  {
    seq(|h|, i requires 0 <= i < |h| => (h[i].0, MaskedHeaderValue(h[i].0, h[i].1)))
  }

  /** Header by header: a value is replaced by the mask exactly when the name is sensitive. */
  lemma {:induction false} LookupMaskedHeaders(h: Headers, k: string)
    ensures Lookup(MaskedHeaders(h), k) == if Lookup(h, k).Some? then Some(MaskedHeaderValue(k, Lookup(h, k).value)) else None
    decreases |h|
  {
    if h != [] && h[0].0 != k {
      assert MaskedHeaders(h)[1..] == MaskedHeaders(h[1..]);
      LookupMaskedHeaders(h[1..], k);
    }
  }

  /** Masking the headers twice is masking them once. */
  lemma MaskedHeadersIdempotent(h: Headers)
    ensures MaskedHeaders(MaskedHeaders(h)) == MaskedHeaders(h)
  {
  }

  lemma MaskedHeadersPrefix(h: Headers, i: nat)
    requires i < |h|
    ensures MaskedHeaders(h[..i + 1]) == MaskedHeaders(h[..i]) + [(h[i].0, MaskedHeaderValue(h[i].0, h[i].1))]
  {
    assert h[..i + 1][..i] == h[..i];
  }

  /** `mask_sensitive_headers`: fill a new dict key by key. */
  method MaskSensitiveHeaders(headers: Headers) returns (masked: Headers)
    requires DistinctKeys(headers)
    ensures masked == MaskedHeaders(headers)
  {
    masked := [];
    var i := 0;
    while i < |headers|
      invariant 0 <= i <= |headers|
      invariant masked == MaskedHeaders(headers[..i])
    {
      var (key, value) := headers[i];
      assert !HasKey(masked, key) by {
        forall j | 0 <= j < |masked| ensures masked[j].0 != key {
          assert masked[j].0 == headers[j].0;
        }
      }
      PutFresh(masked, key, MaskedHeaderValue(key, value));
      MaskedHeadersPrefix(headers, i);
      if IsSensitiveHeader(key) {
        masked := Put(masked, key, MaskText);
      } else {
        masked := Put(masked, key, value);
      }
      i := i + 1;
    }
    assert headers[..i] == headers;
  }

  // ---------------------------------------------------------------- mask_sensitive_body

  /** A body field is sensitive when its lower-case name contains one of the sensitive names. */
  predicate IsSensitiveField(key: string)
  {
    exists i | 0 <= i < |SensitiveBodyFields| :: Contains(Lower(key), SensitiveBodyFields[i])
  }

  /**
   * `mask_sensitive_body`: only a dict is masked; anything else, a top-level list included,
   * comes back unchanged. A masked dict keeps its keys in order.
   */
  function MaskedBody(v: Json): (r: Json)
    ensures !v.JObj? ==> r == v
    ensures v.JObj? ==> r.JObj? && Keys(r.fields) == Keys(v.fields)
    decreases v, 0
  {
    match v
    case JObj(fields) =>
      JObj(seq(|fields|, i requires 0 <= i < |fields| => (fields[i].0, MaskedField(fields[i].0, fields[i].1))))
    case _ => v
  }

  /** The new value of one key of a dict: masked, recursed into, or kept. */
  function MaskedField(key: string, value: Json): Json
    decreases value, 1
  {
    if IsSensitiveField(key) then JStr(MaskText)
    else if value.JObj? then MaskedBody(value)
    else if value.JArr? then
      JArr(seq(|value.items|, i requires 0 <= i < |value.items| => MaskedItem(value.items[i])))
    else value
  }

  /** A list element: only a dict is masked; a nested list is kept as it is. */
  function MaskedItem(item: Json): Json
    decreases item, 2
  {
    if item.JObj? then MaskedBody(item) else item
  }

  /** The value reached by following dict keys from `v`. */
  function AtKeys(v: Json, path: seq<string>): Option<Json>
    decreases |path|
  {
    if path == [] then Some(v)
    else if v.JObj? && Lookup(v.fields, path[0]).Some? then AtKeys(Lookup(v.fields, path[0]).value, path[1..])
    else None
  }

  lemma {:induction false} LookupMaskedBody(fields: Fields, k: string)
    ensures Lookup(MaskedBody(JObj(fields)).fields, k) ==
      if Lookup(fields, k).Some? then Some(MaskedField(k, Lookup(fields, k).value)) else None
    decreases |fields|
  {
    if fields != [] && fields[0].0 != k {
      assert MaskedBody(JObj(fields)).fields[1..] == MaskedBody(JObj(fields[1..])).fields;
      LookupMaskedBody(fields[1..], k);
    }
  }

  /**
   * Along a path of non-sensitive dict keys the masked body holds, at the end of the path,
   * the masked form of the value the input holds there: every dict on the way is masked in
   * turn and every scalar reached is kept.
   */
  lemma {:induction false} MaskedBodyAtPath(v: Json, path: seq<string>)
    requires |path| > 0
    requires forall j | 0 <= j < |path| - 1 :: !IsSensitiveField(path[j])
    ensures AtKeys(MaskedBody(v), path) ==
      if AtKeys(v, path).Some? then Some(MaskedField(path[|path| - 1], AtKeys(v, path).value)) else None
    decreases |path|
  {
    if v.JObj? {
      LookupMaskedBody(v.fields, path[0]);
      if Lookup(v.fields, path[0]).Some? && |path| > 1 {
        var x := Lookup(v.fields, path[0]).value;
        assert !IsSensitiveField(path[0]);
        if x.JObj? {
          assert path[1..][|path[1..]| - 1] == path[|path| - 1];
          MaskedBodyAtPath(x, path[1..]);
        } else {
          assert !MaskedField(path[0], x).JObj?;
        }
      }
    }
  }

  /**
   * At every dict depth, a sensitive key reached through non-sensitive keys holds the mask
   * text in the masked body, whatever it held before.
   */
  lemma MaskedBodyAtSensitiveKey(v: Json, path: seq<string>, k: string)
    requires forall j | 0 <= j < |path| :: !IsSensitiveField(path[j])
    requires IsSensitiveField(k)
    requires AtKeys(v, path + [k]).Some?
    ensures AtKeys(MaskedBody(v), path + [k]) == Some(JStr(MaskText))
  {
    var p := path + [k];
    assert forall j | 0 <= j < |p| - 1 :: p[j] == path[j];
    MaskedBodyAtPath(v, p);
  }

  /**
   * Lists are entered one level only: a list of lists under a non-sensitive key is kept
   * verbatim, even when a dict inside it holds a sensitive key.
   */
  lemma NestedListKept(k: string, inner: seq<Json>)
    requires !IsSensitiveField(k)
    ensures MaskedBody(JObj([(k, JArr([JArr(inner)]))])) == JObj([(k, JArr([JArr(inner)]))])
  {
    assert MaskedItem(JArr(inner)) == JArr(inner);
    assert MaskedField(k, JArr([JArr(inner)])) == JArr([JArr(inner)]);
  }

  /** Masking the body twice is masking it once: the mask text is a string, which masking keeps. */
  lemma {:induction false} MaskedBodyIdempotent(v: Json)
    ensures MaskedBody(MaskedBody(v)) == MaskedBody(v)
    decreases v, 0
  {
    if v.JObj? {
      var m := MaskedBody(v);
      forall i | 0 <= i < |v.fields| ensures MaskedField(m.fields[i].0, m.fields[i].1) == m.fields[i].1 {
        FieldIdempotent(v.fields[i].0, v.fields[i].1);
      }
      assert MaskedBody(m).fields == m.fields;
    }
  }

  lemma {:induction false} FieldIdempotent(key: string, value: Json)
    ensures MaskedField(key, MaskedField(key, value)) == MaskedField(key, value)
    decreases value, 1
  {
    if !IsSensitiveField(key) {
      if value.JObj? {
        MaskedBodyIdempotent(value);
      } else if value.JArr? {
        var m := MaskedField(key, value);
        forall i | 0 <= i < |value.items| ensures MaskedItem(m.items[i]) == m.items[i] {
          assert m.items[i] == MaskedItem(value.items[i]);
          if value.items[i].JObj? { MaskedBodyIdempotent(value.items[i]); }
        }
        assert MaskedField(key, m).items == m.items;
      }
    }
  }

  lemma MaskedBodyFieldsPrefix(fields: Fields, i: nat)
    requires i < |fields|
    ensures MaskedBody(JObj(fields[..i + 1])).fields ==
      MaskedBody(JObj(fields[..i])).fields + [(fields[i].0, MaskedField(fields[i].0, fields[i].1))]
  {
    assert fields[..i + 1][..i] == fields[..i];
  }

  /** `mask_sensitive_body`: a new dict filled key by key, recursing into dicts and into the dicts of lists. */
  method MaskSensitiveBody(data: Json) returns (r: Json)
    requires DictsDistinct(data)
    ensures r == MaskedBody(data)
    decreases data, 0
  {
    if !data.JObj? {
      return data;
    }
    var fields := data.fields;
    var masked: Fields := [];
    var i := 0;
    while i < |fields|
      invariant 0 <= i <= |fields|
      invariant masked == MaskedBody(JObj(fields[..i])).fields
    {
      var (key, value) := fields[i];
      assert DictsDistinct(value);
      var m: Json;
      if IsSensitiveField(key) {
        m := JStr(MaskText);
      } else if value.JObj? {
        m := MaskSensitiveBody(value);
      } else if value.JArr? {
        m := MaskListItems(value);
      } else {
        m := value;
      }
      assert m == MaskedField(key, value);
      assert !HasKey(masked, key) by {
        forall j | 0 <= j < |masked| ensures masked[j].0 != key {
          assert Keys(masked) == Keys(fields[..i]);
          assert Keys(masked)[j] == masked[j].0 && Keys(fields[..i])[j] == fields[j].0;
        }
      }
      PutFresh(masked, key, m);
      MaskedBodyFieldsPrefix(fields, i);
      masked := Put(masked, key, m);
      i := i + 1;
    }
    assert fields[..i] == fields;
    r := JObj(masked);
  }

  /** The list comprehension of `mask_sensitive_body`: only dict items are masked. */
  method MaskListItems(list: Json) returns (r: Json)
    requires list.JArr? && DictsDistinct(list)
    ensures r == JArr(seq(|list.items|, i requires 0 <= i < |list.items| => MaskedItem(list.items[i])))
    decreases list, 1
  {
    var items := list.items;
    var out: seq<Json> := [];
    var i := 0;
    while i < |items|
      invariant 0 <= i <= |items|
      invariant |out| == i && forall j | 0 <= j < i :: out[j] == MaskedItem(items[j])
    {
      var item := items[i];
      if item.JObj? {
        assert DictsDistinct(item);
        var m := MaskSensitiveBody(item);
        out := out + [m];
      } else {
        out := out + [item];
      }
      i := i + 1;
    }
    r := JArr(out);
  }

  // ---------------------------------------------------------------- request.headers

  /**
   * The header name Django's `HttpHeaders` gives a `META` key: `HTTP_` keys lose the prefix
   * and the two unprefixed content keys are kept; underscores become dashes and the result
   * is title-cased. Any other key is not a header.
   */
  function HeaderName(metaKey: string): Option<string>
  {
    if StartsWith(metaKey, "HTTP_") then Some(Title(ReplaceChar(metaKey[5..], '_', '-')))
    else if metaKey == "CONTENT_TYPE" || metaKey == "CONTENT_LENGTH" then Some(Title(ReplaceChar(metaKey, '_', '-')))
    else None
  }

  /** `request.headers`: the recognised `META` entries under their header names, in order. */
  function RequestHeaders(meta: Headers): Headers
    decreases |meta|
  {
    if meta == [] then []
    else
      var e := meta[|meta| - 1];
      var h := RequestHeaders(meta[..|meta| - 1]);
      if HeaderName(e.0).Some? then Put(h, HeaderName(e.0).value, e.1) else h
  }

  /** Every name in `request.headers` is title-cased, and no name occurs twice. */
  lemma {:induction false} RequestHeadersTitled(meta: Headers)
    ensures forall e | e in RequestHeaders(meta) :: Title(e.0) == e.0
    ensures DistinctKeys(RequestHeaders(meta))
    decreases |meta|
  {
    if meta != [] {
      var e := meta[|meta| - 1];
      var h := RequestHeaders(meta[..|meta| - 1]);
      RequestHeadersTitled(meta[..|meta| - 1]);
      if HeaderName(e.0).Some? {
        var n := HeaderName(e.0).value;
        EntriesPut(h, n, e.1);
        DistinctPut(h, n, e.1);
        if StartsWith(e.0, "HTTP_") {
          TitleIdempotent(ReplaceChar(e.0[5..], '_', '-'));
        } else {
          TitleIdempotent(ReplaceChar(e.0, '_', '-'));
        }
      }
    }
  }

  /** `headers.get(name)`: header names compare without regard to case. */
  function HeaderGet(h: Headers, name: string): Option<string>
    decreases |h|
  {
    if h == [] then None
    else if Lower(h[0].0) == Lower(name) then Some(h[0].1)
    else HeaderGet(h[1..], name)
  }

  // ---------------------------------------------------------------- get_request_headers

  const UsefulRequestHeaders: seq<string> := [
    "content-type", "content-length", "user-agent", "accept", "accept-language", "accept-encoding",
    "referer", "origin", "x-requested-with", "x-forwarded-for", "x-real-ip"]

  /** The first loop: each listed name whose header is present and non-empty, stored under the listed name. */
  function UsefulHeaders(h: Headers, names: seq<string>): Headers
    decreases |names|
  {
    if names == [] then []
    else
      var n := names[|names| - 1];
      var v := HeaderGet(h, n);
      PutIf(UsefulHeaders(h, names[..|names| - 1]), v.Some? && v.value != "", n, v.GetOr(""))
  }

  /**
   * The test of the second loop. As written it is `key.startswith('x-')`, which is case
   * sensitive; the corrected test compares the lower-cased name.
   */
  predicate Selected(key: string, asWritten: bool)
  {
    (if asWritten then StartsWith(key, "x-") else StartsWith(Lower(key), "x-"))
    || Lower(key) == "authorization" || Lower(key) == "cookie"
  }

  /** The second loop: every selected header of `items`, under its own name. */
  function AddSelected(acc: Headers, items: Headers, asWritten: bool): Headers
    decreases |items|
  {
    if items == [] then acc
    else
      var e := items[|items| - 1];
      PutIf(AddSelected(acc, items[..|items| - 1], asWritten), Selected(e.0, asWritten), e.0, e.1)
  }

  /** The headers `get_request_headers` collects, before masking. */
  function CollectedHeaders(h: Headers, asWritten: bool): Headers
  {
    AddSelected(UsefulHeaders(h, UsefulRequestHeaders), h, asWritten)
  }

  /** A listed name is stored exactly when its header is present and non-empty, with the header's value. */
  lemma {:induction false} UsefulHeadersLookup(h: Headers, names: seq<string>, k: string)
    ensures Lookup(UsefulHeaders(h, names), k) ==
      if k in names && HeaderGet(h, k).Some? && HeaderGet(h, k).value != "" then HeaderGet(h, k) else None
    ensures DistinctKeys(UsefulHeaders(h, names))
    decreases |names|
  {
    if names != [] {
      var init := names[..|names| - 1];
      var n := names[|names| - 1];
      var v := HeaderGet(h, n);
      UsefulHeadersLookup(h, init, k);
      LookupPutIf(UsefulHeaders(h, init), v.Some? && v.value != "", n, v.GetOr(""), k);
      DistinctPutIf(UsefulHeaders(h, init), v.Some? && v.value != "", n, v.GetOr(""));
      assert names == init + [n];
    }
  }

  /** A selected header of `items` ends up with its own value; everything else is as in `acc`. */
  lemma {:induction false} AddSelectedLookup(acc: Headers, items: Headers, asWritten: bool, k: string)
    requires DistinctKeys(items)
    ensures Lookup(AddSelected(acc, items, asWritten), k) ==
      if Selected(k, asWritten) && HasKey(items, k) then Lookup(items, k) else Lookup(acc, k)
    decreases |items|
  {
    if items != [] {
      var init := items[..|items| - 1];
      var e := items[|items| - 1];
      assert items == init + [e];
      assert DistinctKeys(init);
      AddSelectedLookup(acc, init, asWritten, k);
      LookupPutIf(AddSelected(acc, init, asWritten), Selected(e.0, asWritten), e.0, e.1, k);
      HasKeyAppend(init, e, k);
      LookupAppend(init, [e], k);
      assert !HasKey(init, e.0) by {
        forall j | 0 <= j < |init| ensures init[j].0 != e.0 {
          assert init[j] == items[j];
        }
      }
    }
  }

  lemma {:induction false} AddSelectedDistinct(acc: Headers, items: Headers, asWritten: bool)
    requires DistinctKeys(acc)
    ensures DistinctKeys(AddSelected(acc, items, asWritten))
    decreases |items|
  {
    if items != [] {
      var e := items[|items| - 1];
      AddSelectedDistinct(acc, items[..|items| - 1], asWritten);
      DistinctPutIf(AddSelected(acc, items[..|items| - 1], asWritten), Selected(e.0, asWritten), e.0, e.1);
    }
  }

  /**
   * As written, whatever the request, the collected headers hold only the listed names and
   * `Authorization`/`Cookie`: the second loop compares title-cased names with a lower-case
   * `x-`, so it never adds a custom `X-` header.
   */
  lemma AsWrittenSkipsCustomHeaders(meta: Headers, k: string)
    ensures HasKey(CollectedHeaders(RequestHeaders(meta), true), k) ==>
      k in UsefulRequestHeaders || Lower(k) == "authorization" || Lower(k) == "cookie"
  {
    var h := RequestHeaders(meta);
    RequestHeadersTitled(meta);
    AddSelectedLookup(UsefulHeaders(h, UsefulRequestHeaders), h, true, k);
    UsefulHeadersLookup(h, UsefulRequestHeaders, k);
    if HasKey(h, k) {
      var i :| 0 <= i < |h| && h[i].0 == k;
      assert h[i] in h;
      assert Title(k) == k;
      if |k| > 0 { TitleStart(k); }
      assert !StartsWith(k, "x-");
    }
  }

  /** One custom header, `X-Id: 7`, sent as the `META` key `HTTP_X_ID`. */
  const CustomHeaderMeta: Headers := [("HTTP_X_ID", "7")]

  /** Django turns `HTTP_X_ID` into the header name `X-Id`. */
  lemma CustomHeaderName()
    ensures RequestHeaders(CustomHeaderMeta) == [("X-Id", "7")]
  {
    var m := CustomHeaderMeta;
    assert StartsWith(m[0].0, "HTTP_");
    assert m[0].0[5..] == "X_ID";
    assert ReplaceChar("X_ID", '_', '-') == "X-Id" || ReplaceChar("X_ID", '_', '-') == "X-ID";
    assert ReplaceChar("X_ID", '_', '-') == "X-ID";
    assert Title("X-ID") == "X-Id";
    assert m[..0] == [];
  }

  /** As written the custom header is not logged; corrected, it is. */
  lemma CustomHeaderExample()
    ensures RequestHeaders(CustomHeaderMeta) == [("X-Id", "7")]
    ensures !HasKey(CollectedHeaders(RequestHeaders(CustomHeaderMeta), true), "X-Id")
    ensures Lookup(CollectedHeaders(RequestHeaders(CustomHeaderMeta), false), "X-Id") == Some("7")
  {
    var m := CustomHeaderMeta;
    CustomHeaderName();
    var h := RequestHeaders(m);
    AddSelectedLookup(UsefulHeaders(h, UsefulRequestHeaders), h, false, "X-Id");
    UsefulHeadersLookup(h, UsefulRequestHeaders, "X-Id");
    assert Lower("X-Id") == "x-id";
    assert Selected("X-Id", false);
    AsWrittenSkipsCustomHeaders(m, "X-Id");
    assert "X-Id" !in UsefulRequestHeaders;
  }

  /**
   * Corrected, every `X-` header of the request (whatever the case of its name) is logged
   * with its own value, masked when its name is sensitive.
   */
  lemma CorrectedKeepsCustomHeaders(meta: Headers, k: string)
    requires HasKey(RequestHeaders(meta), k) && StartsWith(Lower(k), "x-")
    ensures Lookup(MaskedHeaders(CollectedHeaders(RequestHeaders(meta), false)), k) ==
      Some(MaskedHeaderValue(k, Lookup(RequestHeaders(meta), k).value))
  {
    var h := RequestHeaders(meta);
    RequestHeadersTitled(meta);
    AddSelectedLookup(UsefulHeaders(h, UsefulRequestHeaders), h, false, k);
    LookupMaskedHeaders(CollectedHeaders(h, false), k);
  }

  /**
   * `get_request_headers`: two loops filling a dict, then masking. `asWritten` picks the
   * test of the second loop: the source's case-sensitive one, or the corrected one.
   */
  method GetRequestHeaders(meta: Headers, asWritten: bool) returns (r: Headers)
    ensures r == MaskedHeaders(CollectedHeaders(RequestHeaders(meta), asWritten))
  {
    var h := RequestHeaders(meta);
    var headers: Headers := [];
    var names := UsefulRequestHeaders;
    var i := 0;
    while i < |names|
      invariant 0 <= i <= |names|
      invariant headers == UsefulHeaders(h, names[..i])
    {
      var value := HeaderGet(h, names[i]);
      assert names[..i + 1][..i] == names[..i];
      if value.Some? && value.value != "" {
        headers := Put(headers, names[i], value.value);
      }
      i := i + 1;
    }
    assert names[..i] == names;
    ghost var useful := headers;
    var j := 0;
    while j < |h|
      invariant 0 <= j <= |h|
      invariant headers == AddSelected(useful, h[..j], asWritten)
    {
      var (key, value) := h[j];
      assert h[..j + 1][..j] == h[..j];
      assert AddSelected(useful, h[..j + 1], asWritten) == PutIf(headers, Selected(key, asWritten), key, value);
      var custom := if asWritten then StartsWith(key, "x-") else StartsWith(Lower(key), "x-");
      if custom || Lower(key) == "authorization" || Lower(key) == "cookie" {
        headers := Put(headers, key, value);
      }
      j := j + 1;
    }
    assert h[..j] == h;
    UsefulHeadersLookup(h, names, "");
    AddSelectedDistinct(UsefulHeaders(h, names), h, asWritten);
    r := MaskSensitiveHeaders(headers);
  }

  // ---------------------------------------------------------------- get_request_body

  /**
   * What the request offers `get_request_body`: whether the raw body is empty, the parsed
   * JSON (None when decoding fails), `dict(request.POST)` and the keys of the form fields
   * and of the uploaded files.
   */
  datatype BodyInput = BodyInput(empty: bool, json: Option<Json>, post: Json, postKeys: seq<string>, fileKeys: seq<string>)

  /** A JSON list of the names, in order: names only, never values. */
  function StringList(ks: seq<string>): (r: Json)
    ensures r.JArr? && |r.items| == |ks|
    ensures forall i | 0 <= i < |ks| :: r.items[i] == JStr(ks[i])
  {
    JArr(seq(|ks|, i requires 0 <= i < |ks| => JStr(ks[i])))
  }

  /**
   * `get_request_body`, by content type: masked JSON, the form dict, or the multipart field
   * and file names. The form dict is logged as posted, without masking.
   */
  function RequestBody(contentType: string, b: BodyInput): (r: Option<Json>)
    ensures b.empty ==> r.None?
    ensures !b.empty && Contains(contentType, "application/json") ==>
      r == if b.json.Some? then Some(MaskedBody(b.json.value)) else None
    ensures !b.empty && !Contains(contentType, "application/json") && Contains(contentType, "application/x-www-form-urlencoded") ==>
      (r.Some? <==> PyTruthy(b.post)) && (r.Some? ==> r.value == b.post)
    ensures (!b.empty && !Contains(contentType, "application/json") && !Contains(contentType, "application/x-www-form-urlencoded") &&
             Contains(contentType, "multipart/form-data")) ==>
      r.Some? && r.value.JObj? && |r.value.fields| == 2 &&
      r.value.fields[0].0 == "fields" && r.value.fields[1].0 == "files" &&
      r.value.fields[0].1 == StringList(b.postKeys) && r.value.fields[1].1 == StringList(b.fileKeys)
    ensures (!b.empty && !Contains(contentType, "application/json") && !Contains(contentType, "application/x-www-form-urlencoded") &&
             !Contains(contentType, "multipart/form-data")) ==> r.None?
  {
    if b.empty then None
    else if Contains(contentType, "application/json") then
      (if b.json.Some? then Some(MaskedBody(b.json.value)) else None)
    else if Contains(contentType, "application/x-www-form-urlencoded") then
      (if PyTruthy(b.post) then Some(b.post) else None)
    else if Contains(contentType, "multipart/form-data") then
      Some(JObj([("fields", StringList(b.postKeys)), ("files", StringList(b.fileKeys))]))
    else None
  }

  /**
   * A form post is logged as posted: a sensitive field such as `password` reaches the log
   * with its own value, where the same data sent as JSON would be masked.
   */
  lemma FormFieldsInClear(contentType: string, b: BodyInput, k: string, v: Json)
    requires !b.empty && !Contains(contentType, "application/json")
    requires Contains(contentType, "application/x-www-form-urlencoded")
    requires IsSensitiveField(k) && AtKeys(b.post, [k]) == Some(v)
    ensures RequestBody(contentType, b) == Some(b.post)
    ensures AtKeys(RequestBody(contentType, b).value, [k]) == Some(v)
    ensures AtKeys(MaskedBody(b.post), [k]) == Some(JStr(MaskText))
  {
    assert [] + [k] == [k];
    MaskedBodyAtSensitiveKey(b.post, [], k);
    assert b.post.JObj? && b.post.fields != [];
  }

  // ---------------------------------------------------------------- get_response_headers and get_response_body

  const UsefulResponseHeaders: seq<string> :=
    ["content-type", "content-length", "x-frame-options", "x-content-type-options", "cache-control", "expires"]

  /** `get_response_headers`: the listed names whose header is present and non-empty. */
  method GetResponseHeaders(responseHeaders: Headers) returns (r: Headers)
    ensures r == UsefulHeaders(responseHeaders, UsefulResponseHeaders)
  {
    r := [];
    var names := UsefulResponseHeaders;
    var i := 0;
    while i < |names|
      invariant 0 <= i <= |names|
      invariant r == UsefulHeaders(responseHeaders, names[..i])
    {
      var value := HeaderGet(responseHeaders, names[i]);
      assert names[..i + 1][..i] == names[..i];
      if value.Some? && value.value != "" {
        r := Put(r, names[i], value.value);
      }
      i := i + 1;
    }
    assert names[..i] == names;
  }

  const TruncationNotice := "[Truncated - too many items]"

  /** A JSON list of more than ten items is summarised; anything else is logged as parsed. */
  function Summarised(body: Json): Json
  {
    if body.JArr? && |body.items| > 10 then
      JObj([("items_count", JNum(|body.items|)), ("first_items", JArr(body.items[..3])), ("message", JStr(TruncationNotice))])
    else body
  }

  /** A summary keeps the true count and exactly the first three items. */
  lemma SummarisedFields(items: seq<Json>)
    requires |items| > 10
    ensures var r := Summarised(JArr(items));
      Member(r, "items_count") == Some(JNum(|items|)) &&
      Member(r, "first_items") == Some(JArr(items[..3])) && |items[..3]| == 3 &&
      Member(r, "message") == Some(JStr(TruncationNotice))
  {
    var a, b, c := ("items_count", JNum(|items|)), ("first_items", JArr(items[..3])), ("message", JStr(TruncationNotice));
    assert [a, b, c] == [a] + ([b] + [c]);
    LookupCons(a, [b] + [c], "first_items");
    LookupCons(b, [c], "first_items");
    LookupCons(a, [b] + [c], "message");
    LookupCons(b, [c], "message");
    LookupCons(c, [], "message");
  }

  /** The kinds of response `get_response_body` tells apart. */
  datatype ResponseKind = JsonResponseKind | WithContent | WithoutContent

  /**
   * `get_response_body`: a `JsonResponse` or a JSON content type gives the parsed body
   * (summarised), HTML and anything else give a size notice, and a response without
   * content gives nothing.
   */
  function ResponseBody(kind: ResponseKind, headers: Headers, length: nat, parsed: Option<Json>): Option<Json>
  {
    match kind
    case JsonResponseKind => if parsed.Some? then Some(Summarised(parsed.value)) else None
    case WithContent =>
      var contentType := ContentTypeOf(headers);
      if Contains(contentType, "application/json") then
        (if parsed.Some? then Some(Summarised(parsed.value)) else None)
      else if Contains(contentType, "text/html") then Some(JStr("[HTML Content - " + NatToString(length) + " bytes]"))
      else Some(JStr("[Binary Content - " + NatToString(length) + " bytes]"))
    case WithoutContent => None
  }

  /** `response.get('Content-Type', '')`. */
  function ContentTypeOf(headers: Headers): string
  {
    HeaderGet(headers, "Content-Type").GetOr("")
  }

  /** The responses whose content `get_response_body` parses as JSON. */
  predicate ParsedKind(kind: ResponseKind, headers: Headers)
  {
    kind.JsonResponseKind? || (kind.WithContent? && Contains(ContentTypeOf(headers), "application/json"))
  }

  /**
   * `get_response_body` case by case: a parsed body is logged as it is unless it is a list
   * of more than ten items, which is summarised; a failed parse gives None; HTML and any
   * other content give a notice with the size in bytes; no content gives None.
   */
  lemma ResponseBodyCases(kind: ResponseKind, headers: Headers, length: nat, parsed: Option<Json>)
    ensures kind.WithoutContent? ==> ResponseBody(kind, headers, length, parsed) == None
    ensures ParsedKind(kind, headers) && parsed.None? ==> ResponseBody(kind, headers, length, parsed) == None
    ensures ParsedKind(kind, headers) && parsed.Some? && !(parsed.value.JArr? && |parsed.value.items| > 10) ==>
      ResponseBody(kind, headers, length, parsed) == parsed
    ensures ParsedKind(kind, headers) && parsed.Some? && parsed.value.JArr? && |parsed.value.items| > 10 ==>
      var r := ResponseBody(kind, headers, length, parsed);
      var items := parsed.value.items;
      r.Some? && Member(r.value, "items_count") == Some(JNum(|items|)) &&
      Member(r.value, "first_items") == Some(JArr(items[..3])) &&
      Member(r.value, "message") == Some(JStr(TruncationNotice))
    ensures kind.WithContent? && !ParsedKind(kind, headers) && Contains(ContentTypeOf(headers), "text/html") ==>
      ResponseBody(kind, headers, length, parsed) == Some(JStr("[HTML Content - " + NatToString(length) + " bytes]"))
    ensures kind.WithContent? && !ParsedKind(kind, headers) && !Contains(ContentTypeOf(headers), "text/html") ==>
      ResponseBody(kind, headers, length, parsed) == Some(JStr("[Binary Content - " + NatToString(length) + " bytes]"))
    ensures AllDigits(NatToString(length)) && DigitsValue(NatToString(length)) == length
  {
    NatToStringRoundTrip(length);
    if ParsedKind(kind, headers) && parsed.Some? && parsed.value.JArr? && |parsed.value.items| > 10 {
      SummarisedFields(parsed.value.items);
    }
  }

  // ---------------------------------------------------------------- get_client_ip

  /** `get_client_ip`: the first `X-Forwarded-For` entry, stripped; else `REMOTE_ADDR`; else "unknown". */
  function ClientIp(meta: Headers): (r: string)
    ensures var f := Lookup(meta, "HTTP_X_FORWARDED_FOR");
      f.Some? && f.value != "" ==>
        (forall k | 0 <= k < |r| :: r[k] != ',') && (|r| > 0 ==> !IsSpace(r[0]) && !IsSpace(r[|r| - 1]))
    ensures var f := Lookup(meta, "HTTP_X_FORWARDED_FOR");
      !(f.Some? && f.value != "") ==> r == Lookup(meta, "REMOTE_ADDR").GetOr("unknown")
  {
    var forwarded := Lookup(meta, "HTTP_X_FORWARDED_FOR");
    if forwarded.Some? && forwarded.value != "" then
      var first := BeforeFirst(forwarded.value, ',');
      StripKeepsNoComma(first);
      StripSpace(first)
    else Lookup(meta, "REMOTE_ADDR").GetOr("unknown")
  }

  /** Stripping a field without commas leaves it without commas. */
  lemma StripKeepsNoComma(s: string)
    requires forall k | 0 <= k < |s| :: s[k] != ','
    ensures forall k | 0 <= k < |StripSpace(s)| :: StripSpace(s)[k] != ','
  {
    var r := StripSpace(s);
    var a :| 0 <= a <= |s| - |r| && OccursAt(s, r, a);
    forall k | 0 <= k < |r| ensures r[k] != ',' {
      assert r[k] == s[a + k];
    }
  }

  /** With a proxy chain `a, rest` the client is `a` with its whitespace stripped. */
  lemma ClientIpFirstHop(meta: Headers, a: string, rest: string)
    requires Lookup(meta, "HTTP_X_FORWARDED_FOR") == Some(a + "," + rest)
    requires forall k | 0 <= k < |a| :: a[k] != ','
    ensures ClientIp(meta) == StripSpace(a)
  {
    BeforeFirstField(a, ',', rest);
    assert a + "," + rest == a + [','] + rest;
  }

  /** With a single forwarded address the client is that address with its whitespace stripped. */
  lemma ClientIpSingleHop(meta: Headers, a: string)
    requires Lookup(meta, "HTTP_X_FORWARDED_FOR") == Some(a) && a != ""
    requires forall k | 0 <= k < |a| :: a[k] != ','
    ensures ClientIp(meta) == StripSpace(a)
  {
    BeforeFirstWhole(a, ',');
  }

  // ---------------------------------------------------------------- the hooks

  /** `request.user`: anonymous, or an authenticated user with its `str()` and its id. */
  datatype User = Anonymous | Authenticated(name: string, id: int)

  /** The parts of an `HttpRequest` the middleware reads, and the attribute it sets. */
  class HttpRequest {
    const httpMethod: string
    const path: string
    const meta: Headers
    /** `dict(request.GET)`. */
    const query: Json
    const contentType: string
    const body: BodyInput
    /** `request.user`; None when the request has no `user` attribute. */
    const user: Option<User>
    /** `request._logging_start_time`, in milliseconds; None until it is set. */
    var loggingStartTime: Option<int>

    constructor(httpMethod: string, path: string, meta: Headers, query: Json, contentType: string, body: BodyInput, user: Option<User>)
      ensures this.httpMethod == httpMethod && this.path == path && this.meta == meta && this.query == query
      ensures this.contentType == contentType && this.body == body && this.user == user && loggingStartTime == None
    {
      this.httpMethod := httpMethod;
      this.path := path;
      this.meta := meta;
      this.query := query;
      this.contentType := contentType;
      this.body := body;
      this.user := user;
      loggingStartTime := None;
    }
  }

  /** The parts of an `HttpResponse` the middleware reads. */
  class HttpResponse {
    const statusCode: int
    const headers: Headers
    const kind: ResponseKind
    /** `len(response.content)`. */
    const contentLength: nat
    /** The content decoded and parsed as JSON; None when that fails. */
    const parsed: Option<Json>

    constructor(statusCode: int, headers: Headers, kind: ResponseKind, contentLength: nat, parsed: Option<Json>)
      ensures this.statusCode == statusCode && this.headers == headers && this.kind == kind
      ensures this.contentLength == contentLength && this.parsed == parsed
    {
      this.statusCode := statusCode;
      this.headers := headers;
      this.kind := kind;
      this.contentLength := contentLength;
      this.parsed := parsed;
    }
  }

  function HeadersJson(h: Headers): Json
  {
    JObj(seq(|h|, i requires 0 <= i < |h| => (h[i].0, JStr(h[i].1))))
  }

  function LoggedUser(u: Option<User>): Json
  {
    if u.Some? && u.value.Authenticated? then JStr(u.value.name) else JStr("anonymous")
  }

  function LoggedUserId(u: Option<User>): Json
  {
    if u.Some? && u.value.Authenticated? then JNum(u.value.id) else JNull
  }

  /** The record `process_request` hands to `api_request`, with the header test `asWritten` picks. */
  function RequestLogRecord(r: HttpRequest, asWritten: bool): Fields
  {
    BackendLogger.RequestRecord(
      r.httpMethod, r.path, LoggedUser(r.user), JStr(ClientIp(r.meta)),
      HeadersJson(MaskedHeaders(CollectedHeaders(RequestHeaders(r.meta), asWritten))),
      if PyTruthy(r.query) then r.query else JNull,
      OrNull(RequestBody(r.contentType, r.body)),
      JStr(r.contentType),
      [("user_id", LoggedUserId(r.user))])
  }

  /** The record `process_response` hands to `api_response`. */
  function ResponseLogRecord(r: HttpRequest, start: Option<int>, response: HttpResponse, now: int): Fields
  {
    BackendLogger.ResponseRecord(
      r.httpMethod, r.path, response.statusCode, ElapsedMs(start, now),
      HeadersJson(UsefulHeaders(response.headers, UsefulResponseHeaders)),
      OrNull(ResponseBody(response.kind, response.headers, response.contentLength, response.parsed)),
      [])
  }

  /** The duration: 0 when the start time was never recorded. */
  function ElapsedMs(start: Option<int>, now: int): int
  {
    if start.Some? then now - start.value else 0
  }

  /** Key by key, the record of a request: `user_id` from the keyword data, every other key from the base record. */
  lemma RequestLogRecordAt(r: HttpRequest, asWritten: bool, k: string)
    ensures Lookup(RequestLogRecord(r, asWritten), k) ==
      if k == "user_id" then Some(LoggedUserId(r.user))
      else BackendLogger.RequestField(r.httpMethod, r.path, LoggedUser(r.user), JStr(ClientIp(r.meta)),
        HeadersJson(MaskedHeaders(CollectedHeaders(RequestHeaders(r.meta), asWritten))),
        if PyTruthy(r.query) then r.query else JNull, OrNull(RequestBody(r.contentType, r.body)), JStr(r.contentType), k)
  {
    var user, ip := LoggedUser(r.user), JStr(ClientIp(r.meta));
    var headers := HeadersJson(MaskedHeaders(CollectedHeaders(RequestHeaders(r.meta), asWritten)));
    var query := if PyTruthy(r.query) then r.query else JNull;
    var body := OrNull(RequestBody(r.contentType, r.body));
    var kw: Fields := [("user_id", LoggedUserId(r.user))];
    BackendLogger.RequestRecordFields(r.httpMethod, r.path, user, ip, headers, query, body, JStr(r.contentType), kw, k);
  }

  /** The record of a request always names the method, the path, the user and the client address. */
  lemma RequestLogRecordFields(r: HttpRequest, asWritten: bool)
    ensures Lookup(RequestLogRecord(r, asWritten), "method") == Some(JStr(r.httpMethod))
    ensures Lookup(RequestLogRecord(r, asWritten), "path") == Some(JStr(r.path))
    ensures Lookup(RequestLogRecord(r, asWritten), "user") == Some(LoggedUser(r.user))
    ensures Lookup(RequestLogRecord(r, asWritten), "ip") == Some(JStr(ClientIp(r.meta)))
    ensures Lookup(RequestLogRecord(r, asWritten), "user_id") == Some(LoggedUserId(r.user))
  {
    RequestLogRecordAt(r, asWritten, "method");
    RequestLogRecordAt(r, asWritten, "path");
    RequestLogRecordAt(r, asWritten, "user");
    RequestLogRecordAt(r, asWritten, "ip");
    RequestLogRecordAt(r, asWritten, "user_id");
  }

  /** The record of a request never holds `self`, `level` or `message`, so `api_request` always logs. */
  lemma RequestLogRecordLogs(r: HttpRequest, asWritten: bool)
    ensures !Collides(RequestLogRecord(r, asWritten))
  {
    RequestLogRecordAt(r, asWritten, "self");
    RequestLogRecordAt(r, asWritten, "level");
    RequestLogRecordAt(r, asWritten, "message");
  }

  predicate Collides(data: Fields)
  {
    BackendLogger.Collides(data)
  }

  /** The record of a response never holds `self`, `level` or `message`, so `api_response` always logs. */
  lemma ResponseLogRecordLogs(r: HttpRequest, start: Option<int>, response: HttpResponse, now: int)
    ensures !Collides(ResponseLogRecord(r, start, response, now))
  {
    var args := (r.httpMethod, r.path, response.statusCode, ElapsedMs(start, now),
      HeadersJson(UsefulHeaders(response.headers, UsefulResponseHeaders)),
      OrNull(ResponseBody(response.kind, response.headers, response.contentLength, response.parsed)));
    BackendLogger.ResponseBaseFields(args.0, args.1, args.2, args.3, args.4, args.5, "self");
    BackendLogger.ResponseBaseFields(args.0, args.1, args.2, args.3, args.4, args.5, "level");
    BackendLogger.ResponseBaseFields(args.0, args.1, args.2, args.3, args.4, args.5, "message");
  }

  class ApiLoggingMiddleware {
    /** The module-level `log` this middleware writes to. */
    const log: BackendLogger.PackLogger
    /**
     * The header test of `get_request_headers`: true for the source's `key.startswith('x-')`,
     * false for the corrected, case-insensitive test.
     */
    const asWritten: bool

    constructor(log: BackendLogger.PackLogger, asWritten: bool)
      ensures this.log == log && this.asWritten == asWritten
    {
      this.log := log;
      this.asWritten := asWritten;
    }

    /**
     * `process_request`: an excluded path is left alone; otherwise the start time is set
     * and the request is logged at info.
     */
    method ProcessRequest(request: HttpRequest, now: int)
      requires DictsDistinct(request.body.json.GetOr(JNull))
      modifies request, log, log.console
      ensures !ShouldLog(request.path) ==>
        request.loggingStartTime == old(request.loggingStartTime) &&
        log.calls == old(log.calls) && log.console.lines == old(log.console.lines)
      ensures ShouldLog(request.path) ==>
        var message := BackendLogger.RequestMessage(request.httpMethod, request.path);
        var extra := BackendLogger.DropNone(RequestLogRecord(request, asWritten));
        request.loggingStartTime == Some(now) &&
        log.calls == old(log.calls) + [BackendLogger.LoggerCall(BackendLogger.Info, message, extra)] &&
        log.console.lines == old(log.console.lines) + BackendLogger.Printed(BackendLogger.Info, message, extra)
    {
      if !ShouldLog(request.path) {
        return;
      }
      request.loggingStartTime := Some(now);
      var headers := GetRequestHeaders(request.meta, asWritten);
      var queryParams := if PyTruthy(request.query) then request.query else JNull;
      var body := JNull;
      if !request.body.empty && Contains(request.contentType, "application/json") {
        if request.body.json.Some? {
          body := MaskSensitiveBody(request.body.json.value);
        }
      } else {
        body := OrNull(RequestBody(request.contentType, request.body));
      }
      assert body == OrNull(RequestBody(request.contentType, request.body));
      RequestLogRecordLogs(request, asWritten);
      var outcome := log.ApiRequest(
        request.httpMethod, request.path, LoggedUser(request.user), JStr(ClientIp(request.meta)),
        HeadersJson(headers), queryParams, body, JStr(request.contentType),
        [("user_id", LoggedUserId(request.user))]);
    }

    /**
     * `process_response`: the very response received is returned; unless the path is
     * excluded, the response is logged first.
     */
    method ProcessResponse(request: HttpRequest, response: HttpResponse, now: int) returns (r: HttpResponse)
      modifies log, log.console
      ensures r == response
      ensures !ShouldLog(request.path) ==> log.calls == old(log.calls) && log.console.lines == old(log.console.lines)
      ensures ShouldLog(request.path) ==>
        var level := BackendLogger.ResponseLevel(response.statusCode);
        var message := BackendLogger.ResponseMessage(request.httpMethod, request.path, response.statusCode,
                                                      ElapsedMs(request.loggingStartTime, now));
        var extra := BackendLogger.DropNone(ResponseLogRecord(request, request.loggingStartTime, response, now));
        log.calls == old(log.calls) + [BackendLogger.LoggerCall(level, message, extra)] &&
        log.console.lines == old(log.console.lines) + BackendLogger.Printed(level, message, extra)
    {
      if !ShouldLog(request.path) {
        return response;
      }
      var duration := 0;
      if request.loggingStartTime.Some? {
        duration := now - request.loggingStartTime.value;
      }
      var headers := GetResponseHeaders(response.headers);
      var body := ResponseBody(response.kind, response.headers, response.contentLength, response.parsed);
      ResponseLogRecordLogs(request, request.loggingStartTime, response, now);
      var outcome := log.ApiResponse(request.httpMethod, request.path, response.statusCode, duration,
                                     HeadersJson(headers), OrNull(body), []);
      return response;
    }
  }
}
