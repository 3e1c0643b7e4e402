/**
 * The platform helpers (frontend/styles/platformStyles.ts). `Platform.OS` is an explicit
 * parameter. A style is a JSON object, an absent option is `None` (JavaScript's
 * `undefined`), and `{}` is the empty object.
 */
module PlatformStyles {
  import opened Wrappers
  import opened JsonValue

  /** The values React Native's `Platform.OS` takes. */
  datatype Platform = Web | Android | Ios | Windows | Macos

  const Empty: Json := JObj([])

  function WebOnly(os: Platform, styles: Json): Json
  {
    if os == Web then styles else Empty
  }

  function NativeOnly(os: Platform, styles: Json): Json
  {
    if os != Web then styles else Empty
  }

  function AndroidOnly(os: Platform, styles: Json): Json
  {
    if os == Android then styles else Empty
  }

  function IosOnly(os: Platform, styles: Json): Json
  {
    if os == Ios then styles else Empty
  }

  /** The `options` argument of `platformSelect` and `platformValue`. */
  datatype Options<T> = Options(web: Option<T>, android: Option<T>, ios: Option<T>, native: Option<T>, default: Option<T>)

  /** `platformSelect`: the first truthy option in priority order, else `{}`. */
  function PlatformSelect(os: Platform, o: Options<Json>): Json
  {
    if os == Web && JsPresent(o.web) then o.web.value
    else if os == Android && JsPresent(o.android) then o.android.value
    else if os == Ios && JsPresent(o.ios) then o.ios.value
    else if os != Web && JsPresent(o.native) then o.native.value
    else if JsPresent(o.default) then o.default.value
    else Empty
  }

  /** `platformValue`: the same priority, testing only `!== undefined`. */
  function PlatformValue<T>(os: Platform, o: Options<T>): Option<T>
  {
    if os == Web && o.web.Some? then o.web
    else if os == Android && o.android.Some? then o.android
    else if os == Ios && o.ios.Some? then o.ios
    else if os != Web && o.native.Some? then o.native
    else o.default
  }

  // ---------------------------------------------------------------- reference definitions

  /** The option named after the platform itself, if it has one. */
  function OwnOption<T>(os: Platform, o: Options<T>): Option<T>
  {
    match os
    case Web => o.web
    case Android => o.android
    case Ios => o.ios
    case _ => None
  }

  /** The candidates in priority order: own option, `native` (off the web), `default`. */
  function Candidates<T>(os: Platform, o: Options<T>): (r: seq<Option<T>>)
    ensures |r| == if os == Web then 2 else 3
    ensures r[0] == OwnOption(os, o) && r[|r| - 1] == o.default
  {
    [OwnOption(os, o)] + (if os != Web then [o.native] else []) + [o.default]
  }

  /** The first candidate satisfying `JsPresent`, as a fold over the candidates. */
  function FirstTruthy(cands: seq<Option<Json>>): (r: Json)
    ensures r == Empty || exists i | 0 <= i < |cands| :: JsPresent(cands[i]) && r == cands[i].value
  {
    if cands == [] then Empty
    else if JsPresent(cands[0]) then cands[0].value
    else
      var r := FirstTruthy(cands[1..]);
      assert r != Empty ==> exists i | 0 <= i < |cands| :: JsPresent(cands[i]) && r == cands[i].value by {
        if r != Empty {
          var i :| 0 <= i < |cands[1..]| && JsPresent(cands[1..][i]) && r == cands[1..][i].value;
          assert cands[i + 1] == cands[1..][i];
        }
      }
      r
  }

  /** The first defined candidate, or `undefined` when there is none. */
  function FirstDefined<T>(cands: seq<Option<T>>): (r: Option<T>)
    ensures r.None? <==> forall i | 0 <= i < |cands| :: cands[i].None?
  {
    if cands == [] then None
    else if cands[0].Some? then cands[0]
    else
      assert forall i | 1 <= i < |cands| :: cands[i] == cands[1..][i - 1];
      FirstDefined(cands[1..])
  }

  // ---------------------------------------------------------------- properties

  /** On every platform exactly one of `webOnly` and `nativeOnly` passes the styles through. */
  lemma WebNativeSplit(os: Platform, styles: Json)
    ensures multiset{WebOnly(os, styles), NativeOnly(os, styles)} == multiset{styles, Empty}
    ensures WebOnly(os, styles) == styles <==> (os == Web || styles == Empty)
  {
  }

  /** `androidOnly` and `iosOnly` pass the styles only on their own platform, and never both. */
  lemma NativeFamilies(os: Platform, styles: Json)
    requires styles != Empty
    ensures AndroidOnly(os, styles) == styles <==> os == Android
    ensures IosOnly(os, styles) == styles <==> os == Ios
    ensures AndroidOnly(os, styles) == Empty || IosOnly(os, styles) == Empty
  {
  }

  lemma {:induction false} FirstTruthyCons(c: Option<Json>, rest: seq<Option<Json>>)
    ensures FirstTruthy([c] + rest) == if JsPresent(c) then c.value else FirstTruthy(rest)
  {
    assert ([c] + rest)[0] == c && ([c] + rest)[1..] == rest;
  }

  lemma {:induction false} FirstDefinedCons<T>(c: Option<T>, rest: seq<Option<T>>)
    ensures FirstDefined([c] + rest) == if c.Some? then c else FirstDefined(rest)
  {
    assert ([c] + rest)[0] == c && ([c] + rest)[1..] == rest;
  }

  /** `platformSelect` is the first truthy candidate in priority order, or `{}`. */
  lemma PlatformSelectPriority(os: Platform, o: Options<Json>)
    ensures PlatformSelect(os, o) == FirstTruthy(Candidates(os, o))
  {
    var own := OwnOption(os, o);
    FirstTruthyCons(o.default, []);
    assert FirstTruthy([]) == Empty;
    if os == Web {
      assert Candidates(os, o) == [own] + [o.default];
      FirstTruthyCons(own, [o.default]);
    } else {
      assert Candidates(os, o) == [own] + ([o.native] + [o.default]);
      FirstTruthyCons(own, [o.native] + [o.default]);
      FirstTruthyCons(o.native, [o.default]);
    }
  }

  /** `platformValue` is the first defined candidate, or `undefined`. */
  lemma PlatformValuePriority<T>(os: Platform, o: Options<T>)
    ensures PlatformValue(os, o) == FirstDefined(Candidates(os, o))
  {
    var own := OwnOption(os, o);
    FirstDefinedCons(o.default, []);
    assert FirstDefined<T>([]) == None;
    if os == Web {
      assert Candidates(os, o) == [own] + [o.default];
      FirstDefinedCons(own, [o.default]);
    } else {
      assert Candidates(os, o) == [own] + ([o.native] + [o.default]);
      FirstDefinedCons(own, [o.native] + [o.default]);
      FirstDefinedCons(o.native, [o.default]);
    }
  }

  /** On the web the `native` option is never consulted by either function. */
  lemma WebIgnoresNative<T>(o: Options<Json>, v: Options<T>, n: Option<Json>, m: Option<T>)
    ensures PlatformSelect(Web, o) == PlatformSelect(Web, o.(native := n))
    ensures PlatformValue(Web, v) == PlatformValue(Web, v.(native := m))
  {
  }

  /** A falsy option is skipped by `platformSelect` but returned by `platformValue`. */
  lemma FalsyOptions(os: Platform, x: Json)
    requires !JsTruthy(x)
    ensures var o := Options(Some(x), Some(x), Some(x), Some(x), None);
      PlatformSelect(os, o) == Empty && PlatformValue(os, o) == Some(x)
  {
  }

  /** Without any option that applies, `platformValue` is `undefined`. */
  lemma NoDefaultUndefined<T>(os: Platform, o: Options<T>)
    requires o.default.None? && OwnOption(os, o).None? && (os != Web ==> o.native.None?)
    ensures PlatformValue(os, o).None?
  {
    PlatformValuePriority(os, o);
  }
}
