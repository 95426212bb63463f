/**
  The controller behind the gateway's return and notification URLs: the
  external status in the URL selects a raw IPN response, a fallback IPN
  run, a content callback of the payment method, or a default page.
*/
module OffsiteController {
  import opened Php
  import opened OffsiteMethods
  import opened LiqpayMethod

  /** A raw HTTP response, or a render array. */
  datatype ControllerResult = RawResponse(body: Value, code: Value) | Render(build: map<string, Value>)

  /** The id of the payment method instance for a configuration: `<plugin id>:<configuration id>`. */
  function PluginInstanceId(configurationPluginId: string, configurationId: string): (id: string)
    ensures |id| == |configurationPluginId| + 1 + |configurationId|
    ensures id[..|configurationPluginId|] == configurationPluginId && id[|configurationPluginId|] == ':'
    ensures id[|configurationPluginId| + 1..] == configurationId
  {
    configurationPluginId + ":" + configurationId
  }

  /** The raw response for an IPN result: its message (or "") with its response code (or 200), whichever is set. */
  function ResponseFor(ipnResult: map<string, Value>): (r: ControllerResult)
    ensures r.RawResponse?
    ensures r.body == (if IsSet(ipnResult, "message") then ipnResult["message"] else Str(""))
    ensures r.code == (if IsSet(ipnResult, "response_code") then ipnResult["response_code"] else Int(200))
  {
    RawResponse(
      if IsSet(ipnResult, "message") then ipnResult["message"] else Str(""),
      if IsSet(ipnResult, "response_code") then ipnResult["response_code"] else Int(200))
  }

  /** `ucfirst` on the ASCII letters. */
  function UcFirst(s: string): (r: string)
    ensures |r| == |s| && (|s| > 0 ==> r[1..] == s[1..])
    ensures |s| > 0 ==> r[0] == UpperChar(s[0])
  {
    if |s| == 0 then s else [UpperChar(s[0])] + s[1..]
  }

  /** The name of the content callback for a status, e.g. `getPendingContent` for `pending`. */
  function CallbackName(status: string): string {
    "get" + UcFirst(status) + "Content"
  }

  /** The result page asks for a fallback IPN run only when its flag is exactly TRUE. */
  predicate RunsFallbackIpn(status: string, resultPages: map<string, Value>) {
    status in resultPages && resultPages[status] == Bool(true)
  }

  /** `$build + ['#cache' => ['max-age' => 0]]`: no caching unless the build already says otherwise. */
  function Uncached(build: map<string, Value>): map<string, Value> {
    Union(build, map["#cache" := Arr(map["max-age" := Int(0)])])
  }

  /**
    The page for an external status. `ipnResult` is what `ipnExecute()`
    returns when run as is, `fallbackResult` what it returns after
    `setFallbackMode(TRUE)`; `callbacks` maps the upper-cased names of the
    method's callable content callbacks (PHP method names ignore case) to
    the render arrays they build.
  */
  function Dispatch(status: string, resultPages: map<string, Value>, ipnResult: map<string, Value>,
                    fallbackResult: map<string, Value>, callbacks: map<string, map<string, Value>>): (r: ControllerResult)
    ensures status == "ipn" ==> r == ResponseFor(ipnResult)
    ensures r.RawResponse? <==>
      status == "ipn" || (RunsFallbackIpn(status, resultPages) && !LooseEqualsLiteral(Lookup(fallbackResult, "status"), "success"))
  {
    if status == "ipn" then ResponseFor(ipnResult)
    else if RunsFallbackIpn(status, resultPages) && !LooseEqualsLiteral(Lookup(fallbackResult, "status"), "success") then
      ResponseFor(fallbackResult)
    else if AsciiUpper(CallbackName(status)) in callbacks then Render(Uncached(callbacks[AsciiUpper(CallbackName(status))]))
    else Render(map["#markup" := Str("Payment processed with " + status)])
  }

  /** Status `ipn` always answers with the raw IPN response, whatever the result pages and callbacks. */
  lemma IpnIsRaw(resultPages: map<string, Value>, ipnResult: map<string, Value>, fallbackResult: map<string, Value>,
                 callbacks: map<string, map<string, Value>>)
    ensures Dispatch("ipn", resultPages, ipnResult, fallbackResult, callbacks) == ResponseFor(ipnResult)
  {
  }

  /**
    A result page whose flag is not exactly TRUE (FALSE, 1, "1", ...) never
    runs the IPN: what the fallback run would return does not matter.
  */
  lemma FallbackOnlyWhenStrictlyTrue(status: string, resultPages: map<string, Value>, ipnResult: map<string, Value>,
                                     f1: map<string, Value>, f2: map<string, Value>, callbacks: map<string, map<string, Value>>)
    requires status !in resultPages || resultPages[status] != Bool(true)
    ensures Dispatch(status, resultPages, ipnResult, f1, callbacks) == Dispatch(status, resultPages, ipnResult, f2, callbacks)
  {
  }

  /** A fallback IPN run that does not report `success` short-circuits to its raw response. */
  lemma FailedFallbackIsRaw(status: string, resultPages: map<string, Value>, ipnResult: map<string, Value>,
                            fallbackResult: map<string, Value>, callbacks: map<string, map<string, Value>>)
    requires status != "ipn" && RunsFallbackIpn(status, resultPages)
    requires "status" in fallbackResult && fallbackResult["status"].Str? && fallbackResult["status"].s != "success"
    ensures Dispatch(status, resultPages, ipnResult, fallbackResult, callbacks) == ResponseFor(fallbackResult)
  {
  }

  /**
    Otherwise the callback's build is returned with cache max-age 0 added,
    unless the build sets its own cache metadata; with no callback the page
    names the status.
  */
  lemma ContentPages(status: string, resultPages: map<string, Value>, ipnResult: map<string, Value>,
                     fallbackResult: map<string, Value>, callbacks: map<string, map<string, Value>>)
    requires status != "ipn" && !RunsFallbackIpn(status, resultPages)
    ensures var r := Dispatch(status, resultPages, ipnResult, fallbackResult, callbacks);
      var name := AsciiUpper(CallbackName(status));
      (name in callbacks ==>
        r.Render? && r.build.Keys == callbacks[name].Keys + {"#cache"} &&
        r.build["#cache"] == (if "#cache" in callbacks[name] then callbacks[name]["#cache"] else Arr(map["max-age" := Int(0)]))) &&
      (name !in callbacks ==> r == Render(map["#markup" := Str("Payment processed with " + status)]))
  {
  }

  /** Liqpay's only content callback, `getPendingContent`, under its case-insensitive name. */
  function LiqpayCallbacks(m: LiqpayMethod): map<string, map<string, Value>> {
    map[AsciiUpper("getPendingContent") := EntriesOf(m.GetPendingContent())]
  }

  /** Liqpay declares no result page with a TRUE flag, so it never runs a fallback IPN from the controller. */
  lemma LiqpayNeverFallsBack(m: LiqpayMethod, status: string)
    ensures !RunsFallbackIpn(status, m.GetResultPages())
  {
  }

  /** In fallback mode Liqpay's IPN never reports `success`, even after updating the payment. */
  lemma LiqpayFallbackNeverSucceeds(v: Outcome)
    ensures !LooseEqualsLiteral(Lookup(IpnOutcome(v, Bool(true)), "status"), "success")
  {
    assert IpnOutcome(v, Bool(true))["status"] == Str("fail");
  }

  /**
    `content()` for a Liqpay method instance: status `ipn` runs the IPN and
    answers raw; any other status renders `getPendingContent` for `pending`
    (case ignored) and the default page otherwise.
  */
  method Content(m: LiqpayMethod, status: string) returns (r: ControllerResult)
    modifies m.base`payment, m`storage
    ensures r == Dispatch(status, m.GetResultPages(),
      IpnOutcome(Validation(m.codec, m.base.definition, m.request, old(m.storage), old(m.base.payment)), m.base.fallbackMode),
      IpnResult("fail"), LiqpayCallbacks(m))
    ensures status != "ipn" ==> m.base.payment == old(m.base.payment) && m.storage == old(m.storage)
  {
    if status == "ipn" {
      var ipnResult := m.IpnExecute();
      return ResponseFor(ipnResult);
    }
    LiqpayNeverFallsBack(m, status);
    var callback := AsciiUpper(CallbackName(status));
    if callback == AsciiUpper("getPendingContent") {
      var build := m.GetPendingContent();
      return Render(Uncached(EntriesOf(build)));
    }
    return Render(map["#markup" := Str("Payment processed with " + status)]);
  }
}
