/**
  The Liqpay off-site payment method: the redirect form it posts to the
  gateway (a base64 JSON payload and its signature), the validation of the
  gateway's notification, and the status update it triggers.
*/
module LiqpayMethod {
  import opened Php
  import opened OffsiteMethods

  /**
    The encodings the gateway uses, as uninterpreted functions: SHA-1 then
    base64 of the raw digest, base64, JSON, the float rounding of an amount
    to one decimal, and PHP's loose `==` on amounts and currency codes.
  */
  datatype Codec = Codec(
    sha1Base64: string -> string,
    base64Encode: string -> string,
    base64Decode: string -> string,
    jsonEncode: map<string, Value> -> string,
    jsonDecode: string -> Value,
    roundAmount: Value -> Value,
    looseEquals: (Value, Value) -> bool)

  /** An entry of the `config` section of the plugin definition. */
  function Config(definition: map<string, Value>, key: string): Value {
    Lookup(EntriesOf(Lookup(definition, "config")), key)
  }

  /** `base64_encode(sha1($private_key . $data . $private_key, TRUE))`. */
  function Sign(codec: Codec, privateKey: Value, data: string): string {
    codec.sha1Base64(ToPhpString(privateKey) + data + ToPhpString(privateKey))
  }

  /** The posted `data` field, base64- and JSON-decoded; a payload that is not an object has no entries. */
  function Decoded(codec: Codec, request: Request): map<string, Value> {
    EntriesOf(codec.jsonDecode(codec.base64Decode(ToPhpString(Lookup(request.post, "data")))))
  }

  /** The posted signature equals the signature of the posted data, ignoring case. */
  predicate SignatureMatches(codec: Codec, definition: map<string, Value>, request: Request) {
    EqualsIgnoringCase(
      ToPhpString(Lookup(request.post, "signature")),
      Sign(codec, Config(definition, "private_key"), ToPhpString(Lookup(request.post, "data"))))
  }

  /**
    The verdict of `ipnValidate()` and the payment it leaves: the signature,
    then the transaction id (which loads and sets the payment), then the
    amount, then the currency, stopping at the first failure.
  */
  function Validation(codec: Codec, definition: map<string, Value>, request: Request, storage: PaymentStorage, payment: Option<Payment>): (o: Outcome)
    ensures o.passed ==> SignatureMatches(codec, definition, request)
    ensures o.passed ==> o.payment == LoadPayment(storage, Lookup(Decoded(codec, request), "order_id")) && o.payment.Some?
    ensures !SignatureMatches(codec, definition, request) ==> o == Outcome(false, payment)
    ensures var data := Decoded(codec, request);
      var loaded := LoadPayment(storage, Lookup(data, "order_id"));
      o.passed <==>
        SignatureMatches(codec, definition, request) && loaded.Some? &&
        codec.looseEquals(loaded.value.amount, Lookup(data, "amount")) &&
        codec.looseEquals(Str(loaded.value.currencyCode), Lookup(data, "currency"))
    ensures var loaded := LoadPayment(storage, Lookup(Decoded(codec, request), "order_id"));
      SignatureMatches(codec, definition, request) ==> o.payment == if loaded.None? then payment else loaded
  {
    if !SignatureMatches(codec, definition, request) then Outcome(false, payment)
    else
      var data := Decoded(codec, request);
      var loaded := LoadPayment(storage, Lookup(data, "order_id"));
      if loaded.None? then Outcome(false, payment)
      else if !codec.looseEquals(loaded.value.amount, Lookup(data, "amount")) then Outcome(false, loaded)
      else Outcome(codec.looseEquals(Str(loaded.value.currencyCode), Lookup(data, "currency")), loaded)
  }

  /** The internal status for a gateway status: the configured mapping, or `payment_pending` when it is unset. */
  function IpnStatus(configuration: map<string, Value>, gatewayStatus: Value): (status: string)
    ensures (match ArrayKey(gatewayStatus)
             case None => true
             case Some(k) => k !in EntriesOf(Lookup(configuration, "ipn_statuses")) || EntriesOf(Lookup(configuration, "ipn_statuses"))[k] == Null)
            ==> status == "payment_pending"
  {
    var mapped := match ArrayKey(gatewayStatus)
      case None => Null
      case Some(k) => Lookup(EntriesOf(Lookup(configuration, "ipn_statuses")), k);
    if mapped == Null then "payment_pending" else ToPhpString(mapped)
  }

  function IpnResult(status: string): map<string, Value> {
    map["status" := Str(status), "message" := Str(""), "response_code" := Int(200)]
  }

  /** What `ipnExecute()` returns after a validation with this outcome, in this fallback mode. */
  function IpnOutcome(v: Outcome, fallbackMode: Value): (r: map<string, Value>)
    ensures r.Keys == {"status", "message", "response_code"}
    ensures r["message"] == Str("") && r["response_code"] == Int(200)
    ensures r["status"] == Str("success") <==> v.passed && !Truthy(fallbackMode)
  {
    IpnResult(if v.passed && !Truthy(fallbackMode) then "success" else "fail")
  }

  /**
    The `data` payload of the redirect form, before encoding. `result_url`
    is the referer when the redirect setting is `[redirect_to_referer]`, the
    token-replaced setting for any other truthy setting, and absent when the
    setting is falsy.
  */
  function PaymentData(definition: map<string, Value>, codec: Codec, payment: Payment, language: string, description: Value,
                       referer: Value, tokenReplace: string -> string): (data: map<string, Value>)
    ensures data.Keys == {"version", "public_key", "sandbox", "action", "order_id", "language", "amount", "currency", "description"} +
      (if Truthy(Config(definition, "redirect_url")) then {"result_url"} else {})
    ensures data["version"] == Config(definition, "version") && data["public_key"] == Config(definition, "public_key") &&
      data["sandbox"] == Config(definition, "sandbox") && data["action"] == Config(definition, "action")
    ensures data["language"] == Str(language) && data["amount"] == codec.roundAmount(payment.amount) &&
      data["description"] == description
    ensures "order_id" in data && data["order_id"] == Str(payment.id)
    ensures "currency" in data && data["currency"] == Str(payment.currencyCode)
    ensures "result_url" in data <==> Truthy(Config(definition, "redirect_url"))
    ensures "result_url" in data && LooseEqualsLiteral(Config(definition, "redirect_url"), "[redirect_to_referer]") ==>
      data["result_url"] == referer
    ensures "result_url" in data && !LooseEqualsLiteral(Config(definition, "redirect_url"), "[redirect_to_referer]") ==>
      data["result_url"] == Str(tokenReplace(ToPhpString(Config(definition, "redirect_url"))))
  {
    var data := map[
      "version" := Config(definition, "version"),
      "public_key" := Config(definition, "public_key"),
      "sandbox" := Config(definition, "sandbox"),
      "action" := Config(definition, "action"),
      "order_id" := Str(payment.id),
      "language" := Str(language),
      "amount" := codec.roundAmount(payment.amount),
      "currency" := Str(payment.currencyCode),
      "description" := description];
    var redirect := Config(definition, "redirect_url");
    if !Truthy(redirect) then data
    else if LooseEqualsLiteral(redirect, "[redirect_to_referer]") then data["result_url" := referer]
    else data["result_url" := Str(tokenReplace(ToPhpString(redirect)))]
  }

  /**
    A notification that posts back, unchanged, the `data` and `signature`
    the redirect form carried passes the signature step; when the codec
    decodes what it encodes, validation then looks up the payment the form
    was built for.
  */
  lemma FormPayloadPassesSignature(codec: Codec, definition: map<string, Value>, request: Request, storage: PaymentStorage,
                                   payment: Option<Payment>, data: map<string, Value>)
    requires forall s :: codec.base64Decode(codec.base64Encode(s)) == s
    requires forall m :: codec.jsonDecode(codec.jsonEncode(m)) == Arr(m)
    requires "data" in request.post && request.post["data"] == Str(codec.base64Encode(codec.jsonEncode(data)))
    requires "signature" in request.post &&
      request.post["signature"] == Str(Sign(codec, Config(definition, "private_key"), codec.base64Encode(codec.jsonEncode(data))))
    ensures SignatureMatches(codec, definition, request)
    ensures Decoded(codec, request) == data
    ensures Validation(codec, definition, request, storage, payment).passed ==>
      Validation(codec, definition, request, storage, payment).payment == LoadPayment(storage, Lookup(data, "order_id"))
  {
    var encoded := codec.base64Encode(codec.jsonEncode(data));
    assert codec.base64Decode(encoded) == codec.jsonEncode(data);
    EqualsIgnoringCaseProperties(Sign(codec, Config(definition, "private_key"), encoded), "");
  }

  /** The form data after the payload and its signature are added. */
  function SignedFormData(formData: map<string, Value>, codec: Codec, privateKey: Value, payload: string): (r: map<string, Value>)
    ensures r.Keys == formData.Keys + {"data", "signature"}
    ensures r["data"] == Str(payload) && r["signature"] == Str(Sign(codec, privateKey, payload))
    ensures forall k :: k in formData && k != "data" && k != "signature" ==> r[k] == formData[k]
  {
    formData["data" := Str(payload)]["signature" := Str(Sign(codec, privateKey, payload))]
  }

  /** The redirect form: the gateway's action URL and one hidden element per form-data entry. */
  function RedirectForm(actionUrl: Value, formData: map<string, Value>): (form: map<string, Value>)
    ensures form.Keys == {"#action"} + formData.Keys
    ensures form["#action"] == actionUrl
    ensures forall k :: k in formData && k != "#action" ==> form[k] == HiddenElement(formData[k])
  {
    Union(map["#action" := actionUrl], GenerateForm(formData))
  }

  /** The Liqpay payment method plugin. */
  class LiqpayMethod {
    const base: OffsiteMethod
    const codec: Codec
    const request: Request
    var storage: PaymentStorage

    constructor (base: OffsiteMethod, codec: Codec, request: Request, storage: PaymentStorage)
      ensures this.base == base && this.codec == codec && this.request == request && this.storage == storage
    {
      this.base := base;
      this.codec := codec;
      this.request := request;
      this.storage := storage;
    }

    function GetRedirect(): Value { Config(base.definition, "redirect_url") }
    function GetVersion(): Value { Config(base.definition, "version") }
    function GetPublicKey(): Value { Config(base.definition, "public_key") }
    function GetSandboxStatus(): Value { Config(base.definition, "sandbox") }
    function GetAction(): Value { Config(base.definition, "action") }
    function GetActionUrl(): Value { Config(base.definition, "action_url") }
    function GetPrivateKey(): Value { Config(base.definition, "private_key") }

    /** The order id sent to the gateway is the current payment's id. */
    function GetTransactionIdName(): string
      reads base
      requires base.payment.Some?
    {
      base.payment.value.id
    }

    /** Configured exactly when the action URL is not empty. */
    function IsConfigured(): (r: bool)
      ensures r <==> !Empty(GetActionUrl())
    {
      !Empty(GetActionUrl())
    }

    /** The only result page is `pending`, and it does not ask for a fallback IPN run. */
    function GetResultPages(): (pages: map<string, Value>)
      ensures pages.Keys == {"pending"} && pages["pending"] == Bool(false)
    {
      map["pending" := Bool(false)]
    }

    /** The payment status configured for a gateway status; the IPN falls back to `payment_pending` when it is NULL. */
    function GetStatusId(status: Value): (r: Value)
      ensures IpnStatus(base.configuration, status) == if r == Null then "payment_pending" else ToPhpString(r)
    {
      match ArrayKey(status)
      case None => Null
      case Some(k) => Lookup(EntriesOf(Lookup(base.configuration, "ipn_statuses")), k)
    }

    /**
      Fills the form data with the encoded payload and its signature and
      returns the redirect form: the gateway's action URL and one hidden
      element per form-data entry.
    */
    method PaymentForm(language: string, description: Value, referer: Value, tokenReplace: string -> string)
      returns (form: map<string, Value>)
      requires base.payment.Some?
      modifies base`paymentFormData
      ensures base.paymentFormData == SignedFormData(old(base.paymentFormData), codec, GetPrivateKey(),
        codec.base64Encode(codec.jsonEncode(PaymentData(base.definition, codec, base.payment.value, language, description, referer, tokenReplace))))
      ensures form == RedirectForm(GetActionUrl(), base.paymentFormData)
    {
      var payment := base.payment.value;
      var data := PaymentData(base.definition, codec, payment, language, description, referer, tokenReplace);
      var privateKey := GetPrivateKey();
      var jsonData := codec.base64Encode(codec.jsonEncode(data));
      ghost var before := base.paymentFormData;
      base.AddPaymentFormData("data", Str(jsonData));
      base.AddPaymentFormData("signature", Str(Sign(codec, privateKey, jsonData)));
      assert base.paymentFormData == SignedFormData(before, codec, privateKey, jsonData);
      assert base.payment.value == payment;
      form := RedirectForm(GetActionUrl(), base.paymentFormData);
    }

    /** Always passes: `empty()` of the request's parameter bag, an object, is false. */
    method ValidateEmpty() returns (ok: bool)
      ensures ok
    {
      ok := true;
    }

    /** Passes exactly when storage holds the given id; only then is the payment set. */
    method ValidateTransactionId(requestPaymentId: Value) returns (ok: bool)
      modifies base`payment
      ensures ok <==> LoadPayment(storage, requestPaymentId).Some?
      ensures base.payment == if ok then LoadPayment(storage, requestPaymentId) else old(base.payment)
    {
      var payment := LoadPayment(storage, requestPaymentId);
      if payment.None? {
        return false;
      }
      base.SetPayment(payment.value);
      return true;
    }

    /** Passes exactly when the current payment's amount equals the given amount. */
    method ValidateAmount(requestAmount: Value) returns (ok: bool)
      requires base.payment.Some?
      ensures ok == codec.looseEquals(base.payment.value.amount, requestAmount)
    {
      ok := codec.looseEquals(base.payment.value.amount, requestAmount);
    }

    /** Passes exactly when the current payment's currency code equals the given one. */
    method ValidateCurrency(requestCurrency: Value) returns (ok: bool)
      requires base.payment.Some?
      ensures ok == codec.looseEquals(Str(base.payment.value.currencyCode), requestCurrency)
    {
      ok := codec.looseEquals(Str(base.payment.value.currencyCode), requestCurrency);
    }

    /** `ipnValidate()`: the verdict and the payment are those of `Validation`. */
    method IpnValidate() returns (ok: bool)
      modifies base`payment
      ensures var o := Validation(codec, base.definition, request, storage, old(base.payment));
        ok == o.passed && base.payment == o.payment
    {
      ok := ValidateEmpty();
      if !ok {
        return;
      }
      var responseData := Lookup(request.post, "data");
      var responseSignature := Lookup(request.post, "signature");
      var signature := Sign(codec, GetPrivateKey(), ToPhpString(responseData));
      if AsciiUpper(ToPhpString(responseSignature)) != AsciiUpper(signature) {
        return false;
      }
      var data := EntriesOf(codec.jsonDecode(codec.base64Decode(ToPhpString(responseData))));
      ok := ValidateTransactionId(Lookup(data, "order_id"));
      if ok {
        ok := ValidateAmount(Lookup(data, "amount"));
        if ok {
          ok := ValidateCurrency(Lookup(data, "currency"));
        }
      }
    }

    /**
      `ipnExecute()`: on a failed validation the result is `fail` and
      storage is untouched. Otherwise the payment gets the mapped status and
      is saved, and the result is `success` outside fallback mode and `fail`
      in it.
    */
    method IpnExecute() returns (result: map<string, Value>)
      modifies base`payment, this`storage
      ensures var v := Validation(codec, base.definition, request, old(storage), old(base.payment));
        result == IpnOutcome(v, base.fallbackMode) &&
        if !v.passed then
          base.payment == v.payment && storage == old(storage)
        else
          var updated := v.payment.value.(status := IpnStatus(base.configuration, Lookup(Decoded(codec, request), "status")));
          base.payment == Some(updated) && storage == old(storage)[updated.id := updated]
    {
      var ipnResult := IpnResult("fail");
      var valid := IpnValidate();
      if !valid {
        return ipnResult;
      }
      var responseData := EntriesOf(codec.jsonDecode(codec.base64Decode(ToPhpString(Lookup(request.post, "data")))));
      var status := Lookup(responseData, "status");
      var paymentStatus := GetStatusId(status);
      var newStatus := if paymentStatus != Null then ToPhpString(paymentStatus) else "payment_pending";
      var updated := base.payment.value.(status := newStatus);
      base.SetPayment(updated);
      storage := storage[updated.id := updated];
      if !Truthy(base.fallbackMode) {
        return IpnResult("success");
      }
      return ipnResult;
    }

    /** The pending page names the gateway status from the posted payload, or `pending` when nothing was posted. */
    function GetPendingContent(): (content: Value)
      ensures !Truthy(Lookup(request.post, "data")) ==> content == Arr(map["#markup" := Str("Payment as pending.")])
      ensures Truthy(Lookup(request.post, "data")) ==>
        content == Arr(map["#markup" := Str("Payment as " + ToPhpString(Lookup(Decoded(codec, request), "status")) + ".")])
    {
      var data := Lookup(request.post, "data");
      var status := if Truthy(data) then ToPhpString(Lookup(Decoded(codec, request), "status")) else "pending";
      assert "Payment as " + "pending" + "." == "Payment as pending.";
      Arr(map["#markup" := Str("Payment as " + status + ".")])
    }
  }

  /** A status the configuration maps is used as is; an unmapped one becomes `payment_pending`. */
  lemma IpnStatusMapping(configuration: map<string, Value>, gatewayStatus: string)
    ensures var statuses := EntriesOf(Lookup(configuration, "ipn_statuses"));
      (gatewayStatus in statuses && statuses[gatewayStatus].Str? ==> IpnStatus(configuration, Str(gatewayStatus)) == statuses[gatewayStatus].s) &&
      (gatewayStatus !in statuses ==> IpnStatus(configuration, Str(gatewayStatus)) == "payment_pending")
  {
  }
}
