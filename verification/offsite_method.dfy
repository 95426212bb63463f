/**
  The base of every off-site payment method: the request it answers, the
  payment it works on, the data of the form that sends the customer to the
  gateway, and the verbose, auto-submit and fallback-mode flags.
*/
module OffsiteMethods {
  import opened Php

  /** A payment record, as loaded from payment storage. */
  datatype Payment = Payment(
    id: string,
    ownerId: int,
    amount: Value,
    currencyCode: string,
    status: string,         // the plugin id of the payment status, e.g. "payment_pending"
    offsiteMethod: bool)    // whether its payment method is an off-site method

  /** Payment storage: a partial map from payment id to payment. */
  type PaymentStorage = map<string, Payment>

  /** `load($id)`: the payment whose id is the key the value reads as; nothing for an unknown id or an array. */
  function LoadPayment(storage: PaymentStorage, id: Value): (r: Option<Payment>)
    ensures r.Some? <==> ArrayKey(id).Some? && ArrayKey(id).value in storage
    ensures r.Some? ==> r.value == storage[ArrayKey(id).value]
  {
    match ArrayKey(id)
    case None => None
    case Some(k) => if k in storage then Some(storage[k]) else None
  }

  /** Whether a validation step passed, and the method's current payment afterwards. */
  datatype Outcome = Outcome(passed: bool, payment: Option<Payment>)

  /** An HTTP request: route attributes, the query string and the POST body. */
  datatype Request = Request(attributes: map<string, Value>, query: map<string, Value>, post: map<string, Value>)

  /** `$request->get($key)`: the first of attributes, query and POST body that holds the key; NULL when none does. */
  function RequestGet(r: Request, key: string): (v: Value)
    ensures key !in r.attributes && key !in r.query && key !in r.post ==> v == Null
    ensures key in r.attributes ==> v == r.attributes[key]
    ensures key !in r.attributes && key in r.query ==> v == r.query[key]
    ensures key !in r.attributes && key !in r.query && key in r.post ==> v == r.post[key]
  {
    if key in r.attributes then r.attributes[key]
    else if key in r.query then r.query[key]
    else Lookup(r.post, key)
  }

  /** One hidden form element carrying a value. */
  function HiddenElement(v: Value): Value {
    Arr(map["#type" := Str("hidden"), "#value" := v])
  }

  /** The value a hidden form element carries (NULL for anything else). */
  function HiddenValue(element: Value): Value {
    if element.Arr? && Lookup(element.entries, "#type") == Str("hidden") then Lookup(element.entries, "#value") else Null
  }

  /** The form built from the payment form data: one hidden element per entry, and nothing else. */
  function GenerateForm(formData: map<string, Value>): (form: map<string, Value>)
    ensures form.Keys == formData.Keys
    ensures forall k :: k in form ==> form[k] == HiddenElement(formData[k])
  {
    map k | k in formData :: HiddenElement(formData[k])
  }

  /** Reading the hidden values back out of the generated form gives the form data. */
  lemma GenerateFormRoundTrip(formData: map<string, Value>)
    ensures (map k | k in GenerateForm(formData) :: HiddenValue(GenerateForm(formData)[k])) == formData
  {
    var form := GenerateForm(formData);
    var back := map k | k in form :: HiddenValue(form[k]);
    forall k | k in formData
      ensures k in back && back[k] == formData[k]
    {
      assert form[k] == HiddenElement(formData[k]);
    }
  }

  /** The outcome of executing a payment: a redirect to a route with its parameters. */
  datatype ExecutionResult = RedirectToRoute(route: string, parameters: map<string, string>)

  /**
    The state every off-site payment method carries. Concrete methods hold
    one of these as their `base` (the model's stand-in for inheritance).
  */
  class OffsiteMethod {
    const definition: map<string, Value>
    const configuration: map<string, Value>
    var paymentFormData: map<string, Value>
    var verbose: Value
    var autoSubmit: Value
    var fallbackMode: Value
    var payment: Option<Payment>

    /**
      A new method instance: the supplied configuration over the defaults,
      verbose and auto-submit read from the plugin definition, fallback mode
      unset, no form data and no payment yet.
    */
    constructor (configuration: map<string, Value>, definition: map<string, Value>, defaults: map<string, Value>)
      ensures this.definition == definition
      ensures this.configuration == Union(configuration, defaults)
      ensures verbose == Lookup(definition, "verbose") && autoSubmit == Lookup(definition, "auto_submit")
      ensures fallbackMode == Null && !Truthy(fallbackMode)
      ensures paymentFormData == map[] && payment == None
    {
      this.definition := definition;
      this.configuration := Union(configuration, defaults);
      verbose := Lookup(definition, "verbose");
      autoSubmit := Lookup(definition, "auto_submit");
      fallbackMode := Null;
      paymentFormData := map[];
      payment := None;
    }

    function GetPaymentFormData(): map<string, Value>
      reads this
    {
      paymentFormData
    }

    /** Replaces the whole form data map. */
    method SetPaymentFormData(formData: map<string, Value>)
      modifies this`paymentFormData
      ensures GetPaymentFormData() == formData
    {
      paymentFormData := formData;
    }

    /** Sets or overwrites one entry; every other entry is kept. */
    method AddPaymentFormData(key: string, value: Value)
      modifies this`paymentFormData
      ensures paymentFormData == old(paymentFormData)[key := value]
      ensures paymentFormData.Keys == old(paymentFormData.Keys) + {key}
      ensures paymentFormData[key] == value
      ensures forall k :: k in old(paymentFormData) && k != key ==> paymentFormData[k] == old(paymentFormData[k])
    {
      paymentFormData := paymentFormData[key := value];
    }

    function GetAutoSubmit(): Value
      reads this
    {
      autoSubmit
    }

    /** The same flag as `GetAutoSubmit`. */
    function IsAutoSubmit(): (r: Value)
      reads this
      ensures r == GetAutoSubmit()
    {
      autoSubmit
    }

    method SetAutoSubmit(v: Value)
      modifies this`autoSubmit
      ensures GetAutoSubmit() == v && IsAutoSubmit() == v
    {
      autoSubmit := v;
    }

    function GetVerbose(): Value
      reads this
    {
      verbose
    }

    /** The same flag as `GetVerbose`. */
    function IsVerbose(): (r: Value)
      reads this
      ensures r == GetVerbose()
    {
      verbose
    }

    method SetVerbose(v: Value)
      modifies this`verbose
      ensures GetVerbose() == v && IsVerbose() == v
    {
      verbose := v;
    }

    function GetFallbackMode(): Value
      reads this
    {
      fallbackMode
    }

    /** The same flag as `GetFallbackMode`. */
    function IsFallbackMode(): (r: Value)
      reads this
      ensures r == GetFallbackMode()
    {
      fallbackMode
    }

    method SetFallbackMode(v: Value)
      modifies this`fallbackMode
      ensures GetFallbackMode() == v && IsFallbackMode() == v
    {
      fallbackMode := v;
    }

    /** `setPayment($payment)`, inherited from the payment method base. */
    method SetPayment(p: Payment)
      modifies this`payment
      ensures payment == Some(p)
    {
      payment := Some(p);
    }

    /** The hidden elements of the current payment form data. */
    function GenerateFormFromData(): (form: map<string, Value>)
      reads this
      ensures form.Keys == paymentFormData.Keys
    {
      GenerateForm(paymentFormData)
    }

    /** Executing the payment always redirects to the off-site redirect route for the current payment. */
    function GetPaymentExecutionResult(): (r: ExecutionResult)
      reads this
      requires payment.Some?
      ensures r.route == "payment.offsite.redirect"
      ensures r.parameters == map["payment" := payment.value.id]
    {
      RedirectToRoute("payment.offsite.redirect", map["payment" := payment.value.id])
    }
  }
}
