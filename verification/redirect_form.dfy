/**
  The page that sends the customer on to the gateway: the payment
  method's own form, wrapped, with a message and a submit button, and with
  Drupal's form bookkeeping fields stripped before rendering.
*/
module RedirectPaymentForm {
  import opened Php
  import opened OffsiteMethods
  import LiqpayMethod

  const AutosubmitLibrary: string := "payment_offsite_api/autosubmit"
  const WrapperPrefix: string := "<div class=\"payment-offsite-redirect-form\">"
  const WrapperSuffix: string := "</div>"
  const CleanupCallback: string := "Drupal\\payment_offsite_api\\Form\\OffsiteRedirectPaymentForm::cleanupExtraFormItems"

  /** The Drupal bookkeeping fields the gateway must not receive. */
  const ExtraFormItems: set<string> := {"form_token", "form_build_id", "form_id"}

  const Message: Value :=
    Arr(map["#type" := Str("markup"),
            "#markup" := Str("<p>You will be redirected to the off-site payment server to authorize the payment.</p>")])
  const Submit: Value := Arr(map["#type" := Str("submit"), "#value" := Str("Pressed to payment gateway")])

  /**
    `$form['#attached']['library'][] = $library`: the library is appended
    to the libraries already attached, which are kept in order, and every
    other attachment (settings, headers) stays as it was.
  */
  function AttachLibrary(form: map<string, Value>, library: string): (r: map<string, Value>)
    ensures r.Keys == form.Keys + {"#attached"}
    ensures forall k :: k in form && k != "#attached" ==> r[k] == form[k]
    ensures var libraries := Lookup(EntriesOf(r["#attached"]), "library");
      libraries.List? && |libraries.items| > 0 && libraries.items[|libraries.items| - 1] == Str(library)
    ensures var before := Lookup(EntriesOf(Lookup(form, "#attached")), "library");
      Lookup(EntriesOf(r["#attached"]), "library").items[..|Lookup(EntriesOf(r["#attached"]), "library").items| - 1] ==
        if before.List? then before.items else []
    ensures var before := EntriesOf(Lookup(form, "#attached"));
      r["#attached"].Arr? && r["#attached"].entries.Keys == before.Keys + {"library"} &&
      forall k :: k in before && k != "library" ==> r["#attached"].entries[k] == before[k]
  {
    var attached := EntriesOf(Lookup(form, "#attached"));
    var libraries := Lookup(attached, "library");
    var items := if libraries.List? then libraries.items else [];
    form["#attached" := Arr(attached["library" := List(items + [Str(library)])])]
  }

  /** The keys the redirect form always sets itself. */
  const OwnKeys: set<string> := {"#prefix", "#suffix", "#pre_render", "message", "submit"}

  /** The wrapper, the cleanup pre-render callback, the message and the button, over whatever the form had there. */
  function Decorate(form: map<string, Value>): (r: map<string, Value>)
    ensures r.Keys == form.Keys + OwnKeys
    ensures r["#prefix"] == Str(WrapperPrefix) && r["#suffix"] == Str(WrapperSuffix)
    ensures r["#pre_render"] == List([Str(CleanupCallback)])
    ensures r["message"] == Message && r["submit"] == Submit
    ensures forall k :: k in form && k !in OwnKeys ==> r[k] == form[k]
  {
    form["#prefix" := Str(WrapperPrefix)]["#suffix" := Str(WrapperSuffix)]["#pre_render" := List([Str(CleanupCallback)])]
      ["message" := Message]["submit" := Submit]
  }

  /** The redirect form built around the payment method's form. */
  function BuildForm(paymentForm: map<string, Value>, autoSubmit: Value): map<string, Value> {
    Decorate(if Truthy(autoSubmit) then AttachLibrary(paymentForm, AutosubmitLibrary) else paymentForm)
  }

  /**
    The autosubmit library is attached exactly when the method asks for
    auto-submission; the wrapper, the cleanup pre-render callback, the
    message and the button are always there, whatever the method's form
    had under those keys; every other key of the method's form is kept.
  */
  lemma BuildFormLayout(paymentForm: map<string, Value>, autoSubmit: Value)
    ensures var form := BuildForm(paymentForm, autoSubmit);
      form.Keys == paymentForm.Keys + OwnKeys + (if Truthy(autoSubmit) then {"#attached"} else {}) &&
      form["#prefix"] == Str(WrapperPrefix) && form["#suffix"] == Str(WrapperSuffix) &&
      form["#pre_render"] == List([Str(CleanupCallback)]) &&
      form["message"] == Message && form["submit"] == Submit &&
      (forall k :: k in paymentForm && k !in OwnKeys && k != "#attached" ==> form[k] == paymentForm[k])
  {
  }

  /** Libraries attached to the method's form are left alone when auto-submission is off. */
  lemma NoAutosubmitKeepsAttachments(paymentForm: map<string, Value>, autoSubmit: Value)
    requires !Truthy(autoSubmit) && "#attached" in paymentForm
    ensures BuildForm(paymentForm, autoSubmit)["#attached"] == paymentForm["#attached"]
  {
  }

  /** With auto-submission on, the autosubmit library is the last attached library. */
  lemma AutosubmitAttached(paymentForm: map<string, Value>, autoSubmit: Value)
    requires Truthy(autoSubmit)
    ensures var libraries := Lookup(EntriesOf(BuildForm(paymentForm, autoSubmit)["#attached"]), "library");
      libraries.List? && |libraries.items| > 0 && libraries.items[|libraries.items| - 1] == Str(AutosubmitLibrary)
  {
    var attached := AttachLibrary(paymentForm, AutosubmitLibrary);
    assert BuildForm(paymentForm, autoSubmit)["#attached"] == attached["#attached"];
  }

  /** The form without `form_token`, `form_build_id` and `form_id`. */
  function CleanupExtraFormItems(form: map<string, Value>): (r: map<string, Value>)
    ensures r.Keys == form.Keys - ExtraFormItems
    ensures forall k :: k in r ==> r[k] == form[k]
  {
    form - ExtraFormItems
  }

  /** Cleaning a cleaned form changes nothing. */
  lemma CleanupIdempotent(form: map<string, Value>)
    ensures CleanupExtraFormItems(CleanupExtraFormItems(form)) == CleanupExtraFormItems(form)
  {
    var once := CleanupExtraFormItems(form);
    assert CleanupExtraFormItems(once).Keys == once.Keys;
  }

  /**
    A field of the method's form reaches the gateway unchanged unless the
    redirect form uses its key itself or it is a bookkeeping field.
  */
  lemma CleanedPageKeeps(paymentForm: map<string, Value>, autoSubmit: Value, k: string)
    requires k in paymentForm && k !in OwnKeys && k !in ExtraFormItems && k != "#attached"
    ensures var page := CleanupExtraFormItems(BuildForm(paymentForm, autoSubmit));
      k in page && page[k] == paymentForm[k]
  {
    BuildFormLayout(paymentForm, autoSubmit);
  }

  /**
    The Liqpay redirect page, once cleaned for rendering, still posts to
    the gateway's action URL...
  */
  lemma LiqpayActionSurvivesCleanup(actionUrl: Value, formData: map<string, Value>, autoSubmit: Value)
    ensures var page := CleanupExtraFormItems(BuildForm(LiqpayMethod.RedirectForm(actionUrl, formData), autoSubmit));
      "#action" in page && page["#action"] == actionUrl
  {
    CleanedPageKeeps(LiqpayMethod.RedirectForm(actionUrl, formData), autoSubmit, "#action");
  }

  /** ... and still carries the signed payload as hidden `data` and `signature` fields. */
  lemma LiqpayPayloadSurvivesCleanup(actionUrl: Value, formData: map<string, Value>, autoSubmit: Value, field: string)
    requires field in formData && (field == "data" || field == "signature")
    ensures var page := CleanupExtraFormItems(BuildForm(LiqpayMethod.RedirectForm(actionUrl, formData), autoSubmit));
      field in page && page[field] == HiddenElement(formData[field])
  {
    var redirect := LiqpayMethod.RedirectForm(actionUrl, formData);
    assert field != "#action";
    CleanedPageKeeps(redirect, autoSubmit, field);
  }
}
