/**
  The generic IPN (instant payment notification) check of an off-site
  payment method: a fixed list of validator names run in order, stopping
  at the first name that is not a validator or whose validator fails.
*/
module OffsiteSimple {
  import opened Php
  import opened OffsiteMethods

  /** The validators the generic method runs, in order. */
  const DefaultValidators: seq<string> := [
    "validateEmpty",
    "validateRequiredKeys",
    "validateMerchant",
    "validateSignature",
    "validateTransactionId",
    "validateAmount"
  ]

  /** A name the method can call as a validator. */
  predicate IsValidator(name: string) {
    name in DefaultValidators
  }

  /**
    What a concrete gateway supplies: the names of the posted fields, the
    required keys, the incoming signature it computes, whether it is
    configured, and PHP's loose `==` (used on amounts, merchant ids and
    signatures).
  */
  datatype Gateway = Gateway(
    merchantIdName: string,
    transactionIdName: string,
    amountName: string,
    signatureName: string,
    requiredKeys: seq<string>,
    signIn: Request -> string,
    configured: bool,
    looseEquals: (Value, Value) -> bool)

  /** Everything a validator reads besides the required keys and the current payment. */
  datatype IpnContext = IpnContext(gateway: Gateway, definition: map<string, Value>, request: Request, storage: PaymentStorage)

  /** The merchant id stored in the plugin definition's `config` under the gateway's merchant-id name. */
  function MerchantId(definition: map<string, Value>, name: string): Value {
    Lookup(EntriesOf(Lookup(definition, "config")), name)
  }

  predicate EmptyPasses(request: Request) {
    |request.post| > 0
  }

  predicate RequiredKeysPass(request: Request, requiredKeys: seq<string>) {
    forall i :: 0 <= i < |requiredKeys| ==> requiredKeys[i] in request.post
  }

  predicate MerchantPasses(ctx: IpnContext) {
    ctx.gateway.configured &&
    ctx.gateway.looseEquals(RequestGet(ctx.request, ctx.gateway.merchantIdName), MerchantId(ctx.definition, ctx.gateway.merchantIdName))
  }

  /**
    The posted and the computed signature, both upper-cased, compared with
    PHP's loose `==`: two numeric strings compare by value, so the
    comparison is not plain string equality.
  */
  predicate SignaturePasses(ctx: IpnContext) {
    ctx.gateway.looseEquals(Str(AsciiUpper(ToPhpString(RequestGet(ctx.request, ctx.gateway.signatureName)))),
                            Str(AsciiUpper(ctx.gateway.signIn(ctx.request))))
  }

  /**
    Only when the gateway's loose comparison of two strings is exact string
    equality does the signature check mean equality ignoring case.
  */
  lemma SignatureExactWhenComparisonExact(ctx: IpnContext)
    requires forall a: string, b: string :: ctx.gateway.looseEquals(Str(a), Str(b)) <==> a == b
    ensures SignaturePasses(ctx) <==>
      EqualsIgnoringCase(ToPhpString(RequestGet(ctx.request, ctx.gateway.signatureName)), ctx.gateway.signIn(ctx.request))
  {
  }

  /** The payment named by the posted transaction id, if storage has it. */
  function LoadedPayment(ctx: IpnContext): Option<Payment> {
    LoadPayment(ctx.storage, RequestGet(ctx.request, ctx.gateway.transactionIdName))
  }

  predicate AmountPasses(ctx: IpnContext, payment: Option<Payment>) {
    payment.Some? && ctx.gateway.looseEquals(payment.value.amount, RequestGet(ctx.request, ctx.gateway.amountName))
  }

  /** One validator by name. Only the transaction-id validator changes the payment, and only when it passes. */
  function RunValidator(ctx: IpnContext, requiredKeys: seq<string>, name: string, payment: Option<Payment>): (o: Outcome)
    requires IsValidator(name)
    ensures name != "validateTransactionId" ==> o.payment == payment
    ensures !o.passed ==> o.payment == payment
    ensures name == "validateTransactionId" ==> (o.passed <==> LoadedPayment(ctx).Some?)
  {
    if name == "validateEmpty" then Outcome(EmptyPasses(ctx.request), payment)
    else if name == "validateRequiredKeys" then Outcome(RequiredKeysPass(ctx.request, requiredKeys), payment)
    else if name == "validateMerchant" then Outcome(MerchantPasses(ctx), payment)
    else if name == "validateSignature" then Outcome(SignaturePasses(ctx), payment)
    else if name == "validateTransactionId" then
      (var loaded := LoadedPayment(ctx); if loaded.Some? then Outcome(true, loaded) else Outcome(false, payment))
    else Outcome(AmountPasses(ctx, payment), payment)
  }

  /** One step of the chain: a name that is not a validator fails without changing anything. */
  function Step(ctx: IpnContext, requiredKeys: seq<string>, name: string, payment: Option<Payment>): (o: Outcome)
    ensures !IsValidator(name) ==> o == Outcome(false, payment)
    ensures !o.passed ==> o.payment == payment
  {
    if IsValidator(name) then RunValidator(ctx, requiredKeys, name, payment) else Outcome(false, payment)
  }

  /** The whole chain, run from the front and stopping at the first failure. */
  function RunChain(ctx: IpnContext, requiredKeys: seq<string>, validators: seq<string>, payment: Option<Payment>): (o: Outcome)
    ensures "validateTransactionId" !in validators ==> o.payment == payment
    decreases |validators|
  {
    if |validators| == 0 then Outcome(true, payment)
    else
      var first := Step(ctx, requiredKeys, validators[0], payment);
      if !first.passed then first
      else RunChain(ctx, requiredKeys, validators[1..], first.payment)
  }

  /** Running one more validator after a prefix: it runs only when the prefix passed. */
  lemma {:induction false} RunChainSnoc(ctx: IpnContext, keys: seq<string>, vs: seq<string>, v: string, p: Option<Payment>)
    ensures RunChain(ctx, keys, vs + [v], p) ==
      (var o := RunChain(ctx, keys, vs, p); if o.passed then Step(ctx, keys, v, o.payment) else o)
    decreases |vs|
  {
    if |vs| == 0 {
      assert vs + [v] == [v];
      assert [v][1..] == [];
    } else {
      assert (vs + [v])[0] == vs[0];
      assert (vs + [v])[1..] == vs[1..] + [v];
      var first := Step(ctx, keys, vs[0], p);
      if first.passed {
        RunChainSnoc(ctx, keys, vs[1..], v, first.payment);
      }
    }
  }

  /**
    The chain passes exactly when every name in it is a validator and that
    validator passes on the payment the validators before it left.
  */
  lemma {:induction false} ChainPassesIff(ctx: IpnContext, keys: seq<string>, vs: seq<string>, p: Option<Payment>)
    ensures RunChain(ctx, keys, vs, p).passed <==>
      forall i :: 0 <= i < |vs| ==> Step(ctx, keys, vs[i], RunChain(ctx, keys, vs[..i], p).payment).passed
    decreases |vs|
  {
    if |vs| > 0 {
      var init := vs[..|vs| - 1];
      var v := vs[|vs| - 1];
      assert vs == init + [v];
      ChainPassesIff(ctx, keys, init, p);
      RunChainSnoc(ctx, keys, init, v, p);
      forall i | 0 <= i < |init|
        ensures vs[i] == init[i] && vs[..i] == init[..i]
      {
      }
      assert vs[..|vs| - 1] == init;
    }
  }

  /** After the first failure nothing else runs: what follows a failing prefix changes neither verdict nor payment. */
  lemma {:induction false} FailureStopsChain(ctx: IpnContext, keys: seq<string>, vs: seq<string>, rest: seq<string>, p: Option<Payment>)
    requires !RunChain(ctx, keys, vs, p).passed
    ensures RunChain(ctx, keys, vs + rest, p) == RunChain(ctx, keys, vs, p)
    decreases |vs|
  {
    assert |vs| > 0;
    assert (vs + rest)[0] == vs[0];
    assert (vs + rest)[1..] == vs[1..] + rest;
    var first := Step(ctx, keys, vs[0], p);
    if first.passed {
      FailureStopsChain(ctx, keys, vs[1..], rest, first.payment);
    }
  }

  /**
    The last three default validators: the signature, then the transaction
    id (which loads the payment), then the amount of the loaded payment.
  */
  lemma DefaultTail(ctx: IpnContext, keys: seq<string>, p: Option<Payment>)
    ensures var o := RunChain(ctx, keys, DefaultValidators[3..], p);
      (o.passed <==> SignaturePasses(ctx) && LoadedPayment(ctx).Some? && AmountPasses(ctx, LoadedPayment(ctx))) &&
      (o.passed ==> o.payment == LoadedPayment(ctx))
  {
    var v3 := DefaultValidators[3..];
    var v4 := v3[1..];
    var v5 := v4[1..];
    assert v3[0] == "validateSignature" && v4[0] == "validateTransactionId";
    assert v5 == ["validateAmount"] && v5[1..] == [];
    var loaded := LoadedPayment(ctx);
    var tail := RunChain(ctx, keys, v4, p);
    if loaded.Some? {
      assert tail == RunChain(ctx, keys, v5, loaded);
      assert Step(ctx, keys, "validateAmount", loaded) == Outcome(AmountPasses(ctx, loaded), loaded);
      assert RunChain(ctx, keys, [], loaded) == Outcome(true, loaded);
    } else {
      assert tail == Outcome(false, p);
    }
    assert RunChain(ctx, keys, v3, p) == if SignaturePasses(ctx) then tail else Outcome(false, p);
  }

  /** The default validators after the emptiness check. */
  lemma DefaultMiddle(ctx: IpnContext, keys: seq<string>, p: Option<Payment>)
    ensures var o := RunChain(ctx, keys, DefaultValidators[1..], p);
      (o.passed <==>
        RequiredKeysPass(ctx.request, keys) && MerchantPasses(ctx) && SignaturePasses(ctx) &&
        LoadedPayment(ctx).Some? && AmountPasses(ctx, LoadedPayment(ctx))) &&
      (o.passed ==> o.payment == LoadedPayment(ctx))
  {
    var vs := DefaultValidators;
    DefaultTail(ctx, keys, p);
    assert vs[1..][0] == "validateRequiredKeys" && vs[2..][0] == "validateMerchant";
    assert vs[2..][1..] == vs[3..] && vs[1..][1..] == vs[2..];
    assert RunChain(ctx, keys, vs[2..], p) == if MerchantPasses(ctx) then RunChain(ctx, keys, vs[3..], p) else Outcome(false, p);
    assert RunChain(ctx, keys, vs[1..], p) ==
      if RequiredKeysPass(ctx.request, keys) then RunChain(ctx, keys, vs[2..], p) else Outcome(false, p);
  }

  /**
    With the default validators and the gateway's required keys, the check
    passes exactly when the POST is non-empty, holds every required key,
    the method is configured for the posted merchant, the upper-cased
    signatures are loosely equal, the posted transaction id names a stored
    payment and its amount matches; the payment is then the one loaded.
  */
  lemma DefaultChain(ctx: IpnContext, p: Option<Payment>)
    ensures var o := RunChain(ctx, ctx.gateway.requiredKeys, DefaultValidators, p);
      (o.passed <==>
        EmptyPasses(ctx.request) && RequiredKeysPass(ctx.request, ctx.gateway.requiredKeys) &&
        MerchantPasses(ctx) && SignaturePasses(ctx) &&
        LoadedPayment(ctx).Some? && AmountPasses(ctx, LoadedPayment(ctx))) &&
      (o.passed ==> o.payment == LoadedPayment(ctx))
  {
    var keys := ctx.gateway.requiredKeys;
    var vs := DefaultValidators;
    DefaultMiddle(ctx, keys, p);
    assert vs[0] == "validateEmpty" && vs[1..][0] == "validateRequiredKeys";
    assert RunChain(ctx, keys, vs, p) == if EmptyPasses(ctx.request) then RunChain(ctx, keys, vs[1..], p) else Outcome(false, p);
  }

  /**
    A concrete off-site method built on the generic check. The validator
    list is what `getValidators()` returns: `DefaultValidators` unless a
    subclass supplies its own.
  */
  class SimpleMethod {
    const base: OffsiteMethod
    const gateway: Gateway
    const request: Request
    const storage: PaymentStorage
    const validators: seq<string>
    var ipnRequiredKeys: seq<string>

    constructor (base: OffsiteMethod, gateway: Gateway, request: Request, storage: PaymentStorage, validators: seq<string>)
      ensures this.base == base && this.gateway == gateway && this.request == request
      ensures this.storage == storage && this.validators == validators
      ensures ipnRequiredKeys == []
    {
      this.base := base;
      this.gateway := gateway;
      this.request := request;
      this.storage := storage;
      this.validators := validators;
      ipnRequiredKeys := [];
    }

    function Context(): IpnContext {
      IpnContext(gateway, base.definition, request, storage)
    }

    function GetIpnRequiredKeys(): seq<string>
      reads this
    {
      ipnRequiredKeys
    }

    /** Replaces the required-key list. */
    method SetIpnRequiredKeys(keys: seq<string>)
      modifies this`ipnRequiredKeys
      ensures GetIpnRequiredKeys() == keys
    {
      ipnRequiredKeys := keys;
    }

    /** Appends exactly one key at the end. */
    method AddIpnRequiredKey(key: string)
      modifies this`ipnRequiredKeys
      ensures GetIpnRequiredKeys() == old(GetIpnRequiredKeys()) + [key]
    {
      ipnRequiredKeys := ipnRequiredKeys + [key];
    }

    /** Fails exactly when the POST body has no keys. */
    method ValidateEmpty() returns (ok: bool)
      ensures ok <==> request.post.Keys != {}
      ensures ok == EmptyPasses(request)
    {
      ok := |request.post| > 0;
      if !ok {
        assert request.post == map[];
      } else {
        var k :| k in request.post;
      }
    }

    /** Fails exactly when some required key is missing from the POST keys. */
    method ValidateRequiredKeys() returns (ok: bool)
      ensures ok <==> forall k :: k in ipnRequiredKeys ==> k in request.post
      ensures ok == RequiredKeysPass(request, ipnRequiredKeys)
    {
      var i := 0;
      while i < |ipnRequiredKeys|
        invariant 0 <= i <= |ipnRequiredKeys|
        invariant forall j :: 0 <= j < i ==> ipnRequiredKeys[j] in request.post
      {
        if ipnRequiredKeys[i] !in request.post {
          return false;
        }
        i := i + 1;
      }
      return true;
    }

    /** Fails when the method is not configured or the posted merchant id differs from the configured one. */
    method ValidateMerchant() returns (ok: bool)
      ensures !gateway.configured ==> !ok
      ensures ok == MerchantPasses(Context())
    {
      var requestMerchant := RequestGet(request, gateway.merchantIdName);
      ok := gateway.configured && gateway.looseEquals(requestMerchant, MerchantId(base.definition, gateway.merchantIdName));
    }

    /** Passes exactly when the upper-cased posted and incoming signatures are loosely equal. */
    method ValidateSignature() returns (ok: bool)
      ensures ok <==> gateway.looseEquals(Str(AsciiUpper(ToPhpString(RequestGet(request, gateway.signatureName)))),
                                          Str(AsciiUpper(gateway.signIn(request))))
      ensures ok == SignaturePasses(Context())
    {
      var requestSignature := RequestGet(request, gateway.signatureName);
      var sign := gateway.signIn(request);
      ok := gateway.looseEquals(Str(AsciiUpper(ToPhpString(requestSignature))), Str(AsciiUpper(sign)));
    }

    /** Passes exactly when storage holds the posted transaction id; only then is the payment set. */
    method ValidateTransactionId() returns (ok: bool)
      modifies base`payment
      ensures ok <==> LoadedPayment(Context()).Some?
      ensures base.payment == if ok then LoadedPayment(Context()) else old(base.payment)
    {
      var loaded := LoadPayment(storage, RequestGet(request, gateway.transactionIdName));
      if loaded.None? {
        return false;
      }
      base.SetPayment(loaded.value);
      return true;
    }

    /** Passes exactly when there is a current payment whose amount equals the posted amount. */
    method ValidateAmount() returns (ok: bool)
      ensures ok <==> base.payment.Some? && gateway.looseEquals(base.payment.value.amount, RequestGet(request, gateway.amountName))
    {
      var requestAmount := RequestGet(request, gateway.amountName);
      if base.payment.None? {
        return false;
      }
      ok := gateway.looseEquals(base.payment.value.amount, requestAmount);
    }

    /** Calls the validator with the given name. */
    method CallValidator(name: string) returns (ok: bool)
      requires IsValidator(name)
      modifies base`payment
      ensures var o := RunValidator(Context(), ipnRequiredKeys, name, old(base.payment));
        ok == o.passed && base.payment == o.payment
    {
      if name == "validateEmpty" {
        ok := ValidateEmpty();
      } else if name == "validateRequiredKeys" {
        ok := ValidateRequiredKeys();
      } else if name == "validateMerchant" {
        ok := ValidateMerchant();
      } else if name == "validateSignature" {
        ok := ValidateSignature();
      } else if name == "validateTransactionId" {
        ok := ValidateTransactionId();
      } else {
        ok := ValidateAmount();
      }
    }

    /**
      `ipnValidate()`: resets the required keys to the gateway's, then runs
      the validators in order and returns at the first missing or failing
      one. The verdict and the payment are those of `RunChain`.
    */
    method IpnValidate() returns (ok: bool)
      modifies this`ipnRequiredKeys, base`payment
      ensures ipnRequiredKeys == gateway.requiredKeys
      ensures var o := RunChain(Context(), gateway.requiredKeys, validators, old(base.payment));
        ok == o.passed && base.payment == o.payment
    {
      SetIpnRequiredKeys(gateway.requiredKeys);
      ghost var p0 := base.payment;
      var i := 0;
      while i < |validators|
        invariant 0 <= i <= |validators|
        invariant ipnRequiredKeys == gateway.requiredKeys
        invariant RunChain(Context(), gateway.requiredKeys, validators[..i], p0) == Outcome(true, base.payment)
      {
        var name := validators[i];
        assert validators[..i + 1] == validators[..i] + [name];
        RunChainSnoc(Context(), gateway.requiredKeys, validators[..i], name, p0);
        if !IsValidator(name) {
          FailureStopsChain(Context(), gateway.requiredKeys, validators[..i + 1], validators[i + 1..], p0);
          assert validators[..i + 1] + validators[i + 1..] == validators;
          return false;
        }
        var passed := CallValidator(name);
        if !passed {
          FailureStopsChain(Context(), gateway.requiredKeys, validators[..i + 1], validators[i + 1..], p0);
          assert validators[..i + 1] + validators[i + 1..] == validators;
          return false;
        }
        i := i + 1;
      }
      assert validators[..i] == validators;
      return true;
    }
  }
}
