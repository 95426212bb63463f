/**
  The two route access checks of the off-site payment API: which external
  statuses of a payment method may be requested, and who may open the
  redirect page of a payment.
*/
module AccessChecks {
  import opened Php
  import opened OffsiteMethods
  import opened LiqpayMethod

  datatype AccessKind = Allowed | Neutral | Forbidden

  /** An access result with its cache max-age; `Permanent` is the cache's "never expires". */
  datatype AccessResult = AccessResult(kind: AccessKind, maxAge: int)

  const Permanent: int := -1

  /** `AccessResult::allowedIf($condition)->setCacheMaxAge(0)`. */
  function AllowedIfUncached(condition: bool): (r: AccessResult)
    ensures r.maxAge == 0
    ensures r.kind == Allowed <==> condition
    ensures r.kind != Forbidden
  {
    AccessResult(if condition then Allowed else Neutral, 0)
  }

  /** The statuses the external route accepts: `ipn`, then the method's result pages. */
  function ExternalStatuses(resultPages: map<string, Value>): map<string, Value> {
    Union(map["ipn" := Bool(false)], resultPages)
  }

  /**
    Access to the external route of a payment method configuration: a
    method that is not off-site is forbidden outright (and the answer may be
    cached); otherwise the status must be `ipn` or one of the method's
    result pages, and the answer is not cached.
  */
  function ExternalAccess(isOffsite: bool, resultPages: map<string, Value>, externalStatus: string): (r: AccessResult)
    ensures r.kind == Allowed <==> isOffsite && (externalStatus == "ipn" || externalStatus in resultPages)
    ensures r.kind == Forbidden <==> !isOffsite
    ensures r.maxAge == 0 <==> isOffsite
  {
    if !isOffsite then AccessResult(Forbidden, Permanent)
    else AllowedIfUncached(externalStatus in ExternalStatuses(resultPages))
  }

  /** For an off-site method, exactly `ipn` and the result pages are reachable. */
  lemma ExternalAccessAllowed(resultPages: map<string, Value>, externalStatus: string)
    ensures ExternalAccess(true, resultPages, externalStatus).kind == Allowed <==>
      externalStatus == "ipn" || externalStatus in resultPages
    ensures ExternalAccess(true, resultPages, externalStatus).kind != Forbidden
    ensures ExternalAccess(true, resultPages, externalStatus).maxAge == 0
  {
  }

  /** A method that is not off-site never reaches any status, `ipn` included. */
  lemma NonOffsiteForbidden(resultPages: map<string, Value>, externalStatus: string)
    ensures ExternalAccess(false, resultPages, externalStatus) == AccessResult(Forbidden, Permanent)
  {
  }

  /**
    Only the keys of the result pages matter for access: the flags (which
    decide fallback IPN runs in the controller) do not, and a page keyed
    `ipn` cannot take the IPN away.
  */
  lemma ExternalAccessIgnoresFlags(pages1: map<string, Value>, pages2: map<string, Value>, externalStatus: string)
    requires pages1.Keys == pages2.Keys
    ensures ExternalAccess(true, pages1, externalStatus) == ExternalAccess(true, pages2, externalStatus)
  {
  }

  /** Liqpay's `pending` page is reachable although its flag is FALSE; no other page but `ipn` is. */
  lemma LiqpayExternalStatuses(m: LiqpayMethod, externalStatus: string)
    ensures ExternalAccess(true, m.GetResultPages(), externalStatus).kind == Allowed <==>
      externalStatus == "ipn" || externalStatus == "pending"
  {
  }

  /**
    Access to the redirect page of a payment: only its owner, only for a
    payment made with an off-site method, and only while it is still
    pending; never cached.
  */
  function RedirectAccess(accountId: int, payment: Payment): (r: AccessResult)
    ensures r.kind == Allowed <==> accountId == payment.ownerId && payment.offsiteMethod && payment.status == "payment_pending"
    ensures r.kind != Forbidden && r.maxAge == 0
  {
    AllowedIfUncached(accountId == payment.ownerId && payment.offsiteMethod && payment.status == "payment_pending")
  }

  /** Every condition is needed: another account, an on-site method or a settled payment is refused. */
  lemma RedirectAccessAllowed(accountId: int, payment: Payment)
    ensures RedirectAccess(accountId, payment).kind == Allowed <==>
      accountId == payment.ownerId && payment.offsiteMethod && payment.status == "payment_pending"
    ensures RedirectAccess(accountId, payment).kind != Forbidden && RedirectAccess(accountId, payment).maxAge == 0
  {
  }

  /**
    Once a Liqpay IPN has moved a payment to a status configured for the
    gateway's report, the owner can no longer reopen its redirect page; a
    report with no configured status leaves the page open.
  */
  lemma SettledPaymentClosesRedirect(accountId: int, payment: Payment, configuration: map<string, Value>, gatewayStatus: Value)
    requires accountId == payment.ownerId && payment.offsiteMethod
    ensures var status := IpnStatus(configuration, gatewayStatus);
      RedirectAccess(accountId, payment.(status := status)).kind == Allowed <==> status == "payment_pending"
  {
  }
}
