# Off-site payments, order items and form helpers of a Drupal 8 shop

This project models the core of a Drupal 8 site's custom payment and
content code in Dafny, and proves what that code promises:

- **Order items** (Commerce): quantity, unit price, adjustments, the total
  price kept in step with them, and the item's data bag.
- **Off-site payment API**: the base off-site payment method (payment form
  data, the verbose, auto-submit and fallback-mode flags, the hidden
  redirect form), the generic "simple" method with its chain of IPN
  validators, the base off-site method configuration (IPN status mapping
  and flags), the controller that answers the gateway and the customer,
  the two access checks, the redirect payment form, and the deriver that
  turns each configuration entity into a payment method plugin.
- **Liqpay**: the method (signed payment form, IPN validation and
  execution, result pages) and its configuration (defaults, getters,
  setters, form submission).
- **Taxonomy menu links**: whitelisted overrides of the link definition.
- **AJAX entity forms**: the submit handler that swaps in a fresh entity
  and the AJAX callback that builds the command list.
- **Order number generators**: the plugin manager's definition check.

PHP values are one datatype, `Php.Value` (NULL, booleans, integers,
strings, associative arrays and lists), with PHP's `empty()`, truthiness,
array `+`, `trim`, `explode`, upper-casing and `==` against a string
literal written out. Objects whose fields PHP updates in place are Dafny
classes with `modifies` clauses; subclassing is modelled by composition
(a Liqpay method holds its off-site base as `base`). Services the code
calls but does not own — Liqpay's base64, JSON and SHA-1 codec, price
arithmetic, a gateway's signature and loose comparisons, storage, the
renderer, translation, tokens and the referer — are parameters or
function-valued fields.

## Model

| member | source | states |
|---|---|---|
| Php.Union | sites/dev.x.devshop.odnodumci.com/modules/payment_offsite_api/src/Plugin/Payment/MethodConfiguration/PaymentMethodConfigurationBaseOffsite.php:53 | PHP array `+`: all keys of both; the left operand wins, the right only fills missing keys |
| Php.UnionAssociative | sites/dev.x.devshop.odnodumci.com/modules/payment_offsite_api/src/Plugin/Payment/Method/PaymentMethodBaseOffsiteDeriver.php:70-74 | chained array unions group either way, so the deriver's merge order is well defined |
| Php.LooseEqualsLiteralOnStrings | sites/dev.x.devshop.odnodumci.com/modules/payment_offsite_api/src/Controller/PaymentOffsiteController.php:65 | for a string value, PHP 7 `==` against a plain literal is exact string equality |
| Php.Trim | sites/dev.x.devshop.odnodumci.com/modules/liqpay_payment/src/Plugin/Payment/MethodConfiguration/Liqpay.php:190 | `trim` removes exactly the whitespace at both ends: the result is a slice of the input, everything cut off is whitespace and its own ends are not |
| Php.TrimIdempotent | sites/dev.x.devshop.odnodumci.com/modules/liqpay_payment/src/Plugin/Payment/MethodConfiguration/Liqpay.php:190 | trimming twice equals trimming once |
| Php.Explode | sites/dev.x.devshop.odnodumci.com/modules/payment_offsite_api/src/Plugin/Payment/Method/PaymentMethodBaseOffsiteOperationsProvider.php:20 | `explode` returns at least one part and no part holds the separator |
| Php.ExplodeJoined | sites/dev.x.devshop.odnodumci.com/modules/payment_offsite_api/src/Plugin/Payment/Method/PaymentMethodBaseOffsiteOperationsProvider.php:20 | splitting `a:b` with separator-free parts gives back exactly `[a, b]` |
| Php.AsciiUpper | sites/dev.x.devshop.odnodumci.com/modules/payment_offsite_api/src/Plugin/Payment/Method/PaymentMethodOffsiteSimple.php:286 | upper-casing keeps the length and maps each character independently |
| Php.EqualsIgnoringCaseProperties | sites/dev.x.devshop.odnodumci.com/modules/payment_offsite_api/src/Plugin/Payment/Method/PaymentMethodOffsiteSimple.php:286 | the upper-cased comparison is reflexive and symmetric and ignores a prior upper-casing |
| OrderItems.AddedAmounts | modules/contrib/commerce/modules/order/src/Entity/OrderItem.php:202-212 | at most one amount per adjustment |
| OrderItems.AddedAmountsAppend | modules/contrib/commerce/modules/order/src/Entity/OrderItem.php:202-212 | the amounts to add distribute over concatenated adjustment lists |
| OrderItems.AddedAmountsAreNotIncluded | modules/contrib/commerce/modules/order/src/Entity/OrderItem.php:202-212 | a price is added iff some not-included adjustment carries it |
| OrderItems.IncludedAdjustmentAddsNothing | modules/contrib/commerce/modules/order/src/Entity/OrderItem.php:202-212 | an included adjustment anywhere in the list does not change the adjusted unit price |
| OrderItems.NothingToAddKeepsUnitPrice | modules/contrib/commerce/modules/order/src/Entity/OrderItem.php:202-212 | with only included adjustments, the adjusted unit price is the unit price |
| OrderItems.AdjustedTotalPrice | modules/contrib/commerce/modules/order/src/Entity/OrderItem.php:257-264 | present iff a unit price is; then the rounded adjusted unit price times the quantity |
| OrderItems.AdjustedTotalWithoutAdjustments | modules/contrib/commerce/modules/order/src/Entity/OrderItem.php:257-264 | without adjustments to add, the adjusted total equals the plain line total |
| OrderItems.DataValue | modules/contrib/commerce/modules/order/src/Entity/OrderItem.php:269-275 | the stored value, or the default when the key is missing or NULL |
| OrderItems.DataRoundTrip | modules/contrib/commerce/modules/order/src/Entity/OrderItem.php:269-283 | a value set under a key reads back (NULL reads as the default); other keys read as before |
| OrderItems.OrderItem.constructor | modules/contrib/commerce/modules/order/src/Entity/OrderItem.php:356-362 | a new item has quantity 1, no prices, no adjustments, no data, and its total in step |
| OrderItems.OrderItem.Load | modules/contrib/commerce/modules/order/src/Entity/OrderItem.php:311-317 | an item loaded from storage holds exactly the stored fields |
| OrderItems.OrderItem.RecalculateTotalPrice | modules/contrib/commerce/modules/order/src/Entity/OrderItem.php:311-317 | with a unit price the total becomes the rounded unit price times the quantity; without one it is left alone |
| OrderItems.OrderItem.SetQuantity | modules/contrib/commerce/modules/order/src/Entity/OrderItem.php:167-171 | stores the quantity and recomputes the total from it |
| OrderItems.OrderItem.SetUnitPrice | modules/contrib/commerce/modules/order/src/Entity/OrderItem.php:185-190 | stores the price and the override flag, FALSE by default, and recomputes the total |
| OrderItems.OrderItem.PreSave | modules/contrib/commerce/modules/order/src/Entity/OrderItem.php:303-306 | every saved item has its total in step with unit price and quantity |
| OrderItems.OrderItem.SetAdjustments | modules/contrib/commerce/modules/order/src/Entity/OrderItem.php:224-227 | replaces the adjustment list and leaves the total price untouched |
| OrderItems.OrderItem.AddAdjustment | modules/contrib/commerce/modules/order/src/Entity/OrderItem.php:232-235 | appends exactly the one adjustment; the total price is untouched |
| OrderItems.OrderItem.GetAdjustedUnitPrice | modules/contrib/commerce/modules/order/src/Entity/OrderItem.php:202-212 | the loop adds every not-included adjustment to the unit price; nothing without a unit price |
| OrderItems.OrderItem.GetAdjustedTotalPrice | modules/contrib/commerce/modules/order/src/Entity/OrderItem.php:257-264 | present iff a unit price is, and then the line total of the adjusted unit price |
| OrderItems.OrderItem.GetData | modules/contrib/commerce/modules/order/src/Entity/OrderItem.php:269-275 | the stored value unless it is missing or NULL, else the default |
| OrderItems.OrderItem.SetData | modules/contrib/commerce/modules/order/src/Entity/OrderItem.php:280-283 | stores one entry of the data bag, which then reads back |
| OffsiteMethods.LoadPayment | sites/dev.x.devshop.odnodumci.com/modules/payment_offsite_api/src/Plugin/Payment/Method/PaymentMethodOffsiteSimple.php:240-255 | a payment is found iff the id reads as a key present in storage, and it is the stored one |
| OffsiteMethods.RequestGet | sites/dev.x.devshop.odnodumci.com/modules/payment_offsite_api/src/Plugin/Payment/Method/PaymentMethodOffsiteSimple.php:122-153 | route attributes win over the query, which wins over the POST body; the POST value when only the body has the key; NULL when none has it |
| OffsiteMethods.GenerateForm | sites/dev.x.devshop.odnodumci.com/modules/payment_offsite_api/src/Plugin/Payment/Method/PaymentMethodBaseOffsite.php:267-279 | one hidden element per form-data entry and nothing else |
| OffsiteMethods.GenerateFormRoundTrip | sites/dev.x.devshop.odnodumci.com/modules/payment_offsite_api/src/Plugin/Payment/Method/PaymentMethodBaseOffsite.php:267-279 | reading the hidden values back out of the generated form gives the form data |
| OffsiteMethods.OffsiteMethod.constructor | sites/dev.x.devshop.odnodumci.com/modules/payment_offsite_api/src/Plugin/Payment/Method/PaymentMethodBaseOffsite.php:77-84 | configuration over the defaults; verbose and auto-submit from the plugin definition; no form data, no payment |
| OffsiteMethods.OffsiteMethod.SetPaymentFormData | sites/dev.x.devshop.odnodumci.com/modules/payment_offsite_api/src/Plugin/Payment/Method/PaymentMethodBaseOffsite.php:102-104 | replaces the form data |
| OffsiteMethods.OffsiteMethod.AddPaymentFormData | sites/dev.x.devshop.odnodumci.com/modules/payment_offsite_api/src/Plugin/Payment/Method/PaymentMethodBaseOffsite.php:114-116 | sets exactly one form-data entry |
| OffsiteMethods.OffsiteMethod.IsAutoSubmit | sites/dev.x.devshop.odnodumci.com/modules/payment_offsite_api/src/Plugin/Payment/Method/PaymentMethodBaseOffsite.php:124-146 | the auto-submit flag as stored |
| OffsiteMethods.OffsiteMethod.SetAutoSubmit | sites/dev.x.devshop.odnodumci.com/modules/payment_offsite_api/src/Plugin/Payment/Method/PaymentMethodBaseOffsite.php:134-136 | the flag then reads back through both getters |
| OffsiteMethods.OffsiteMethod.IsVerbose | sites/dev.x.devshop.odnodumci.com/modules/payment_offsite_api/src/Plugin/Payment/Method/PaymentMethodBaseOffsite.php:154-177 | the verbose flag as stored |
| OffsiteMethods.OffsiteMethod.SetVerbose | sites/dev.x.devshop.odnodumci.com/modules/payment_offsite_api/src/Plugin/Payment/Method/PaymentMethodBaseOffsite.php:165-167 | the flag then reads back through both getters |
| OffsiteMethods.OffsiteMethod.IsFallbackMode | sites/dev.x.devshop.odnodumci.com/modules/payment_offsite_api/src/Plugin/Payment/Method/PaymentMethodBaseOffsite.php:186-208 | the fallback-mode flag as stored |
| OffsiteMethods.OffsiteMethod.SetFallbackMode | sites/dev.x.devshop.odnodumci.com/modules/payment_offsite_api/src/Plugin/Payment/Method/PaymentMethodBaseOffsite.php:196-198 | the flag then reads back through both getters |
| OffsiteMethods.OffsiteMethod.SetPayment | sites/dev.x.devshop.odnodumci.com/modules/payment_offsite_api/src/Plugin/Payment/Method/PaymentMethodOffsiteSimple.php:253 | the method's current payment becomes the given one |
| OffsiteMethods.OffsiteMethod.GenerateFormFromData | sites/dev.x.devshop.odnodumci.com/modules/payment_offsite_api/src/Plugin/Payment/Method/PaymentMethodBaseOffsite.php:267-279 | the generated form has exactly the keys of the current form data |
| OffsiteMethods.OffsiteMethod.GetPaymentExecutionResult | sites/dev.x.devshop.odnodumci.com/modules/payment_offsite_api/src/Plugin/Payment/Method/PaymentMethodBaseOffsite.php:254-259 | always a redirect to the off-site redirect route for the current payment |
| OffsiteSimple.RunValidator | sites/dev.x.devshop.odnodumci.com/modules/payment_offsite_api/src/Plugin/Payment/Method/PaymentMethodOffsiteSimple.php:179-298 | only the transaction-id validator changes the payment, only when it passes, and it passes iff the payment loads |
| OffsiteSimple.Step | sites/dev.x.devshop.odnodumci.com/modules/payment_offsite_api/src/Plugin/Payment/Method/PaymentMethodOffsiteSimple.php:122-153 | a name that is not a validator fails and changes nothing |
| OffsiteSimple.RunChain | sites/dev.x.devshop.odnodumci.com/modules/payment_offsite_api/src/Plugin/Payment/Method/PaymentMethodOffsiteSimple.php:122-153 | without the transaction-id validator the payment is unchanged |
| OffsiteSimple.RunChainSnoc | sites/dev.x.devshop.odnodumci.com/modules/payment_offsite_api/src/Plugin/Payment/Method/PaymentMethodOffsiteSimple.php:122-153 | one more validator runs only if the chain before it passed |
| OffsiteSimple.ChainPassesIff | sites/dev.x.devshop.odnodumci.com/modules/payment_offsite_api/src/Plugin/Payment/Method/PaymentMethodOffsiteSimple.php:122-153 | the chain passes iff every validator passes on the payment its predecessors left |
| OffsiteSimple.FailureStopsChain | sites/dev.x.devshop.odnodumci.com/modules/payment_offsite_api/src/Plugin/Payment/Method/PaymentMethodOffsiteSimple.php:122-153 | after the first failure nothing else runs or changes |
| OffsiteSimple.DefaultChain | sites/dev.x.devshop.odnodumci.com/modules/payment_offsite_api/src/Plugin/Payment/Method/PaymentMethodOffsiteSimple.php:162-171 | the default chain passes iff the POST is non-empty, has the required keys, merchant and (loosely compared) signature match, the payment loads and its amount matches |
| OffsiteSimple.SignatureExactWhenComparisonExact | sites/dev.x.devshop.odnodumci.com/modules/payment_offsite_api/src/Plugin/Payment/Method/PaymentMethodOffsiteSimple.php:283-286 | only when the loose comparison of two strings is plain equality does the signature check mean equality ignoring case |
| OffsiteSimple.SimpleMethod.constructor | sites/dev.x.devshop.odnodumci.com/modules/payment_offsite_api/src/Plugin/Payment/Method/PaymentMethodOffsiteSimple.php:25 | a new method has no IPN required keys |
| OffsiteSimple.SimpleMethod.SetIpnRequiredKeys | sites/dev.x.devshop.odnodumci.com/modules/payment_offsite_api/src/Plugin/Payment/Method/PaymentMethodOffsiteSimple.php:43-45 | the key list then reads back |
| OffsiteSimple.SimpleMethod.AddIpnRequiredKey | sites/dev.x.devshop.odnodumci.com/modules/payment_offsite_api/src/Plugin/Payment/Method/PaymentMethodOffsiteSimple.php:53-55 | appends exactly one key |
| OffsiteSimple.SimpleMethod.ValidateEmpty | sites/dev.x.devshop.odnodumci.com/modules/payment_offsite_api/src/Plugin/Payment/Method/PaymentMethodOffsiteSimple.php:179-191 | fails exactly when the POST body is empty |
| OffsiteSimple.SimpleMethod.ValidateRequiredKeys | sites/dev.x.devshop.odnodumci.com/modules/payment_offsite_api/src/Plugin/Payment/Method/PaymentMethodOffsiteSimple.php:199-211 | fails exactly when a required key is missing from the POST body |
| OffsiteSimple.SimpleMethod.ValidateMerchant | sites/dev.x.devshop.odnodumci.com/modules/payment_offsite_api/src/Plugin/Payment/Method/PaymentMethodOffsiteSimple.php:219-232 | fails when unconfigured or when the posted merchant id differs from the configured one |
| OffsiteSimple.SimpleMethod.ValidateSignature | sites/dev.x.devshop.odnodumci.com/modules/payment_offsite_api/src/Plugin/Payment/Method/PaymentMethodOffsiteSimple.php:282-298 | passes exactly when the upper-cased posted and computed signatures are equal under PHP's loose `==` |
| OffsiteSimple.SimpleMethod.ValidateTransactionId | sites/dev.x.devshop.odnodumci.com/modules/payment_offsite_api/src/Plugin/Payment/Method/PaymentMethodOffsiteSimple.php:240-255 | passes exactly when the posted transaction id names a stored payment, which then becomes current |
| OffsiteSimple.SimpleMethod.ValidateAmount | sites/dev.x.devshop.odnodumci.com/modules/payment_offsite_api/src/Plugin/Payment/Method/PaymentMethodOffsiteSimple.php:263-274 | passes exactly when a current payment's amount loosely equals the posted amount |
| OffsiteSimple.SimpleMethod.CallValidator | sites/dev.x.devshop.odnodumci.com/modules/payment_offsite_api/src/Plugin/Payment/Method/PaymentMethodOffsiteSimple.php:122-153 | calling a validator by name agrees with the chain's step function |
| OffsiteSimple.SimpleMethod.IpnValidate | sites/dev.x.devshop.odnodumci.com/modules/payment_offsite_api/src/Plugin/Payment/Method/PaymentMethodOffsiteSimple.php:122-153 | the loop over the validators equals the chain: verdict and resulting payment |
| OffsiteConfiguration.NestedValue | sites/dev.x.devshop.odnodumci.com/modules/payment_offsite_api/src/Plugin/Payment/MethodConfiguration/PaymentMethodConfigurationBaseOffsite.php:220-239 | a path of length one is found iff its key is present; a missing first key finds nothing |
| OffsiteConfiguration.SubmittedValue | sites/dev.x.devshop.odnodumci.com/modules/payment_offsite_api/src/Plugin/Payment/MethodConfiguration/PaymentMethodConfigurationBaseOffsite.php:220-239 | the submitted value at the path, or the default when absent |
| OffsiteConfiguration.FlagPathLookup | sites/dev.x.devshop.odnodumci.com/modules/payment_offsite_api/src/Plugin/Payment/MethodConfiguration/PaymentMethodConfigurationBaseOffsite.php:230-238 | a flag under the nested plugin form is read back whatever the default |
| OffsiteConfiguration.StatusesChosen | sites/dev.x.devshop.odnodumci.com/modules/payment_offsite_api/src/Plugin/Payment/MethodConfiguration/PaymentMethodConfigurationBaseOffsite.php:223-229 | chosen statuses replace exactly the visited entries of the IPN status table; nothing else changes |
| OffsiteConfiguration.StatusesChosenStep | sites/dev.x.devshop.odnodumci.com/modules/payment_offsite_api/src/Plugin/Payment/MethodConfiguration/PaymentMethodConfigurationBaseOffsite.php:223-229 | one loop step sets one more status to its choice |
| OffsiteConfiguration.SubmittedStatuses | sites/dev.x.devshop.odnodumci.com/modules/payment_offsite_api/src/Plugin/Payment/MethodConfiguration/PaymentMethodConfigurationBaseOffsite.php:220-239 | after submission every IPN status maps to the chosen payment status, whatever the flags |
| OffsiteConfiguration.OffsiteConfiguration.constructor | sites/dev.x.devshop.odnodumci.com/modules/payment_offsite_api/src/Plugin/Payment/MethodConfiguration/PaymentMethodConfigurationBaseOffsite.php:53 | the supplied configuration over the defaults |
| OffsiteConfiguration.OffsiteConfiguration.GetStatusId | sites/dev.x.devshop.odnodumci.com/modules/payment_offsite_api/src/Plugin/Payment/MethodConfiguration/PaymentMethodConfigurationBaseOffsite.php:106-108 | the mapped status, or NULL for an unmapped one |
| OffsiteConfiguration.OffsiteConfiguration.SetStatusId | sites/dev.x.devshop.odnodumci.com/modules/payment_offsite_api/src/Plugin/Payment/MethodConfiguration/PaymentMethodConfigurationBaseOffsite.php:118-122 | sets one status mapping, which reads back; every other mapping is unchanged |
| OffsiteConfiguration.OffsiteConfiguration.SetAutoSubmit | sites/dev.x.devshop.odnodumci.com/modules/payment_offsite_api/src/Plugin/Payment/MethodConfiguration/PaymentMethodConfigurationBaseOffsite.php:193-195 | sets the flag, which reads back |
| OffsiteConfiguration.OffsiteConfiguration.SetVerbose | sites/dev.x.devshop.odnodumci.com/modules/payment_offsite_api/src/Plugin/Payment/MethodConfiguration/PaymentMethodConfigurationBaseOffsite.php:203-205 | sets the flag, which reads back |
| OffsiteConfiguration.OffsiteConfiguration.SubmitConfigurationForm | sites/dev.x.devshop.odnodumci.com/modules/payment_offsite_api/src/Plugin/Payment/MethodConfiguration/PaymentMethodConfigurationBaseOffsite.php:220-239 | every IPN status maps to its choice and the flags take the submitted values |
| LiqpayConfiguration.LiqpayDefaults | sites/dev.x.devshop.odnodumci.com/modules/liqpay_payment/src/Plugin/Payment/MethodConfiguration/Liqpay.php:28-55 | the parent defaults plus the Liqpay message, status table and gateway settings, parent entries first |
| LiqpayConfiguration.DefaultStatusTable | sites/dev.x.devshop.odnodumci.com/modules/liqpay_payment/src/Plugin/Payment/MethodConfiguration/Liqpay.php:32-44 | the eleven Liqpay statuses map to success, failure or pending as listed |
| LiqpayConfiguration.DefaultSettings | sites/dev.x.devshop.odnodumci.com/modules/liqpay_payment/src/Plugin/Payment/MethodConfiguration/Liqpay.php:45-53 | default version 3, action pay, sandbox on, redirect on, empty keys and action URL |
| LiqpayConfiguration.WithConfigEntry | sites/dev.x.devshop.odnodumci.com/modules/liqpay_payment/src/Plugin/Payment/MethodConfiguration/Liqpay.php:165-169 | setting a gateway entry only touches the `config` section |
| LiqpayConfiguration.WithConfigEntryOnlyChangesItsEntry | sites/dev.x.devshop.odnodumci.com/modules/liqpay_payment/src/Plugin/Payment/MethodConfiguration/Liqpay.php:153-169 | the entry reads back, other entries and the status table are unchanged |
| LiqpayConfiguration.StoredRedirect | sites/dev.x.devshop.odnodumci.com/modules/liqpay_payment/src/Plugin/Payment/MethodConfiguration/Liqpay.php:189-193 | the stored redirect URL has no surrounding whitespace |
| LiqpayConfiguration.StoredRedirectIdempotent | sites/dev.x.devshop.odnodumci.com/modules/liqpay_payment/src/Plugin/Payment/MethodConfiguration/Liqpay.php:189-193 | storing an already stored redirect changes nothing |
| LiqpayConfiguration.SubmittedSettingsCopiesSeven | sites/dev.x.devshop.odnodumci.com/modules/liqpay_payment/src/Plugin/Payment/MethodConfiguration/Liqpay.php:131-145 | submission sets exactly the seven gateway settings (redirect trimmed) and keeps everything else |
| LiqpayConfiguration.LiqpayConfiguration.constructor | sites/dev.x.devshop.odnodumci.com/modules/liqpay_payment/src/Plugin/Payment/MethodConfiguration/Liqpay.php:28-55 | a fresh off-site base whose configuration is the supplied one over the parent's defaults extended by Liqpay's; supplied keys win, and the default `config` section and status table apply when neither supplies them |
| LiqpayConfiguration.LiqpayConfiguration.SetVersion | sites/dev.x.devshop.odnodumci.com/modules/liqpay_payment/src/Plugin/Payment/MethodConfiguration/Liqpay.php:165-169 | stores the version, which reads back |
| LiqpayConfiguration.LiqpayConfiguration.SetRedirect | sites/dev.x.devshop.odnodumci.com/modules/liqpay_payment/src/Plugin/Payment/MethodConfiguration/Liqpay.php:189-193 | stores the trimmed redirect URL, which reads back trimmed |
| LiqpayConfiguration.LiqpayConfiguration.SetPrivateKey | sites/dev.x.devshop.odnodumci.com/modules/liqpay_payment/src/Plugin/Payment/MethodConfiguration/Liqpay.php:213-217 | stores the private key, which reads back |
| LiqpayConfiguration.LiqpayConfiguration.SetPublicKey | sites/dev.x.devshop.odnodumci.com/modules/liqpay_payment/src/Plugin/Payment/MethodConfiguration/Liqpay.php:237-241 | stores the public key, which reads back |
| LiqpayConfiguration.LiqpayConfiguration.SetAction | sites/dev.x.devshop.odnodumci.com/modules/liqpay_payment/src/Plugin/Payment/MethodConfiguration/Liqpay.php:261-265 | stores the action, which reads back |
| LiqpayConfiguration.LiqpayConfiguration.SetActionUrl | sites/dev.x.devshop.odnodumci.com/modules/liqpay_payment/src/Plugin/Payment/MethodConfiguration/Liqpay.php:284-288 | stores the action URL, which reads back |
| LiqpayConfiguration.LiqpayConfiguration.SetSandboxStatus | sites/dev.x.devshop.odnodumci.com/modules/liqpay_payment/src/Plugin/Payment/MethodConfiguration/Liqpay.php:308-312 | stores the sandbox flag, which reads back |
| LiqpayConfiguration.LiqpayConfiguration.SubmitConfigurationForm | sites/dev.x.devshop.odnodumci.com/modules/liqpay_payment/src/Plugin/Payment/MethodConfiguration/Liqpay.php:131-145 | the base statuses and flags, then the seven gateway settings from the form section |
| LiqpayMethod.Validation | sites/dev.x.devshop.odnodumci.com/modules/liqpay_payment/src/Plugin/Payment/Method/Liqpay.php:230-252 | passes iff the signature matches, the order id names a stored payment, and its amount and currency loosely equal the posted ones; that payment becomes current whenever it loads, and otherwise the payment is unchanged |
| LiqpayMethod.IpnStatus | sites/dev.x.devshop.odnodumci.com/modules/liqpay_payment/src/Plugin/Payment/Method/Liqpay.php:158-189 | an unmapped or unset gateway status gives `payment_pending` |
| LiqpayMethod.IpnStatusMapping | sites/dev.x.devshop.odnodumci.com/modules/liqpay_payment/src/Plugin/Payment/Method/Liqpay.php:151-153 | a mapped gateway status is used as configured; an unknown one becomes `payment_pending` |
| LiqpayMethod.IpnOutcome | sites/dev.x.devshop.odnodumci.com/modules/liqpay_payment/src/Plugin/Payment/Method/Liqpay.php:158-189 | status `success` iff validation passed outside fallback mode; empty message, code 200 |
| LiqpayMethod.PaymentData | sites/dev.x.devshop.odnodumci.com/modules/liqpay_payment/src/Plugin/Payment/Method/Liqpay.php:112-146 | the payload has exactly version, public key, sandbox, action, order id, language, rounded amount, currency and description, plus `result_url` iff a redirect is set (the referer for `[redirect_to_referer]`, the token-replaced setting otherwise) |
| LiqpayMethod.FormPayloadPassesSignature | sites/dev.x.devshop.odnodumci.com/modules/liqpay_payment/src/Plugin/Payment/Method/Liqpay.php:139-142 | a payload posted back as the form signed it passes the signature check and decodes to itself |
| LiqpayMethod.SignedFormData | sites/dev.x.devshop.odnodumci.com/modules/liqpay_payment/src/Plugin/Payment/Method/Liqpay.php:139-142 | the form data gains `data` and its signature; other entries are kept |
| LiqpayMethod.RedirectForm | sites/dev.x.devshop.odnodumci.com/modules/liqpay_payment/src/Plugin/Payment/Method/Liqpay.php:112-146 | the form posts to the action URL with one hidden element per form-data entry |
| LiqpayMethod.LiqpayMethod.constructor | sites/dev.x.devshop.odnodumci.com/modules/liqpay_payment/src/Plugin/Payment/Method/Liqpay.php:34-106 | the method wraps its off-site base, codec, request and storage |
| LiqpayMethod.LiqpayMethod.IsConfigured | sites/dev.x.devshop.odnodumci.com/modules/liqpay_payment/src/Plugin/Payment/Method/Liqpay.php:223-225 | configured iff the action URL is not empty |
| LiqpayMethod.LiqpayMethod.GetResultPages | sites/dev.x.devshop.odnodumci.com/modules/liqpay_payment/src/Plugin/Payment/Method/Liqpay.php:194-198 | a single `pending` page, flagged FALSE |
| LiqpayMethod.LiqpayMethod.GetStatusId | sites/dev.x.devshop.odnodumci.com/modules/liqpay_payment/src/Plugin/Payment/Method/Liqpay.php:151-153 | agrees with the IPN status mapping: NULL means `payment_pending` |
| LiqpayMethod.LiqpayMethod.PaymentForm | sites/dev.x.devshop.odnodumci.com/modules/liqpay_payment/src/Plugin/Payment/Method/Liqpay.php:112-146 | stores the signed payload in the form data and returns the redirect form built from it |
| LiqpayMethod.LiqpayMethod.ValidateEmpty | sites/dev.x.devshop.odnodumci.com/modules/liqpay_payment/src/Plugin/Payment/Method/Liqpay.php:318-330 | always passes (the request body is an object, never `empty()`) |
| LiqpayMethod.LiqpayMethod.ValidateTransactionId | sites/dev.x.devshop.odnodumci.com/modules/liqpay_payment/src/Plugin/Payment/Method/Liqpay.php:278-292 | passes iff the order id names a stored payment, which then becomes current |
| LiqpayMethod.LiqpayMethod.ValidateAmount | sites/dev.x.devshop.odnodumci.com/modules/liqpay_payment/src/Plugin/Payment/Method/Liqpay.php:300-310 | passes iff the payment amount loosely equals the posted amount |
| LiqpayMethod.LiqpayMethod.ValidateCurrency | sites/dev.x.devshop.odnodumci.com/modules/liqpay_payment/src/Plugin/Payment/Method/Liqpay.php:260-270 | passes iff the payment currency loosely equals the posted currency |
| LiqpayMethod.LiqpayMethod.IpnValidate | sites/dev.x.devshop.odnodumci.com/modules/liqpay_payment/src/Plugin/Payment/Method/Liqpay.php:230-252 | verdict and payment equal the validation function's |
| LiqpayMethod.LiqpayMethod.IpnExecute | sites/dev.x.devshop.odnodumci.com/modules/liqpay_payment/src/Plugin/Payment/Method/Liqpay.php:158-189 | on a pass the payment takes the mapped status and is saved; the result is `success` only outside fallback mode |
| LiqpayMethod.LiqpayMethod.GetPendingContent | sites/dev.x.devshop.odnodumci.com/modules/liqpay_payment/src/Plugin/Payment/Method/Liqpay.php:206-217 | names the gateway status from the posted payload, or `pending` without one |
| OffsiteController.PluginInstanceId | sites/dev.x.devshop.odnodumci.com/modules/payment_offsite_api/src/Controller/PaymentOffsiteController.php:60 | the plugin id is the configuration plugin id, a colon, then the configuration id |
| OffsiteController.ResponseFor | sites/dev.x.devshop.odnodumci.com/modules/payment_offsite_api/src/Controller/PaymentOffsiteController.php:65-70 | a raw response with the IPN message (default empty) and code (default 200) |
| OffsiteController.UcFirst | sites/dev.x.devshop.odnodumci.com/modules/payment_offsite_api/src/Controller/PaymentOffsiteController.php:85-90 | only the first character is upper-cased |
| OffsiteController.IpnIsRaw | sites/dev.x.devshop.odnodumci.com/modules/payment_offsite_api/src/Controller/PaymentOffsiteController.php:65-70 | the `ipn` status always answers with the IPN result as a raw response |
| OffsiteController.FallbackOnlyWhenStrictlyTrue | sites/dev.x.devshop.odnodumci.com/modules/payment_offsite_api/src/Controller/PaymentOffsiteController.php:73-83 | a fallback IPN runs only for a page flagged exactly TRUE |
| OffsiteController.FailedFallbackIsRaw | sites/dev.x.devshop.odnodumci.com/modules/payment_offsite_api/src/Controller/PaymentOffsiteController.php:73-83 | a failed fallback IPN answers with its result as a raw response |
| OffsiteController.ContentPages | sites/dev.x.devshop.odnodumci.com/modules/payment_offsite_api/src/Controller/PaymentOffsiteController.php:85-95 | a page with a callback renders its build, uncached unless it sets its own cache; otherwise a default message |
| OffsiteController.LiqpayNeverFallsBack | sites/dev.x.devshop.odnodumci.com/modules/payment_offsite_api/src/Controller/PaymentOffsiteController.php:73-83 | Liqpay's result pages never trigger a fallback IPN |
| OffsiteController.LiqpayFallbackNeverSucceeds | sites/dev.x.devshop.odnodumci.com/modules/liqpay_payment/src/Plugin/Payment/Method/Liqpay.php:179-188 | in fallback mode Liqpay's IPN result is never `success` |
| OffsiteController.Dispatch | sites/dev.x.devshop.odnodumci.com/modules/payment_offsite_api/src/Controller/PaymentOffsiteController.php:59-96 | `ipn` answers with the raw IPN response; the answer is raw exactly for `ipn` and for a fallback IPN run (flag exactly TRUE) that does not report success, a render array otherwise (see `IpnIsRaw`, `FailedFallbackIsRaw`, `ContentPages`) |
| OffsiteController.Content | sites/dev.x.devshop.odnodumci.com/modules/payment_offsite_api/src/Controller/PaymentOffsiteController.php:59-96 | the controller's answer for a Liqpay method equals the dispatch function; only `ipn` changes payment or storage |
| AccessChecks.ExternalAccess | sites/dev.x.devshop.odnodumci.com/modules/payment_offsite_api/src/Access/ExternalAccessCheck.php:46-55 | allowed iff the method is off-site and the status is `ipn` or a result page; forbidden and cacheable iff not off-site; otherwise uncached (see `ExternalAccessAllowed`, `NonOffsiteForbidden`) |
| AccessChecks.RedirectAccess | sites/dev.x.devshop.odnodumci.com/modules/payment_offsite_api/src/Access/RedirectAccessCheck.php:26-30 | allowed iff the account owns the payment, its method is off-site and it is pending; never forbidden, never cached (see `RedirectAccessAllowed`) |
| AccessChecks.AllowedIfUncached | sites/dev.x.devshop.odnodumci.com/modules/payment_offsite_api/src/Access/ExternalAccessCheck.php:54 | allowed iff the condition holds, otherwise neutral; never cached |
| AccessChecks.ExternalAccessAllowed | sites/dev.x.devshop.odnodumci.com/modules/payment_offsite_api/src/Access/ExternalAccessCheck.php:46-55 | for an off-site method, exactly `ipn` and the result pages are allowed |
| AccessChecks.NonOffsiteForbidden | sites/dev.x.devshop.odnodumci.com/modules/payment_offsite_api/src/Access/ExternalAccessCheck.php:49-52 | a method that is not off-site is forbidden, cacheably |
| AccessChecks.ExternalAccessIgnoresFlags | sites/dev.x.devshop.odnodumci.com/modules/payment_offsite_api/src/Access/ExternalAccessCheck.php:53 | only the result page names matter, not their flags |
| AccessChecks.LiqpayExternalStatuses | sites/dev.x.devshop.odnodumci.com/modules/payment_offsite_api/src/Access/ExternalAccessCheck.php:46-55 | for Liqpay, exactly `ipn` and `pending` are reachable |
| AccessChecks.RedirectAccessAllowed | sites/dev.x.devshop.odnodumci.com/modules/payment_offsite_api/src/Access/RedirectAccessCheck.php:26-30 | the redirect page is allowed iff the account owns the payment, its method is off-site and it is pending |
| AccessChecks.SettledPaymentClosesRedirect | sites/dev.x.devshop.odnodumci.com/modules/payment_offsite_api/src/Access/RedirectAccessCheck.php:26-30 | once an IPN has set a status other than pending, the owner can no longer open the redirect page |
| OffsiteDeriver.Derivative | sites/dev.x.devshop.odnodumci.com/modules/payment_offsite_api/src/Plugin/Payment/Method/PaymentMethodBaseOffsiteDeriver.php:70-74 | id `base:entity`, status and label first, then the entity's configuration, then the base definition |
| OffsiteDeriver.DerivedKeys | sites/dev.x.devshop.odnodumci.com/modules/payment_offsite_api/src/Plugin/Payment/Method/PaymentMethodBaseOffsiteDeriver.php:59-78 | exactly the earlier derivatives plus one per off-site entity of the base plugin |
| OffsiteDeriver.DerivedEntry | sites/dev.x.devshop.odnodumci.com/modules/payment_offsite_api/src/Plugin/Payment/Method/PaymentMethodBaseOffsiteDeriver.php:59-78 | each deriving entity gets its own derivative definition |
| OffsiteDeriver.DerivedKeepsOthers | sites/dev.x.devshop.odnodumci.com/modules/payment_offsite_api/src/Plugin/Payment/Method/PaymentMethodBaseOffsiteDeriver.php:59-78 | earlier derivatives no entity replaces are kept |
| OffsiteDeriver.Deriver.constructor | sites/dev.x.devshop.odnodumci.com/modules/payment_offsite_api/src/Plugin/Payment/Method/PaymentMethodBaseOffsiteDeriver.php:59-78 | a new deriver has no derivatives |
| OffsiteDeriver.Deriver.GetDerivativeDefinitions | sites/dev.x.devshop.odnodumci.com/modules/payment_offsite_api/src/Plugin/Payment/Method/PaymentMethodBaseOffsiteDeriver.php:59-78 | the loop skips other plugins and non-off-site entities and equals the fold over the entities |
| OffsiteDeriver.EntityIdOf | sites/dev.x.devshop.odnodumci.com/modules/payment_offsite_api/src/Plugin/Payment/Method/PaymentMethodBaseOffsiteOperationsProvider.php:19-23 | an entity id exists iff the plugin id has a colon, and it has none itself |
| OffsiteDeriver.ExplodeCountsSeparators | sites/dev.x.devshop.odnodumci.com/modules/payment_offsite_api/src/Plugin/Payment/Method/PaymentMethodBaseOffsiteOperationsProvider.php:20 | `explode` yields a second part iff the separator occurs |
| OffsiteDeriver.PaymentMethodConfiguration | sites/dev.x.devshop.odnodumci.com/modules/payment_offsite_api/src/Plugin/Payment/Method/PaymentMethodBaseOffsiteOperationsProvider.php:19-23 | the entity is loaded iff its id is found in storage |
| OffsiteDeriver.DerivativeIdRoundTrip | sites/dev.x.devshop.odnodumci.com/modules/payment_offsite_api/src/Plugin/Payment/Method/PaymentMethodBaseOffsiteOperationsProvider.php:19-23 | the operations provider finds the entity each derivative came from |
| OffsiteDeriver.EntityIdIgnoresOtherParts | sites/dev.x.devshop.odnodumci.com/modules/payment_offsite_api/src/Plugin/Payment/Method/PaymentMethodBaseOffsiteOperationsProvider.php:20 | only the second part of the plugin id counts |
| OffsiteDeriver.DerivedMethodReadsStoredSettings | sites/dev.x.devshop.odnodumci.com/modules/payment_offsite_api/src/Plugin/Payment/Method/PaymentMethodBaseOffsiteDeriver.php:70-74 | a derived Liqpay method reads the gateway settings its configuration stored |
| OffsiteDeriver.DefaultLiqpayMethodUnconfigured | sites/dev.x.devshop.odnodumci.com/modules/liqpay_payment/src/Plugin/Payment/Method/Liqpay.php:223-225 | a method derived from default Liqpay settings has an empty action URL |
| TaxonomyMenuLink.AllowedOverrides | sites/dev.x.devshop.odnodumci.com/modules/taxonomy_menu/src/Plugin/Menu/TaxonomyMenuMenuLink.php:27-36 | exactly the new values for `weight`, `expanded` and `enabled` |
| TaxonomyMenuLink.UpdatedDefinitionWhitelist | sites/dev.x.devshop.odnodumci.com/modules/taxonomy_menu/src/Plugin/Menu/TaxonomyMenuMenuLink.php:136-147 | only the three allowed keys take new values; everything else is kept |
| TaxonomyMenuLink.UpdatedDefinitionIdempotent | sites/dev.x.devshop.odnodumci.com/modules/taxonomy_menu/src/Plugin/Menu/TaxonomyMenuMenuLink.php:136-147 | the same update twice equals once |
| TaxonomyMenuLink.IgnoresOtherKeys | sites/dev.x.devshop.odnodumci.com/modules/taxonomy_menu/src/Plugin/Menu/TaxonomyMenuMenuLink.php:136-147 | values for other keys change nothing |
| TaxonomyMenuLink.MenuLink.constructor | sites/dev.x.devshop.odnodumci.com/modules/taxonomy_menu/src/Plugin/Menu/TaxonomyMenuMenuLink.php:27-36 | a link holds its plugin id and definition and has saved nothing |
| TaxonomyMenuLink.MenuLink.UpdateLink | sites/dev.x.devshop.odnodumci.com/modules/taxonomy_menu/src/Plugin/Menu/TaxonomyMenuMenuLink.php:136-147 | merges the allowed values, returns the definition and saves it as an override iff persisting |
| TaxonomyMenuLink.MenuLink.IsDeletable | sites/dev.x.devshop.odnodumci.com/modules/taxonomy_menu/src/Plugin/Menu/TaxonomyMenuMenuLink.php:152-154 | always deletable |
| TaxonomyMenuLink.MenuLink.DeleteLink | sites/dev.x.devshop.odnodumci.com/modules/taxonomy_menu/src/Plugin/Menu/TaxonomyMenuMenuLink.php:159-160 | changes nothing |
| RedirectPaymentForm.AttachLibrary | sites/dev.x.devshop.odnodumci.com/modules/payment_offsite_api/src/Form/OffsiteRedirectPaymentForm.php:28-30 | the library is appended after the libraries already attached, kept in order; the other attachments and the other form keys are kept |
| RedirectPaymentForm.Decorate | sites/dev.x.devshop.odnodumci.com/modules/payment_offsite_api/src/Form/OffsiteRedirectPaymentForm.php:31-43 | the wrapper, the cleanup callback, the message and the button are set; other keys are kept |
| RedirectPaymentForm.BuildFormLayout | sites/dev.x.devshop.odnodumci.com/modules/payment_offsite_api/src/Form/OffsiteRedirectPaymentForm.php:26-45 | the redirect form's keys and fixed elements, with the method's form otherwise kept |
| RedirectPaymentForm.NoAutosubmitKeepsAttachments | sites/dev.x.devshop.odnodumci.com/modules/payment_offsite_api/src/Form/OffsiteRedirectPaymentForm.php:28-30 | without auto-submission the attachments are untouched |
| RedirectPaymentForm.AutosubmitAttached | sites/dev.x.devshop.odnodumci.com/modules/payment_offsite_api/src/Form/OffsiteRedirectPaymentForm.php:28-30 | with auto-submission the autosubmit library is the last library |
| RedirectPaymentForm.CleanupExtraFormItems | sites/dev.x.devshop.odnodumci.com/modules/payment_offsite_api/src/Form/OffsiteRedirectPaymentForm.php:56-61 | exactly the form token, build id and form id are removed |
| RedirectPaymentForm.CleanupIdempotent | sites/dev.x.devshop.odnodumci.com/modules/payment_offsite_api/src/Form/OffsiteRedirectPaymentForm.php:56-61 | cleaning twice equals cleaning once |
| RedirectPaymentForm.CleanedPageKeeps | sites/dev.x.devshop.odnodumci.com/modules/payment_offsite_api/src/Form/OffsiteRedirectPaymentForm.php:26-61 | every other field of the method's form reaches the gateway unchanged |
| RedirectPaymentForm.LiqpayActionSurvivesCleanup | sites/dev.x.devshop.odnodumci.com/modules/payment_offsite_api/src/Form/OffsiteRedirectPaymentForm.php:56-61 | the cleaned Liqpay page still posts to the action URL |
| RedirectPaymentForm.LiqpayPayloadSurvivesCleanup | sites/dev.x.devshop.odnodumci.com/modules/payment_offsite_api/src/Form/OffsiteRedirectPaymentForm.php:56-61 | the cleaned Liqpay page still carries `data` and `signature` |
| AjaxFormEntity.NewEntity | sites/dev.x.devshop.odnodumci.com/modules/ajax_form_entity/src/Form/FormAlter.php:25-30 | a fresh entity of the same type and bundle, new and untitled |
| AjaxFormEntity.KeptInput | sites/dev.x.devshop.odnodumci.com/modules/ajax_form_entity/src/Form/FormAlter.php:33-45 | exactly the clean-value keys, `ajax_page_state` and underscore keys are kept, unchanged |
| AjaxFormEntity.SubmittedInputStable | sites/dev.x.devshop.odnodumci.com/modules/ajax_form_entity/src/Form/FormAlter.php:33-45 | filtering the submitted input again keeps it |
| AjaxFormEntity.AjaxFormState.constructor | sites/dev.x.devshop.odnodumci.com/modules/ajax_form_entity/src/Form/FormAlter.php:19-50 | the form state holds the given values, input, storage and entity, not yet rebuilding |
| AjaxFormEntity.AjaxFormState.Submit | sites/dev.x.devshop.odnodumci.com/modules/ajax_form_entity/src/Form/FormAlter.php:19-50 | swaps in a fresh entity unless reloading, filters the input, keeps the edited entity, clears storage and rebuilds |
| AjaxFormEntity.ErrorsReturnForm | sites/dev.x.devshop.odnodumci.com/modules/ajax_form_entity/src/Form/FormAlter.php:58-60 | with errors the form is returned as is |
| AjaxFormEntity.CallbackOrder | sites/dev.x.devshop.odnodumci.com/modules/ajax_form_entity/src/Form/FormAlter.php:56-122 | the title, message removal, content, form and dialog-closing commands come in this order |
| AjaxFormEntity.CallbackContent | sites/dev.x.devshop.odnodumci.com/modules/ajax_form_entity/src/Form/FormAlter.php:88-103 | content placement follows the selector type; nothing without `send_content` |
| AjaxFormEntity.CallbackShowsEditedEntity | sites/dev.x.devshop.odnodumci.com/modules/ajax_form_entity/src/Form/FormAlter.php:19-122 | after a submit the callback shows the saved entity, not the fresh one |
| OrderNumberGenerators.FirstMissing | sites/dev.x.devshop.odnodumci.com/modules/commerce_order_number/src/OrderNumberGeneratorManager.php:42-46 | none iff every required property is set; otherwise the first missing one |
| OrderNumberGenerators.ProcessDefinitionOutcome | sites/dev.x.devshop.odnodumci.com/modules/commerce_order_number/src/OrderNumberGeneratorManager.php:39-47 | a definition passes iff `id` and `label` are set after generic processing; the error names the first missing one |
| OrderNumberGenerators.ParentRunsFirst | sites/dev.x.devshop.odnodumci.com/modules/commerce_order_number/src/OrderNumberGeneratorManager.php:40 | a label filled in by generic processing is enough |

## Left out

- Floating-point prices and `round()`: price arithmetic is an abstract `PriceMath` record.
- Base64, JSON, SHA-1 and the gateways' own signature schemes: abstract codec and gateway functions.
- Loose `==` between amounts, currencies, merchant ids and a simple method's signatures: abstract predicates; only `==` against a string literal is written out.
- PHP integer array keys, and the loose comparison of `in_array` in the AJAX input filter: keys are strings and membership is exact.
- Logging and the verbose output of the validators: they do not affect results.
- Translation: `t()` is the identity on the English strings.
- The renderer: rendered status messages are a parameter of the AJAX callback.
- Entity creation, loading and saving: a `NewEntity` function and storage maps.
- The static menu-link overrides store: `savedOverrides` records what it was asked to save.
- Non-ASCII upper-casing: `Unicode::strtoupper` is modelled on ASCII letters only.
- OffsiteController.UcFirst: `Unicode::ucfirst` is multibyte; the model upper-cases an ASCII first letter only.
- The grandparent configuration form and the payment status selectors: the chosen statuses are a function parameter.
- `removeAdjustment`, `getItemsQuantity` and the field definitions of the order item, apart from the quantity default: they are outside the modelled behaviour.
- OffsiteController.Content: for Liqpay the fallback-IPN branch is not taken, because Liqpay's only result page is flagged FALSE (`LiqpayNeverFallsBack`); the branch is modelled in `Dispatch` for every method.
- OffsiteSimple.IsValidator: only the six validators the generic method defines, spelt exactly, are callable; PHP also calls any other existing method a subclass names, and any case variant of a name (PHP method names ignore case), where the model fails the chain. A name with no method fails in both.
- OffsiteSimple.SimpleMethod.ValidateAmount: without a current payment PHP stops with a fatal error (`getPayment()` returns NULL), which happens only when a subclass runs `validateAmount` before `validateTransactionId`; the model fails the validator instead.
- OffsiteSimple.SimpleMethod.ValidateSignature: PHP's loose `!=` on the upper-cased signatures is the gateway's abstract `looseEquals`; PHP's numeric-string rule (under which "0" equals "0E462097431906509019562988736854") is not written out, so `DefaultChain` states the check for whatever loose comparison the gateway has, and means equality ignoring case only when that comparison is exact (`SignatureExactWhenComparisonExact`).
- LiqpayMethod.SignatureMatches: compares the upper-cased signatures exactly where PHP uses loose `!=`; the two agree because a base64 SHA-1 signature ends in `=` and is never a numeric string.
- OffsiteMethods.OffsiteMethod.GetPaymentExecutionResult: requires a current payment; PHP calls `getPayment()->id()` unchecked, so with no payment it stops with a fatal error, which the model does not represent.
- RedirectPaymentForm.AttachLibrary: an `#attached` or `library` entry that is not a list (a scalar, where PHP stops with an error or turns `false`/NULL into an array, or an associative array, which PHP appends to under the next integer key) is treated as empty.
- Liqpay's `validateAmount` and `validateCurrency` without a current payment are a PHP fatal error; the model requires a payment there.
- LiqpayMethod.LiqpayMethod.GetTransactionIdName and the plain configuration getters have no contract of their own; they read one stored entry.
