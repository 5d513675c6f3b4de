# Stripe checkout: charge preparation and reconciliation, in Dafny

This project models the part of the Stripe-API catalogue shop that prepares
charges and reconciles them:

- **Credential resolution** (`_secret_for_currency`): the secret key a
  currency is charged with. The order is the deployment's resolver hook,
  then the `STRIPE_KEYS` table (the currency's own entry, else the
  default-currency entry), then the legacy `STRIPE_SECRET_KEY`, then an
  error.
- **Pricing rules**: the per-currency minimum charge, and the discount-aware
  pre-check of an order total. That pre-check is integer minor-unit
  arithmetic with `ROUND_HALF_UP`.
- **Validation gates and request shape** of the single-item and the order
  checkout: an empty order, mixed currencies, a missing credential and a
  below-minimum total each fail before any remote call. Otherwise the
  session request has one line per item, quantity 1, the same tax-rate ids
  on every line, and the coupon only when the discount is active.
- **Remote-id caches** (`ensure_stripe_coupon`, `ensure_stripe_tax_rate`).
  These reuse a stored id only while it is non-empty and the entity is
  active. Recreating a tax rate also marks the tax active; recreating a
  coupon does not change the discount's `active` flag.
- **The reconciliation table** (`CheckoutSession`), the `buy_item` handler
  that records a pending session after the processor created it, and the
  `stripe_webhook` handler. The webhook turns `paid` from false to true for
  the row whose session id a completed event names.

Modules, two shared helpers and then one per source component:

- `Results`: Option and Result.
- `Text`: ASCII lower-casing and `str(n)`.
- `Models`: catalog/models.py, plus the `Discount`, `Tax` and `Order` fields
  the checkout code uses.
- `Remote`: the processor's request shapes and a stand-in processor that
  logs every create.
- `CheckoutRules`: the pure rules of catalog/services/stripe_api.py.
- `StripeApi`: the state-changing steps of that file.
- `Views`: catalog/views.py.

External collaborators are parameters:

- The settings are a `Settings` value.
- The webhook signature check (`stripe.Webhook.construct_event`) is a function
  parameter. It returns a verified event, an invalid payload or an invalid
  signature.
- The processor is a `Processor` object. It keeps a log of the coupon,
  tax-rate and session creates it received. A log's length counts the
  creates, so "no remote create" can be stated.
- The ORM tables are a `Catalog` object (items by key, sessions as a
  sequence) and the `Discount`/`Tax` objects.

Behaviour of the code that the model keeps as written:

- A `STRIPE_KEYS` entry for the currency that exists but has no secret does
  not fall back to the default-currency entry. Resolution goes straight to
  the legacy key.
- `buy_item` does not catch the checkout's `ValueError`/`RuntimeError`. A
  failed check is therefore answered with status 500, not a 4xx.
- `stripe_webhook` writes `paid = True` without looking at the current
  value, and it touches no order. The order checkout records no pending row.
- The order flow lower-cases each item's currency without the `"usd"`
  fallback that the single-item flow applies.

## Model

| member | source | states |
|---|---|---|
| `Text.Lower` | catalog/services/stripe_api.py:14 | lower-casing keeps the length and maps every upper-case ASCII letter to its lower-case form |
| `Text.NatToString` | catalog/services/stripe_api.py:121-122 | `str(order.id)` is a non-empty string of decimal digits without a leading zero |
| `Text.NatToStringRoundTrip` | catalog/services/stripe_api.py:121-122 | reading `str(n)` back gives `n`, so the client reference identifies the order |
| `Models.NewItem` | catalog/models.py:3-7 | an item's currency defaults to "usd"; the price is a non-negative integer; a 3-character currency and 255-character name give a well-formed row |
| `Models.NewCheckoutSession` | catalog/models.py:14-17 | a new session row references one item and is unpaid |
| `Models.SessionLabel` | catalog/models.py:20-22 | the label is the session id, then " -> ", then the item's name, then " [", the status and "]", and nothing else |
| `Models.SessionLabelShowsPaid` | catalog/models.py:21 | the label ends in " [PAID]" exactly when the row is paid, and in "UNPAID]" exactly when it is not |
| `Models.FindSession` | catalog/views.py:50 | the lookup by session id returns the first row carrying that id, or nothing exactly when no row carries it |
| `Models.FindSessionIsTheOnlyMatch` | catalog/models.py:16 | with unique session ids, the lookup finds the one and only row carrying the id |
| `Remote.Processor.CreateSession` | catalog/services/stripe_api.py:66-79 | a session create is logged and answered with a new id; the other logs are unchanged |
| `Remote.Processor.CreateCoupon` | catalog/services/stripe_api.py:141-146 | a coupon create is logged and answered with a new id |
| `Remote.Processor.CreateTaxRate` | catalog/services/stripe_api.py:156-162 | a tax-rate create is logged and answered with a new id |
| `Remote.RemoteIdFresh` | catalog/services/stripe_api.py:141-147 | two different creates never answer the same id |
| `CheckoutRules.KeyEntry` | catalog/services/stripe_api.py:21 | the currency's own non-empty entry wins; otherwise the default currency's entry is used, or an empty entry when there is none |
| `CheckoutRules.SecretForCurrency` | catalog/services/stripe_api.py:13-29 | a configured hook always answers; resolution fails exactly when there is no hook, no table secret and no legacy key; without a hook the secret is never empty |
| `CheckoutRules.ResolverHookWins` | catalog/services/stripe_api.py:16-17 | with a hook, the hook's answer for the lower-cased currency is the secret |
| `CheckoutRules.CurrencyEntryBeatsDefaultAndLegacy` | catalog/services/stripe_api.py:19-23 | without a hook, a currency entry with a secret is used whatever the default entry and legacy key hold |
| `CheckoutRules.MissingEntryFallsBackToDefault` | catalog/services/stripe_api.py:21-23 | a missing or empty currency entry falls back to the default currency's secret |
| `CheckoutRules.SecretlessEntrySkipsToLegacy` | catalog/services/stripe_api.py:21-29 | a present currency entry without a secret skips the default entry and yields the legacy key, or the error |
| `CheckoutRules.NoTableSecretFallsToLegacy` | catalog/services/stripe_api.py:19-29 | without a hook, when the table is absent or the entry it selects has no non-empty secret, the legacy key is used if it is non-empty and otherwise resolution fails |
| `CheckoutRules.SecretComesFromConfiguration` | catalog/services/stripe_api.py:13-29 | any resolved secret is the hook's answer, a table secret or the legacy key |
| `CheckoutRules.SecretLookupIgnoresCase` | catalog/services/stripe_api.py:14 | a currency and its lower-cased form resolve to the same secret |
| `CheckoutRules.CacheApiKey` | catalog/services/stripe_api.py:145 | a non-empty API key passed to a cache is used as it is; an empty one is replaced by the secret resolved for the default currency |
| `CheckoutRules.ResolvedSecretServesCaches` | catalog/services/stripe_api.py:93-106 | a secret the order flow resolved never makes the caches' fallback resolution fail |
| `CheckoutRules.MinChargeForCurrency` | catalog/services/stripe_api.py:32-39 | the minimum is 30 exactly for "gbp" in any case and 50 for every other currency, the empty one included |
| `CheckoutRules.RoundHalfUpPercent` | catalog/services/stripe_api.py:47-50 | the result is x/100 rounded to the nearest integer, halves away from zero |
| `CheckoutRules.RoundHalfUpPercentUnique` | catalog/services/stripe_api.py:47-50 | no other integer satisfies those rounding bounds |
| `CheckoutRules.ApplyOrderDiscountCents` | catalog/services/stripe_api.py:43-51 | with no discount or an inactive one the amount is unchanged; otherwise the amount taken off is `amount * percent_off / 100` rounded half-up |
| `CheckoutRules.DiscountedEstimateWithinAmount` | catalog/services/stripe_api.py:47-51 | for amount >= 0 and 0 <= percent_off <= 100 the estimate lies in [0, amount] |
| `CheckoutRules.ProductDataForItem` | catalog/services/stripe_api.py:6-10 | the product name is the item's; a description is sent exactly when the item has a non-empty one |
| `CheckoutRules.ItemSessionRequest` | catalog/services/stripe_api.py:54-79 | an item checkout succeeds exactly when a secret resolves and the price reaches the minimum; a missing credential is reported before the minimum; on success there is exactly one line with quantity 1, the item's price and the lower-cased currency, and no coupon |
| `CheckoutRules.MixedCurrencyMeansTwoItemsDiffer` | catalog/services/stripe_api.py:88-90 | the currency set has more than one element exactly when two items' lower-cased currencies differ |
| `CheckoutRules.SingleCurrency` | catalog/services/stripe_api.py:92 | a non-empty single-currency order is charged in its first item's lower-cased currency |
| `CheckoutRules.Subtotal` | catalog/services/stripe_api.py:96 | the subtotal is non-negative and at least every item's price |
| `CheckoutRules.ValidateOrder` | catalog/services/stripe_api.py:84-103 | empty order exactly when no items; mixed currency exactly when non-empty with more than one currency; the order passes exactly when it has one currency, its secret resolves and the discounted estimate reaches the minimum; a missing credential is reported before the minimum; a below-minimum order fails with that error, carrying the discounted estimate, the minimum and the currency |
| `CheckoutRules.OrderLineItems` | catalog/services/stripe_api.py:108-116 | one line per item, each with quantity 1, the item's price and the order currency; every line carries the tax-rate ids, or none when there are none |
| `CheckoutRules.LineItemsShareTaxRates` | catalog/services/stripe_api.py:115 | any two lines of an order carry the identical tax-rate list |
| `CheckoutRules.OrderSessionRequest` | catalog/services/stripe_api.py:118-126 | `client_reference_id` and `metadata.order_id` are both `str(order.id)`; the key is the resolved secret |
| `CheckoutRules.CouponAfter` | catalog/services/stripe_api.py:137-149 | a reusable coupon entry is kept; otherwise the new id is stored; `active` never changes |
| `CheckoutRules.TaxRateAfter` | catalog/services/stripe_api.py:152-166 | a reusable tax-rate entry is kept; otherwise the new id is stored with `active` set; a non-empty new id leaves the entry reusable |
| `CheckoutRules.TaxRateCacheIdempotent` | catalog/services/stripe_api.py:152-166 | a second tax-rate ensure after a successful one leaves the entry as the first left it |
| `CheckoutRules.CouponCacheIdempotentIffActive` | catalog/services/stripe_api.py:137-149 | a second coupon ensure leaves the entry unchanged exactly when the discount is active |
| `CheckoutRules.ActiveTaxes` | catalog/services/stripe_api.py:106 | the filtered taxes are exactly the order's active taxes |
| `StripeApi.EnsureStripeCoupon` | catalog/services/stripe_api.py:137-149 | a reusable stored id is returned with no create; otherwise exactly one one-time coupon is created with the discount's percentage and name, and its id is stored and returned; `active` is never changed |
| `StripeApi.EnsureStripeTaxRate` | catalog/services/stripe_api.py:152-166 | a reusable stored id is returned with no create; otherwise exactly one active tax rate is created, its id is stored, the tax is marked active and the id returned |
| `StripeApi.EnsureStripeTaxRateTwice` | catalog/services/stripe_api.py:152-166 | two calls in a row answer the same id and create at most one tax rate |
| `StripeApi.EnsureStripeCouponTwice` | catalog/services/stripe_api.py:137-149 | two calls in a row answer the same id for an active discount, and two different new coupons for an inactive one |
| `StripeApi.CreateCheckoutSessionForItem` | catalog/services/stripe_api.py:54-80 | a failed check creates no session; otherwise exactly the item's request is sent and its session id returned |
| `StripeApi.EnsureActiveTaxRates` | catalog/services/stripe_api.py:106 | every tax active at the start ends with a usable tax-rate id, which the returned list holds in order; inactive taxes are untouched; the new tax-rate log entries are one create, with the tax's name, percentage and inclusive flag, per active tax that had no usable id, and each such tax stores the id of its own create |
| `StripeApi.TaxRatesCreatedOnePerTax` | catalog/services/stripe_api.py:106 | the tax-rate creates of one pass over the active taxes are one per tax that needed one: no tax is created twice, and the log grows by the number of such taxes |
| `StripeApi.OrderCoupon` | catalog/services/stripe_api.py:129-131 | the session carries a coupon exactly when the discount is present and active, and then it is the stored coupon id |
| `StripeApi.EnsureOrderCoupon` | catalog/services/stripe_api.py:129-131 | only a present, active discount goes through the coupon cache; one without a usable id gets exactly one one-time coupon with its percentage and name, whose id it stores; otherwise no coupon is created; no tax is touched; the session's coupon is the one `OrderCoupon` reads |
| `StripeApi.EnsureOrderRemoteIds` | catalog/services/stripe_api.py:105-131 | the ids are the active taxes' stored ids in order and the coupon is the one `OrderCoupon` reads; one tax-rate create per active tax without a usable id and one coupon create for an active discount without one, each stored id being its create's; no session is created; only the cache fields of the taxes and the discount can change |
| `StripeApi.SubmitOrderSession` | catalog/services/stripe_api.py:105-134 | exactly one session is created, carrying the active taxes' ids in order and the coupon `OrderCoupon` reads; a coupon is created only for an active discount without a usable id; the tax-rate and coupon creates are exactly those the caches need, each stored id being the id of its create; only the cache fields of the taxes and the discount can change |
| `StripeApi.CreateCheckoutSessionForOrder` | catalog/services/stripe_api.py:83-134 | any failed check returns that error with no remote call and no row changed; otherwise exactly one session with the order's request is created, an active discount ends with a usable coupon id (its stored one when that was usable), an inactive one is untouched, and the tax-rate and coupon creates are exactly those the caches need, made with the resolved secret, or the default currency's secret when that is empty; only the cache fields of the taxes and the discount can change |
| `Views.MarkPaid` | catalog/views.py:50-52 | every row keeps its id and item, and is paid afterwards exactly when it was paid or carries the event's session id |
| `Views.Reconciled` | catalog/views.py:36-56 | a webhook keeps every row's id and item and never sets a paid row back to unpaid |
| `Views.WebhookStatus` | catalog/views.py:36-56 | 400 exactly when the payload or signature is rejected, 200 otherwise |
| `Views.RejectedEventChangesNothing` | catalog/views.py:36-43 | a rejected payload or signature changes no row and is answered with 400 |
| `Views.OtherEventTypesIgnored` | catalog/views.py:46 | an event of another type changes no row and is answered with 200 |
| `Views.UnknownSessionIgnored` | catalog/views.py:53-56 | a completed event for an unrecorded id changes no row |
| `Views.MarkPaidIsSingleUpdate` | catalog/views.py:50-52 | with unique ids, a completed event changes exactly the matching row's `paid` to true |
| `Views.ReconcileIdempotent` | catalog/views.py:50-52 | delivering the same event twice leaves the table as delivering it once |
| `Views.ReconcileKeepsUnique` | catalog/models.py:16 | reconciliation keeps session ids unique |
| `Views.Catalog.BuyItem` | catalog/views.py:18-24 | non-GET is answered 400 and a missing item 404, with nothing created; a failed item checkout is answered 500 with no row; a row, unpaid, is added only after the session was created, and only when its id is new |
| `Views.Catalog.StripeWebhook` | catalog/views.py:28-56 | the table afterwards is `Reconciled` of the table before, the status is `WebhookStatus`, and the unique and item-reference constraints still hold |

## Left out

- The processor itself: session, coupon and tax-rate creation and
  `construct_event` are stand-ins. The stand-in processor always succeeds,
  so the processor's own rejections (and the partial effects they leave
  behind) are not modelled. Signature checking is an opaque function
  parameter; HMAC is not modelled.
- The ORM: saves, queries and `get_object_or_404` are reads and writes of the
  in-memory `Catalog` and of the `Discount`/`Tax` objects. The
  `MultipleObjectsReturned` case of the lookup cannot arise under the
  modelled unique constraint.
- Float arithmetic and display formatting: the two-decimal price display, the
  amounts in the error messages, `float(tax.percentage)` (the tax percentage
  is kept in hundredths) and `Item.__str__`.
- `Text.Lower`: lower-cases ASCII letters only, because Python's Unicode case
  mapping is not modelled.
- `CheckoutRules.RoundHalfUpPercent`: exact integer rounding, because the
  28-digit precision of Python's default `Decimal` context is not modelled.
- `CheckoutRules.Settings`: `STRIPE_KEYS` entries that are not dictionaries,
  and hook or setting values that are not strings, are not modelled.
- `Models.CheckoutSession`: `created_at` and the 255-character limit on
  `session_id` are not modelled.
- Concurrency: concurrent webhook deliveries and concurrent cache creation
  cannot be expressed in this sequential model.
- `item_page`, template rendering, admin registration, URL routing and the
  settings file. The publishable key is read only by `item_page`.
- The order views, the PaymentIntent flow, inclusive and exclusive tax
  amounts and an order-level paid flag: none of these is in
  catalog/views.py or catalog/services/stripe_api.py.
