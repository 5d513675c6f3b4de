/** The pure rules of catalog/services/stripe_api.py: which secret key a
    currency is charged with, the per-currency minimum charge, the
    discount-aware pre-check of an order total, the checks an item or an
    order must pass before any remote call, the shape of the session request,
    and when a cached remote id may be reused. */
module CheckoutRules {
  import opened Results
  import opened Text
  import opened Models
  import opened Remote

  /** The reasons a checkout is refused before anything is sent. */
  datatype CheckoutError =
    | EmptyOrder
    | MixedCurrency
    | BelowMinimumCharge(amount: int, minimum: int, currency: string)
    | NoCredentialForCurrency(currency: string)

  /** What the credential resolution reads from the deployment settings.
      `secretResolver` is the optional `get_stripe_secret_for` hook,
      `stripeKeys` the `STRIPE_KEYS` table when it is a dictionary,
      `defaultCurrency` the `DEFAULT_CURRENCY` setting when present and
      `legacySecret` the `STRIPE_SECRET_KEY` setting ("" when absent). */
  datatype Settings = Settings(
    secretResolver: Option<string -> string>,
    stripeKeys: Option<map<string, map<string, string>>>,
    defaultCurrency: Option<string>,
    legacySecret: string,
    successUrl: string,
    cancelUrl: string)

  /** `DEFAULT_CURRENCY`, or "usd" when the setting is absent. */
  function DefaultCurrency(s: Settings): string {
    s.defaultCurrency.GetOr("usd")
  }

  /** The key pair the table gives for `cur`: the currency's own entry when
      it is a non-empty dictionary, else the entry of the (not lower-cased)
      default currency, else nothing. */
  function KeyEntry(keys: map<string, map<string, string>>, cur: string, default: string): (r: map<string, string>)
    ensures cur in keys && keys[cur] != map[] ==> r == keys[cur]
    ensures !(cur in keys && keys[cur] != map[]) && default in keys ==> r == keys[default]
    ensures !(cur in keys && keys[cur] != map[]) && default !in keys ==> r == map[]
  {
    if cur in keys && keys[cur] != map[] then keys[cur]
    else if default in keys then keys[default]
    else map[]
  }

  /** The secret the key table offers for `cur`, "" when there is none. */
  function TableSecret(s: Settings, cur: string): string {
    if s.stripeKeys.None? then ""
    else
      var pair := KeyEntry(s.stripeKeys.value, cur, DefaultCurrency(s));
      if "secret" in pair then pair["secret"] else ""
  }

  /** The currency the resolution works with: the given one, or the default
      when none is given, lower-cased. */
  function ResolvedCurrency(currency: string, s: Settings): string {
    Lower(if currency != "" then currency else DefaultCurrency(s))
  }

  /** `_secret_for_currency`: the hook, else the key table, else the legacy
      key, else an error. */
  function SecretForCurrency(currency: string, s: Settings): (r: Result<string, CheckoutError>)
    ensures s.secretResolver.Some? ==> r.Success?
    ensures r.Failure? <==>
      s.secretResolver.None? && TableSecret(s, ResolvedCurrency(currency, s)) == "" && s.legacySecret == ""
    ensures r.Failure? ==> r.error == NoCredentialForCurrency(ResolvedCurrency(currency, s))
    ensures r.Success? && s.secretResolver.None? ==> r.value != ""
  {
    var cur := ResolvedCurrency(currency, s);
    if s.secretResolver.Some? then Success(s.secretResolver.value(cur))
    else if TableSecret(s, cur) != "" then Success(TableSecret(s, cur))
    else if s.legacySecret != "" then Success(s.legacySecret)
    else Failure(NoCredentialForCurrency(cur))
  }

  /** First in precedence: a configured hook decides alone. */
  lemma ResolverHookWins(currency: string, s: Settings)
    requires s.secretResolver.Some?
    ensures SecretForCurrency(currency, s) == Success(s.secretResolver.value(ResolvedCurrency(currency, s)))
  {
  }

  /** Second: without a hook, a currency's own entry with a secret is used,
      whatever the default entry and the legacy key say. */
  lemma CurrencyEntryBeatsDefaultAndLegacy(currency: string, s: Settings)
    requires s.secretResolver.None? && s.stripeKeys.Some?
    requires var cur := ResolvedCurrency(currency, s);
      cur in s.stripeKeys.value && "secret" in s.stripeKeys.value[cur] && s.stripeKeys.value[cur]["secret"] != ""
    ensures SecretForCurrency(currency, s) == Success(s.stripeKeys.value[ResolvedCurrency(currency, s)]["secret"])
  {
  }

  /** A missing (or empty) currency entry falls back to the default
      currency's entry. */
  lemma MissingEntryFallsBackToDefault(currency: string, s: Settings)
    requires s.secretResolver.None? && s.stripeKeys.Some?
    requires var cur := ResolvedCurrency(currency, s);
      !(cur in s.stripeKeys.value && s.stripeKeys.value[cur] != map[])
    requires var d := DefaultCurrency(s);
      d in s.stripeKeys.value && "secret" in s.stripeKeys.value[d] && s.stripeKeys.value[d]["secret"] != ""
    ensures SecretForCurrency(currency, s) == Success(s.stripeKeys.value[DefaultCurrency(s)]["secret"])
  {
  }

  /** Third: without a hook, when the table is absent or the entry it picks
      holds no non-empty secret, the legacy key is used, and without one
      resolution fails. */
  lemma NoTableSecretFallsToLegacy(currency: string, s: Settings)
    requires s.secretResolver.None?
    requires s.stripeKeys.Some? ==>
      var pair := KeyEntry(s.stripeKeys.value, ResolvedCurrency(currency, s), DefaultCurrency(s));
      "secret" !in pair || pair["secret"] == ""
    ensures SecretForCurrency(currency, s) ==
      if s.legacySecret != "" then Success(s.legacySecret)
      else Failure(NoCredentialForCurrency(ResolvedCurrency(currency, s)))
  {
  }

  /** A currency entry that is present but holds no secret does not fall back
      to the default entry: resolution goes straight to the legacy key. */
  lemma SecretlessEntrySkipsToLegacy(currency: string, s: Settings)
    requires s.secretResolver.None? && s.stripeKeys.Some?
    requires var cur := ResolvedCurrency(currency, s);
      cur in s.stripeKeys.value && s.stripeKeys.value[cur] != map[]
      && ("secret" !in s.stripeKeys.value[cur] || s.stripeKeys.value[cur]["secret"] == "")
    ensures SecretForCurrency(currency, s) ==
      if s.legacySecret != "" then Success(s.legacySecret)
      else Failure(NoCredentialForCurrency(ResolvedCurrency(currency, s)))
  {
    NoTableSecretFallsToLegacy(currency, s);
  }

  /** Whatever is returned comes from one of the three configured sources. */
  lemma SecretComesFromConfiguration(currency: string, s: Settings)
    requires SecretForCurrency(currency, s).Success?
    ensures var k := SecretForCurrency(currency, s).value;
      || (s.secretResolver.Some? && k == s.secretResolver.value(ResolvedCurrency(currency, s)))
      || (s.stripeKeys.Some? &&
            (exists c :: c in s.stripeKeys.value && "secret" in s.stripeKeys.value[c] && s.stripeKeys.value[c]["secret"] == k))
      || k == s.legacySecret
  {
    var cur := ResolvedCurrency(currency, s);
    if s.secretResolver.None? && TableSecret(s, cur) != "" {
      var keys := s.stripeKeys.value;
      if cur in keys && keys[cur] != map[] {
        assert "secret" in keys[cur];
      } else {
        assert "secret" in keys[DefaultCurrency(s)];
      }
    }
  }

  /** A given currency is looked up case-insensitively. */
  lemma SecretLookupIgnoresCase(currency: string, s: Settings)
    ensures SecretForCurrency(Lower(currency), s) == SecretForCurrency(currency, s)
  {
    LowerIdempotent(currency);
    assert currency == "" <==> Lower(currency) == "";
  }

  /** `api_key or _secret_for_currency(DEFAULT_CURRENCY)`: the key a cache
      create call is sent with. */
  function CacheApiKey(apiKey: string, s: Settings): (r: Result<string, CheckoutError>)
    ensures apiKey != "" ==> r == Success(apiKey)
    ensures apiKey == "" ==> r == SecretForCurrency(DefaultCurrency(s), s)
  {
    if apiKey != "" then Success(apiKey) else SecretForCurrency(DefaultCurrency(s), s)
  }

  /** A secret the checkout flow resolved can always be passed on to the
      caches: if it is empty it came from the hook, which answers the default
      currency too. */
  lemma ResolvedSecretServesCaches(currency: string, s: Settings)
    requires SecretForCurrency(currency, s).Success?
    ensures CacheApiKey(SecretForCurrency(currency, s).value, s).Success?
  {
  }

  /** `_min_charge_for_currency`, in minor units. */
  function MinChargeForCurrency(currency: string): (r: int)
    ensures r == 30 <==> Lower(currency) == "gbp"
    ensures r == 50 <==> Lower(currency) != "gbp"
  {
    var cur := Lower(if currency != "" then currency else "usd");
    var table := map["usd" := 50, "eur" := 50, "gbp" := 30];
    assert Lower("usd") == "usd" && Lower("gbp") == "gbp";
    assert cur in table ==> cur == "usd" || cur == "eur" || cur == "gbp";
    if cur in table then table[cur] else 50
  }

  /** `Decimal(x / 100).quantize(1, ROUND_HALF_UP)`. */
  function RoundHalfUpPercent(x: int): (r: int)
    ensures x >= 0 ==> 100 * r - 50 <= x < 100 * r + 50
    ensures x < 0 ==> 100 * r - 50 < x <= 100 * r + 50
  {
    if x >= 0 then (x + 50) / 100 else -((-x + 50) / 100)
  }

  /** The rounding is the nearest integer to x / 100 with halves rounded
      away from zero: nothing else satisfies its bounds. */
  lemma RoundHalfUpPercentUnique(x: int, r: int)
    requires x >= 0 ==> 100 * r - 50 <= x < 100 * r + 50
    requires x < 0 ==> 100 * r - 50 < x <= 100 * r + 50
    ensures r == RoundHalfUpPercent(x)
  {
    var q := RoundHalfUpPercent(x);
    assert 100 * (r - q) < 100 && 100 * (q - r) < 100;
  }

  /** `_apply_order_discount_cents`: the amount less an active discount's
      share of it, rounded half-up. */
  function ApplyOrderDiscountCents(amount: int, discount: Discount?): (r: int)
    reads discount
    ensures discount == null || !discount.active ==> r == amount
    ensures discount != null && discount.active && amount * discount.percentOff >= 0 ==>
      100 * (amount - r) - 50 <= amount * discount.percentOff < 100 * (amount - r) + 50
  {
    if discount == null || !discount.active then amount
    else amount - RoundHalfUpPercent(amount * discount.percentOff)
  }

  /** With a percentage between 0 and 100 the estimate never leaves
      [0, amount]. */
  lemma DiscountedEstimateWithinAmount(amount: int, discount: Discount?)
    requires amount >= 0
    requires discount != null ==> 0 <= discount.percentOff <= 100
    ensures 0 <= ApplyOrderDiscountCents(amount, discount) <= amount
  {
    if discount != null && discount.active {
      var x := amount * discount.percentOff;
      ShareWithinHundredfold(amount, discount.percentOff);
      RoundedShareWithin(amount, x);
    }
  }

  lemma ShareWithinHundredfold(amount: int, p: int)
    requires amount >= 0 && 0 <= p <= 100
    ensures 0 <= amount * p <= 100 * amount
  {
    assert 100 * amount - amount * p == amount * (100 - p);
  }

  lemma RoundedShareWithin(amount: int, x: int)
    requires 0 <= x <= 100 * amount
    ensures 0 <= RoundHalfUpPercent(x) <= amount
  {
  }

  /** `_product_data_for_item`. */
  function ProductDataForItem(item: Item): (r: ProductData)
    ensures r.name == item.name
    ensures r.description.Some? <==> item.description != ""
    ensures r.description.Some? ==> r.description.value == item.description
  {
    ProductData(item.name, if item.description != "" then Some(item.description) else None)
  }

  /** The currency of a single-item checkout: the item's, "usd" if it has
      none, lower-cased. */
  function ItemCurrency(item: Item): string {
    Lower(if item.currency != "" then item.currency else "usd")
  }

  /** The session request `create_checkout_session_for_item` sends, or the
      error it raises first. */
  function ItemSessionRequest(item: Item, s: Settings): (r: Result<SessionRequest, CheckoutError>)
    ensures r.Success? <==>
      SecretForCurrency(ItemCurrency(item), s).Success? && item.price >= MinChargeForCurrency(ItemCurrency(item))
    ensures SecretForCurrency(ItemCurrency(item), s).Failure? ==> r == Failure(SecretForCurrency(ItemCurrency(item), s).error)
    ensures SecretForCurrency(ItemCurrency(item), s).Success? && item.price < MinChargeForCurrency(ItemCurrency(item)) ==>
      r == Failure(BelowMinimumCharge(item.price, MinChargeForCurrency(ItemCurrency(item)), ItemCurrency(item)))
    ensures r.Success? ==>
      && |r.value.lineItems| == 1
      && r.value.lineItems[0] == LineItem(ItemCurrency(item), ProductDataForItem(item), item.price, 1, None)
      && r.value.coupon.None? && r.value.clientReferenceId.None? && r.value.mode == "payment"
      && r.value.apiKey == SecretForCurrency(ItemCurrency(item), s).value
  {
    var currency := ItemCurrency(item);
    match SecretForCurrency(currency, s)
    case Failure(e) => Failure(e)
    case Success(secret) =>
      var minNeeded := MinChargeForCurrency(currency);
      if item.price < minNeeded then Failure(BelowMinimumCharge(item.price, minNeeded, currency))
      else Success(SessionRequest(
        "payment",
        [LineItem(currency, ProductDataForItem(item), item.price, 1, None)],
        None, map[], None, s.successUrl, s.cancelUrl, secret))
  }

  /** `{i.currency.lower() for i in items}`. */
  function OrderCurrencies(items: seq<Item>): set<string> {
    set i | i in items :: Lower(i.currency)
  }

  /** More than one currency in the set means two items disagree on their
      currency, and back. */
  lemma MixedCurrencyMeansTwoItemsDiffer(items: seq<Item>)
    ensures |OrderCurrencies(items)| > 1 <==>
      exists i, j :: 0 <= i < |items| && 0 <= j < |items| && Lower(items[i].currency) != Lower(items[j].currency)
  {
    var cs := OrderCurrencies(items);
    if |cs| > 1 {
      var a :| a in cs;
      assert |cs - {a}| == |cs| - 1;
      var b :| b in cs - {a};
      var i :| 0 <= i < |items| && Lower(items[i].currency) == a;
      var j :| 0 <= j < |items| && Lower(items[j].currency) == b;
    }
    if exists i, j :: 0 <= i < |items| && 0 <= j < |items| && Lower(items[i].currency) != Lower(items[j].currency) {
      var i, j :| 0 <= i < |items| && 0 <= j < |items| && Lower(items[i].currency) != Lower(items[j].currency);
      assert {Lower(items[i].currency), Lower(items[j].currency)} <= cs;
      assert |{Lower(items[i].currency), Lower(items[j].currency)}| == 2;
      SubsetCardinality({Lower(items[i].currency), Lower(items[j].currency)}, cs);
    }
  }

  lemma SubsetCardinality<T>(a: set<T>, b: set<T>)
    requires a <= b
    ensures |a| <= |b|
  {
    assert b == a + (b - a);
  }

  /** A non-empty order with at most one currency has exactly the first
      item's: `next(iter(currencies))`. */
  lemma SingleCurrency(items: seq<Item>)
    requires items != [] && |OrderCurrencies(items)| <= 1
    ensures OrderCurrencies(items) == {Lower(items[0].currency)}
  {
    var c := Lower(items[0].currency);
    var cs := OrderCurrencies(items);
    assert c in cs;
    forall d | d in cs ensures d == c {
      if d != c {
        SubsetCardinality({c, d}, cs);
      }
    }
  }

  /** `sum(int(i.price) for i in items)`. */
  function Subtotal(items: seq<Item>): (r: nat)
    ensures forall i :: 0 <= i < |items| ==> items[i].price <= r
  {
    if items == [] then 0 else Subtotal(items[..|items| - 1]) + items[|items| - 1].price
  }

  /** What an order that passed its checks is charged in, and with. */
  datatype Checked = Checked(currency: string, secret: string)

  /** The checks `create_checkout_session_for_order` makes before any remote
      call, in its order: items, currencies, credential, minimum. */
  function ValidateOrder(items: seq<Item>, discount: Discount?, s: Settings): (r: Result<Checked, CheckoutError>)
    reads discount
    ensures r == Failure(EmptyOrder) <==> items == []
    ensures r == Failure(MixedCurrency) <==> items != [] && |OrderCurrencies(items)| > 1
    ensures r.Success? <==>
      && items != [] && |OrderCurrencies(items)| <= 1
      && SecretForCurrency(Lower(items[0].currency), s).Success?
      && ApplyOrderDiscountCents(Subtotal(items), discount) >= MinChargeForCurrency(Lower(items[0].currency))
    ensures items != [] && |OrderCurrencies(items)| <= 1 && SecretForCurrency(Lower(items[0].currency), s).Failure? ==>
      r == Failure(SecretForCurrency(Lower(items[0].currency), s).error)
    ensures && items != [] && |OrderCurrencies(items)| <= 1 && SecretForCurrency(Lower(items[0].currency), s).Success?
            && ApplyOrderDiscountCents(Subtotal(items), discount) < MinChargeForCurrency(Lower(items[0].currency)) ==>
      r == Failure(BelowMinimumCharge(ApplyOrderDiscountCents(Subtotal(items), discount),
                                      MinChargeForCurrency(Lower(items[0].currency)), Lower(items[0].currency)))
    ensures r.Success? ==>
      && OrderCurrencies(items) == {r.value.currency}
      && SecretForCurrency(r.value.currency, s) == Success(r.value.secret)
      && ApplyOrderDiscountCents(Subtotal(items), discount) >= MinChargeForCurrency(r.value.currency)
    ensures r.Failure? && r.error.BelowMinimumCharge? ==>
      r.error.amount == ApplyOrderDiscountCents(Subtotal(items), discount) && r.error.amount < r.error.minimum
      && r.error.minimum == MinChargeForCurrency(r.error.currency) && OrderCurrencies(items) == {r.error.currency}
  {
    if items == [] then Failure(EmptyOrder)
    else if |OrderCurrencies(items)| > 1 then Failure(MixedCurrency)
    else
      SingleCurrency(items);
      var currency := Lower(items[0].currency);
      match SecretForCurrency(currency, s)
      case Failure(e) => Failure(e)
      case Success(secret) =>
        var estTotal := ApplyOrderDiscountCents(Subtotal(items), discount);
        var minNeeded := MinChargeForCurrency(currency);
        if estTotal < minNeeded then Failure(BelowMinimumCharge(estTotal, minNeeded, currency))
        else Success(Checked(currency, secret))
  }

  /** The line items of an order: one per item, quantity 1, the item's
      price, and the same tax-rate ids on each when there are any. */
  function OrderLineItems(items: seq<Item>, currency: string, taxRateIds: seq<string>): (r: seq<LineItem>)
    ensures |r| == |items|
    ensures forall i :: 0 <= i < |r| ==>
      && r[i].quantity == 1 && r[i].unitAmount == items[i].price && r[i].currency == currency
      && r[i].product == ProductDataForItem(items[i])
      && r[i].taxRates == (if taxRateIds == [] then None else Some(taxRateIds))
  {
    seq(|items|, i requires 0 <= i < |items| =>
      LineItem(currency, ProductDataForItem(items[i]), items[i].price, 1,
        if taxRateIds == [] then None else Some(taxRateIds)))
  }

  /** Every line of an order carries the identical tax-rate list. */
  lemma LineItemsShareTaxRates(items: seq<Item>, currency: string, taxRateIds: seq<string>, i: nat, j: nat)
    requires i < |items| && j < |items|
    ensures OrderLineItems(items, currency, taxRateIds)[i].taxRates == OrderLineItems(items, currency, taxRateIds)[j].taxRates
  {
  }

  /** The session request of an order once its tax rates and coupon are
      known. */
  function OrderSessionRequest(order: Order, checked: Checked, taxRateIds: seq<string>, coupon: Option<string>, s: Settings): (r: SessionRequest)
    ensures r.lineItems == OrderLineItems(order.items, checked.currency, taxRateIds)
    ensures r.clientReferenceId == Some(NatToString(order.id))
    ensures r.metadata == map["order_id" := NatToString(order.id)]
    ensures r.coupon == coupon && r.apiKey == checked.secret
  {
    SessionRequest(
      "payment",
      OrderLineItems(order.items, checked.currency, taxRateIds),
      Some(NatToString(order.id)),
      map["order_id" := NatToString(order.id)],
      coupon, s.successUrl, s.cancelUrl, checked.secret)
  }

  /** The coupon cache after `ensure_stripe_coupon`: kept when reusable,
      otherwise pointed at the new coupon; `active` is never touched. */
  function CouponAfter(e: CacheEntry, newId: string): (r: CacheEntry)
    ensures r.active == e.active
    ensures Reusable(e) ==> r == e
    ensures !Reusable(e) ==> r.remoteId == newId
  {
    if Reusable(e) then e else e.(remoteId := newId)
  }

  /** The tax-rate cache after `ensure_stripe_tax_rate`: kept when reusable,
      otherwise pointed at the new tax rate and activated. */
  function TaxRateAfter(e: CacheEntry, newId: string): (r: CacheEntry)
    ensures Reusable(e) ==> r == e
    ensures !Reusable(e) ==> r == CacheEntry(newId, true)
    ensures newId != "" ==> Reusable(r)
  {
    if Reusable(e) then e else CacheEntry(newId, true)
  }

  /** A second `ensure_stripe_tax_rate` right after the first reuses what
      the first stored. */
  lemma TaxRateCacheIdempotent(e: CacheEntry, first: string, second: string)
    requires first != ""
    ensures TaxRateAfter(TaxRateAfter(e, first), second) == TaxRateAfter(e, first)
  {
  }

  /** The coupon cache is idempotent only for an active discount: an inactive
      one gets a new coupon on every call. */
  lemma CouponCacheIdempotentIffActive(e: CacheEntry, first: string, second: string)
    requires first != "" && second != "" && first != second
    ensures CouponAfter(CouponAfter(e, first), second) == CouponAfter(e, first) <==> e.active
  {
  }

  /** `order.taxes.filter(active=True)`, in order. */
  function ActiveTaxes(taxes: seq<Tax>): (r: seq<Tax>)
    reads taxes
    ensures forall t :: t in r ==> t in taxes && t.active
    ensures forall t :: t in taxes && t.active ==> t in r
    ensures |r| <= |taxes|
  {
    if taxes == [] then []
    else if taxes[0].active then [taxes[0]] + ActiveTaxes(taxes[1..])
    else ActiveTaxes(taxes[1..])
  }

  /** The stored tax-rate ids of some taxes, in order. */
  function TaxRateIds(taxes: seq<Tax>): seq<string>
    reads taxes
  {
    seq(|taxes|, i requires 0 <= i < |taxes| reads taxes => taxes[i].stripeTaxRateId)
  }
}
