/** The payment processor as the checkout code sees it: the requests it sends
    (checkout sessions, coupons, tax rates) and a stand-in processor that
    records every create request and answers with a new id. */
module Remote {
  import opened Results
  import opened Text

  /** `product_data` of a line item; the description is sent only when the
      item has one. */
  datatype ProductData = ProductData(name: string, description: Option<string>)

  /** One entry of `line_items`; `taxRates` is absent when no tax rate is
      attached. */
  datatype LineItem = LineItem(currency: string, product: ProductData, unitAmount: int, quantity: nat, taxRates: Option<seq<string>>)

  /** The parameters of a checkout-session create call. `coupon` stands for
      `discounts=[{"coupon": id}]`. */
  datatype SessionRequest = SessionRequest(
    mode: string,
    lineItems: seq<LineItem>,
    clientReferenceId: Option<string>,
    metadata: map<string, string>,
    coupon: Option<string>,
    successUrl: string,
    cancelUrl: string,
    apiKey: string)

  datatype CouponRequest = CouponRequest(percentOff: int, duration: string, name: string, apiKey: string)

  datatype TaxRateRequest = TaxRateRequest(displayName: string, percentage: int, inclusive: bool, active: bool, apiKey: string)

  /** The id the stand-in processor gives to the n-th object of a kind. */
  function RemoteId(prefix: string, n: nat): (r: string)
    ensures |r| > |prefix|
  {
    prefix + NatToString(n)
  }

  function SessionId(n: nat): string { RemoteId("cs_", n) }
  function CouponId(n: nat): string { RemoteId("coupon_", n) }
  function TaxRateId(n: nat): string { RemoteId("txr_", n) }

  /** Every create answers with a new id: two different creates never share
      one. */
  lemma RemoteIdFresh(prefix: string, m: nat, n: nat)
    requires RemoteId(prefix, m) == RemoteId(prefix, n)
    ensures m == n
  {
    var a, b := RemoteId(prefix, m), RemoteId(prefix, n);
    assert a[|prefix|..] == NatToString(m);
    assert b[|prefix|..] == NatToString(n);
    NatToStringInjective(m, n);
  }

  /** The processor: the log of every create request it has accepted, in
      order. The number of objects of a kind is the length of its log. */
  class Processor {
    var sessions: seq<SessionRequest>
    var coupons: seq<CouponRequest>
    var taxRates: seq<TaxRateRequest>

    constructor ()
      ensures sessions == [] && coupons == [] && taxRates == []
    {
      sessions, coupons, taxRates := [], [], [];
    }

    /** `stripe.checkout.Session.create`. */
    method CreateSession(req: SessionRequest) returns (id: string)
      modifies this
      ensures sessions == old(sessions) + [req]
      ensures coupons == old(coupons) && taxRates == old(taxRates)
      ensures id == SessionId(|old(sessions)|)
    {
      id := SessionId(|sessions|);
      sessions := sessions + [req];
    }

    /** `stripe.Coupon.create`. */
    method CreateCoupon(req: CouponRequest) returns (id: string)
      modifies this
      ensures coupons == old(coupons) + [req]
      ensures sessions == old(sessions) && taxRates == old(taxRates)
      ensures id == CouponId(|old(coupons)|)
    {
      id := CouponId(|coupons|);
      coupons := coupons + [req];
    }

    /** `stripe.TaxRate.create`. */
    method CreateTaxRate(req: TaxRateRequest) returns (id: string)
      modifies this
      ensures taxRates == old(taxRates) + [req]
      ensures sessions == old(sessions) && coupons == old(coupons)
      ensures id == TaxRateId(|old(taxRates)|)
    {
      id := TaxRateId(|taxRates|);
      taxRates := taxRates + [req];
    }
  }
}
