/** The steps of catalog/services/stripe_api.py that change state: the two
    remote-id caches, which write the new remote id (and, for taxes, the
    `active` flag) back onto the local row, and the two checkout flows, which
    run the checks of CheckoutRules and then call the processor. */
module StripeApi {
  import opened Results
  import opened Models
  import opened Remote
  import opened CheckoutRules

  /** `ensure_stripe_coupon`: reuse the stored coupon id of an active
      discount, otherwise create a one-time coupon and store its id. */
  method EnsureStripeCoupon(discount: Discount, apiKey: string, s: Settings, processor: Processor)
    returns (r: Result<string, CheckoutError>)
    modifies discount`stripeCouponId, processor
    ensures discount.active == old(discount.active)
    ensures Reusable(old(discount.Entry())) ==>
      r == Success(old(discount.stripeCouponId)) && unchanged(discount) && unchanged(processor)
    ensures !Reusable(old(discount.Entry())) && CacheApiKey(apiKey, s).Failure? ==>
      r == Failure(CacheApiKey(apiKey, s).error) && unchanged(discount) && unchanged(processor)
    ensures !Reusable(old(discount.Entry())) && CacheApiKey(apiKey, s).Success? ==>
      && r == Success(CouponId(|old(processor.coupons)|))
      && processor.coupons == old(processor.coupons)
           + [CouponRequest(discount.percentOff, "once", discount.name, CacheApiKey(apiKey, s).value)]
      && processor.sessions == old(processor.sessions) && processor.taxRates == old(processor.taxRates)
    ensures r.Success? ==> discount.Entry() == CouponAfter(old(discount.Entry()), r.value) && r.value != ""
  {
    if discount.stripeCouponId != "" && discount.active {
      return Success(discount.stripeCouponId);
    }
    var key := CacheApiKey(apiKey, s);
    if key.Failure? {
      return Failure(key.error);
    }
    var id := processor.CreateCoupon(CouponRequest(discount.percentOff, "once", discount.name, key.value));
    discount.stripeCouponId := id;
    r := Success(id);
  }

  /** `ensure_stripe_tax_rate`: the same reuse rule; a recreated tax rate is
      stored and the tax is marked active. */
  method EnsureStripeTaxRate(tax: Tax, apiKey: string, s: Settings, processor: Processor)
    returns (r: Result<string, CheckoutError>)
    modifies tax`stripeTaxRateId, tax`active, processor
    ensures Reusable(old(tax.Entry())) ==>
      r == Success(old(tax.stripeTaxRateId)) && unchanged(tax) && unchanged(processor)
    ensures !Reusable(old(tax.Entry())) && CacheApiKey(apiKey, s).Failure? ==>
      r == Failure(CacheApiKey(apiKey, s).error) && unchanged(tax) && unchanged(processor)
    ensures !Reusable(old(tax.Entry())) && CacheApiKey(apiKey, s).Success? ==>
      && r == Success(TaxRateId(|old(processor.taxRates)|))
      && processor.taxRates == old(processor.taxRates)
           + [TaxRateRequestFor(tax, CacheApiKey(apiKey, s).value)]
      && processor.sessions == old(processor.sessions) && processor.coupons == old(processor.coupons)
    ensures r.Success? ==> tax.Entry() == TaxRateAfter(old(tax.Entry()), r.value) && Reusable(tax.Entry())
  {
    if tax.stripeTaxRateId != "" && tax.active {
      return Success(tax.stripeTaxRateId);
    }
    var key := CacheApiKey(apiKey, s);
    if key.Failure? {
      return Failure(key.error);
    }
    var id := processor.CreateTaxRate(TaxRateRequestFor(tax, key.value));
    tax.stripeTaxRateId := id;
    tax.active := true;
    r := Success(id);
  }

  /** `create_checkout_session_for_item`: the item's checks, then exactly one
      session create; nothing is sent when a check fails. */
  method CreateCheckoutSessionForItem(item: Item, s: Settings, processor: Processor)
    returns (r: Result<string, CheckoutError>)
    modifies processor
    ensures processor.coupons == old(processor.coupons) && processor.taxRates == old(processor.taxRates)
    ensures ItemSessionRequest(item, s).Failure? ==>
      r == Failure(ItemSessionRequest(item, s).error) && processor.sessions == old(processor.sessions)
    ensures ItemSessionRequest(item, s).Success? ==>
      && processor.sessions == old(processor.sessions) + [ItemSessionRequest(item, s).value]
      && r == Success(SessionId(|old(processor.sessions)|))
  {
    var req := ItemSessionRequest(item, s);
    if req.Failure? {
      return Failure(req.error);
    }
    var id := processor.CreateSession(req.value);
    r := Success(id);
  }

  /** The tax-rate create `ensure_stripe_tax_rate` sends for a tax. */
  function TaxRateRequestFor(tax: Tax, key: string): (r: TaxRateRequest)
    reads tax`displayName, tax`percentage, tax`inclusive
    ensures r.active && r.apiKey == key
    ensures r.displayName == tax.displayName && r.percentage == tax.percentage && r.inclusive == tax.inclusive
  {
    TaxRateRequest(tax.displayName, tax.percentage, tax.inclusive, true, key)
  }

  /** The taxes of `taxes` that `ensure_stripe_tax_rate` has to create a
      tax rate for: the active ones without a usable id. */
  function NeedsTaxRate(taxes: seq<Tax>): set<Tax>
    reads taxes
  {
    set t | t in taxes && t.active && !Reusable(t.Entry())
  }

  /** The tax-rate log grew from `oldLog` by exactly the creates for the
      taxes listed in `created`, in that order: each listed tax needed a
      tax rate and now stores the id of its own create, made from its own
      fields with `key`, and every tax of `recreated` is listed. Since the ids
      of different creates differ, no tax is listed twice, so the new entries
      and the taxes of `recreated` match one to one. */
  predicate TaxRatesCreated(recreated: set<Tax>, created: seq<Tax>, oldLog: seq<TaxRateRequest>, key: string,
                            processor: Processor)
    reads recreated`stripeTaxRateId, recreated`displayName, recreated`percentage, recreated`inclusive, processor`taxRates
  {
    && oldLog <= processor.taxRates
    && |processor.taxRates| == |oldLog| + |created|
    && (forall i :: 0 <= i < |created| ==>
          && created[i] in recreated
          && created[i].stripeTaxRateId == TaxRateId(|oldLog| + i)
          && processor.taxRates[|oldLog| + i] == TaxRateRequestFor(created[i], key))
    && (forall t :: t in recreated ==> t in created)
  }

  /** A list without repeats that holds exactly the elements of a set is
      as long as the set is large. */
  lemma {:induction false} DistinctListSize<T>(xs: seq<T>, elems: set<T>)
    requires forall i, j :: 0 <= i < j < |xs| ==> xs[i] != xs[j]
    requires forall i :: 0 <= i < |xs| ==> xs[i] in elems
    requires forall x :: x in elems ==> x in xs
    ensures |xs| == |elems|
  {
    if xs != [] {
      var last := xs[|xs| - 1];
      var rest := xs[..|xs| - 1];
      forall x | x in elems - {last}
        ensures x in rest
      {
        var k :| 0 <= k < |xs| && xs[k] == x;
        assert k < |xs| - 1;
      }
      assert last !in rest by {
        forall k | 0 <= k < |rest|
          ensures rest[k] != last
        {
          assert rest[k] == xs[k];
        }
      }
      DistinctListSize(rest, elems - {last});
    }
  }

  /** The creates of `TaxRatesCreated` are one per tax: no tax is listed
      twice, so the log grew by exactly one create for each tax of
      `recreated`. */
  lemma TaxRatesCreatedOnePerTax(recreated: set<Tax>, created: seq<Tax>, oldLog: seq<TaxRateRequest>, key: string,
                                 processor: Processor)
    requires TaxRatesCreated(recreated, created, oldLog, key, processor)
    ensures forall i, j :: 0 <= i < j < |created| ==> created[i] != created[j]
    ensures |processor.taxRates| == |oldLog| + |recreated|
  {
    forall i, j | 0 <= i < j < |created|
      ensures created[i] != created[j]
    {
      if created[i] == created[j] {
        RemoteIdFresh("txr_", |oldLog| + i, |oldLog| + j);
      }
    }
    DistinctListSize(created, recreated);
  }

  /** Whether `ensure_stripe_coupon` would create a coupon for the order's
      discount: there is one, it is active, and it has no usable id. */
  predicate NeedsCoupon(discount: Discount?)
    reads discount
  {
    discount != null && discount.active && !Reusable(discount.Entry())
  }

  /** The coupon log grew from `oldLog` by one one-time coupon with the
      discount's percentage and name, whose id the discount now stores,
      exactly when a coupon was `needed`; otherwise it is as it was. */
  predicate CouponCreated(discount: Discount?, needed: bool, oldLog: seq<CouponRequest>, key: string,
                          processor: Processor)
    reads discount, processor`coupons
  {
    if needed && discount != null then
      && processor.coupons == oldLog + [CouponRequest(discount.percentOff, "once", discount.name, key)]
      && discount.stripeCouponId == CouponId(|oldLog|)
    else
      processor.coupons == oldLog
  }

  /** A run of `ensure_stripe_tax_rate` over the first `k` active taxes, told
      on values: `before` and `after` are every tax's cache entry when the
      run started and now, `done` the taxes handled so far and `ids` the
      ids answered for them. */
  ghost predicate TaxEntriesState(taxes: seq<Tax>, active: seq<Tax>, before: map<Tax, CacheEntry>,
                                  after: map<Tax, CacheEntry>, k: int, ids: seq<string>, done: set<Tax>)
  {
    && 0 <= k <= |active|
    && after.Keys == before.Keys
    && (forall t :: t in active ==> t in taxes && t in before && before[t].active)
    && |ids| == k
    && (forall j :: 0 <= j < k ==> active[j] in done && ids[j] == after[active[j]].remoteId)
    && (forall t :: t in done ==> t in taxes && t in before && before[t].active)
    && (forall t :: t in after && t !in done ==> after[t] == before[t])
    && (forall t :: t in done ==> after[t] == TaxRateAfter(before[t], after[t].remoteId) && Reusable(after[t]))
  }

  /** The tax-rate side of the same run: `created` lists the handled taxes
      that had no usable id, in order, each holding the id of its create,
      and `log`, which started as `log0`, holds their requests from `reqs`. */
  ghost predicate TaxCreatesState(before: map<Tax, CacheEntry>, after: map<Tax, CacheEntry>,
                                  reqs: map<Tax, TaxRateRequest>, done: set<Tax>, created: seq<Tax>,
                                  log0: seq<TaxRateRequest>, log: seq<TaxRateRequest>)
  {
    && after.Keys == before.Keys && reqs.Keys == before.Keys
    && (forall t :: t in done ==> t in before)
    && log0 <= log && |log| == |log0| + |created|
    && (forall i :: 0 <= i < |created| ==>
          && created[i] in done && !Reusable(before[created[i]])
          && after[created[i]].remoteId == TaxRateId(|log0| + i)
          && log[|log0| + i] == reqs[created[i]])
    && (forall t :: t in done && !Reusable(before[t]) ==> t in created)
  }

  ghost predicate TaxRunState(taxes: seq<Tax>, active: seq<Tax>, before: map<Tax, CacheEntry>,
                              after: map<Tax, CacheEntry>, reqs: map<Tax, TaxRateRequest>, k: int,
                              ids: seq<string>, done: set<Tax>, created: seq<Tax>,
                              log0: seq<TaxRateRequest>, log: seq<TaxRateRequest>)
  {
    && TaxEntriesState(taxes, active, before, after, k, ids, done)
    && |created| <= k
    && TaxCreatesState(before, after, reqs, done, created, log0, log)
  }

  /** One more tax handled keeps the entries' state: the tax's entry becomes
      the one `ensure_stripe_tax_rate` leaves and its id joins the list. */
  lemma TaxEntriesStep(taxes: seq<Tax>, active: seq<Tax>, before: map<Tax, CacheEntry>,
                       after: map<Tax, CacheEntry>, k: int, ids: seq<string>, done: set<Tax>,
                       id: string, after': map<Tax, CacheEntry>)
    requires TaxEntriesState(taxes, active, before, after, k, ids, done)
    requires k < |active|
    requires after' == after[active[k] := TaxRateAfter(after[active[k]], id)]
    requires Reusable(after'[active[k]])
    requires Reusable(after[active[k]]) ==> id == after[active[k]].remoteId
    ensures TaxEntriesState(taxes, active, before, after', k + 1, ids + [id], done + {active[k]})
  {
    assert active[k] in active;
  }

  /** One more tax handled keeps the creates' state: a tax that had no
      usable id adds its request to the log and holds that create's id. */
  lemma TaxCreatesStep(before: map<Tax, CacheEntry>, after: map<Tax, CacheEntry>,
                       reqs: map<Tax, TaxRateRequest>, done: set<Tax>, created: seq<Tax>,
                       log0: seq<TaxRateRequest>, log: seq<TaxRateRequest>,
                       t: Tax, id: string, after': map<Tax, CacheEntry>, recreated: bool, log': seq<TaxRateRequest>)
    requires TaxCreatesState(before, after, reqs, done, created, log0, log)
    requires t in before
    requires t !in done ==> after[t] == before[t]
    requires t in done ==> Reusable(after[t])
    requires after' == after[t := TaxRateAfter(after[t], id)]
    requires recreated == !Reusable(after[t])
    requires recreated ==> id == TaxRateId(|log|) && log' == log + [reqs[t]]
    requires !recreated ==> id == after[t].remoteId && log' == log
    ensures TaxCreatesState(before, after', reqs, done + {t}, if recreated then created + [t] else created, log0, log')
  {
    var created' := if recreated then created + [t] else created;
    forall i | 0 <= i < |created'|
      ensures && created'[i] in done + {t} && !Reusable(before[created'[i]])
              && after'[created'[i]].remoteId == TaxRateId(|log0| + i)
              && log'[|log0| + i] == reqs[created'[i]]
    {
      if i < |created| {
        assert created'[i] == created[i];
        assert created[i] != t || !recreated;
      }
    }
  }

  /** A finished run: every tax active at the start has been handled. Then
      the ids are the active taxes' stored ids in order, every active tax
      holds the entry `ensure_stripe_tax_rate` leaves and every other tax
      its old one, and the new log entries are the creates for exactly the
      taxes that needed a tax rate. */
  lemma TaxRunComplete(taxes: seq<Tax>, active: seq<Tax>, before: map<Tax, CacheEntry>,
                       after: map<Tax, CacheEntry>, reqs: map<Tax, TaxRateRequest>,
                       ids: seq<string>, done: set<Tax>, created: seq<Tax>,
                       log0: seq<TaxRateRequest>, key: string, processor: Processor, need: set<Tax>)
    requires TaxRunState(taxes, active, before, after, reqs, |active|, ids, done, created, log0, processor.taxRates)
    requires forall t :: t in taxes ==> t in after && t.Entry() == after[t]
    requires forall t :: t in taxes ==> t in reqs && reqs[t] == TaxRateRequestFor(t, key)
    requires forall t :: t in taxes && before[t].active ==> t in active
    requires forall t :: t in need ==> t in taxes && before[t].active && !Reusable(before[t])
    requires forall t :: t in taxes && before[t].active && !Reusable(before[t]) ==> t in need
    ensures ids == TaxRateIds(active)
    ensures forall t :: t in taxes && !before[t].active ==> t.Entry() == before[t]
    ensures forall t :: t in taxes && before[t].active ==>
      t.Entry() == TaxRateAfter(before[t], t.stripeTaxRateId) && Reusable(t.Entry())
    ensures |processor.taxRates| <= |log0| + |active|
    ensures TaxRatesCreated(need, created, log0, key, processor)
    ensures need == {} ==> processor.taxRates == log0
  {
    assert forall j :: 0 <= j < |active| ==> TaxRateIds(active)[j] == active[j].stripeTaxRateId;
    forall t | t in taxes && before[t].active
      ensures t in done
    {
      assert t in active;
    }
    if created != [] {
      assert created[0] in need;
    }
  }

  /** Every tax's cache entry and create request, taken as values. */
  ghost method TaxSnapshot(taxes: seq<Tax>, key: string)
    returns (entries: map<Tax, CacheEntry>, reqs: map<Tax, TaxRateRequest>)
    ensures entries.Keys == reqs.Keys
    ensures forall t :: t in taxes ==> t in entries && entries[t] == t.Entry()
    ensures forall t :: t in taxes ==> reqs[t] == TaxRateRequestFor(t, key)
  {
    entries := map t | t in taxes :: t.Entry();
    reqs := map t | t in taxes :: TaxRateRequestFor(t, key);
  }

  /** `ensure_stripe_tax_rate` for one tax, told on values: `entries` holds
      the cache entry of every tax in `taxes`, and the answer says how that
      map and the tax-rate log change. */
  method EnsureTaxRateTracked(tax: Tax, apiKey: string, s: Settings, processor: Processor,
                              ghost taxes: seq<Tax>, ghost entries: map<Tax, CacheEntry>, ghost req: TaxRateRequest)
    returns (id: string, ghost entriesAfter: map<Tax, CacheEntry>, ghost recreated: bool)
    requires CacheApiKey(apiKey, s).Success?
    requires tax in taxes
    requires forall t :: t in taxes ==> t in entries && t.Entry() == entries[t]
    requires req == TaxRateRequestFor(tax, CacheApiKey(apiKey, s).value)
    modifies tax`stripeTaxRateId, tax`active, processor
    ensures forall t :: t in taxes ==> t in entriesAfter && t.Entry() == entriesAfter[t]
    ensures entriesAfter == entries[tax := TaxRateAfter(entries[tax], id)]
    ensures Reusable(entriesAfter[tax])
    ensures recreated == !Reusable(entries[tax])
    ensures recreated ==> id == TaxRateId(|old(processor.taxRates)|) && processor.taxRates == old(processor.taxRates) + [req]
    ensures !recreated ==> id == entries[tax].remoteId && processor.taxRates == old(processor.taxRates)
    ensures processor.sessions == old(processor.sessions) && processor.coupons == old(processor.coupons)
  {
    recreated := !Reusable(entries[tax]);
    var r := EnsureStripeTaxRate(tax, apiKey, s, processor);
    id := r.value;
    entriesAfter := entries[tax := tax.Entry()];
  }

  /** `[ensure_stripe_tax_rate(t) for t in taxes.filter(active=True)]`: the
      taxes active at the start, each given a usable tax-rate id, and those
      ids in order. Inactive taxes are left alone, a tax that already had a
      usable id costs no remote create, and the new tax rates are one create
      per active tax that had none. */
  method EnsureActiveTaxRates(taxes: seq<Tax>, apiKey: string, s: Settings, processor: Processor)
    returns (ids: seq<string>, ghost created: seq<Tax>)
    requires CacheApiKey(apiKey, s).Success?
    modifies taxes`stripeTaxRateId, taxes`active, processor
    ensures ids == TaxRateIds(old(ActiveTaxes(taxes)))
    ensures forall t :: t in taxes && !old(t.active) ==> t.Entry() == old(t.Entry())
    ensures forall t :: t in taxes && old(t.active) ==>
      t.Entry() == TaxRateAfter(old(t.Entry()), t.stripeTaxRateId) && Reusable(t.Entry())
    ensures processor.sessions == old(processor.sessions) && processor.coupons == old(processor.coupons)
    ensures |processor.taxRates| <= |old(processor.taxRates)| + |taxes|
    ensures (forall t :: t in taxes && old(t.active) ==> old(Reusable(t.Entry()))) ==>
      processor.taxRates == old(processor.taxRates)
    ensures TaxRatesCreated(old(NeedsTaxRate(taxes)), created, old(processor.taxRates), CacheApiKey(apiKey, s).value, processor)
  {
    ghost var key := CacheApiKey(apiKey, s).value;
    ghost var log0 := processor.taxRates;
    ghost var before, reqs := TaxSnapshot(taxes, key);
    ghost var after: map<Tax, CacheEntry> := before;
    var active := ActiveTaxes(taxes);
    ids := [];
    ghost var done: set<Tax> := {};
    created := [];
    var k := 0;
    while k < |active|
      invariant TaxRunState(taxes, active, before, after, reqs, k, ids, done, created, log0, processor.taxRates)
      invariant forall t :: t in taxes ==> t in after && t.Entry() == after[t]
      invariant processor.sessions == old(processor.sessions) && processor.coupons == old(processor.coupons)
    {
      var t := active[k];
      assert t in active;
      ghost var log := processor.taxRates;
      var id: string;
      ghost var after': map<Tax, CacheEntry>, recreated: bool;
      id, after', recreated := EnsureTaxRateTracked(t, apiKey, s, processor, taxes, after, reqs[t]);
      TaxEntriesStep(taxes, active, before, after, k, ids, done, id, after');
      TaxCreatesStep(before, after, reqs, done, created, log0, log, t, id, after', recreated, processor.taxRates);
      ids := ids + [id];
      done := done + {t};
      if recreated {
        created := created + [t];
      }
      after := after';
      k := k + 1;
    }
    TaxRunComplete(taxes, active, before, after, reqs, ids, done, created, log0, key, processor, old(NeedsTaxRate(taxes)));
  }

  /** The coupon an order's session carries: the discount's stored id when
      the discount is active, none otherwise. */
  function OrderCoupon(discount: Discount?): (r: Option<string>)
    reads discount
    ensures r.Some? <==> discount != null && discount.active
    ensures r.Some? ==> r.value == discount.stripeCouponId
  {
    if discount != null && discount.active then Some(discount.stripeCouponId) else None
  }

  /** The coupon step of `create_checkout_session_for_order`: an active
      discount gets a coupon through the coupon cache, and the session
      carries exactly the coupon `OrderCoupon` reads off the discount. */
  method EnsureOrderCoupon(discount: Discount?, apiKey: string, s: Settings, processor: Processor,
                           ghost taxes: seq<Tax>)
    returns (coupon: Option<string>)
    requires CacheApiKey(apiKey, s).Success?
    modifies (if discount == null then {} else {discount})`stripeCouponId, processor
    ensures coupon == OrderCoupon(discount)
    ensures discount != null ==>
      && discount.active == old(discount.active)
      && discount.percentOff == old(discount.percentOff) && discount.name == old(discount.name)
    ensures discount != null && old(discount.active) ==>
      discount.Entry() == CouponAfter(old(discount.Entry()), discount.stripeCouponId) && Reusable(discount.Entry())
    ensures discount != null && !old(discount.active) ==> discount.Entry() == old(discount.Entry())
    ensures processor.sessions == old(processor.sessions) && processor.taxRates == old(processor.taxRates)
    ensures unchanged(taxes)
    ensures CouponCreated(discount, old(NeedsCoupon(discount)), old(processor.coupons), CacheApiKey(apiKey, s).value,
      processor)
  {
    coupon := None;
    if discount != null && discount.active {
      var c := EnsureStripeCoupon(discount, apiKey, s, processor);
      coupon := Some(c.value);
    }
  }

  /** The remote ids of `create_checkout_session_for_order`, once its
      checks have passed: tax rates for the active taxes, in order, and a
      coupon for an active discount. No session is created yet. */
  method EnsureOrderRemoteIds(order: Order, secret: string, s: Settings, processor: Processor)
    returns (ids: seq<string>, coupon: Option<string>, ghost createdTaxRates: seq<Tax>)
    requires CacheApiKey(secret, s).Success?
    modifies processor, order.taxes`stripeTaxRateId, order.taxes`active,
      (if order.discount == null then {} else {order.discount})`stripeCouponId
    ensures ids == TaxRateIds(old(ActiveTaxes(order.taxes)))
    ensures coupon == OrderCoupon(order.discount)
    ensures processor.sessions == old(processor.sessions)
    ensures forall t :: t in order.taxes && !old(t.active) ==> t.Entry() == old(t.Entry())
    ensures forall t :: t in order.taxes && old(t.active) ==>
      t.Entry() == TaxRateAfter(old(t.Entry()), t.stripeTaxRateId) && Reusable(t.Entry())
    ensures (forall t :: t in order.taxes && old(t.active) ==> old(Reusable(t.Entry()))) ==>
      processor.taxRates == old(processor.taxRates)
    ensures |processor.taxRates| <= |old(processor.taxRates)| + |order.taxes|
    ensures order.discount != null ==> order.discount.active == old(order.discount.active)
    ensures order.discount != null && old(order.discount.active) ==>
      order.discount.Entry() == CouponAfter(old(order.discount.Entry()), order.discount.stripeCouponId)
      && Reusable(order.discount.Entry())
    ensures order.discount != null && !old(order.discount.active) ==>
      order.discount.Entry() == old(order.discount.Entry())
    ensures processor.coupons != old(processor.coupons) ==>
      order.discount != null && old(order.discount.active) && !old(Reusable(order.discount.Entry()))
    ensures TaxRatesCreated(old(NeedsTaxRate(order.taxes)), createdTaxRates, old(processor.taxRates),
      CacheApiKey(secret, s).value, processor)
    ensures CouponCreated(order.discount, old(NeedsCoupon(order.discount)), old(processor.coupons),
      CacheApiKey(secret, s).value, processor)
  {
    ids, createdTaxRates := EnsureActiveTaxRates(order.taxes, secret, s, processor);
    coupon := EnsureOrderCoupon(order.discount, secret, s, processor, order.taxes);
  }

  /** The remote part of `create_checkout_session_for_order`, once its
      checks have passed: tax rates for the active taxes, a coupon for an
      active discount, then exactly one session whose lines all carry those
      tax-rate ids and which carries the coupon only when the discount is
      active. */
  method SubmitOrderSession(order: Order, checked: Checked, s: Settings, processor: Processor)
    returns (id: string, ghost createdTaxRates: seq<Tax>)
    requires CacheApiKey(checked.secret, s).Success?
    modifies processor, order.taxes`stripeTaxRateId, order.taxes`active,
      (if order.discount == null then {} else {order.discount})`stripeCouponId
    ensures id == SessionId(|old(processor.sessions)|)
    ensures processor.sessions == old(processor.sessions)
      + [OrderSessionRequest(order, checked, TaxRateIds(old(ActiveTaxes(order.taxes))), OrderCoupon(order.discount), s)]
    ensures forall t :: t in order.taxes && !old(t.active) ==> t.Entry() == old(t.Entry())
    ensures forall t :: t in order.taxes && old(t.active) ==>
      t.Entry() == TaxRateAfter(old(t.Entry()), t.stripeTaxRateId) && Reusable(t.Entry())
    ensures (forall t :: t in order.taxes && old(t.active) ==> old(Reusable(t.Entry()))) ==>
      processor.taxRates == old(processor.taxRates)
    ensures |processor.taxRates| <= |old(processor.taxRates)| + |order.taxes|
    ensures order.discount != null ==> order.discount.active == old(order.discount.active)
    ensures order.discount != null && old(order.discount.active) ==>
      order.discount.Entry() == CouponAfter(old(order.discount.Entry()), order.discount.stripeCouponId)
      && Reusable(order.discount.Entry())
    ensures order.discount != null && !old(order.discount.active) ==>
      order.discount.Entry() == old(order.discount.Entry())
    ensures processor.coupons != old(processor.coupons) ==>
      order.discount != null && old(order.discount.active) && !old(Reusable(order.discount.Entry()))
    ensures TaxRatesCreated(old(NeedsTaxRate(order.taxes)), createdTaxRates, old(processor.taxRates),
      CacheApiKey(checked.secret, s).value, processor)
    ensures CouponCreated(order.discount, old(NeedsCoupon(order.discount)), old(processor.coupons),
      CacheApiKey(checked.secret, s).value, processor)
  {
    ghost var active := ActiveTaxes(order.taxes);
    var ids, coupon;
    ids, coupon, createdTaxRates := EnsureOrderRemoteIds(order, checked.secret, s, processor);
    assert ids == TaxRateIds(active);
    id := processor.CreateSession(OrderSessionRequest(order, checked, ids, coupon, s));
  }

  /** `create_checkout_session_for_order`: its checks, in order, and on
      success the remote part. A failed check sends nothing and changes no
      row. */
  method CreateCheckoutSessionForOrder(order: Order, s: Settings, processor: Processor)
    returns (r: Result<string, CheckoutError>, ghost createdTaxRates: seq<Tax>)
    modifies processor, order.taxes`stripeTaxRateId, order.taxes`active,
      (if order.discount == null then {} else {order.discount})`stripeCouponId
    ensures old(ValidateOrder(order.items, order.discount, s)).Failure? ==>
      && r == Failure(old(ValidateOrder(order.items, order.discount, s)).error)
      && unchanged(processor) && unchanged(order.taxes)
      && (order.discount != null ==> unchanged(order.discount))
    ensures old(ValidateOrder(order.items, order.discount, s)).Success? ==>
      && r == Success(SessionId(|old(processor.sessions)|))
      && processor.sessions == old(processor.sessions) + [OrderSessionRequest(order,
           old(ValidateOrder(order.items, order.discount, s)).value,
           TaxRateIds(old(ActiveTaxes(order.taxes))), OrderCoupon(order.discount), s)]
    ensures r.Success? ==>
      forall t :: t in order.taxes && old(t.active) ==>
        t.Entry() == TaxRateAfter(old(t.Entry()), t.stripeTaxRateId) && Reusable(t.Entry())
    ensures forall t :: t in order.taxes && !old(t.active) ==> t.Entry() == old(t.Entry())
    ensures order.discount != null ==> order.discount.active == old(order.discount.active)
    ensures r.Success? && order.discount != null && old(order.discount.active) ==>
      order.discount.Entry() == CouponAfter(old(order.discount.Entry()), order.discount.stripeCouponId)
      && Reusable(order.discount.Entry())
    ensures order.discount != null && !old(order.discount.active) ==>
      order.discount.Entry() == old(order.discount.Entry())
    ensures old(ValidateOrder(order.items, order.discount, s)).Success? ==>
      && CacheApiKey(old(ValidateOrder(order.items, order.discount, s)).value.secret, s).Success?
      && TaxRatesCreated(old(NeedsTaxRate(order.taxes)), createdTaxRates, old(processor.taxRates),
           CacheApiKey(old(ValidateOrder(order.items, order.discount, s)).value.secret, s).value, processor)
      && CouponCreated(order.discount, old(NeedsCoupon(order.discount)), old(processor.coupons),
           CacheApiKey(old(ValidateOrder(order.items, order.discount, s)).value.secret, s).value, processor)
  {
    var checked := ValidateOrder(order.items, order.discount, s);
    if checked.Failure? {
      return Failure(checked.error), [];
    }
    ResolvedSecretServesCaches(checked.value.currency, s);
    var id;
    id, createdTaxRates := SubmitOrderSession(order, checked.value, s, processor);
    r := Success(id);
  }

  /** Two `ensure_stripe_tax_rate` calls in a row: the second answers the id
      the first did and creates nothing, whether or not the first created. */
  method EnsureStripeTaxRateTwice(tax: Tax, apiKey: string, s: Settings, processor: Processor)
    returns (first: Result<string, CheckoutError>, second: Result<string, CheckoutError>)
    modifies tax`stripeTaxRateId, tax`active, processor
    ensures first.Success? ==> second == first
    ensures first.Success? ==>
      |processor.taxRates| == |old(processor.taxRates)| + (if old(Reusable(tax.Entry())) then 0 else 1)
  {
    first := EnsureStripeTaxRate(tax, apiKey, s, processor);
    second := EnsureStripeTaxRate(tax, apiKey, s, processor);
  }

  /** Two `ensure_stripe_coupon` calls in a row: for an active discount the
      second answers the first's id; for an inactive one each call creates a
      new coupon, because the coupon cache does not mark the discount
      active. */
  method EnsureStripeCouponTwice(discount: Discount, apiKey: string, s: Settings, processor: Processor)
    returns (first: Result<string, CheckoutError>, second: Result<string, CheckoutError>)
    modifies discount`stripeCouponId, processor
    ensures first.Success? && old(discount.active) ==> second == first
    ensures first.Success? && !old(discount.active) ==>
      second.Success? && second != first && |processor.coupons| == |old(processor.coupons)| + 2
  {
    first := EnsureStripeCoupon(discount, apiKey, s, processor);
    second := EnsureStripeCoupon(discount, apiKey, s, processor);
    if first.Success? && second.Success? && second.value == first.value && !discount.active {
      RemoteIdFresh("coupon_", |old(processor.coupons)|, |old(processor.coupons)| + 1);
    }
  }
}
