/** The records the checkout code reads and writes: the catalogue `Item`, the
    `CheckoutSession` reconciliation row (catalog/models.py), and the
    `Discount`, `Tax` and `Order` entities, of which only the fields the
    checkout code touches are kept. */
module Models {
  import opened Results

  /** Currency an `Item` gets when none is given. */
  const DefaultItemCurrency: string := "usd"

  /** A catalogue item. `price` is in minor units (cents), never negative. */
  datatype Item = Item(id: nat, name: string, description: string, price: nat, currency: string)

  /** The field constraints of an `Item` row: a currency code of at most three
      characters and a name of at most 255. */
  predicate WellFormedItem(item: Item) {
    |item.currency| <= 3 && |item.name| <= 255
  }

  /** A new `Item` row; a currency left out takes the column default. */
  function NewItem(id: nat, name: string, description: string, price: nat, currency: Option<string>): (r: Item)
    ensures r.price == price && r.name == name && r.description == description && r.id == id
    ensures currency.None? ==> r.currency == DefaultItemCurrency
    ensures currency.Some? ==> r.currency == currency.value
    ensures (|name| <= 255 && (currency.Some? ==> |currency.value| <= 3)) ==> WellFormedItem(r)
  {
    Item(id, name, description, price, currency.GetOr(DefaultItemCurrency))
  }

  /** A stored remote checkout session: exactly one item (by its key), the
      processor's session id and whether payment was confirmed. */
  datatype CheckoutSession = CheckoutSession(itemId: nat, sessionId: string, paid: bool)

  /** The row written when a session is created: not yet paid. */
  function NewCheckoutSession(itemId: nat, sessionId: string): (r: CheckoutSession)
    ensures !r.paid
    ensures r.itemId == itemId && r.sessionId == sessionId
  {
    CheckoutSession(itemId, sessionId, false)
  }

  function StatusLabel(paid: bool): string {
    if paid then "PAID" else "UNPAID"
  }

  /** The row's display label: `<session id> -> <item name> [<status>]`. */
  function SessionLabel(cs: CheckoutSession, itemName: string): (r: string)
    ensures |r| == |cs.sessionId| + |itemName| + |StatusLabel(cs.paid)| + 7
    ensures r[..|cs.sessionId|] == cs.sessionId
    ensures r[|cs.sessionId|..|cs.sessionId| + 4] == " -> "
    ensures r[|cs.sessionId| + 4..|cs.sessionId| + 4 + |itemName|] == itemName
    ensures r[|cs.sessionId| + 4 + |itemName|..] == " [" + StatusLabel(cs.paid) + "]"
  {
    cs.sessionId + " -> " + itemName + " [" + StatusLabel(cs.paid) + "]"
  }

  /** The label reads "[PAID]" at its end exactly when the row is paid, and
      "UNPAID" otherwise. */
  lemma SessionLabelShowsPaid(cs: CheckoutSession, itemName: string)
    ensures var r := SessionLabel(cs, itemName);
      (r[|r| - 7..] == " [PAID]" <==> cs.paid) && (r[|r| - 7..] == "UNPAID]" <==> !cs.paid)
  {
    var r := SessionLabel(cs, itemName);
    if cs.paid {
      assert r[|r| - 7..] == " [PAID]";
    } else {
      assert r[|r| - 7..] == "UNPAID]";
    }
  }

  /** The unique constraint on `session_id`. */
  predicate UniqueSessionIds(rows: seq<CheckoutSession>) {
    forall i, j :: 0 <= i < |rows| && 0 <= j < |rows| && rows[i].sessionId == rows[j].sessionId ==> i == j
  }

  predicate HasSession(rows: seq<CheckoutSession>, sid: string) {
    exists i :: 0 <= i < |rows| && rows[i].sessionId == sid
  }

  /** Looking a row up by its session id: the index of the first row with
      that id, or none. */
  function FindSession(rows: seq<CheckoutSession>, sid: string): (r: Option<nat>)
    ensures r.Some? ==> r.value < |rows| && rows[r.value].sessionId == sid
    ensures r.Some? ==> forall j :: 0 <= j < r.value ==> rows[j].sessionId != sid
    ensures r.None? <==> !HasSession(rows, sid)
  {
    if rows == [] then None
    else if rows[0].sessionId == sid then Some(0)
    else match FindSession(rows[1..], sid)
      case None => None
      case Some(k) => Some(k + 1)
  }

  /** Under the unique constraint a lookup by session id finds the one and
      only row carrying that id. */
  lemma FindSessionIsTheOnlyMatch(rows: seq<CheckoutSession>, sid: string, j: nat)
    requires UniqueSessionIds(rows)
    requires j < |rows| && rows[j].sessionId == sid
    ensures FindSession(rows, sid) == Some(j)
  {
  }

  /** The state shared by the two remote-id caches: the stored remote id and
      the entity's `active` flag. */
  datatype CacheEntry = CacheEntry(remoteId: string, active: bool)

  /** A stored remote id is trusted only when it is non-empty and the entity
      is active. */
  predicate Reusable(e: CacheEntry) {
    e.remoteId != "" && e.active
  }

  /** An order-level percentage discount and its cached remote coupon id. */
  class Discount {
    var name: string
    var percentOff: int
    var active: bool
    var stripeCouponId: string

    constructor (name: string, percentOff: int, active: bool)
      ensures this.name == name && this.percentOff == percentOff && this.active == active
      ensures stripeCouponId == ""
    {
      this.name := name;
      this.percentOff := percentOff;
      this.active := active;
      stripeCouponId := "";
    }

    function Entry(): CacheEntry
      reads this
    {
      CacheEntry(stripeCouponId, active)
    }
  }

  /** A tax with its cached remote tax-rate id. `percentage` is a two-place
      decimal, kept here in hundredths of a percent. */
  class Tax {
    var displayName: string
    var percentage: int
    var inclusive: bool
    var active: bool
    var stripeTaxRateId: string

    constructor (displayName: string, percentage: int, inclusive: bool, active: bool)
      ensures this.displayName == displayName && this.percentage == percentage
      ensures this.inclusive == inclusive && this.active == active
      ensures stripeTaxRateId == ""
    {
      this.displayName := displayName;
      this.percentage := percentage;
      this.inclusive := inclusive;
      this.active := active;
      stripeTaxRateId := "";
    }

    function Entry(): CacheEntry
      reads this
    {
      CacheEntry(stripeTaxRateId, active)
    }
  }

  /** An order: its primary key, its items, its taxes and an optional
      discount. The checkout code never changes the order itself, only the
      discount and tax rows it refers to. */
  datatype Order = Order(id: nat, items: seq<Item>, taxes: seq<Tax>, discount: Discount?)
}
