/** The two request handlers of catalog/views.py that change state: `buy_item`,
    which records a pending checkout session after the processor created it,
    and `stripe_webhook`, which marks a recorded session paid when the
    processor reports the checkout completed. */
module Views {
  import opened Results
  import opened Models
  import opened Remote
  import opened CheckoutRules
  import opened StripeApi

  /** The only event type that is reconciled. */
  const CheckoutCompleted: string := "checkout.session.completed"

  /** A verified event: its type and the `id` of its `data.object`, which may
      be missing. */
  datatype Event = Event(eventType: string, objectId: Option<string>)

  /** What the processor's event check makes of a request: an event, or the
      payload or the signature rejected. */
  datatype EventCheck = Verified(event: Event) | InvalidPayload | InvalidSignature

  /** The rows after a completed event for `sid`: the row carrying that id
      is paid, every other row is as it was. */
  function MarkPaid(rows: seq<CheckoutSession>, sid: string): (r: seq<CheckoutSession>)
    ensures |r| == |rows|
    ensures forall i :: 0 <= i < |rows| ==>
      && r[i].sessionId == rows[i].sessionId && r[i].itemId == rows[i].itemId
      && r[i].paid == (rows[i].paid || rows[i].sessionId == sid)
  {
    if rows == [] then []
    else [if rows[0].sessionId == sid then rows[0].(paid := true) else rows[0]] + MarkPaid(rows[1..], sid)
  }

  /** What a webhook request does to the table. Rows keep their ids and
      items, and a paid row stays paid: nothing ever sets `paid` back to
      false. */
  function Reconciled(rows: seq<CheckoutSession>, check: EventCheck): (r: seq<CheckoutSession>)
    ensures |r| == |rows|
    ensures forall i :: 0 <= i < |rows| ==>
      r[i].sessionId == rows[i].sessionId && r[i].itemId == rows[i].itemId && (rows[i].paid ==> r[i].paid)
  {
    match check
    case Verified(e) =>
      if e.eventType == CheckoutCompleted && e.objectId.Some? then MarkPaid(rows, e.objectId.value) else rows
    case _ => rows
  }

  /** The status a webhook request is answered with. */
  function WebhookStatus(check: EventCheck): (r: int)
    ensures r == 400 <==> !check.Verified?
    ensures r == 200 <==> check.Verified?
  {
    if check.Verified? then 200 else 400
  }

  /** A request that fails parsing or the signature check changes nothing. */
  lemma RejectedEventChangesNothing(rows: seq<CheckoutSession>, check: EventCheck)
    requires !check.Verified?
    ensures Reconciled(rows, check) == rows && WebhookStatus(check) == 400
  {
  }

  /** Events of any other type are acknowledged and change nothing. */
  lemma OtherEventTypesIgnored(rows: seq<CheckoutSession>, check: EventCheck)
    requires check.Verified? && check.event.eventType != CheckoutCompleted
    ensures Reconciled(rows, check) == rows && WebhookStatus(check) == 200
  {
  }

  /** A completed event for an id no row carries is acknowledged and changes
      nothing. */
  lemma {:induction false} UnknownSessionIgnored(rows: seq<CheckoutSession>, sid: string)
    requires !HasSession(rows, sid)
    ensures MarkPaid(rows, sid) == rows
  {
    if rows != [] {
      assert !HasSession(rows[1..], sid) by {
        forall i | 0 <= i < |rows[1..]| ensures rows[1..][i].sessionId != sid {
          assert rows[1..][i] == rows[i + 1];
        }
      }
      UnknownSessionIgnored(rows[1..], sid);
    }
  }

  /** Under the unique constraint, a completed event for a recorded id
      changes exactly that one row, and only its `paid` flag. */
  lemma MarkPaidIsSingleUpdate(rows: seq<CheckoutSession>, sid: string, j: nat)
    requires UniqueSessionIds(rows)
    requires j < |rows| && rows[j].sessionId == sid
    ensures MarkPaid(rows, sid) == rows[j := rows[j].(paid := true)]
  {
    var a, b := MarkPaid(rows, sid), rows[j := rows[j].(paid := true)];
    assert |a| == |b|;
    forall i | 0 <= i < |a| ensures a[i] == b[i] {
      if i != j {
        assert rows[i].sessionId != sid;
      }
    }
  }

  /** Delivering the same event twice leaves the table as delivering it
      once. */
  lemma ReconcileIdempotent(rows: seq<CheckoutSession>, check: EventCheck)
    ensures Reconciled(Reconciled(rows, check), check) == Reconciled(rows, check)
  {
    if check.Verified? && check.event.eventType == CheckoutCompleted && check.event.objectId.Some? {
      var sid := check.event.objectId.value;
      var once := MarkPaid(rows, sid);
      var twice := MarkPaid(once, sid);
      forall i | 0 <= i < |once| ensures twice[i] == once[i] {
      }
    }
  }

  /** Reconciliation keeps the session ids unique. */
  lemma ReconcileKeepsUnique(rows: seq<CheckoutSession>, check: EventCheck)
    requires UniqueSessionIds(rows)
    ensures UniqueSessionIds(Reconciled(rows, check))
  {
    var r := Reconciled(rows, check);
    forall i, j | 0 <= i < |r| && 0 <= j < |r| && r[i].sessionId == r[j].sessionId ensures i == j {
      assert rows[i].sessionId == rows[j].sessionId;
    }
  }

  /** The database tables the handlers work on: items by primary key, and the
      recorded checkout sessions. */
  class Catalog {
    var items: map<nat, Item>
    var sessions: seq<CheckoutSession>

    /** Every item is stored under its own key and meets the column
        constraints; every session refers to one stored item; session ids are
        unique. */
    ghost predicate Valid()
      reads this
    {
      && (forall id :: id in items ==> items[id].id == id && WellFormedItem(items[id]))
      && (forall i :: 0 <= i < |sessions| ==> sessions[i].itemId in items)
      && UniqueSessionIds(sessions)
    }

    constructor (items: map<nat, Item>)
      requires forall id :: id in items ==> items[id].id == id && WellFormedItem(items[id])
      ensures Valid() && this.items == items && sessions == []
    {
      this.items := items;
      sessions := [];
    }

    /** `buy_item`: only GET; the item must exist; the item's checkout must
        succeed (an error it raises is answered with 500); then the session
        is recorded, unpaid, unless its id is already recorded (the unique
        constraint fails and the request is answered with 500). */
    method BuyItem(httpMethod: string, id: nat, s: Settings, processor: Processor)
      returns (status: int, sessionId: Option<string>)
      requires Valid()
      modifies this`sessions, processor
      ensures Valid()
      ensures httpMethod != "GET" ==> status == 400 && sessions == old(sessions) && unchanged(processor)
      ensures httpMethod == "GET" && id !in items ==> status == 404 && sessions == old(sessions) && unchanged(processor)
      ensures httpMethod == "GET" && id in items && ItemSessionRequest(items[id], s).Failure? ==>
        status == 500 && sessions == old(sessions) && processor.sessions == old(processor.sessions)
      ensures httpMethod == "GET" && id in items && ItemSessionRequest(items[id], s).Success? ==>
        var sid := SessionId(|old(processor.sessions)|);
        && processor.sessions == old(processor.sessions) + [ItemSessionRequest(items[id], s).value]
        && (HasSession(old(sessions), sid) ==> status == 500 && sessions == old(sessions))
        && (!HasSession(old(sessions), sid) ==>
              status == 200 && sessionId == Some(sid) && sessions == old(sessions) + [NewCheckoutSession(id, sid)])
      ensures sessions != old(sessions) ==> status == 200
      ensures processor.coupons == old(processor.coupons) && processor.taxRates == old(processor.taxRates)
    {
      sessionId := None;
      if httpMethod != "GET" {
        return 400, None;
      }
      if id !in items {
        return 404, None;
      }
      var item := items[id];
      var created := CreateCheckoutSessionForItem(item, s, processor);
      if created.Failure? {
        return 500, None;
      }
      var sid := created.value;
      if FindSession(sessions, sid).Some? {
        return 500, None;
      }
      sessions := sessions + [NewCheckoutSession(id, sid)];
      status, sessionId := 200, Some(sid);
    }

    /** `stripe_webhook`: a rejected request is answered with 400; a
        completed checkout marks the row with the event's session id paid,
        if there is one; every verified event is answered with 200. */
    method StripeWebhook(payload: seq<bv8>, sigHeader: string, webhookSecret: string,
                         constructEvent: (seq<bv8>, string, string) -> EventCheck)
      returns (status: int)
      requires Valid()
      modifies this`sessions
      ensures Valid()
      ensures sessions == Reconciled(old(sessions), constructEvent(payload, sigHeader, webhookSecret))
      ensures status == WebhookStatus(constructEvent(payload, sigHeader, webhookSecret))
    {
      var check := constructEvent(payload, sigHeader, webhookSecret);
      if !check.Verified? {
        return 400;
      }
      var event := check.event;
      if event.eventType == CheckoutCompleted && event.objectId.Some? {
        var sid := event.objectId.value;
        var found := FindSession(sessions, sid);
        if found.Some? {
          var i := found.value;
          MarkPaidIsSingleUpdate(sessions, sid, i);
          sessions := sessions[i := sessions[i].(paid := true)];
        } else {
          UnknownSessionIgnored(sessions, sid);
        }
        ReconcileKeepsUnique(old(sessions), check);
      }
      status := 200;
    }
  }
}
