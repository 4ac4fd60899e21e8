/** The payment webhook: a verified Stripe event becomes at most one write to the
    subscriptions table, and the handler answers 400 on a bad signature and 200 otherwise. */
module StripeWebhook {
  import opened Wrappers

  /** The `status` column's values. */
  datatype Status = Active | Cancelled | Expired | Trial {
    function Name(): string {
      match this
      case Active => "active"
      case Cancelled => "cancelled"
      case Expired => "expired"
      case Trial => "trial"
    }
  }

  /** A row of the subscriptions table; dates are milliseconds since the epoch. */
  datatype SubscriptionRow = SubscriptionRow(
    userId: string,
    planType: string,
    status: Status,
    stripeSubscriptionId: Option<string>,
    stripeCustomerId: Option<string>,
    startDate: int,
    endDate: int,
    updatedAt: int)

  datatype CheckoutSession = CheckoutSession(
    userId: string, planType: string, subscription: Option<string>, customer: Option<string>)

  /** A Stripe subscription object; `currentPeriodEnd` is in seconds. */
  datatype StripeSubscription = StripeSubscription(id: string, status: string, currentPeriodEnd: int)

  /** An invoice: its subscription id and the period end (seconds) of each invoice line. */
  datatype Invoice = Invoice(subscription: Option<string>, linePeriodEnds: seq<int>)

  datatype WebhookEvent =
    | CheckoutSessionCompleted(session: CheckoutSession)
    | SubscriptionUpdated(subscription: StripeSubscription)
    | SubscriptionDeleted(subscription: StripeSubscription)
    | InvoicePaymentSucceeded(invoice: Invoice)
    | InvoicePaymentFailed(invoice: Invoice)
    | Unhandled(eventType: string)

  datatype HttpResponse = HttpResponse(status: int, body: string)

  const ReceivedBody: string := "{\"received\":true}"
  const InternalErrorBody: string := "Internal Server Error"
  /** `30 * 24 * 60 * 60 * 1000`. */
  const ThirtyDaysMs: int := 2592000000

  /** The Stripe status mapped onto the table's status: active and unknown statuses stay
      active, canceled becomes cancelled and past_due becomes expired. */
  function MapStatus(stripeStatus: string): (r: Status)
    ensures r != Trial
    ensures r == Cancelled <==> stripeStatus == "canceled"
    ensures r == Expired <==> stripeStatus == "past_due"
    ensures r == Active <==> stripeStatus != "canceled" && stripeStatus != "past_due"
  {
    if stripeStatus == "active" then Active
    else if stripeStatus == "canceled" then Cancelled
    else if stripeStatus == "past_due" then Expired
    else Active
  }

  /** JavaScript truthiness of an optional id. */
  predicate Present(id: Option<string>) {
    id.Some? && id.value != ""
  }

  /** The one write an event asks for. `Crash` is the handler throwing before it writes
      (an invoice without lines). */
  datatype Write =
    | NoWrite
    | Insert(row: SubscriptionRow)
    | Update(subscriptionId: string, status: Status, endDate: Option<int>, updatedAt: int)
    | Crash

  function PlannedWrite(event: WebhookEvent, now: int): (w: Write)
    ensures w.Insert? <==> event.CheckoutSessionCompleted?
    ensures w.Crash? <==> (event.InvoicePaymentSucceeded? && Present(event.invoice.subscription)
      && event.invoice.linePeriodEnds == [])
    ensures w.NoWrite? <==> (event.Unhandled? || ((event.InvoicePaymentSucceeded? || event.InvoicePaymentFailed?)
      && !Present(event.invoice.subscription)))
    ensures w.Update? ==> w.updatedAt == now
  {
    match event
    case CheckoutSessionCompleted(s) =>
      Insert(SubscriptionRow(s.userId, s.planType, Active, s.subscription, s.customer, now,
                             now + ThirtyDaysMs, now))
    case SubscriptionUpdated(sub) => Update(sub.id, MapStatus(sub.status), Some(sub.currentPeriodEnd * 1000), now)
    case SubscriptionDeleted(sub) => Update(sub.id, MapStatus(sub.status), Some(sub.currentPeriodEnd * 1000), now)
    case InvoicePaymentSucceeded(inv) =>
      if !Present(inv.subscription) then NoWrite
      else if inv.linePeriodEnds == [] then Crash
      else Update(inv.subscription.value, Active, Some(inv.linePeriodEnds[0] * 1000), now)
    case InvoicePaymentFailed(inv) =>
      if !Present(inv.subscription) then NoWrite
      else Update(inv.subscription.value, Expired, None, now)
    case Unhandled(_) => NoWrite
  }

  predicate Matches(row: SubscriptionRow, subscriptionId: string) {
    row.stripeSubscriptionId == Some(subscriptionId)
  }

  function Updated(row: SubscriptionRow, status: Status, endDate: Option<int>, updatedAt: int): SubscriptionRow {
    row.(status := status, endDate := endDate.GetOr(row.endDate), updatedAt := updatedAt)
  }

  /** `update(...).eq('stripe_subscription_id', id)`: every row whose subscription id is
      `id` gets the new fields; no row is added, removed or otherwise changed. */
  function UpdateWhere(rows: map<nat, SubscriptionRow>, subscriptionId: string, status: Status,
                       endDate: Option<int>, updatedAt: int): (r: map<nat, SubscriptionRow>)
    ensures r.Keys == rows.Keys
    ensures forall k :: k in rows && Matches(rows[k], subscriptionId) ==>
      r[k].status == status && r[k].updatedAt == updatedAt
      && r[k].endDate == (if endDate.Some? then endDate.value else rows[k].endDate)
      && r[k].userId == rows[k].userId && r[k].planType == rows[k].planType
      && r[k].stripeSubscriptionId == rows[k].stripeSubscriptionId
      && r[k].startDate == rows[k].startDate && r[k].stripeCustomerId == rows[k].stripeCustomerId
    ensures forall k :: k in rows && !Matches(rows[k], subscriptionId) ==> r[k] == rows[k]
  {
    map k | k in rows :: if Matches(rows[k], subscriptionId) then Updated(rows[k], status, endDate, updatedAt) else rows[k]
  }

  /** The table after a write; a write that reports an error changes nothing. */
  function AfterWrite(rows: map<nat, SubscriptionRow>, nextId: nat, w: Write, writeOk: bool)
    : (r: (map<nat, SubscriptionRow>, nat))
  {
    if !writeOk then (rows, nextId)
    else
      match w
      case Insert(row) => (rows[nextId := row], nextId + 1)
      case Update(id, status, endDate, at) => (UpdateWhere(rows, id, status, endDate, at), nextId)
      case _ => (rows, nextId)
  }

  /** The response: 400 with the verification error, 500 from the server when the handler
      throws, else 200 `{"received":true}` whether or not the write succeeded. */
  function ResponseFor(verified: Result<WebhookEvent>, now: int): (r: HttpResponse)
    ensures verified.Failure? ==> r == HttpResponse(400, verified.error)
    ensures verified.Success? && !PlannedWrite(verified.value, now).Crash? ==> r == HttpResponse(200, ReceivedBody)
    ensures verified.Success? && PlannedWrite(verified.value, now).Crash? ==> r.status == 500
  {
    match verified
    case Failure(msg) => HttpResponse(400, msg)
    case Success(event) =>
      if PlannedWrite(event, now).Crash? then HttpResponse(500, InternalErrorBody) else HttpResponse(200, ReceivedBody)
  }

  /** The subscriptions table, keyed by its generated primary key. */
  class SubscriptionsTable {
    var rows: map<nat, SubscriptionRow>
    var nextId: nat

    ghost predicate Valid()
      reads this
    {
      forall k :: k in rows ==> k < nextId
    }

    constructor()
      ensures Valid() && rows == map[] && nextId == 0
    {
      rows := map[];
      nextId := 0;
    }

    /** `upsert` of a row without a primary key: a new row under a fresh key. */
    method Insert(row: SubscriptionRow, writeOk: bool)
      requires Valid()
      modifies this
      ensures Valid()
      ensures (rows, nextId) == AfterWrite(old(rows), old(nextId), Write.Insert(row), writeOk)
    {
      if writeOk {
        rows := rows[nextId := row];
        nextId := nextId + 1;
      }
    }

    method UpdateMatching(subscriptionId: string, status: Status, endDate: Option<int>, now: int, writeOk: bool)
      requires Valid()
      modifies this
      ensures Valid()
      ensures (rows, nextId) == AfterWrite(old(rows), old(nextId), Update(subscriptionId, status, endDate, now), writeOk)
    {
      if writeOk {
        rows := UpdateWhere(rows, subscriptionId, status, endDate, now);
      }
    }

    /** The request handler. `verified` is the outcome of the signature check, `now` the
        clock, `writeOk` whether the table write reports success. */
    method HandleWebhook(verified: Result<WebhookEvent>, now: int, writeOk: bool) returns (response: HttpResponse)
      requires Valid()
      modifies this
      ensures Valid()
      ensures response == ResponseFor(verified, now)
      ensures verified.Failure? ==> rows == old(rows) && nextId == old(nextId)
      ensures verified.Success? ==>
        (rows, nextId) == AfterWrite(old(rows), old(nextId), PlannedWrite(verified.value, now), writeOk)
    {
      if verified.Failure? {
        return HttpResponse(400, verified.error);
      }
      var event := verified.value;
      match event {
      case CheckoutSessionCompleted(s) =>
        var row := SubscriptionRow(s.userId, s.planType, Active, s.subscription, s.customer, now,
                                   now + ThirtyDaysMs, now);
        Insert(row, writeOk);
      case SubscriptionUpdated(sub) =>
        UpdateMatching(sub.id, MapStatus(sub.status), Some(sub.currentPeriodEnd * 1000), now, writeOk);
      case SubscriptionDeleted(sub) =>
        UpdateMatching(sub.id, MapStatus(sub.status), Some(sub.currentPeriodEnd * 1000), now, writeOk);
      case InvoicePaymentSucceeded(inv) =>
        if Present(inv.subscription) {
          if inv.linePeriodEnds == [] {
            return HttpResponse(500, InternalErrorBody);
          }
          UpdateMatching(inv.subscription.value, Active, Some(inv.linePeriodEnds[0] * 1000), now, writeOk);
        }
      case InvoicePaymentFailed(inv) =>
        if Present(inv.subscription) {
          UpdateMatching(inv.subscription.value, Expired, None, now, writeOk);
        }
      case Unhandled(_) =>
      }
      response := HttpResponse(200, ReceivedBody);
    }
  }

  /** Only rows of the event's subscription change, and only the table write can change
      them: a failed write, an unhandled event or an invoice without a subscription leaves
      the table as it was. The response is still 200, except for a paid invoice of a
      subscription whose payload has no lines, where reading the first line throws. */
  lemma NoWriteLeavesTable(rows: map<nat, SubscriptionRow>, nextId: nat, event: WebhookEvent, now: int, writeOk: bool)
    requires !writeOk || event.Unhandled?
      || ((event.InvoicePaymentSucceeded? || event.InvoicePaymentFailed?) && !Present(event.invoice.subscription))
    ensures AfterWrite(rows, nextId, PlannedWrite(event, now), writeOk) == (rows, nextId)
    ensures ResponseFor(Success(event), now) ==
      if event.InvoicePaymentSucceeded? && Present(event.invoice.subscription) && event.invoice.linePeriodEnds == []
      then HttpResponse(500, InternalErrorBody) else HttpResponse(200, ReceivedBody)
  {
  }

  /** A completed checkout adds exactly one active row for the session's user and plan,
      ending thirty days after now, and keeps every other row. */
  lemma CheckoutAddsActiveRow(rows: map<nat, SubscriptionRow>, nextId: nat, s: CheckoutSession, now: int)
    requires forall k :: k in rows ==> k < nextId
    ensures var (r, n) := AfterWrite(rows, nextId, PlannedWrite(CheckoutSessionCompleted(s), now), true);
      n == nextId + 1 && r.Keys == rows.Keys + {nextId}
      && r[nextId].status == Active && r[nextId].userId == s.userId && r[nextId].planType == s.planType
      && r[nextId].stripeSubscriptionId == s.subscription
      && r[nextId].endDate == r[nextId].startDate + 30 * 24 * 60 * 60 * 1000
      && forall k :: k in rows ==> r[k] == rows[k]
  {
  }

  /** A subscription update or deletion gives each row of that subscription the mapped
      status and the period end in milliseconds, and no other row changes. */
  lemma SubscriptionChangeUpdatesMatching(rows: map<nat, SubscriptionRow>, nextId: nat, event: WebhookEvent,
                                          now: int, k: nat)
    requires event.SubscriptionUpdated? || event.SubscriptionDeleted?
    requires k in rows
    ensures var (r, n) := AfterWrite(rows, nextId, PlannedWrite(event, now), true);
      n == nextId && r.Keys == rows.Keys
      && (Matches(rows[k], event.subscription.id) ==>
            r[k].status == MapStatus(event.subscription.status)
            && r[k].endDate == event.subscription.currentPeriodEnd * 1000)
      && (!Matches(rows[k], event.subscription.id) ==> r[k] == rows[k])
  {
  }

  /** A paid invoice of a subscription makes its rows active until the first line's period
      end; a failed one makes them expired and keeps their end date. */
  lemma InvoiceUpdatesMatching(rows: map<nat, SubscriptionRow>, nextId: nat, event: WebhookEvent, now: int, k: nat)
    requires event.InvoicePaymentSucceeded? || event.InvoicePaymentFailed?
    requires Present(event.invoice.subscription) && k in rows
    requires event.InvoicePaymentSucceeded? ==> event.invoice.linePeriodEnds != []
    ensures var (r, n) := AfterWrite(rows, nextId, PlannedWrite(event, now), true);
      n == nextId && r.Keys == rows.Keys
      && (Matches(rows[k], event.invoice.subscription.value) && event.InvoicePaymentSucceeded? ==>
            r[k].status == Active && r[k].endDate == event.invoice.linePeriodEnds[0] * 1000)
      && (Matches(rows[k], event.invoice.subscription.value) && event.InvoicePaymentFailed? ==>
            r[k].status == Expired && r[k].endDate == rows[k].endDate)
      && (!Matches(rows[k], event.invoice.subscription.value) ==> r[k] == rows[k])
  {
  }

  /** No event ever writes the trial status: every status the handler writes is active,
      cancelled or expired. */
  lemma WrittenStatusesInRange(rows: map<nat, SubscriptionRow>, nextId: nat, event: WebhookEvent, now: int,
                               writeOk: bool, k: nat)
    requires k in AfterWrite(rows, nextId, PlannedWrite(event, now), writeOk).0
    requires k in rows ==> rows[k].status != Trial
    ensures AfterWrite(rows, nextId, PlannedWrite(event, now), writeOk).0[k].status != Trial
  {
  }
}
