/**
 * The payment-provider webhook: a delivery is either rejected by the
 * signature check or dispatched on its event type, and each handled type
 * has one effect on the `stripe_orders` and `stripe_subscriptions` tables
 * (`stripe_customers` is only read).
 *
 * `Reconcile` and its branch functions state the effect of one delivery on
 * a `Tables` value; the class `Database` holds the tables as fields and its
 * method `Handle` performs the same steps in place.
 *
 * The database client reports a failed query in its result instead of
 * throwing. The handler never looks at a write's result: `writeOk` says
 * whether the one write of a delivery took effect, and the reply is the same
 * either way. A failed read of `stripe_customers` yields null data, which
 * the handler cannot tell from "not found": `readOk` says whether that read
 * succeeded.
 */
module Webhook {
  import opened Wrappers
  import opened CustomerDirectory
  import JsValues

  /** The fields of a completed checkout session that the handler reads. */
  datatype CheckoutSession = CheckoutSession(
    id: string,
    customer: CustomerId,
    paymentIntent: Option<string>,
    amountSubtotal: int,
    amountTotal: int,
    currency: string,
    paymentStatus: string)

  /**
   * The fields of a subscription object that the handler reads.
   * `itemPrices` lists the price id of each entry of `items.data`; it is
   * None when the object carries no `items` at all.
   */
  datatype Subscription = Subscription(
    id: string,
    customer: CustomerId,
    itemPrices: Option<seq<string>>,
    currentPeriodStart: int,
    currentPeriodEnd: int,
    cancelAtPeriodEnd: bool,
    defaultPaymentMethod: Option<string>,
    status: string)

  const HandledTypes: set<string> := {
    "checkout.session.completed",
    "customer.subscription.created",
    "customer.subscription.updated",
    "customer.subscription.deleted"
  }

  /** An event type string that falls to the `default` branch of the dispatch. */
  type UnhandledType = t: string | t !in HandledTypes witness ""

  /** A verified event, by the value of its `type`. */
  datatype Event =
    | CheckoutCompleted(session: CheckoutSession)
    | SubscriptionCreated(subscription: Subscription)
    | SubscriptionUpdated(subscription: Subscription)
    | SubscriptionDeleted(subscription: Subscription)
    | Unhandled(eventType: UnhandledType)

  /** What `constructEvent` yields: the event, or the message of the error it threw. */
  datatype SignatureCheck = Verified(event: Event) | Rejected(message: string)

  datatype Request = Preflight | Delivery(check: SignatureCheck)

  datatype Card = Card(brand: string, last4: string)

  /** What retrieving the subscription's default payment method yields. */
  datatype PaymentMethodLookup = Retrieved(card: Option<Card>) | LookupFailed

  datatype Order = Order(
    checkoutSessionId: string,
    paymentIntentId: Option<string>,
    customerId: CustomerId,
    amountSubtotal: int,
    amountTotal: int,
    currency: string,
    paymentStatus: string,
    status: string)

  datatype SubscriptionRow = SubscriptionRow(
    customerId: CustomerId,
    subscriptionId: string,
    priceId: Option<string>,
    currentPeriodStart: int,
    currentPeriodEnd: int,
    cancelAtPeriodEnd: bool,
    paymentMethodBrand: Option<string>,
    paymentMethodLast4: Option<string>,
    status: string,
    deletedAt: Option<string>)

  /** A plain-text body, the JSON `{received: true}`, or the JSON `{error}`. */
  datatype Body = Text(text: string) | Received | Error(message: string)

  datatype Reply = Reply(status: int, body: Body)

  /** The three tables; subscriptions are keyed by `subscription_id`. */
  datatype Tables = Tables(
    customers: seq<Mapping>,
    orders: seq<Order>,
    subscriptions: map<string, SubscriptionRow>)

  datatype Outcome = Outcome(reply: Reply, tables: Tables)

  const Acknowledged := Reply(200, Received)

  /** The message of the TypeError thrown by `subscription.items.data` when `items` is absent. */
  const ItemsMissing := "Cannot read properties of undefined (reading 'data')"

  /** The row inserted into `stripe_orders` for a completed session. */
  function OrderOf(s: CheckoutSession): Order {
    Order(s.id, s.paymentIntent, s.customer, s.amountSubtotal, s.amountTotal,
          s.currency, s.paymentStatus, "completed")
  }

  /**
   * Whether `.single()` by customer id hands back a row: the read succeeded
   * and exactly one row matches.
   */
  predicate Known(t: Tables, c: CustomerId, readOk: bool) {
    readOk && UserOfCustomer(t.customers, c).Some?
  }

  /**
   * The `price_id` column after the upsert. `subscription.items.data[0]?.price.id`
   * is `undefined` for an empty `items.data`, and the JSON body then omits the
   * column: an existing row keeps its price, a new row has none.
   */
  function PriceAfter(t: Tables, sub: Subscription): Option<string>
    requires sub.itemPrices.Some?
  {
    var prices := sub.itemPrices.value;
    if |prices| > 0 then Some(prices[0])
    else if sub.id in t.subscriptions then t.subscriptions[sub.id].priceId
    else None
  }

  /**
   * Card brand and last four digits: both null unless the subscription names
   * a default payment method whose retrieval returns a card.
   */
  function CardDetails(sub: Subscription, lookup: PaymentMethodLookup): (r: (Option<string>, Option<string>))
    ensures r.0.Some? <==> r.1.Some?
    ensures r.0.Some? <==> JsValues.Truthy(sub.defaultPaymentMethod) && lookup.Retrieved? && lookup.card.Some?
    ensures r.0.Some? ==> r == (Some(lookup.card.value.brand), Some(lookup.card.value.last4))
  {
    if JsValues.Truthy(sub.defaultPaymentMethod) then
      match lookup
      case Retrieved(Some(card)) => (Some(card.brand), Some(card.last4))
      case _ => (None, None)
    else (None, None)
  }

  /** The columns a `customer.subscription.created/updated` event always sends. */
  predicate Reflects(row: SubscriptionRow, sub: Subscription)
  {
    && row.customerId == sub.customer
    && row.subscriptionId == sub.id
    && row.currentPeriodStart == sub.currentPeriodStart
    && row.currentPeriodEnd == sub.currentPeriodEnd
    && row.cancelAtPeriodEnd == sub.cancelAtPeriodEnd
    && row.status == sub.status
  }

  /**
   * Whether the upsert carries the card columns. A retrieved payment method
   * without a card leaves both `undefined`, and the JSON body then omits them.
   */
  predicate SendsCard(sub: Subscription, lookup: PaymentMethodLookup) {
    !(JsValues.Truthy(sub.defaultPaymentMethod) && lookup == Retrieved(None))
  }

  /** The card columns after the upsert: the ones sent, or else those the row already had (null for a new row). */
  function CardAfter(t: Tables, sub: Subscription, lookup: PaymentMethodLookup): (Option<string>, Option<string>) {
    if SendsCard(sub, lookup) || sub.id !in t.subscriptions then CardDetails(sub, lookup)
    else (t.subscriptions[sub.id].paymentMethodBrand, t.subscriptions[sub.id].paymentMethodLast4)
  }

  /** Number of orders recorded for a checkout session. */
  function OrdersFor(orders: seq<Order>, sessionId: string): (n: nat)
    ensures n <= |orders|
  {
    if orders == [] then 0
    else OrdersFor(orders[..|orders| - 1], sessionId)
         + (if orders[|orders| - 1].checkoutSessionId == sessionId then 1 else 0)
  }

  /** `checkout.session.completed`: one order appended when the customer is known, nothing else. */
  function CompleteCheckout(t: Tables, s: CheckoutSession, readOk: bool, writeOk: bool): (o: Outcome)
    ensures o.reply == Acknowledged
    ensures o.tables.customers == t.customers && o.tables.subscriptions == t.subscriptions
    ensures !Known(t, s.customer, readOk) || !writeOk ==> o.tables == t
    ensures Known(t, s.customer, readOk) && writeOk ==>
      && |o.tables.orders| == |t.orders| + 1
      && o.tables.orders[..|t.orders|] == t.orders
      && var added := o.tables.orders[|t.orders|];
         && added.checkoutSessionId == s.id
         && added.status == "completed"
         && added.paymentIntentId == s.paymentIntent
         && added.customerId == s.customer
         && added.amountSubtotal == s.amountSubtotal
         && added.amountTotal == s.amountTotal
         && added.currency == s.currency
         && added.paymentStatus == s.paymentStatus
  {
    if Known(t, s.customer, readOk) && writeOk then
      Outcome(Acknowledged, t.(orders := t.orders + [OrderOf(s)]))
    else
      Outcome(Acknowledged, t)
  }

  /**
   * `customer.subscription.created/updated`: an upsert keyed by subscription id
   * when the customer is found. The upsert does not send `deleted_at`, so a row
   * that already exists keeps its own, and likewise the price and the card
   * columns when they are omitted.
   */
  function UpsertSubscription(t: Tables, sub: Subscription, lookup: PaymentMethodLookup,
                              readOk: bool, writeOk: bool): (o: Outcome)
    ensures !Known(t, sub.customer, readOk) ==> o == Outcome(Acknowledged, t)
    ensures Known(t, sub.customer, readOk) && sub.itemPrices.None? ==>
      o == Outcome(Reply(500, Error(ItemsMissing)), t)
    ensures sub.itemPrices.Some? ==> o.reply == Acknowledged
    ensures !writeOk ==> o.tables == t
    ensures o.tables.customers == t.customers && o.tables.orders == t.orders
    ensures Known(t, sub.customer, readOk) && sub.itemPrices.Some? && writeOk ==>
      && o.tables.subscriptions.Keys == t.subscriptions.Keys + {sub.id}
      && (forall id :: id in t.subscriptions && id != sub.id ==>
            o.tables.subscriptions[id] == t.subscriptions[id])
      && var row := o.tables.subscriptions[sub.id];
         && Reflects(row, sub)
         && (|sub.itemPrices.value| > 0 ==> row.priceId == Some(sub.itemPrices.value[0]))
         && (|sub.itemPrices.value| == 0 ==>
               row.priceId == (if sub.id in t.subscriptions then t.subscriptions[sub.id].priceId else None))
         && (SendsCard(sub, lookup) ==> (row.paymentMethodBrand, row.paymentMethodLast4) == CardDetails(sub, lookup))
         && (!SendsCard(sub, lookup) ==>
               (row.paymentMethodBrand, row.paymentMethodLast4)
               == (if sub.id in t.subscriptions
                   then (t.subscriptions[sub.id].paymentMethodBrand, t.subscriptions[sub.id].paymentMethodLast4)
                   else (None, None)))
         && (lookup.LookupFailed? ==> row.paymentMethodBrand.None? && row.paymentMethodLast4.None?)
         && row.deletedAt == (if sub.id in t.subscriptions then t.subscriptions[sub.id].deletedAt else None)
  {
    if !Known(t, sub.customer, readOk) then Outcome(Acknowledged, t)
    else
      var (brand, last4) := CardAfter(t, sub, lookup);
      match sub.itemPrices
      case None => Outcome(Reply(500, Error(ItemsMissing)), t)
      case Some(prices) =>
        if !writeOk then Outcome(Acknowledged, t)
        else
          var kept := if sub.id in t.subscriptions then t.subscriptions[sub.id].deletedAt else None;
          var row := SubscriptionRow(sub.customer, sub.id, PriceAfter(t, sub),
                                     sub.currentPeriodStart, sub.currentPeriodEnd,
                                     sub.cancelAtPeriodEnd, brand, last4, sub.status, kept);
          Outcome(Acknowledged, t.(subscriptions := t.subscriptions[sub.id := row]))
  }

  /** `customer.subscription.deleted`: soft delete of the row with that id; no row is added or removed. */
  function CancelSubscription(t: Tables, id: string, now: string, writeOk: bool): (o: Outcome)
    ensures o.reply == Acknowledged
    ensures o.tables.customers == t.customers && o.tables.orders == t.orders
    ensures o.tables.subscriptions.Keys == t.subscriptions.Keys
    ensures forall k :: k in t.subscriptions && (k != id || !writeOk) ==>
      o.tables.subscriptions[k] == t.subscriptions[k]
    ensures writeOk && id in t.subscriptions ==>
      o.tables.subscriptions[id] == t.subscriptions[id].(status := "canceled", deletedAt := Some(now))
  {
    if writeOk && id in t.subscriptions then
      var row := t.subscriptions[id];
      Outcome(Acknowledged, t.(subscriptions := t.subscriptions[id := row.(status := "canceled", deletedAt := Some(now))]))
    else
      Outcome(Acknowledged, t)
  }

  /** The dispatch on a verified event's type. */
  function Dispatch(t: Tables, e: Event, lookup: PaymentMethodLookup, readOk: bool, writeOk: bool, now: string): (o: Outcome)
    ensures o.tables.customers == t.customers
    ensures o.reply == Acknowledged || o == Outcome(Reply(500, Error(ItemsMissing)), t)
    ensures e.Unhandled? ==> o == Outcome(Acknowledged, t)
  {
    match e
    case CheckoutCompleted(s) => CompleteCheckout(t, s, readOk, writeOk)
    case SubscriptionCreated(sub) => UpsertSubscription(t, sub, lookup, readOk, writeOk)
    case SubscriptionUpdated(sub) => UpsertSubscription(t, sub, lookup, readOk, writeOk)
    case SubscriptionDeleted(sub) => CancelSubscription(t, sub.id, now, writeOk)
    case Unhandled(_) => Outcome(Acknowledged, t)
  }

  /** One request to the webhook endpoint. */
  function Reconcile(t: Tables, req: Request, lookup: PaymentMethodLookup, readOk: bool, writeOk: bool, now: string): (o: Outcome)
    ensures req.Preflight? ==> o == Outcome(Reply(200, Text("ok")), t)
    ensures req.Delivery? && req.check.Rejected? ==>
      o == Outcome(Reply(400, Text("Webhook Error: " + req.check.message)), t)
    ensures o.tables.customers == t.customers
    ensures o.reply.status == 200 || o.reply.status == 400 || o.reply.status == 500
    ensures o.reply.status != 200 ==> o.tables == t
    ensures o.reply.status == 400 <==> req.Delivery? && req.check.Rejected?
  {
    match req
    case Preflight => Outcome(Reply(200, Text("ok")), t)
    case Delivery(Rejected(message)) => Outcome(Reply(400, Text("Webhook Error: " + message)), t)
    case Delivery(Verified(e)) => Dispatch(t, e, lookup, readOk, writeOk, now)
  }

  /** Appending an order raises the count for its session by one and leaves the others. */
  lemma {:induction false} OrdersForAppend(orders: seq<Order>, o: Order, sessionId: string)
    ensures OrdersFor(orders + [o], sessionId)
            == OrdersFor(orders, sessionId) + (if o.checkoutSessionId == sessionId then 1 else 0)
  {
    assert (orders + [o])[..|orders + [o]| - 1] == orders;
  }

  /**
   * The known gap: the insert has no existence check, so delivering the same
   * completed event twice records two orders for its session.
   */
  lemma DuplicateCompletionRecordsTwoOrders(t: Tables, s: CheckoutSession, lookup: PaymentMethodLookup, now: string)
    requires UserOfCustomer(t.customers, s.customer).Some?
    ensures var req := Delivery(Verified(CheckoutCompleted(s)));
            var once := Reconcile(t, req, lookup, true, true, now).tables;
            var twice := Reconcile(once, req, lookup, true, true, now).tables;
            && OrdersFor(twice.orders, s.id) == OrdersFor(t.orders, s.id) + 2
            && |twice.orders| == |t.orders| + 2
  {
    var req := Delivery(Verified(CheckoutCompleted(s)));
    var once := Reconcile(t, req, lookup, true, true, now).tables;
    assert once.orders == t.orders + [OrderOf(s)];
    OrdersForAppend(t.orders, OrderOf(s), s.id);
    OrdersForAppend(once.orders, OrderOf(s), s.id);
  }

  /**
   * A failed read of `stripe_customers` is taken for "customer not found":
   * completed-checkout and subscription created/updated events then change
   * nothing and are acknowledged, even when the subscription has no `items`.
   */
  lemma FailedCustomerReadIsAcknowledged(t: Tables, e: Event, lookup: PaymentMethodLookup, writeOk: bool, now: string)
    requires e.CheckoutCompleted? || e.SubscriptionCreated? || e.SubscriptionUpdated?
    ensures Reconcile(t, Delivery(Verified(e)), lookup, false, writeOk, now) == Outcome(Acknowledged, t)
  {
  }

  /** Re-delivering a subscription created/updated event leaves the tables as the first delivery left them. */
  lemma SubscriptionRedeliveryIsIdempotent(t: Tables, e: Event, lookup: PaymentMethodLookup,
                                           readOk: bool, writeOk: bool, now: string)
    requires e.SubscriptionCreated? || e.SubscriptionUpdated?
    ensures var req := Delivery(Verified(e));
            var once := Reconcile(t, req, lookup, readOk, writeOk, now);
            Reconcile(once.tables, req, lookup, readOk, writeOk, now) == once
  {
  }

  /**
   * Upsert is last-write-wins: whatever the first update of a subscription
   * carried and however its delivery went, after an accepted second update the
   * row holds the second's columns, and its price and card whenever the second
   * sends them.
   */
  lemma SubscriptionLastWriteWins(t: Tables, first: Subscription, second: Subscription,
                                  firstLookup: PaymentMethodLookup, firstReadOk: bool, firstWriteOk: bool,
                                  secondLookup: PaymentMethodLookup, now: string)
    requires first.id == second.id
    requires UserOfCustomer(t.customers, second.customer).Some?
    requires second.itemPrices.Some?
    ensures var once := Reconcile(t, Delivery(Verified(SubscriptionUpdated(first))),
                                  firstLookup, firstReadOk, firstWriteOk, now).tables;
            var twice := Reconcile(once, Delivery(Verified(SubscriptionUpdated(second))),
                                   secondLookup, true, true, now).tables;
            && second.id in twice.subscriptions
            && Reflects(twice.subscriptions[second.id], second)
            && (|second.itemPrices.value| > 0 ==>
                  twice.subscriptions[second.id].priceId == Some(second.itemPrices.value[0]))
            && (SendsCard(second, secondLookup) ==>
                  (twice.subscriptions[second.id].paymentMethodBrand, twice.subscriptions[second.id].paymentMethodLast4)
                  == CardDetails(second, secondLookup))
  {
  }

  /** Deleting a subscription never creates a row: an unknown id leaves every table as it was. */
  lemma CancelUnknownIsNoOp(t: Tables, sub: Subscription, lookup: PaymentMethodLookup,
                            readOk: bool, writeOk: bool, now: string)
    requires sub.id !in t.subscriptions
    ensures Reconcile(t, Delivery(Verified(SubscriptionDeleted(sub))), lookup, readOk, writeOk, now)
            == Outcome(Acknowledged, t)
  {
  }

  /** The webhook's view of the database, updated in place by each delivery. */
  class Database {
    var customers: seq<Mapping>
    var orders: seq<Order>
    var subscriptions: map<string, SubscriptionRow>

    function Current(): Tables
      reads this
    {
      Tables(customers, orders, subscriptions)
    }

    constructor (customers: seq<Mapping>)
      ensures Current() == Tables(customers, [], map[])
    {
      this.customers := customers;
      orders := [];
      subscriptions := map[];
    }

    /** `.select('user_id').eq('customer_id', c).single()`: null data when the read fails. */
    method ReadCustomer(c: CustomerId, readOk: bool) returns (customer: Option<UserId>)
      ensures customer.Some? <==> Known(Current(), c, readOk)
    {
      customer := if readOk then UserOfCustomer(customers, c) else None;
    }

    /** Serves one request: the signature gate, then the `switch (event.type)` dispatch. */
    method Handle(req: Request, lookup: PaymentMethodLookup, readOk: bool, writeOk: bool, now: string)
      returns (reply: Reply)
      modifies this
      ensures Outcome(reply, Current()) == Reconcile(old(Current()), req, lookup, readOk, writeOk, now)
      ensures customers == old(customers)
    {
      if req.Preflight? {
        return Reply(200, Text("ok"));
      }
      if req.check.Rejected? {
        return Reply(400, Text("Webhook Error: " + req.check.message));
      }
      match req.check.event {
        case CheckoutCompleted(session) =>
          var customer := ReadCustomer(session.customer, readOk);
          if customer.Some? && writeOk {
            orders := orders + [OrderOf(session)];
          }
        case SubscriptionCreated(sub) =>
          reply := Upsert(sub, lookup, readOk, writeOk);
          return;
        case SubscriptionUpdated(sub) =>
          reply := Upsert(sub, lookup, readOk, writeOk);
          return;
        case SubscriptionDeleted(sub) =>
          if writeOk && sub.id in subscriptions {
            var row := subscriptions[sub.id];
            subscriptions := subscriptions[sub.id := row.(status := "canceled", deletedAt := Some(now))];
          }
        case Unhandled(_) =>
      }
      reply := Acknowledged;
    }

    /** The `customer.subscription.created/updated` branch. */
    method Upsert(sub: Subscription, lookup: PaymentMethodLookup, readOk: bool, writeOk: bool) returns (reply: Reply)
      modifies this
      ensures Outcome(reply, Current()) == UpsertSubscription(old(Current()), sub, lookup, readOk, writeOk)
    {
      var customer := ReadCustomer(sub.customer, readOk);
      if customer.None? {
        return Acknowledged;
      }
      var brand: Option<string> := None;
      var last4: Option<string> := None;
      if JsValues.Truthy(sub.defaultPaymentMethod) {
        match lookup {
          case Retrieved(Some(card)) =>
            brand, last4 := Some(card.brand), Some(card.last4);
          case _ =>
        }
      }
      if sub.itemPrices.None? {
        return Reply(500, Error(ItemsMissing));
      }
      if writeOk {
        var prices := sub.itemPrices.value;
        var priceId: Option<string> := if |prices| > 0 then Some(prices[0]) else None;
        // an `undefined` price or card is left out of the upsert: the existing row keeps its own
        if |prices| == 0 && sub.id in subscriptions {
          priceId := subscriptions[sub.id].priceId;
        }
        if !SendsCard(sub, lookup) && sub.id in subscriptions {
          brand, last4 := subscriptions[sub.id].paymentMethodBrand, subscriptions[sub.id].paymentMethodLast4;
        }
        var kept := if sub.id in subscriptions then subscriptions[sub.id].deletedAt else None;
        subscriptions := subscriptions[sub.id := SubscriptionRow(
          sub.customer, sub.id, priceId,
          sub.currentPeriodStart, sub.currentPeriodEnd, sub.cancelAtPeriodEnd,
          brand, last4, sub.status, kept)];
      }
      reply := Acknowledged;
    }
  }
}
