/**
 * The order service: building an order from the stored cart, reading orders
 * back with their defaults, the status update record, and completing an order
 * (mark it paid, then clear the cart).
 */
module OrderService {
  import opened Common
  import opened Tables
  import opened CartService

  /** An order as the application sees it; `items` is present only on a freshly created order. */
  datatype Order = Order(id: string, userId: string, plan: Plan, amountCents: int, currency: string,
                         status: string, billingCycle: Option<string>, createdAt: string,
                         paidAt: Option<string>, items: Option<seq<CartItem>>)

  /** The service ids that name a paid plan tier. */
  const PlanServices: set<string> := {"starter", "business", "enterprise"}

  /** The plan of the first line for a plan service; `starter` when there is none. */
  function PlanFromItems(items: seq<CartItem>): (p: Plan)
    ensures p != Free
    ensures (forall k :: 0 <= k < |items| ==> items[k].serviceId !in PlanServices) ==> p == Starter
  {
    if items == [] then Starter
    else if items[0].serviceId in PlanServices then ParsePlan(items[0].serviceId).value
    else
      var p := PlanFromItems(items[1..]);
      assert forall k :: 1 <= k < |items| ==> items[k] == items[1..][k - 1];
      p
  }

  /** `cart.items[0]?.billingCycle || 'monthly'`. */
  function BillingCycle(items: seq<CartItem>): (b: string)
    ensures |items| > 0 && items[0].billingCycle != "" ==> b == items[0].billingCycle
    ensures |items| == 0 || items[0].billingCycle == "" ==> b == "monthly"
  {
    if |items| > 0 && items[0].billingCycle != "" then items[0].billingCycle else "monthly"
  }

  /** The row inserted for a non-empty cart; the database assigns the id and the creation time. */
  function NewOrderRow(id: string, userId: string, c: Cart, createdAt: string): OrderRow {
    OrderRow(id, userId, PlanFromItems(c.items), c.total * 100, Some(c.currency), Some("pending"),
             Some(BillingCycle(c.items)), None, Some(createdAt), None)
  }

  /** The row-to-order mapping of `getOrders` and `getOrder`: falsy columns fall back to their defaults. */
  function ToOrder(row: OrderRow, now: string): (o: Order)
    ensures o.currency == (if Truthy(row.currency) then row.currency.value else "INR")
    ensures o.status == (if Truthy(row.status) then row.status.value else "pending")
    ensures o.billingCycle.Some? <==> Truthy(row.billingCycle)
    ensures Truthy(row.billingCycle) ==> o.billingCycle == row.billingCycle
    ensures o.paidAt.Some? <==> Truthy(row.paidAt)
    ensures Truthy(row.paidAt) ==> o.paidAt == row.paidAt
    ensures o.createdAt == (if Truthy(row.createdAt) then row.createdAt.value else now)
    ensures o.id == row.id && o.userId == row.userId && o.plan == row.plan && o.amountCents == row.amountCents
    ensures o.items == None
  {
    Order(row.id, row.userId, row.plan, row.amountCents, OrElse(row.currency, "INR"), OrElse(row.status, "pending"),
          if Truthy(row.billingCycle) then row.billingCycle else None,
          OrElse(row.createdAt, now),
          if Truthy(row.paidAt) then row.paidAt else None,
          None)
  }

  /** `getOrders` over the rows the query returned (already filtered by user and sorted); an error reads as none. */
  function OrdersFrom(result: Result<seq<OrderRow>, string>, now: string): (os: seq<Order>)
    ensures result.Err? ==> os == []
    ensures result.Ok? ==> |os| == |result.value|
    ensures result.Ok? ==> forall k :: 0 <= k < |os| ==> os[k] == ToOrder(result.value[k], now)
  {
    if result.Err? then []
    else seq(|result.value|, k requires 0 <= k < |result.value| => ToOrder(result.value[k], now))
  }

  /** `getOrder`: the order with that id if it belongs to that user. */
  function OrderOf(orders: map<string, OrderRow>, orderId: string, userId: string, now: string): (o: Option<Order>)
    ensures o.Some? <==> orderId in orders && orders[orderId].userId == userId
    ensures o.Some? ==> o.value.id == orders[orderId].id && o.value.userId == userId
  {
    if orderId in orders && orders[orderId].userId == userId then Some(ToOrder(orders[orderId], now)) else None
  }

  /** The update record of `updateOrderStatus`. */
  function StatusRecord(status: string, paymentIntentId: Option<string>, now: string): (r: Record)
    ensures "status" in r && r["status"] == Str(status)
    ensures "paid_at" in r <==> status == "paid"
    ensures "paid_at" in r ==> r["paid_at"] == Str(now)
    ensures "stripe_payment_intent_id" in r <==> Truthy(paymentIntentId)
    ensures "stripe_payment_intent_id" in r ==> r["stripe_payment_intent_id"] == Str(paymentIntentId.value)
    ensures r.Keys <= {"status", "paid_at", "stripe_payment_intent_id"}
  {
    var r := map["status" := Str(status)];
    var r := if status == "paid" then r["paid_at" := Str(now)] else r;
    if Truthy(paymentIntentId) then r["stripe_payment_intent_id" := Str(paymentIntentId.value)] else r
  }

  /** What the service needs from the database call: the new id, the clock, and the error if any. */
  datatype Call = Call(newId: string, now: string, error: Option<string>)

  /**
   * `createOrderFromCart`. An empty cart is refused before any insert; a failed insert (a reported
   * error, or an id already taken) returns its message and writes nothing.
   */
  method CreateOrderFromCart(store: CartStore, db: Backend, userId: string, call: Call) returns (r: Result<Order, string>)
    modifies db
    ensures var c := store.Current();
      && (c.items == [] ==> r == Err("Cart is empty") && db.orders == old(db.orders))
      && (c.items != [] && call.error.Some? ==> r == Err(call.error.value) && db.orders == old(db.orders))
      && (c.items != [] && call.error.None? && call.newId in old(db.orders) ==>
            r == Err(DuplicateKey("orders")) && db.orders == old(db.orders))
      && (c.items != [] && call.error.None? && call.newId !in old(db.orders) ==>
            && db.orders == old(db.orders)[call.newId := NewOrderRow(call.newId, userId, c, call.now)]
            && r == Ok(ToOrder(NewOrderRow(call.newId, userId, c, call.now), call.now).(items := Some(c.items))))
    ensures db.profiles == old(db.profiles) && db.activityLog == old(db.activityLog)
    ensures db.notifications == old(db.notifications) && db.hosting == old(db.hosting)
  {
    var cart := store.Current();
    if |cart.items| == 0 {
      return Err("Cart is empty");
    }
    var plan := PlanFromItems(cart.items);
    var billingCycle := BillingCycle(cart.items);
    if call.error.Some? {
      return Err(call.error.value);
    }
    if call.newId in db.orders {
      return Err(DuplicateKey("orders"));
    }
    var row := OrderRow(call.newId, userId, plan, cart.total * 100, Some(cart.currency), Some("pending"),
                        Some(billingCycle), None, Some(call.now), None);
    db.orders := db.orders[call.newId := row];
    var order := ToOrder(row, call.now);
    r := Ok(order.(items := Some(cart.items)));
  }

  /** `updateOrderStatus`: true unless the database reports an error, even when no row has that id. */
  method UpdateOrderStatus(db: Backend, orderId: string, status: string, paymentIntentId: Option<string>,
                           now: string, error: Option<string>) returns (ok: bool)
    modifies db
    ensures ok <==> error.None?
    ensures db.orders == if ok && orderId in old(db.orders)
                         then old(db.orders)[orderId := ApplyOrderUpdate(old(db.orders)[orderId], StatusRecord(status, paymentIntentId, now))]
                         else old(db.orders)
    ensures db.profiles == old(db.profiles) && db.activityLog == old(db.activityLog)
    ensures db.notifications == old(db.notifications) && db.hosting == old(db.hosting)
  {
    var update := StatusRecord(status, paymentIntentId, now);
    if error.Some? {
      return false;
    }
    if orderId in db.orders {
      db.orders := db.orders[orderId := ApplyOrderUpdate(db.orders[orderId], update)];
    }
    ok := true;
  }

  /** `completeOrder`: mark the order paid; the cart is cleared only when that succeeded. */
  method CompleteOrder(store: CartStore, db: Backend, orderId: string, now: string, error: Option<string>)
    returns (ok: bool)
    modifies store, db
    ensures ok <==> error.None?
    ensures ok ==> store.cartSlot == Saved(EmptyCart) && store.discountSlot == None
    ensures !ok ==> store.cartSlot == old(store.cartSlot) && store.discountSlot == old(store.discountSlot)
    ensures db.orders == if ok && orderId in old(db.orders)
                         then old(db.orders)[orderId := ApplyOrderUpdate(old(db.orders)[orderId], StatusRecord("paid", None, now))]
                         else old(db.orders)
    ensures db.profiles == old(db.profiles) && db.activityLog == old(db.activityLog)
    ensures db.notifications == old(db.notifications) && db.hosting == old(db.hosting)
  {
    ok := UpdateOrderStatus(db, orderId, "paid", None, now, error);
    if ok {
      var _ := store.ClearCart();
    }
  }

  /** A created order is pending, priced at the cart total in paise, and for a paid plan tier. */
  lemma NewOrderIsPending(id: string, userId: string, c: Cart, now: string)
    ensures var o := ToOrder(NewOrderRow(id, userId, c, now), now);
      && o.status == "pending" && o.amountCents == 100 * c.total && o.plan != Free
      && o.currency == (if c.currency != "" then c.currency else "INR")
      && o.billingCycle == Some(BillingCycle(c.items))
  {
  }

  /** Marking an order paid sets `paid_at` and leaves its amount, plan and owner alone. */
  lemma PaidStatusStampsTime(row: OrderRow, paymentIntentId: Option<string>, now: string)
    ensures var r := ApplyOrderUpdate(row, StatusRecord("paid", paymentIntentId, now));
      && r.status == Some("paid") && r.paidAt == Some(now)
      && r.paymentIntentId == (if Truthy(paymentIntentId) then paymentIntentId else row.paymentIntentId)
      && r.amountCents == row.amountCents && r.plan == row.plan && r.userId == row.userId
  {
  }

  /** Any other status leaves `paid_at` as it was. */
  lemma OtherStatusKeepsPaidAt(row: OrderRow, status: string, paymentIntentId: Option<string>, now: string)
    requires status != "paid"
    ensures ApplyOrderUpdate(row, StatusRecord(status, paymentIntentId, now)).paidAt == row.paidAt
    ensures ApplyOrderUpdate(row, StatusRecord(status, paymentIntentId, now)).status == Some(status)
  {
  }

  /** The first plan line decides the plan, whatever lines follow it. */
  lemma {:induction false} FirstPlanLineWins(items: seq<CartItem>, k: nat)
    requires k < |items| && items[k].serviceId in PlanServices
    requires forall j :: 0 <= j < k ==> items[j].serviceId !in PlanServices
    ensures Some(PlanFromItems(items)) == ParsePlan(items[k].serviceId)
  {
    if k > 0 {
      FirstPlanLineWins(items[1..], k - 1);
    }
  }
}
