/**
 * The order operations of the order store as functions of the order list:
 * building a new order from the cart, changing an order's status, lookups
 * by id, status and type, and the filtered, newest-first order history.
 */
module OrderLogic {
  import opened Base
  import opened Strings
  import opened Seqs
  import opened Tally
  import opened OrderTypes
  import opened CartLogic

  /** The flat delivery charge, in toman. */
  const DeliveryFee: int := 15000

  /** A delivery is promised 30 minutes after the order, in milliseconds. */
  const DeliveryWindowMs: int := 30 * 60 * 1000

  /**
   * The order `createOrder` builds from a non-empty cart at clock reading
   * `now`: the cart summary's total, then the delivery fee added on top
   * for deliveries. The clock is read once; ids and order number both
   * carry its decimal rendering.
   */
  function NewOrder(cart: seq<CartItem>, info: CustomerInfo, orderType: OrderType,
                    specialRequests: Option<string>, now: nat): (o: Order)
    ensures o.items == cart && o.customerInfo == info && o.orderType == orderType
    ensures o.status == Pending && o.createdAt == now && o.specialRequests == specialRequests
    ensures o.subtotal == Subtotal(cart) && o.tax == Tax(o.subtotal)
    ensures o.totalAmount == CartSummary(cart).total + (if orderType == Delivery then DeliveryFee else 0)
    ensures var fee := if orderType == Delivery then DeliveryFee else 0;
      100 * (o.totalAmount - fee) - 50 <= 109 * o.subtotal < 100 * (o.totalAmount - fee) + 50
    ensures o.deliveryFee.Some? <==> orderType == Delivery
    ensures o.estimatedDelivery == if orderType == Delivery then Some(now + 1_800_000) else None
    ensures o.id == "order-" + NatToDecimal(now) && o.orderNumber == "ORD-" + NatToDecimal(now)
  {
    var summary := CartSummary(cart);
    var isDelivery := orderType == Delivery;
    var stamp := NatToDecimal(now);
    var draft := Order(
      "order-" + stamp, "ORD-" + stamp, cart, info, orderType, Pending,
      summary.total, summary.subtotal, summary.tax,
      if isDelivery then Some(DeliveryFee) else None,
      None, specialRequests, now,
      if isDelivery then Some(now + DeliveryWindowMs) else None,
      None);
    if isDelivery && draft.deliveryFee.Some? && draft.deliveryFee.value != 0 then
      draft.(totalAmount := draft.totalAmount + draft.deliveryFee.value)
    else
      draft
  }

  /** `orders.map(order => order.id === orderId ? { ...order, status } : order)`. */
  function WithStatus(orders: seq<Order>, id: string, status: Status): (r: seq<Order>)
    ensures |r| == |orders|
    ensures forall i :: 0 <= i < |orders| ==>
      r[i] == if orders[i].id == id then orders[i].(status := status) else orders[i]
  {
    if orders == [] then []
    else
      var o := orders[0];
      [if o.id == id then o.(status := status) else o] + WithStatus(orders[1..], id, status)
  }

  /**
   * `orders.find(order => order.id === orderId)`: the first order with the
   * id, since ids minted at one clock reading coincide.
   */
  function FindOrder(orders: seq<Order>, id: string): (r: Option<Order>)
    ensures r.Some? ==> r.value.id == id
    ensures r.Some? ==> exists i :: 0 <= i < |orders| && orders[i] == r.value && forall j :: 0 <= j < i ==> orders[j].id != id
    ensures r.None? <==> forall i :: 0 <= i < |orders| ==> orders[i].id != id
  {
    match FindFirst(orders, (o: Order) => o.id == id)
    case Some(i) => Some(orders[i])
    case None => None
  }

  function StatusOf(o: Order): Status { o.status }
  function TypeOf(o: Order): OrderType { o.orderType }
  function CreatedAt(o: Order): int { o.createdAt }
  /** Customers are told apart by phone number. */
  function PhoneOf(o: Order): string { o.customerInfo.phone }
  function AmountOf(o: Order): int { o.totalAmount }

  /** `orders.filter(order => order.status === status)`. */
  function OrdersByStatus(orders: seq<Order>, status: Status): seq<Order> {
    WithKey(orders, StatusOf, status)
  }

  /** `orders.filter(order => order.orderType === orderType)`. */
  function OrdersByType(orders: seq<Order>, orderType: OrderType): seq<Order> {
    WithKey(orders, TypeOf, orderType)
  }

  /** A status filter applies only when its list is present and non-empty. */
  predicate StatusPasses(f: OrderFilters, o: Order) {
    f.status.None? || |f.status.value| == 0 || o.status in f.status.value
  }

  predicate TypePasses(f: OrderFilters, o: Order) {
    f.orderType.None? || |f.orderType.value| == 0 || o.orderType in f.orderType.value
  }

  /** Both ends of the date range are inclusive. */
  predicate DatePasses(f: OrderFilters, o: Order) {
    f.dateRange.None? || f.dateRange.value.from <= o.createdAt <= f.dateRange.value.to
  }

  predicate Passes(f: OrderFilters, o: Order) {
    StatusPasses(f, o) && TypePasses(f, o) && DatePasses(f, o)
  }

  /** `orders.filter(order => filters.status.includes(order.status))` when a status filter is set. */
  function ByStatus(orders: seq<Order>, f: OrderFilters): seq<Order> {
    if f.status.Some? && |f.status.value| > 0
    then Filter(orders, (o: Order) => o.status in f.status.value) else orders
  }

  /** The order-type filter, when set. */
  function ByType(orders: seq<Order>, f: OrderFilters): seq<Order> {
    if f.orderType.Some? && |f.orderType.value| > 0
    then Filter(orders, (o: Order) => o.orderType in f.orderType.value) else orders
  }

  /** The date-range filter, when set. */
  function ByDate(orders: seq<Order>, f: OrderFilters): seq<Order> {
    if f.dateRange.Some?
    then Filter(orders, (o: Order) => f.dateRange.value.from <= o.createdAt <= f.dateRange.value.to)
    else orders
  }

  /** The three successive filters of `getOrderHistory`, each skipped when its field is unset. */
  function Filtered(orders: seq<Order>, f: OrderFilters): seq<Order> {
    ByDate(ByType(ByStatus(orders, f), f), f)
  }

  /** `getOrderHistory(filters)`: the matching orders, newest first, ties in list order. */
  function OrderHistory(orders: seq<Order>, f: OrderFilters): seq<Order> {
    SortDesc(Filtered(orders, f), CreatedAt)
  }

  // ---------------------------------------------------------------------
  // Properties

  /** Orders placed at different clock readings get different ids and order numbers. */
  lemma {:induction false} NewOrderIdsDistinct(cart1: seq<CartItem>, cart2: seq<CartItem>, info1: CustomerInfo, info2: CustomerInfo,
                                              t1: OrderType, t2: OrderType, r1: Option<string>, r2: Option<string>, now1: nat, now2: nat)
    requires now1 != now2
    ensures NewOrder(cart1, info1, t1, r1, now1).id != NewOrder(cart2, info2, t2, r2, now2).id
    ensures NewOrder(cart1, info1, t1, r1, now1).orderNumber != NewOrder(cart2, info2, t2, r2, now2).orderNumber
  {
    DecimalInjective(now1, now2);
    var p1 := "order-" + NatToDecimal(now1);
    var p2 := "order-" + NatToDecimal(now2);
    assert p1[6..] == NatToDecimal(now1) && p2[6..] == NatToDecimal(now2);
    var q1 := "ORD-" + NatToDecimal(now1);
    var q2 := "ORD-" + NatToDecimal(now2);
    assert q1[4..] == NatToDecimal(now1) && q2[4..] == NatToDecimal(now2);
  }

  /**
   * `updateOrderStatus` changes the status of every order with the id, to
   * any status whatever the current one (no transition is refused), and
   * nothing else.
   */
  lemma UpdateStatusUnguarded(orders: seq<Order>, id: string, status: Status)
    ensures var r := WithStatus(orders, id, status);
      && (forall i :: 0 <= i < |r| && orders[i].id == id ==> r[i].status == status)
      && (forall i :: 0 <= i < |r| ==> r[i].(status := orders[i].status) == orders[i])
      && (FindOrder(orders, id).Some? ==> FindOrder(r, id) == Some(FindOrder(orders, id).value.(status := status)))
  {
    var r := WithStatus(orders, id, status);
    match FindFirst(orders, (o: Order) => o.id == id)
    case None =>
    case Some(i) =>
      var j := FindFirst(r, (o: Order) => o.id == id);
      assert r[i].id == id;
      assert j.Some? && j.value == i;
  }

  /** The per-status lists partition the orders. */
  lemma {:induction false} StatusListsPartition(orders: seq<Order>)
    ensures |OrdersByStatus(orders, Pending)| + |OrdersByStatus(orders, Confirmed)|
          + |OrdersByStatus(orders, Preparing)| + |OrdersByStatus(orders, Ready)|
          + |OrdersByStatus(orders, Delivered)| + |OrdersByStatus(orders, Cancelled)| == |orders|
  {
    EnumerationsComplete();
    CountsPartition(orders, StatusOf, AllStatuses);
    SumCountsCons(orders, StatusOf, Pending, [Confirmed, Preparing, Ready, Delivered, Cancelled]);
    SumCountsCons(orders, StatusOf, Confirmed, [Preparing, Ready, Delivered, Cancelled]);
    SumCountsCons(orders, StatusOf, Preparing, [Ready, Delivered, Cancelled]);
    SumCountsCons(orders, StatusOf, Ready, [Delivered, Cancelled]);
    SumCountsCons(orders, StatusOf, Delivered, [Cancelled]);
    SumCountsCons(orders, StatusOf, Cancelled, []);
  }

  /** The per-type lists partition the orders. */
  lemma {:induction false} TypeListsPartition(orders: seq<Order>)
    ensures |OrdersByType(orders, DineIn)| + |OrdersByType(orders, Takeaway)|
          + |OrdersByType(orders, Delivery)| == |orders|
  {
    EnumerationsComplete();
    CountsPartition(orders, TypeOf, AllOrderTypes);
    SumCountsCons(orders, TypeOf, DineIn, [Takeaway, Delivery]);
    SumCountsCons(orders, TypeOf, Takeaway, [Delivery]);
    SumCountsCons(orders, TypeOf, Delivery, []);
  }

  lemma ByStatusSpec(orders: seq<Order>, f: OrderFilters)
    ensures forall o :: multiset(ByStatus(orders, f))[o] == if StatusPasses(f, o) then multiset(orders)[o] else 0
    ensures IsSubsequence(ByStatus(orders, f), orders)
  {
    if f.status.Some? && |f.status.value| > 0 {
      FilterMultiset(orders, (o: Order) => o.status in f.status.value);
      FilterSubsequence(orders, (o: Order) => o.status in f.status.value);
    } else {
      SubsequenceReflexive(orders);
    }
  }

  lemma ByTypeSpec(orders: seq<Order>, f: OrderFilters)
    ensures forall o :: multiset(ByType(orders, f))[o] == if TypePasses(f, o) then multiset(orders)[o] else 0
    ensures IsSubsequence(ByType(orders, f), orders)
  {
    if f.orderType.Some? && |f.orderType.value| > 0 {
      FilterMultiset(orders, (o: Order) => o.orderType in f.orderType.value);
      FilterSubsequence(orders, (o: Order) => o.orderType in f.orderType.value);
    } else {
      SubsequenceReflexive(orders);
    }
  }

  lemma ByDateSpec(orders: seq<Order>, f: OrderFilters)
    ensures forall o :: multiset(ByDate(orders, f))[o] == if DatePasses(f, o) then multiset(orders)[o] else 0
    ensures IsSubsequence(ByDate(orders, f), orders)
  {
    if f.dateRange.Some? {
      FilterMultiset(orders, (o: Order) => f.dateRange.value.from <= o.createdAt <= f.dateRange.value.to);
      FilterSubsequence(orders, (o: Order) => f.dateRange.value.from <= o.createdAt <= f.dateRange.value.to);
    } else {
      SubsequenceReflexive(orders);
    }
  }

  /** The successive filters keep exactly the passing orders, in list order. */
  lemma FilteredSpec(orders: seq<Order>, f: OrderFilters)
    ensures forall o :: multiset(Filtered(orders, f))[o] == if Passes(f, o) then multiset(orders)[o] else 0
    ensures IsSubsequence(Filtered(orders, f), orders)
  {
    var byStatus := ByStatus(orders, f);
    var byType := ByType(byStatus, f);
    ByStatusSpec(orders, f);
    ByTypeSpec(byStatus, f);
    ByDateSpec(byType, f);
    SubsequenceTransitive(byType, byStatus, orders);
    SubsequenceTransitive(Filtered(orders, f), byType, orders);
  }

  /**
   * The history holds exactly the orders that pass every filter, each as
   * often as in the store, newest first; orders with the same creation
   * time keep their relative order from the store. Without filters it is
   * every order.
   */
  lemma OrderHistorySpec(orders: seq<Order>, f: OrderFilters)
    ensures var h := OrderHistory(orders, f);
      && SortedDesc(h, CreatedAt)
      && (forall o :: multiset(h)[o] == if Passes(f, o) then multiset(orders)[o] else 0)
      && (forall o :: o in h <==> o in orders && Passes(f, o))
      && (forall t :: WithKey(h, CreatedAt, t) == WithKey(Filtered(orders, f), CreatedAt, t))
      && (f == NoFilters ==> multiset(h) == multiset(orders))
  {
    var h := OrderHistory(orders, f);
    FilteredSpec(orders, f);
    forall t ensures WithKey(h, CreatedAt, t) == WithKey(Filtered(orders, f), CreatedAt, t) {
      SortDescStable(Filtered(orders, f), CreatedAt, t);
    }
    forall o ensures o in h <==> o in orders && Passes(f, o) {
      assert o in h <==> multiset(h)[o] > 0;
      assert o in orders <==> multiset(orders)[o] > 0;
    }
  }
}
