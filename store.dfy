/**
 * The order store: the cart, the placed orders, the order just placed, a
 * loading flag and an error message, with the actions that update them.
 * `StoreState` is a snapshot of the fields; each action is specified by a
 * step function on snapshots, and `OrderStore` is the object whose
 * methods perform those steps on its fields.
 */
module Store {
  import opened Base
  import opened Seqs
  import opened OrderTypes
  import opened CartLogic
  import opened OrderLogic

  datatype StoreState = StoreState(
    cart: seq<CartItem>,
    orders: seq<Order>,
    currentOrder: Option<Order>,
    isLoading: bool,
    error: Option<string>)

  const Initial: StoreState := StoreState([], [], None, false, None)

  const CartEmptyMessage: string := "Cart is empty"

  /** `createOrder(customerInfo, orderType, specialRequests)` at clock reading `now`, up to its delay. */
  function CreateOrderStep(s: StoreState, info: CustomerInfo, orderType: OrderType,
                           specialRequests: Option<string>, now: nat): StoreState
  {
    if |s.cart| == 0 then s.(error := Some(CartEmptyMessage))
    else
      var placed := NewOrder(s.cart, info, orderType, specialRequests, now);
      s.(orders := s.orders + [placed], currentOrder := Some(placed),
         cart := [], isLoading := false, error := None)
  }

  /** What `persist` writes to storage (`partialize`): the cart and the orders only. */
  datatype Persisted = Persisted(cart: seq<CartItem>, orders: seq<Order>)

  function Persist(s: StoreState): Persisted {
    Persisted(s.cart, s.orders)
  }

  /**
   * A store rehydrated from storage: the saved cart and orders over the
   * initial state, so nothing else survives a reload, and saving again
   * writes back what was read.
   */
  function Rehydrate(p: Persisted): (r: StoreState)
    ensures Persist(r) == p
    ensures r.currentOrder.None? && !r.isLoading && r.error.None?
  {
    Initial.(cart := p.cart, orders := p.orders)
  }

  /**
   * Every placed order is consistent with its own lines: it has at least
   * one line, its subtotal is theirs, and its total is subtotal, tax and
   * delivery fee.
   */
  predicate OrderConsistent(o: Order) {
    && |o.items| > 0
    && o.subtotal == Subtotal(o.items)
    && o.tax == Tax(o.subtotal)
    && o.totalAmount == o.subtotal + o.tax + o.deliveryFee.GetOr(0)
    && (o.deliveryFee.Some? <==> o.orderType == Delivery)
  }

  /** The store invariant the actions keep. */
  predicate Consistent(s: StoreState) {
    && (forall i :: 0 <= i < |s.orders| ==> OrderConsistent(s.orders[i]))
    && AllPositive(s.cart)
  }

  // ---------------------------------------------------------------------
  // Properties of the steps

  /**
   * With an empty cart `createOrder` only records the "Cart is empty"
   * error. Otherwise it appends exactly one pending order built from the
   * cart, makes it the current order, empties the cart and ends with no
   * error and not loading.
   */
  lemma CreateOrderSpec(s: StoreState, info: CustomerInfo, orderType: OrderType,
                        specialRequests: Option<string>, now: nat)
    ensures var t := CreateOrderStep(s, info, orderType, specialRequests, now);
      && (|s.cart| == 0 ==> t == s.(error := Some("Cart is empty")))
      && (|s.cart| > 0 ==>
            && |t.orders| == |s.orders| + 1
            && t.orders[..|s.orders|] == s.orders
            && t.orders[|s.orders|].items == s.cart
            && t.orders[|s.orders|].status == Pending
            && t.orders[|s.orders|].customerInfo == info
            && t.currentOrder == Some(t.orders[|s.orders|])
            && t.cart == [] && !t.isLoading && t.error.None?)
  {
    if |s.cart| > 0 {
      var t := CreateOrderStep(s, info, orderType, specialRequests, now);
      assert t.orders[..|s.orders|] == s.orders;
    }
  }

  /** The cart actions keep the store consistent (adding only with a positive quantity). */
  lemma CartActionsKeepConsistent(s: StoreState, m: MenuItem, q: int, ins: Option<string>, now: nat,
                                  id: string, newQ: int, text: string)
    requires Consistent(s)
    ensures q > 0 ==> Consistent(s.(cart := AddedToCart(s.cart, m, q, ins, now)))
    ensures Consistent(s.(cart := RemovedFromCart(s.cart, id)))
    ensures Consistent(s.(cart := UpdatedQuantity(s.cart, id, newQ)))
    ensures Consistent(s.(cart := WithInstructions(s.cart, id, text)))
    ensures Consistent(s.(cart := []))
  {
    PositiveQuantitiesPreserved(s.cart, m, q, ins, now, id, newQ, text);
  }

  /** Changing an order's status keeps the store consistent. */
  lemma StatusUpdateKeepsConsistent(s: StoreState, id: string, status: Status)
    requires Consistent(s)
    ensures Consistent(s.(orders := WithStatus(s.orders, id, status)))
  {
    var r := WithStatus(s.orders, id, status);
    forall i | 0 <= i < |r| ensures OrderConsistent(r[i]) {
      assert OrderConsistent(s.orders[i]);
    }
  }

  /** Placing an order keeps the store consistent: the new order agrees with its lines. */
  lemma CreateOrderKeepsConsistent(s: StoreState, info: CustomerInfo, orderType: OrderType,
                                   requests: Option<string>, now: nat)
    requires Consistent(s)
    ensures Consistent(CreateOrderStep(s, info, orderType, requests, now))
  {
    var t := CreateOrderStep(s, info, orderType, requests, now);
    if |s.cart| > 0 {
      var placed := NewOrder(s.cart, info, orderType, requests, now);
      assert OrderConsistent(placed);
      forall i | 0 <= i < |t.orders| ensures OrderConsistent(t.orders[i]) {
        if i < |s.orders| {
          assert t.orders[i] == s.orders[i];
        }
      }
    }
  }

  /**
   * `updateOrderStatus` replaces the stored order but not `currentOrder`:
   * cancelling the order just placed leaves `currentOrder` showing it as
   * pending.
   */
  lemma {:induction false} CurrentOrderGoesStale(s: StoreState, info: CustomerInfo, orderType: OrderType,
                                                 requests: Option<string>, now: nat)
    requires |s.cart| > 0
    ensures var placed := CreateOrderStep(s, info, orderType, requests, now);
      var cancelled := placed.(orders := WithStatus(placed.orders, placed.currentOrder.value.id, Cancelled));
      && cancelled.currentOrder.value.status == Pending
      && cancelled.orders[|s.orders|].status == Cancelled
  {
    var placed := CreateOrderStep(s, info, orderType, requests, now);
    assert placed.orders[|s.orders|] == placed.currentOrder.value;
  }

  /** The store object. */
  class OrderStore {
    var cart: seq<CartItem>
    var orders: seq<Order>
    var currentOrder: Option<Order>
    var isLoading: bool
    var error: Option<string>

    function State(): StoreState
      reads this
    {
      StoreState(cart, orders, currentOrder, isLoading, error)
    }

    /** The initial state: everything empty, not loading, no error. */
    constructor()
      ensures State() == Initial
    {
      cart := [];
      orders := [];
      currentOrder := None;
      isLoading := false;
      error := None;
    }

    /** `addToCart(menuItem, quantity = 1, specialInstructions)` at clock reading `now`. */
    method AddToCart(menuItem: MenuItem, quantity: Option<int>, specialInstructions: Option<string>, now: nat)
      modifies this
      ensures State() == old(State()).(cart := AddedToCart(old(cart), menuItem, quantity.GetOr(1), specialInstructions, now))
    {
      var q := quantity.GetOr(1);
      var key := LookupKey(menuItem, specialInstructions);
      var existing := FindFirst(cart, IdIs(key));
      if existing.Some? {
        var i := existing.value;
        cart := cart[i := cart[i].(quantity := cart[i].quantity + q)];
      } else {
        cart := cart + [CartItem(MintedId(menuItem, now), menuItem, q, specialInstructions, None)];
      }
    }

    /** `removeFromCart(itemId)`. */
    method RemoveFromCart(itemId: string)
      modifies this
      ensures State() == old(State()).(cart := RemovedFromCart(old(cart), itemId))
    {
      cart := Filter(cart, (item: CartItem) => item.id != itemId);
    }

    /** `updateCartItemQuantity(itemId, quantity)`. */
    method UpdateCartItemQuantity(itemId: string, quantity: int)
      modifies this
      ensures State() == old(State()).(cart := UpdatedQuantity(old(cart), itemId, quantity))
    {
      if quantity <= 0 {
        RemoveFromCart(itemId);
        return;
      }
      cart := WithQuantity(cart, itemId, quantity);
    }

    /** `updateCartItemInstructions(itemId, instructions)`. */
    method UpdateCartItemInstructions(itemId: string, instructions: string)
      modifies this
      ensures State() == old(State()).(cart := WithInstructions(old(cart), itemId, instructions))
    {
      cart := WithInstructions(cart, itemId, instructions);
    }

    /** `clearCart()`. */
    method ClearCart()
      modifies this
      ensures State() == old(State()).(cart := [])
    {
      cart := [];
    }

    /** `createOrder(customerInfo, orderType, specialRequests)` at clock reading `now`. */
    method CreateOrder(customerInfo: CustomerInfo, orderType: OrderType, specialRequests: Option<string>, now: nat)
      modifies this
      ensures State() == CreateOrderStep(old(State()), customerInfo, orderType, specialRequests, now)
    {
      if |cart| == 0 {
        error := Some(CartEmptyMessage);
        return;
      }
      isLoading := true;
      error := None;
      var newOrder := NewOrder(cart, customerInfo, orderType, specialRequests, now);
      orders := orders + [newOrder];
      currentOrder := Some(newOrder);
      cart := [];
      isLoading := false;
    }

    /** `updateOrderStatus(orderId, status)`. */
    method UpdateOrderStatus(orderId: string, status: Status)
      modifies this
      ensures State() == old(State()).(orders := WithStatus(old(orders), orderId, status))
    {
      orders := WithStatus(orders, orderId, status);
    }

    /** `cancelOrder(orderId)`. */
    method CancelOrder(orderId: string)
      modifies this
      ensures State() == old(State()).(orders := WithStatus(old(orders), orderId, Cancelled))
    {
      UpdateOrderStatus(orderId, Cancelled);
    }

    /** `getOrderById(orderId)`. */
    function GetOrderById(orderId: string): Option<Order>
      reads this
    {
      FindOrder(orders, orderId)
    }

    /** `getOrdersByStatus(status)`. */
    function GetOrdersByStatus(status: Status): seq<Order>
      reads this
    {
      OrdersByStatus(orders, status)
    }

    /** `getOrdersByType(orderType)`. */
    function GetOrdersByType(orderType: OrderType): seq<Order>
      reads this
    {
      OrdersByType(orders, orderType)
    }

    /** `getCartSummary()`. */
    function GetCartSummary(): OrderSummary
      reads this
    {
      CartSummary(cart)
    }

    /** `getOrderHistory(filters)`; an absent argument is `NoFilters`. */
    function GetOrderHistory(filters: OrderFilters): seq<Order>
      reads this
    {
      OrderHistory(orders, filters)
    }

    /** `setLoading(loading)`. */
    method SetLoading(loading: bool)
      modifies this
      ensures State() == old(State()).(isLoading := loading)
    {
      isLoading := loading;
    }

    /** `setError(error)`; `None` is `null`. */
    method SetError(message: Option<string>)
      modifies this
      ensures State() == old(State()).(error := message)
    {
      error := message;
    }

    /** `clearError()`. */
    method ClearError()
      modifies this
      ensures State() == old(State()).(error := None)
    {
      error := None;
    }
  }
}
