/**
 * The order history view: the store's filtered history narrowed by a
 * free-text search, the status and type selectors, and the per-order
 * cancel and reorder buttons.
 */
module OrderHistoryView {
  import opened Base
  import opened Strings
  import opened Seqs
  import opened OrderTypes
  import opened CartLogic
  import opened OrderLogic
  import opened Store

  /** Some line of the order names a dish whose lower-cased name contains `needle`. */
  predicate SomeItemNameIncludes(o: Order, needle: string) {
    exists i :: 0 <= i < |o.items| && Includes(Lower(o.items[i].menuItem.name), needle)
  }

  /**
   * The search box: an empty term matches every order; otherwise the
   * lower-cased term must occur in the lower-cased order number, customer
   * name, or the name of one of the ordered dishes.
   */
  predicate MatchesSearch(o: Order, term: string) {
    term == []
    || Includes(Lower(o.orderNumber), Lower(term))
    || Includes(Lower(o.customerInfo.name), Lower(term))
    || SomeItemNameIncludes(o, Lower(term))
  }

  /** `getOrderHistory(filters).filter(...)`: the list the view renders. */
  function DisplayedOrders(orders: seq<Order>, filters: OrderFilters, term: string): seq<Order> {
    Filter(OrderHistory(orders, filters), (o: Order) => MatchesSearch(o, term))
  }

  /** The cancel button is shown only on pending orders. */
  predicate CanCancel(o: Order) {
    o.status == Pending
  }

  /** The reorder button is shown on every order that is not cancelled. */
  predicate CanReorder(o: Order) {
    o.status != Cancelled
  }

  /** The status selector: the empty option removes the filter, any other selects one status. */
  function SelectStatus(f: OrderFilters, choice: Option<Status>): (r: OrderFilters)
    ensures r.orderType == f.orderType && r.dateRange == f.dateRange
    ensures choice.None? ==> r.status.None?
    ensures choice.Some? ==> r.status == Some([choice.value])
  {
    f.(status := if choice.Some? then Some([choice.value]) else None)
  }

  /** The order-type selector, in the same way. */
  function SelectType(f: OrderFilters, choice: Option<OrderType>): (r: OrderFilters)
    ensures r.status == f.status && r.dateRange == f.dateRange
    ensures choice.None? ==> r.orderType.None?
    ensures choice.Some? ==> r.orderType == Some([choice.value])
  {
    f.(orderType := if choice.Some? then Some([choice.value]) else None)
  }

  /**
   * The cart after `handleReorder`: each line of the order passed to
   * `addToCart` in turn, the `i`-th at clock reading `times[i]`.
   */
  function ReorderedCart(cart: seq<CartItem>, items: seq<CartItem>, times: seq<nat>): seq<CartItem>
    requires |times| == |items|
  {
    if items == [] then cart
    else
      var n := |items| - 1;
      var last := items[n];
      AddedToCart(ReorderedCart(cart, items[..n], times[..n]), last.menuItem, last.quantity,
                  last.specialInstructions, times[n])
  }

  /** One more line of the order, added to the cart built from the lines before it. */
  lemma ReorderStep(cart: seq<CartItem>, items: seq<CartItem>, times: seq<nat>, i: nat)
    requires |times| == |items| && i < |items|
    ensures ReorderedCart(cart, items[..i + 1], times[..i + 1])
         == AddedToCart(ReorderedCart(cart, items[..i], times[..i]), items[i].menuItem, items[i].quantity,
                        items[i].specialInstructions, times[i])
  {
    assert items[..i + 1][..i] == items[..i];
    assert times[..i + 1][..i] == times[..i];
  }

  // ---------------------------------------------------------------------
  // Properties

  /**
   * The view shows exactly the orders that pass the filters and the
   * search, newest first, each as often as the store holds it, in the
   * order of the store's history (so orders placed at the same moment keep
   * their store order).
   */
  lemma DisplayedOrdersSpec(orders: seq<Order>, filters: OrderFilters, term: string)
    ensures var d := DisplayedOrders(orders, filters, term);
      && SortedDesc(d, CreatedAt)
      && (forall o :: o in d <==> o in orders && Passes(filters, o) && MatchesSearch(o, term))
      && (forall o :: multiset(d)[o] == if Passes(filters, o) && MatchesSearch(o, term) then multiset(orders)[o] else 0)
      && IsSubsequence(d, OrderHistory(orders, filters))
  {
    var h := OrderHistory(orders, filters);
    FilterSubsequence(h, (o: Order) => MatchesSearch(o, term));
    OrderHistorySpec(orders, filters);
    FilterSortedDesc(h, (o: Order) => MatchesSearch(o, term), CreatedAt);
    FilterMultiset(h, (o: Order) => MatchesSearch(o, term));
  }

  /** With an empty search box the view shows the whole filtered history. */
  lemma EmptySearchShowsHistory(orders: seq<Order>, filters: OrderFilters)
    ensures DisplayedOrders(orders, filters, "") == OrderHistory(orders, filters)
  {
    FilterAll(OrderHistory(orders, filters), (o: Order) => MatchesSearch(o, ""));
  }

  lemma {:induction false} IncludesItself(s: string)
    ensures Includes(s, s)
  {
    assert StartsWith(s[0..], s);
  }

  /** Searching for an order's own number always finds it, in any letter case. */
  lemma SearchByOrderNumberFindsIt(orders: seq<Order>, filters: OrderFilters, o: Order)
    requires o in OrderHistory(orders, filters)
    ensures o in DisplayedOrders(orders, filters, o.orderNumber)
  {
    IncludesItself(Lower(o.orderNumber));
  }

  /** Reordering adds every line's quantity to the cart's item count. */
  lemma {:induction false} ReorderAddsQuantities(cart: seq<CartItem>, items: seq<CartItem>, times: seq<nat>)
    requires |times| == |items|
    ensures TotalItems(ReorderedCart(cart, items, times)) == TotalItems(cart) + TotalItems(items)
  {
    if items != [] {
      var n := |items| - 1;
      var last := items[n];
      var prev := ReorderedCart(cart, items[..n], times[..n]);
      ReorderAddsQuantities(cart, items[..n], times[..n]);
      AddToCartTotalItems(prev, last.menuItem, last.quantity, last.specialInstructions, times[n]);
    }
  }

  /** Two lines of the same dish added at one clock reading to an empty cart get the same id. */
  lemma SameTickAdds(a: CartItem, b: CartItem, t: nat)
    requires a.menuItem == b.menuItem
    requires var ta := InstructionsOrDefault(a.specialInstructions); !IsDigit(ta[|ta| - 1])
    requires var tb := InstructionsOrDefault(b.specialInstructions); !IsDigit(tb[|tb| - 1])
    ensures var first := AddedToCart([], a.menuItem, a.quantity, a.specialInstructions, t);
      var r := AddedToCart(first, b.menuItem, b.quantity, b.specialInstructions, t);
      |r| == 2 && r[0].id == r[1].id
  {
    var first := AddedToCart([], a.menuItem, a.quantity, a.specialInstructions, t);
    AddToCartNewLine([], a.menuItem, a.quantity, a.specialInstructions, t);
    MintedIdEndsInDigit(a.menuItem, t);
    RepeatedAddAppends(first, b.menuItem, b.quantity, b.specialInstructions, t);
    AddToCartNewLine(first, b.menuItem, b.quantity, b.specialInstructions, t);
  }

  /**
   * Reordering an order that has the same dish on two lines, within one
   * clock tick, into an empty cart gives two lines with the same id, so
   * removing or updating one of them changes both.
   */
  lemma ReorderSameTickDuplicatesIds(a: CartItem, b: CartItem, t: nat)
    requires a.menuItem == b.menuItem
    requires var ta := InstructionsOrDefault(a.specialInstructions); !IsDigit(ta[|ta| - 1])
    requires var tb := InstructionsOrDefault(b.specialInstructions); !IsDigit(tb[|tb| - 1])
    ensures var r := ReorderedCart([], [a, b], [t, t]);
      |r| == 2 && r[0].id == r[1].id
  {
    assert [a, b][..1] == [a] && [t, t][..1] == [t];
    assert [a][..0] == [] && [t][..0] == [];
    var first := AddedToCart([], a.menuItem, a.quantity, a.specialInstructions, t);
    assert ReorderedCart([], [a], [t]) == first;
    assert ReorderedCart([], [a, b], [t, t])
        == AddedToCart(first, b.menuItem, b.quantity, b.specialInstructions, t);
    SameTickAdds(a, b, t);
  }

  /**
   * The buttons' eligibility: an order that shows the cancel button also
   * shows the reorder button, and once an order is cancelled neither button
   * is shown for it any more, while every other order is left as it was.
   */
  lemma CancelEndsEligibility(orders: seq<Order>, id: string)
    ensures forall o :: CanCancel(o) ==> CanReorder(o)
    ensures var r := WithStatus(orders, id, Cancelled);
      && |r| == |orders|
      && (forall i :: 0 <= i < |orders| && orders[i].id == id ==> !CanCancel(r[i]) && !CanReorder(r[i]))
      && (forall i :: 0 <= i < |orders| && orders[i].id != id ==> r[i] == orders[i])
  {
  }

  /** The history view's own state. */
  class OrderHistoryPage {
    var filters: OrderFilters
    var showFilters: bool
    var searchTerm: string

    constructor()
      ensures filters == NoFilters && !showFilters && searchTerm == ""
    {
      filters := NoFilters;
      showFilters := false;
      searchTerm := "";
    }

    /** The filter button toggles the filter panel. */
    method ToggleFilters()
      modifies this
      ensures showFilters == !old(showFilters)
      ensures filters == old(filters) && searchTerm == old(searchTerm)
    {
      showFilters := !showFilters;
    }

    method SetSearchTerm(term: string)
      modifies this
      ensures searchTerm == term
      ensures filters == old(filters) && showFilters == old(showFilters)
    {
      searchTerm := term;
    }

    method ChooseStatus(choice: Option<Status>)
      modifies this
      ensures filters == SelectStatus(old(filters), choice)
      ensures searchTerm == old(searchTerm) && showFilters == old(showFilters)
    {
      filters := filters.(status := if choice.Some? then Some([choice.value]) else None);
    }

    method ChooseType(choice: Option<OrderType>)
      modifies this
      ensures filters == SelectType(old(filters), choice)
      ensures searchTerm == old(searchTerm) && showFilters == old(showFilters)
    {
      filters := filters.(orderType := if choice.Some? then Some([choice.value]) else None);
    }

    /** `clearFilters()`: no filters and an empty search box. */
    method ClearFilters()
      modifies this
      ensures filters == NoFilters && searchTerm == ""
      ensures showFilters == old(showFilters)
    {
      filters := NoFilters;
      searchTerm := "";
    }

    /** The list this view renders from the store. */
    function Displayed(store: OrderStore): seq<Order>
      reads this, store
    {
      DisplayedOrders(store.orders, filters, searchTerm)
    }

    /** `handleCancelOrder(orderId)`; `confirmed` is the answer to the confirmation dialog. */
    method HandleCancelOrder(store: OrderStore, orderId: string, confirmed: bool)
      modifies store
      ensures store.State() == if confirmed
        then old(store.State()).(orders := WithStatus(old(store.orders), orderId, Cancelled))
        else old(store.State())
    {
      if confirmed {
        store.CancelOrder(orderId);
      }
    }

    /** `handleReorder(order)`: every line goes back into the cart, `times[i]` being the clock at the `i`-th. */
    method HandleReorder(store: OrderStore, order: Order, times: seq<nat>)
      requires |times| == |order.items|
      modifies store
      ensures store.State() == old(store.State()).(cart := ReorderedCart(old(store.cart), order.items, times))
    {
      var i := 0;
      while i < |order.items|
        invariant 0 <= i <= |order.items|
        invariant store.State() == old(store.State()).(cart := ReorderedCart(old(store.cart), order.items[..i], times[..i]))
      {
        var item := order.items[i];
        ReorderStep(old(store.cart), order.items, times, i);
        store.AddToCart(item.menuItem, Some(item.quantity), item.specialInstructions, times[i]);
        i := i + 1;
      }
      assert order.items[..i] == order.items && times[..i] == times;
    }
  }
}
