/**
 * The confirmation screen's time estimate: the longest preparation time
 * among the ordered dishes, plus 30 minutes for a delivery.
 */
module OrderSuccess {
  import opened Base
  import opened OrderTypes
  import opened Store

  /**
   * `Math.max(...items.map(item => item.menuItem.prepTime))`; `None` is the
   * `-Infinity` that `Math.max()` gives for no arguments.
   */
  function MaxPrepTime(items: seq<CartItem>): (r: Option<int>)
    ensures r.None? <==> items == []
    ensures r.Some? ==> forall i :: 0 <= i < |items| ==> items[i].menuItem.prepTime <= r.value
    ensures r.Some? ==> exists i :: 0 <= i < |items| && items[i].menuItem.prepTime == r.value
  {
    if items == [] then None
    else
      var n := |items| - 1;
      var last := items[n].menuItem.prepTime;
      match MaxPrepTime(items[..n])
      case None => Some(last)
      case Some(m) =>
        assert forall i :: 0 <= i < n ==> items[..n][i] == items[i];
        Some(if m < last then last else m)
  }

  /** `getEstimatedTime()` in minutes; `None` when the order has no lines. */
  function EstimatedMinutes(o: Order): Option<int> {
    match MaxPrepTime(o.items)
    case None => None
    case Some(m) => Some(m + if o.orderType == Delivery then 30 else 0)
  }

  /**
   * Every order the store holds has lines, so its estimate is a number:
   * at least every dish's preparation time (plus 30 for a delivery), and
   * equal to one of them (plus 30 for a delivery).
   */
  lemma EstimateOfPlacedOrder(s: StoreState, k: nat)
    requires Consistent(s) && k < |s.orders|
    ensures var o := s.orders[k];
      var extra := if o.orderType == Delivery then 30 else 0;
      && EstimatedMinutes(o).Some?
      && (forall i :: 0 <= i < |o.items| ==> o.items[i].menuItem.prepTime + extra <= EstimatedMinutes(o).value)
      && (exists i :: 0 <= i < |o.items| && o.items[i].menuItem.prepTime + extra == EstimatedMinutes(o).value)
  {
    assert OrderConsistent(s.orders[k]);
  }
}
