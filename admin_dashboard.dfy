/**
 * The admin dashboard: the order counts and revenue shown on its cards,
 * and the list of recent orders.
 */
module AdminDashboard {
  import opened Seqs
  import opened OrderTypes
  import opened Tally
  import opened OrderLogic

  /** The figures on the dashboard's cards; the average order value is not modelled. */
  datatype Stats = Stats(totalOrders: int, pendingOrders: int, completedOrders: int, totalRevenue: int)

  /** The cards before the effect first runs. */
  const InitialStats: Stats := Stats(0, 0, 0, 0)

  /** The effect body over the store's orders. */
  function DashboardStats(orders: seq<Order>): Stats {
    Stats(|orders|, |OrdersByStatus(orders, Pending)|, |OrdersByStatus(orders, Delivered)|, Sum(orders, AmountOf))
  }

  /**
   * The cards count all orders, the pending ones and the delivered ones
   * (as "completed"), and sum all totals; these four are spelled out for
   * callers of the lemma. Pending and delivered orders are different
   * orders, so together they never exceed the total.
   */
  lemma DashboardStatsSpec(orders: seq<Order>)
    ensures var st := DashboardStats(orders);
      && st.totalOrders == |orders|
      && st.pendingOrders == |OrdersByStatus(orders, Pending)|
      && st.completedOrders == |OrdersByStatus(orders, Delivered)|
      && st.totalRevenue == Sum(orders, AmountOf)
      && st.pendingOrders + st.completedOrders <= st.totalOrders
  {
    StatusListsPartition(orders);
  }

  /** `orders.slice(0, 5)`: the first five orders in store order, which are the oldest. */
  function RecentOrders(orders: seq<Order>): seq<Order> {
    Take(orders, 5)
  }

  /**
   * The recent list is the first five orders, or all of them when there
   * are fewer; orders are appended when placed, so an order placed later
   * than those five never shows.
   */
  lemma RecentOrdersSpec(orders: seq<Order>, placed: Order)
    ensures |RecentOrders(orders)| == if |orders| < 5 then |orders| else 5
    ensures RecentOrders(orders) == orders[..|RecentOrders(orders)|]
    ensures |orders| >= 5 ==> RecentOrders(orders + [placed]) == RecentOrders(orders)
  {
    if |orders| >= 5 {
      assert (orders + [placed])[..5] == orders[..5];
    }
  }

  /** The dashboard's cards. */
  class DashboardPanel {
    var stats: Stats

    constructor()
      ensures stats == InitialStats
    {
      stats := InitialStats;
    }

    /** The effect, run when the store's orders change. */
    method OrdersChanged(orders: seq<Order>)
      modifies this
      ensures stats == DashboardStats(orders)
    {
      var pendingOrders := OrdersByStatus(orders, Pending);
      var completedOrders := OrdersByStatus(orders, Delivered);
      var totalRevenue := Sum(orders, AmountOf);
      stats := Stats(|orders|, |pendingOrders|, |completedOrders|, totalRevenue);
    }
  }
}
