/**
 * The admin report for a period: the orders placed in the last `days`
 * days, their revenue and customer count, the five best-selling dishes,
 * counts by status and by type, revenue by category and the number of
 * orders in each hour of the day.
 */
module AdminReports {
  import opened Base
  import opened Seqs
  import opened OrderTypes
  import opened Tally
  import opened CartLogic
  import opened OrderLogic

  const DayMs: int := 24 * 60 * 60 * 1000
  const HourMs: int := 60 * 60 * 1000

  /** The periods offered by the period selector, in days. */
  const Periods: seq<nat> := [7, 30, 90, 365]

  /** The start of the period: `days` days before the clock reading `now`. */
  function Cutoff(now: int, days: nat): int {
    now - days * DayMs
  }

  /** The orders placed at or after the cutoff, in store order. */
  function InPeriod(orders: seq<Order>, now: int, days: nat): seq<Order> {
    Filter(orders, (o: Order) => o.createdAt >= Cutoff(now, days))
  }

  /** `orders.flatMap(order => order.items)`: every ordered line, order by order. */
  function Lines(orders: seq<Order>): seq<CartItem> {
    if orders == [] then [] else Lines(orders[..|orders| - 1]) + orders[|orders| - 1].items
  }

  lemma LinesSnoc(orders: seq<Order>, o: Order)
    ensures Lines(orders + [o]) == Lines(orders) + o.items
  {
    assert (orders + [o])[..|orders|] == orders;
  }

  function ItemId(l: CartItem): string { l.menuItem.id }
  function CategoryOf(l: CartItem): Category { l.menuItem.category }

  /**
   * The hour of the day, 0 to 23, at which an instant falls for a clock
   * `tzOffset` milliseconds ahead of UTC.
   */
  function LocalHour(t: int, tzOffset: int): (h: int)
    ensures 0 <= h < 24
  {
    ((t + tzOffset) / HourMs) % 24
  }

  function HourKey(tzOffset: int): Order -> int {
    (o: Order) => LocalHour(o.createdAt, tzOffset)
  }

  // ---------------------------------------------------------------------
  // Best sellers

  /** A row of the best-seller table. */
  datatype TopItem = TopItem(name: string, quantity: int, revenue: int)

  function TopQuantity(t: TopItem): int { t.quantity }

  /** `line => line.menuItem.id === id`. */
  function IsItem(id: string): CartItem -> bool {
    (line: CartItem) => ItemId(line) == id
  }

  /**
   * The row for dish `id` with `quantity` sold: the name and price come
   * from the first line with that dish, and a missing dish or an empty
   * name shows as "Unknown".
   */
  function TopEntry(lines: seq<CartItem>, id: string, quantity: int): TopItem {
    match FindFirst(lines, IsItem(id))
    case None => TopItem("Unknown", quantity, 0)
    case Some(i) =>
      var m := lines[i].menuItem;
      TopItem(if m.name == "" then "Unknown" else m.name, quantity, quantity * m.price)
  }

  /** `Array.from(itemSales.entries()).map(...)`, in insertion order. */
  function Entries(lines: seq<CartItem>, ids: seq<string>, sales: map<string, int>): (r: seq<TopItem>)
    requires forall k :: k in ids ==> k in sales
    ensures |r| == |ids|
    ensures forall i :: 0 <= i < |ids| ==> r[i] == TopEntry(lines, ids[i], sales[ids[i]])
  {
    if ids == [] then [] else [TopEntry(lines, ids[0], sales[ids[0]])] + Entries(lines, ids[1..], sales)
  }

  /** The quantities sold per dish, and the dishes in order of first sale. */
  function ItemSales(lines: seq<CartItem>): map<string, int> {
    SumMap(lines, ItemId, LineQuantity)
  }

  lemma ItemSalesDomain(lines: seq<CartItem>)
    ensures forall k :: k in Keys(lines, ItemId) ==> k in ItemSales(lines)
  {
    forall k | k in Keys(lines, ItemId) ensures k in ItemSales(lines) {
      SumMapSpec(lines, ItemId, LineQuantity, k);
    }
  }

  function AllEntries(lines: seq<CartItem>): seq<TopItem> {
    ItemSalesDomain(lines);
    Entries(lines, Keys(lines, ItemId), ItemSales(lines))
  }

  /** Sorted by quantity sold, most first (a stable sort), then the first five. */
  function TopSelling(lines: seq<CartItem>): seq<TopItem> {
    Take(SortDesc(AllEntries(lines), TopQuantity), 5)
  }

  /**
   * The best-seller rows, one per dish sold: the quantity is the total
   * quantity of that dish over all lines, the name is that of its first
   * line (or "Unknown" when that name is empty), and the revenue is the
   * quantity times the price of its first line.
   */
  lemma EntriesSpec(lines: seq<CartItem>, i: nat)
    requires i < |AllEntries(lines)|
    ensures var ids := Keys(lines, ItemId);
      var e := AllEntries(lines)[i];
      exists j :: 0 <= j < |lines| && ItemId(lines[j]) == ids[i]
        && (forall j' :: 0 <= j' < j ==> ItemId(lines[j']) != ids[i])
        && e.name == (if lines[j].menuItem.name == "" then "Unknown" else lines[j].menuItem.name)
        && e.quantity == Sum(WithKey(lines, ItemId, ids[i]), LineQuantity)
        && e.revenue == e.quantity * lines[j].menuItem.price
  {
    var ids := Keys(lines, ItemId);
    ItemSalesDomain(lines);
    SumMapSpec(lines, ItemId, LineQuantity, ids[i]);
    var found := FindFirst(lines, IsItem(ids[i]));
    assert HasKey(lines, ItemId, ids[i]);
    var w :| 0 <= w < |lines| && ItemId(lines[w]) == ids[i];
    assert IsItem(ids[i])(lines[w]);
    var j := found.value;
    assert forall j' :: 0 <= j' < j ==> !IsItem(ids[i])(lines[j']);
    assert forall j' :: 0 <= j' < j ==> ItemId(lines[j']) != ids[i];
  }

  /** Every unit sold is counted for exactly one dish. */
  lemma EntriesAddUp(lines: seq<CartItem>)
    ensures Sum(AllEntries(lines), TopQuantity) == Sum(lines, LineQuantity)
  {
    var ids := Keys(lines, ItemId);
    ItemSalesDomain(lines);
    EntriesTotal(lines, ids, ItemSales(lines));
    SumMapTotal(lines, ItemId, LineQuantity);
  }

  lemma {:induction false} EntriesTotal(lines: seq<CartItem>, ids: seq<string>, sales: map<string, int>)
    requires forall k :: k in ids ==> k in sales
    ensures Sum(Entries(lines, ids, sales), TopQuantity) == MapTotal(sales, ids)
  {
    if ids != [] {
      EntriesTotal(lines, ids[1..], sales);
      SumCons(TopEntry(lines, ids[0], sales[ids[0]]), Entries(lines, ids[1..], sales), TopQuantity);
      assert TopEntry(lines, ids[0], sales[ids[0]]).quantity == sales[ids[0]] by {
        match FindFirst(lines, IsItem(ids[0])) {
          case None =>
          case Some(_) =>
        }
      }
    }
  }

  /**
   * At most five rows, most sold first, one per dish while fewer than five
   * dishes were sold; no dish left out sold more than a dish shown.
   */
  lemma TopSellingSpec(lines: seq<CartItem>)
    ensures var all := AllEntries(lines);
      var top := TopSelling(lines);
      && |top| == (if |all| < 5 then |all| else 5)
      && |all| == |Keys(lines, ItemId)|
      && SortedDesc(top, TopQuantity)
      && (forall t :: t in top ==> t in all)
      && (forall e :: e in all && e !in top ==> forall t :: t in top ==> e.quantity <= t.quantity)
  {
    TopOfSorted(AllEntries(lines), TopQuantity, 5);
  }

  /**
   * The two nested `forEach` loops that fill the `itemSales` map, line by
   * line; `ids` is the map's insertion order.
   */
  method CollectItemSales(orders: seq<Order>) returns (ids: seq<string>, itemSales: map<string, int>)
    ensures ids == Keys(Lines(orders), ItemId)
    ensures itemSales == ItemSales(Lines(orders))
  {
    ids := [];
    itemSales := map[];
    var i := 0;
    while i < |orders|
      invariant 0 <= i <= |orders|
      invariant ids == Keys(Lines(orders[..i]), ItemId)
      invariant itemSales == ItemSales(Lines(orders[..i]))
    {
      ids, itemSales := AddOrderSales(orders[i].items, ids, itemSales, Lines(orders[..i]));
      assert orders[..i + 1] == orders[..i] + [orders[i]];
      LinesSnoc(orders[..i], orders[i]);
      i := i + 1;
    }
    assert orders[..i] == orders;
  }

  /** The inner loop: one order's lines added to the map built from the lines `done`. */
  method AddOrderSales(items: seq<CartItem>, ids0: seq<string>, sales0: map<string, int>, ghost done: seq<CartItem>)
    returns (ids: seq<string>, itemSales: map<string, int>)
    requires ids0 == Keys(done, ItemId) && sales0 == ItemSales(done)
    ensures ids == Keys(done + items, ItemId)
    ensures itemSales == ItemSales(done + items)
  {
    ids, itemSales := ids0, sales0;
    var j := 0;
    assert done + items[..j] == done;
    while j < |items|
      invariant 0 <= j <= |items|
      invariant ids == Keys(done + items[..j], ItemId)
      invariant itemSales == ItemSales(done + items[..j])
    {
      var item := items[j];
      var key := item.menuItem.id;
      SaleStep(done + items[..j], item);
      PrefixSnoc(done, items, j);
      if key in itemSales {
        itemSales := itemSales[key := itemSales[key] + item.quantity];
      } else {
        itemSales := itemSales[key := item.quantity];
        ids := ids + [key];
      }
      j := j + 1;
    }
    assert items[..j] == items;
  }

  /** One iteration of the inner loop, on the map and on its insertion order. */
  lemma SaleStep(done: seq<CartItem>, item: CartItem)
    ensures var m := ItemSales(done);
      && ItemSales(done + [item]) == m[ItemId(item) := (if ItemId(item) in m then m[ItemId(item)] else 0) + item.quantity]
      && Keys(done + [item], ItemId) == Keys(done, ItemId) + (if ItemId(item) in m then [] else [ItemId(item)])
  {
    SumMapSnoc(done, item, ItemId, LineQuantity);
    SumMapSpec(done, ItemId, LineQuantity, ItemId(item));
    KeysSnoc(done, item, ItemId);
  }

  // ---------------------------------------------------------------------
  // Hourly distribution

  /** Bin `h` holds the number of orders placed in hour `h`. */
  function HourBins(orders: seq<Order>, tzOffset: int): (r: seq<int>)
    ensures |r| == 24
  {
    seq(24, h => Count(orders, HourKey(tzOffset), h))
  }

  lemma HourBinsSnoc(orders: seq<Order>, o: Order, tzOffset: int)
    ensures var h := LocalHour(o.createdAt, tzOffset);
      HourBins(orders + [o], tzOffset) == HourBins(orders, tzOffset)[h := HourBins(orders, tzOffset)[h] + 1]
  {
    forall h | 0 <= h < 24 ensures Count(orders + [o], HourKey(tzOffset), h)
      == Count(orders, HourKey(tzOffset), h) + (if LocalHour(o.createdAt, tzOffset) == h then 1 else 0)
    {
      WithKeySnoc(orders, o, HourKey(tzOffset), h);
    }
  }

  /** Every order falls in exactly one bin: the bins add up to the number of orders. */
  lemma {:induction false} HourBinsAddUp(orders: seq<Order>, tzOffset: int)
    ensures Sum(HourBins(orders, tzOffset), Id) == |orders|
  {
    if orders == [] {
      ZeroBins(tzOffset);
    } else {
      var init := orders[..|orders| - 1];
      var o := orders[|orders| - 1];
      assert orders == init + [o];
      HourBinsAddUp(init, tzOffset);
      HourBinsSnoc(init, o, tzOffset);
      var h := LocalHour(o.createdAt, tzOffset);
      SumUpdate(HourBins(init, tzOffset), h, HourBins(init, tzOffset)[h] + 1, Id);
    }
  }

  lemma {:induction false} ZeroBins(tzOffset: int)
    ensures Sum(HourBins([], tzOffset), Id) == 0
  {
    var z := HourBins([], tzOffset);
    forall h | 0 <= h < 24 ensures z[h] == 0 {
      assert WithKey([], HourKey(tzOffset), h) == [];
    }
    assert z == seq(24, h => 0);
    SumZeros(z);
  }

  lemma {:induction false} SumZeros(s: seq<int>)
    requires forall i :: 0 <= i < |s| ==> s[i] == 0
    ensures Sum(s, Id) == 0
  {
    if s != [] {
      SumZeros(s[..|s| - 1]);
    }
  }

  /** The loop that counts the orders into a fresh array of 24 hourly bins. */
  method HourlyDistribution(orders: seq<Order>, tzOffset: int) returns (bins: array<int>)
    ensures fresh(bins)
    ensures bins[..] == HourBins(orders, tzOffset)
  {
    bins := new int[24](_ => 0);
    var i := 0;
    while i < |orders|
      invariant 0 <= i <= |orders|
      invariant bins.Length == 24
      invariant bins[..] == HourBins(orders[..i], tzOffset)
    {
      var hour := LocalHour(orders[i].createdAt, tzOffset);
      HourBinsSnoc(orders[..i], orders[i], tzOffset);
      assert orders[..i + 1] == orders[..i] + [orders[i]];
      bins[hour] := bins[hour] + 1;
      i := i + 1;
    }
    assert orders[..i] == orders;
    if |orders| == 0 {
      assert bins[..] == HourBins([], tzOffset) by {
        forall h | 0 <= h < 24 ensures bins[h] == HourBins([], tzOffset)[h] {
          assert WithKey([], HourKey(tzOffset), h) == [];
        }
      }
    }
  }

  // ---------------------------------------------------------------------
  // The report

  /** The report's figures; the average and the growth rates are not modelled. */
  datatype ReportData = ReportData(
    totalRevenue: int,
    totalOrders: int,
    totalCustomers: int,
    topSellingItems: seq<TopItem>,
    ordersByStatus: map<Status, int>,
    ordersByType: map<OrderType, int>,
    revenueByCategory: map<Category, int>,
    hourlyDistribution: seq<int>)

  /** The report before the first calculation. */
  const EmptyReport: ReportData := ReportData(0, 0, 0, [], map[], map[], map[], [])

  /** `calculateReportData()` for the period `days` at clock reading `now`. */
  function Report(orders: seq<Order>, days: nat, now: int, tzOffset: int): ReportData {
    var period := InPeriod(orders, now, days);
    var lines := Lines(period);
    ReportData(
      Sum(period, AmountOf),
      |period|,
      |Keys(period, PhoneOf)|,
      TopSelling(lines),
      SumMap(period, StatusOf, One),
      SumMap(period, TypeOf, One),
      SumMap(lines, CategoryOf, LineTotal),
      HourBins(period, tzOffset))
  }

  /** The effect body: the figures computed with the two loops above. */
  method CalculateReportData(orders: seq<Order>, days: nat, now: int, tzOffset: int) returns (r: ReportData)
    ensures r == Report(orders, days, now, tzOffset)
  {
    var filteredOrders := InPeriod(orders, now, days);
    var ids, itemSales := CollectItemSales(filteredOrders);
    var lines := Lines(filteredOrders);
    ItemSalesDomain(lines);
    var topSellingItems := Take(SortDesc(Entries(lines, ids, itemSales), TopQuantity), 5);
    var hourly := HourlyDistribution(filteredOrders, tzOffset);
    r := ReportData(
      Sum(filteredOrders, AmountOf),
      |filteredOrders|,
      |Keys(filteredOrders, PhoneOf)|,
      topSellingItems,
      SumMap(filteredOrders, StatusOf, One),
      SumMap(filteredOrders, TypeOf, One),
      SumMap(lines, CategoryOf, LineTotal),
      hourly[..]);
  }

  /**
   * The period holds exactly the orders placed at or after the cutoff, in
   * store order; revenue and order count are theirs, and there are never
   * more customers than orders.
   */
  lemma PeriodSpec(orders: seq<Order>, days: nat, now: int, tzOffset: int)
    ensures var period := InPeriod(orders, now, days);
      var r := Report(orders, days, now, tzOffset);
      && (forall o :: o in period <==> o in orders && o.createdAt >= now - days * DayMs)
      && IsSubsequence(period, orders)
      && r.totalOrders == |period|
      && r.totalRevenue == Sum(period, AmountOf)
      && r.totalCustomers <= r.totalOrders
      && (forall o :: o in period ==> o.customerInfo.phone in Keys(period, PhoneOf))
  {
    var period := InPeriod(orders, now, days);
    FilterSubsequence(orders, (o: Order) => o.createdAt >= Cutoff(now, days));
    forall o | o in period ensures o.customerInfo.phone in Keys(period, PhoneOf) {
      var i :| 0 <= i < |period| && period[i] == o;
      assert HasKey(period, PhoneOf, PhoneOf(o));
    }
  }

  /**
   * Each count by status or by type is the number of orders of the period
   * with that status or type, only statuses and types that occur are
   * listed, and the listed counts add up to the number of orders.
   */
  lemma StatusAndTypeCounts(orders: seq<Order>, days: nat, now: int, tzOffset: int, st: Status, t: OrderType)
    ensures var period := InPeriod(orders, now, days);
      var r := Report(orders, days, now, tzOffset);
      && (st in r.ordersByStatus <==> HasKey(period, StatusOf, st))
      && (st in r.ordersByStatus ==> r.ordersByStatus[st] == |OrdersByStatus(period, st)|)
      && (t in r.ordersByType <==> HasKey(period, TypeOf, t))
      && (t in r.ordersByType ==> r.ordersByType[t] == |OrdersByType(period, t)|)
      && MapTotal(r.ordersByStatus, Keys(period, StatusOf)) == r.totalOrders
      && MapTotal(r.ordersByType, Keys(period, TypeOf)) == r.totalOrders
  {
    var period := InPeriod(orders, now, days);
    SumMapSpec(period, StatusOf, One, st);
    SumOnes(WithKey(period, StatusOf, st));
    SumMapSpec(period, TypeOf, One, t);
    SumOnes(WithKey(period, TypeOf, t));
    SumMapTotal(period, StatusOf, One);
    SumMapTotal(period, TypeOf, One);
    SumOnes(period);
  }

  /**
   * Revenue by category is the line value, price times quantity, summed
   * over the period's lines of each category; the categories add up to
   * the value of all lines, so tax and delivery fees are not included.
   */
  lemma CategoryRevenue(orders: seq<Order>, days: nat, now: int, tzOffset: int, c: Category)
    ensures var lines := Lines(InPeriod(orders, now, days));
      var r := Report(orders, days, now, tzOffset);
      && (c in r.revenueByCategory <==> HasKey(lines, CategoryOf, c))
      && (c in r.revenueByCategory ==> r.revenueByCategory[c] == Sum(WithKey(lines, CategoryOf, c), LineTotal))
      && MapTotal(r.revenueByCategory, Keys(lines, CategoryOf)) == Sum(lines, LineTotal)
  {
    var lines := Lines(InPeriod(orders, now, days));
    SumMapSpec(lines, CategoryOf, LineTotal, c);
    SumMapTotal(lines, CategoryOf, LineTotal);
  }

  /** 24 hourly bins, each counting the period's orders of that hour, adding up to the order count. */
  lemma HourlySpec(orders: seq<Order>, days: nat, now: int, tzOffset: int)
    ensures var period := InPeriod(orders, now, days);
      var r := Report(orders, days, now, tzOffset);
      && |r.hourlyDistribution| == 24
      && (forall h :: 0 <= h < 24 ==> r.hourlyDistribution[h] == |WithKey(period, HourKey(tzOffset), h)|)
      && (forall h, o :: 0 <= h < 24 && o in WithKey(period, HourKey(tzOffset), h) <==>
            o in period && LocalHour(o.createdAt, tzOffset) == h)
      && Sum(r.hourlyDistribution, Id) == r.totalOrders
  {
    HourBinsAddUp(InPeriod(orders, now, days), tzOffset);
  }

  /** The report page: the chosen period and the figures last calculated. */
  class ReportsPanel {
    var dateRange: nat
    var reportData: ReportData

    /** The page opens on the last 7 days, before the first calculation. */
    constructor()
      ensures dateRange == 7 && reportData == EmptyReport
    {
      dateRange := 7;
      reportData := EmptyReport;
    }

    /** The effect, run when the orders or the period change. */
    method Recalculate(orders: seq<Order>, now: int, tzOffset: int)
      modifies this
      ensures dateRange == old(dateRange)
      ensures reportData == Report(orders, dateRange, now, tzOffset)
    {
      reportData := CalculateReportData(orders, dateRange, now, tzOffset);
    }

    /** Choosing a period from the selector, which runs the effect. */
    method SetDateRange(days: nat, orders: seq<Order>, now: int, tzOffset: int)
      modifies this
      requires days in Periods
      ensures dateRange == days
      ensures reportData == Report(orders, days, now, tzOffset)
    {
      dateRange := days;
      Recalculate(orders, now, tzOffset);
    }
  }
}
