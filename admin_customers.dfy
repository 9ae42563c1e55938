/**
 * The admin customer list: the placed orders grouped into one customer
 * per phone number, a search over the list, and the loyalty tier shown
 * for a customer's total spend.
 */
module AdminCustomers {
  import opened Base
  import opened Seqs
  import opened Strings
  import opened OrderTypes
  import opened Tally
  import opened OrderLogic

  /** A row of the customer list; `averageOrderValue` is not modelled. */
  datatype Customer = Customer(
    id: string,
    name: string,
    email: string,
    phone: string,
    address: Option<string>,
    totalOrders: int,
    totalSpent: int,
    lastOrderDate: int,
    favoriteCategory: Category,
    orderHistory: seq<Order>)

  function TotalOrders(c: Customer): int { c.totalOrders }
  function TotalSpent(c: Customer): int { c.totalSpent }

  /** The category of the order's first line, `classic` for an order without lines. */
  function FavoriteCategory(o: Order): Category {
    if |o.items| > 0 then o.items[0].menuItem.category else Classic
  }

  /** The latest creation time among `hist`. */
  function LastOrderDate(hist: seq<Order>): (r: int)
    requires hist != []
    ensures forall i :: 0 <= i < |hist| ==> hist[i].createdAt <= r
    ensures exists i :: 0 <= i < |hist| && hist[i].createdAt == r
  {
    if |hist| == 1 then hist[0].createdAt
    else
      var init := hist[..|hist| - 1];
      var m := LastOrderDate(init);
      var c := hist[|hist| - 1].createdAt;
      assert forall i :: 0 <= i < |init| ==> init[i] == hist[i];
      if c > m then c else m
  }

  /**
   * The customer made from one phone's orders `hist`: contact details and
   * favourite category from the first of them, their count, their total,
   * the latest date and the orders themselves.
   */
  function CustomerFromHistory(hist: seq<Order>): Customer
    requires hist != []
  {
    var first := hist[0];
    Customer(PhoneOf(first), first.customerInfo.name, first.customerInfo.email, PhoneOf(first),
             first.customerInfo.address, |hist|, Sum(hist, AmountOf), LastOrderDate(hist),
             FavoriteCategory(first), hist)
  }

  /** The customer with phone `p`, made from all of that phone's orders. */
  function CustomerOf(orders: seq<Order>, p: string): Customer
    requires HasKey(orders, PhoneOf, p)
  {
    WithKeyEmpty(orders, PhoneOf, p);
    CustomerFromHistory(WithKey(orders, PhoneOf, p))
  }

  function CustomersFor(orders: seq<Order>, ks: seq<string>): (r: seq<Customer>)
    requires forall k :: k in ks ==> HasKey(orders, PhoneOf, k)
    ensures |r| == |ks|
    ensures forall i :: 0 <= i < |ks| ==> r[i] == CustomerOf(orders, ks[i])
  {
    if ks == [] then [] else [CustomerOf(orders, ks[0])] + CustomersFor(orders, ks[1..])
  }

  /** The customer list: one customer per phone, in order of each phone's first order. */
  function Customers(orders: seq<Order>): seq<Customer> {
    CustomersFor(orders, Keys(orders, PhoneOf))
  }

  /** The loop's record for the first order of a phone. */
  function NewCustomer(o: Order): Customer {
    Customer(PhoneOf(o), o.customerInfo.name, o.customerInfo.email, PhoneOf(o), o.customerInfo.address,
             1, o.totalAmount, o.createdAt, FavoriteCategory(o), [o])
  }

  /** The loop's update of a record for a further order of the same phone. */
  function Absorb(c: Customer, o: Order): Customer {
    c.(totalOrders := c.totalOrders + 1, totalSpent := c.totalSpent + o.totalAmount,
       orderHistory := c.orderHistory + [o],
       lastOrderDate := if o.createdAt > c.lastOrderDate then o.createdAt else c.lastOrderDate)
  }

  lemma HistorySnoc(hist: seq<Order>, o: Order)
    ensures hist == [] ==> CustomerFromHistory(hist + [o]) == NewCustomer(o)
    ensures hist != [] ==> CustomerFromHistory(hist + [o]) == Absorb(CustomerFromHistory(hist), o)
  {
    var h := hist + [o];
    assert h[..|hist|] == hist;
    if hist == [] {
      assert Sum(h, AmountOf) == Sum([], AmountOf) + o.totalAmount;
    } else {
      assert h[0] == hist[0];
    }
  }

  /** The map the collecting loop has built after the orders `s`. */
  function CustomerMap(s: seq<Order>): map<string, Customer> {
    if s == [] then map[]
    else
      var m := CustomerMap(s[..|s| - 1]);
      var o := s[|s| - 1];
      m[PhoneOf(o) := if PhoneOf(o) in m then Absorb(m[PhoneOf(o)], o) else NewCustomer(o)]
  }

  /**
   * After the orders `s`, the loop's map has an entry for exactly the
   * phones of `s`, and each entry is the customer made from that phone's
   * orders.
   */
  lemma {:induction false} CustomerMapAt(s: seq<Order>, p: string)
    ensures p in CustomerMap(s) <==> HasKey(s, PhoneOf, p)
    ensures p in CustomerMap(s) ==> CustomerMap(s)[p] == CustomerOf(s, p)
  {
    if s != [] {
      var init, o := s[..|s| - 1], s[|s| - 1];
      assert s == init + [o];
      var m, w := CustomerMap(init), WithKey(init, PhoneOf, p);
      CustomerMapAt(init, p);
      CustomerMapSnoc(init, o);
      HasKeySnoc(init, o, PhoneOf, p);
      WithKeySnoc(init, o, PhoneOf, p);
      if p == PhoneOf(o) {
        assert WithKey(s, PhoneOf, p) == w + [o];
        WithKeyEmpty(init, PhoneOf, p);
        HistorySnoc(w, o);
        if p in m {
          assert CustomerMap(s)[p] == Absorb(CustomerFromHistory(w), o);
        } else {
          assert CustomerMap(s)[p] == NewCustomer(o);
        }
      } else {
        assert WithKey(s, PhoneOf, p) == w;
        assert p in CustomerMap(s) ==> CustomerMap(s)[p] == m[p];
      }
    }
  }

  lemma CustomerMapSnoc(s: seq<Order>, o: Order)
    ensures var m := CustomerMap(s);
      CustomerMap(s + [o]) == m[PhoneOf(o) := if PhoneOf(o) in m then Absorb(m[PhoneOf(o)], o) else NewCustomer(o)]
  {
    assert (s + [o])[..|s|] == s;
  }

  /** One iteration of the collecting loop, on the map and on its insertion order. */
  lemma CollectStep(s: seq<Order>, o: Order)
    ensures var m := CustomerMap(s);
      && CustomerMap(s + [o]) == m[PhoneOf(o) := if PhoneOf(o) in m then Absorb(m[PhoneOf(o)], o) else NewCustomer(o)]
      && Keys(s + [o], PhoneOf) == Keys(s, PhoneOf) + (if PhoneOf(o) in m then [] else [PhoneOf(o)])
  {
    CustomerMapSnoc(s, o);
    CustomerMapAt(s, PhoneOf(o));
    KeysSnoc(s, o, PhoneOf);
  }

  /** `Array.from(m.values())` for a map whose insertion order is `ks`. */
  function ValuesInOrder(m: map<string, Customer>, ks: seq<string>): (r: seq<Customer>)
    requires forall k :: k in ks ==> k in m
    ensures |r| == |ks|
    ensures forall i :: 0 <= i < |ks| ==> r[i] == m[ks[i]]
  {
    if ks == [] then [] else [m[ks[0]]] + ValuesInOrder(m, ks[1..])
  }

  /** Listing the loop's map by the phones in insertion order gives the customer list. */
  lemma CustomerMapListed(s: seq<Order>)
    ensures forall p :: p in Keys(s, PhoneOf) ==> p in CustomerMap(s)
    ensures Customers(s) == ValuesInOrder(CustomerMap(s), Keys(s, PhoneOf))
  {
    var m, ks := CustomerMap(s), Keys(s, PhoneOf);
    forall p | p in ks ensures p in m && m[p] == CustomerOf(s, p) {
      CustomerMapAt(s, p);
    }
    var listed, values := Customers(s), ValuesInOrder(m, ks);
    forall i | 0 <= i < |ks| ensures listed[i] == values[i] {
      assert m[ks[i]] == CustomerOf(s, ks[i]);
    }
  }

  /** The loop body's update of the map for one order: a new record, or the existing one extended. */
  method RecordOrder(customerMap: map<string, Customer>, order: Order) returns (m: map<string, Customer>)
    ensures m == customerMap[PhoneOf(order) :=
      if PhoneOf(order) in customerMap then Absorb(customerMap[PhoneOf(order)], order) else NewCustomer(order)]
  {
    var customerId := order.customerInfo.phone;
    if customerId in customerMap {
      var existing := customerMap[customerId];
      var lastOrderDate := existing.lastOrderDate;
      if order.createdAt > existing.lastOrderDate {
        lastOrderDate := order.createdAt;
      }
      m := customerMap[customerId := existing.(
        totalOrders := existing.totalOrders + 1,
        totalSpent := existing.totalSpent + order.totalAmount,
        orderHistory := existing.orderHistory + [order],
        lastOrderDate := lastOrderDate)];
    } else {
      m := customerMap[customerId := Customer(
        customerId, order.customerInfo.name, order.customerInfo.email, customerId,
        order.customerInfo.address, 1, order.totalAmount, order.createdAt,
        FavoriteCategory(order), [order])];
    }
  }

  /**
   * The effect that rebuilds the customer list: one pass over the orders,
   * keyed by phone in a map whose insertion order is kept alongside it.
   */
  method CollectCustomers(orders: seq<Order>) returns (customers: seq<Customer>)
    ensures customers == Customers(orders)
  {
    var customerMap, insertionOrder := BuildCustomerMap(orders);
    CustomerMapListed(orders);
    customers := ValuesInOrder(customerMap, insertionOrder);
  }

  /** The loop of the effect: the map keyed by phone, and the order its keys were first inserted. */
  method BuildCustomerMap(orders: seq<Order>) returns (customerMap: map<string, Customer>, insertionOrder: seq<string>)
    ensures customerMap == CustomerMap(orders)
    ensures insertionOrder == Keys(orders, PhoneOf)
  {
    customerMap := map[];
    insertionOrder := [];
    var i := 0;
    while i < |orders|
      invariant 0 <= i <= |orders|
      invariant insertionOrder == Keys(orders[..i], PhoneOf)
      invariant customerMap == CustomerMap(orders[..i])
    {
      var order := orders[i];
      var customerId := order.customerInfo.phone;
      assert orders[..i + 1] == orders[..i] + [order];
      CollectStep(orders[..i], order);
      if customerId !in customerMap {
        insertionOrder := insertionOrder + [customerId];
      }
      customerMap := RecordOrder(customerMap, order);
      i := i + 1;
    }
    assert orders[..i] == orders;
  }

  lemma {:induction false} CustomersForTotals(orders: seq<Order>, ks: seq<string>)
    requires forall k :: k in ks ==> HasKey(orders, PhoneOf, k)
    ensures Sum(CustomersFor(orders, ks), TotalOrders) == SumCounts(orders, PhoneOf, ks)
    ensures Sum(CustomersFor(orders, ks), TotalSpent) == KeySum(orders, PhoneOf, ks, AmountOf)
  {
    if ks != [] {
      CustomersForTotals(orders, ks[1..]);
      assert CustomersFor(orders, ks) == [CustomerOf(orders, ks[0])] + CustomersFor(orders, ks[1..]);
      SumCons(CustomerOf(orders, ks[0]), CustomersFor(orders, ks[1..]), TotalOrders);
      SumCons(CustomerOf(orders, ks[0]), CustomersFor(orders, ks[1..]), TotalSpent);
    }
  }

  /**
   * Each customer of the list is the customer of one phone: its history
   * is exactly that phone's orders in store order, with at least one of
   * them, its totals are theirs, its last order date the latest of them,
   * and its contact details and favourite category come from the first.
   */
  lemma CustomerEntry(orders: seq<Order>, j: nat)
    requires j < |Customers(orders)|
    ensures var c := Customers(orders)[j];
      && c.phone == Keys(orders, PhoneOf)[j]
      && c.orderHistory == WithKey(orders, PhoneOf, c.phone)
      && c.totalOrders == |c.orderHistory| >= 1
      && c.totalSpent == Sum(c.orderHistory, AmountOf)
      && (forall k :: 0 <= k < |c.orderHistory| ==> PhoneOf(c.orderHistory[k]) == c.phone)
      && (forall k :: 0 <= k < |c.orderHistory| ==> c.orderHistory[k].createdAt <= c.lastOrderDate)
      && (exists k :: 0 <= k < |c.orderHistory| && c.orderHistory[k].createdAt == c.lastOrderDate)
      && c.name == c.orderHistory[0].customerInfo.name
      && c.email == c.orderHistory[0].customerInfo.email
      && c.address == c.orderHistory[0].customerInfo.address
      && c.favoriteCategory == FavoriteCategory(c.orderHistory[0])
  {
    var ks := Keys(orders, PhoneOf);
    WithKeyEmpty(orders, PhoneOf, ks[j]);
    var hist := WithKey(orders, PhoneOf, ks[j]);
    assert hist[0] in hist;
    assert forall k :: 0 <= k < |hist| ==> hist[k] in hist;
  }

  /** The list has one customer per phone that placed an order, each once. */
  lemma CustomersArePhones(orders: seq<Order>)
    ensures var cs := Customers(orders);
      && (forall i, j :: 0 <= i < j < |cs| ==> cs[i].phone != cs[j].phone)
      && (forall i :: 0 <= i < |orders| ==> exists j :: 0 <= j < |cs| && cs[j].phone == orders[i].customerInfo.phone)
  {
    var ks := Keys(orders, PhoneOf);
    var cs := Customers(orders);
    forall j | 0 <= j < |cs| ensures cs[j].phone == ks[j] {
      CustomerEntry(orders, j);
    }
    forall i | 0 <= i < |orders| ensures exists j :: 0 <= j < |cs| && cs[j].phone == orders[i].customerInfo.phone {
      assert HasKey(orders, PhoneOf, PhoneOf(orders[i]));
      var j :| 0 <= j < |ks| && ks[j] == PhoneOf(orders[i]);
      assert cs[j].phone == orders[i].customerInfo.phone;
    }
  }

  /**
   * Every order is counted for exactly one customer: the order counts add
   * up to the number of orders and the amounts spent to the total of all
   * orders.
   */
  lemma CustomerTotals(orders: seq<Order>)
    ensures Sum(Customers(orders), TotalOrders) == |orders|
    ensures Sum(Customers(orders), TotalSpent) == Sum(orders, AmountOf)
  {
    var ks := Keys(orders, PhoneOf);
    forall i | 0 <= i < |orders| ensures PhoneOf(orders[i]) in ks {
      assert HasKey(orders, PhoneOf, PhoneOf(orders[i]));
    }
    CustomersForTotals(orders, ks);
    CountsPartition(orders, PhoneOf, ks);
    KeySumPartition(orders, PhoneOf, ks, AmountOf);
  }

  /** The search: name or email contain the term ignoring case, or the phone contains it as typed. */
  predicate MatchesSearch(c: Customer, term: string) {
    || Includes(Lower(c.name), Lower(term))
    || Includes(Lower(c.email), Lower(term))
    || Includes(c.phone, term)
  }

  /** The list shown for a search term; an empty term shows every customer. */
  function FilteredCustomers(customers: seq<Customer>, searchTerm: string): seq<Customer> {
    if searchTerm == "" then customers else Filter(customers, c => MatchesSearch(c, searchTerm))
  }

  /**
   * The search keeps exactly the matching customers, in list order; with
   * an empty term every customer matches and the list is unchanged.
   */
  lemma FilteredCustomersSpec(customers: seq<Customer>, searchTerm: string)
    ensures var r := FilteredCustomers(customers, searchTerm);
      && (forall c :: c in r <==> c in customers && MatchesSearch(c, searchTerm))
      && IsSubsequence(r, customers)
      && (searchTerm == "" ==> r == customers)
  {
    if searchTerm == "" {
      forall c: Customer ensures MatchesSearch(c, "") {
        IncludesEmpty(c.phone);
      }
      SubsequenceReflexive(customers);
    } else {
      FilterSubsequence(customers, c => MatchesSearch(c, searchTerm));
    }
  }

  /** The loyalty tier shown next to a customer. */
  datatype Tier = VIP | Gold | Silver | Bronze

  function CustomerTier(totalSpent: int): Tier {
    if totalSpent >= 500000 then VIP
    else if totalSpent >= 200000 then Gold
    else if totalSpent >= 100000 then Silver
    else Bronze
  }

  /** Bronze is 0, VIP is 3. */
  function TierRank(t: Tier): nat {
    match t
    case Bronze => 0
    case Silver => 1
    case Gold => 2
    case VIP => 3
  }

  /**
   * The tiers split the amounts at 100000, 200000 and 500000 toman, and
   * spending more never lowers the tier.
   */
  lemma TierBands(a: int, b: int)
    ensures CustomerTier(a) == Bronze <==> a < 100000
    ensures CustomerTier(a) == Silver <==> 100000 <= a < 200000
    ensures CustomerTier(a) == Gold <==> 200000 <= a < 500000
    ensures CustomerTier(a) == VIP <==> a >= 500000
    ensures a <= b ==> TierRank(CustomerTier(a)) <= TierRank(CustomerTier(b))
  {
  }

  /** The customers panel: the search box and the two lists its effects keep. */
  class CustomersPanel {
    var searchTerm: string
    var customers: seq<Customer>
    var filteredCustomers: seq<Customer>

    constructor()
      ensures searchTerm == "" && customers == [] && filteredCustomers == []
    {
      searchTerm := "";
      customers := [];
      filteredCustomers := [];
    }

    /** The store's orders changed: both effects run, the list and then its filtered view. */
    method OrdersChanged(orders: seq<Order>)
      modifies this
      ensures customers == Customers(orders)
      ensures filteredCustomers == FilteredCustomers(customers, searchTerm)
      ensures searchTerm == old(searchTerm)
    {
      customers := CollectCustomers(orders);
      filteredCustomers := FilteredCustomers(customers, searchTerm);
    }

    /** Typing in the search box: the filtering effect runs. */
    method SetSearchTerm(term: string)
      modifies this
      ensures searchTerm == term && customers == old(customers)
      ensures filteredCustomers == FilteredCustomers(customers, term)
    {
      searchTerm := term;
      filteredCustomers := FilteredCustomers(customers, searchTerm);
    }
  }
}
