/**
 * The records and unions of the ordering front end: menu items, cart
 * entries, orders, the cart summary, the history filters. Prices are
 * integer toman; timestamps are integer milliseconds since the epoch.
 */
module OrderTypes {
  import opened Base

  /** `MenuItem['category']`. */
  datatype Category = Classic | Spicy | Vegetarian | Drinks | Desserts

  datatype Badge = PopularBadge | SpicyBadge

  /** A dish or drink; `prepTime` is in minutes. */
  datatype MenuItem = MenuItem(
    id: string,
    name: string,
    description: string,
    price: int,
    category: Category,
    image: Option<string>,
    prepTime: int,
    badges: Option<seq<Badge>>,
    isAvailable: bool)

  datatype Size = Small | Medium | Large

  datatype SelectedOptions = SelectedOptions(size: Option<Size>, extras: Option<seq<string>>)

  /** One line of the cart. */
  datatype CartItem = CartItem(
    id: string,
    menuItem: MenuItem,
    quantity: int,
    specialInstructions: Option<string>,
    selectedOptions: Option<SelectedOptions>)

  datatype CustomerInfo = CustomerInfo(name: string, phone: string, email: string, address: Option<string>)

  /** `Order['orderType']`. */
  datatype OrderType = DineIn | Takeaway | Delivery

  /** `Order['status']`. */
  datatype Status = Pending | Confirmed | Preparing | Ready | Delivered | Cancelled

  /** A submitted order: a snapshot of the cart plus customer and status data. */
  datatype Order = Order(
    id: string,
    orderNumber: string,
    items: seq<CartItem>,
    customerInfo: CustomerInfo,
    orderType: OrderType,
    status: Status,
    totalAmount: int,
    subtotal: int,
    tax: int,
    deliveryFee: Option<int>,
    discount: Option<int>,
    specialRequests: Option<string>,
    createdAt: int,
    estimatedDelivery: Option<int>,
    notes: Option<string>)

  datatype OrderSummary = OrderSummary(
    totalItems: int,
    subtotal: int,
    tax: int,
    deliveryFee: Option<int>,
    discount: Option<int>,
    total: int)

  /** Both bounds are inclusive. */
  datatype DateRange = DateRange(from: int, to: int)

  /** Every field is optional; `{}` is `NoFilters`. */
  datatype OrderFilters = OrderFilters(
    status: Option<seq<Status>>,
    orderType: Option<seq<OrderType>>,
    dateRange: Option<DateRange>)

  const NoFilters: OrderFilters := OrderFilters(None, None, None)

  const AllStatuses: seq<Status> := [Pending, Confirmed, Preparing, Ready, Delivered, Cancelled]
  const AllOrderTypes: seq<OrderType> := [DineIn, Takeaway, Delivery]
  const AllCategories: seq<Category> := [Classic, Spicy, Vegetarian, Drinks, Desserts]

  /** Every value of a union appears in its enumeration, exactly once. */
  lemma EnumerationsComplete()
    ensures forall s: Status :: s in AllStatuses
    ensures forall t: OrderType :: t in AllOrderTypes
    ensures forall c: Category :: c in AllCategories
    ensures forall i, j :: 0 <= i < j < |AllStatuses| ==> AllStatuses[i] != AllStatuses[j]
    ensures forall i, j :: 0 <= i < j < |AllOrderTypes| ==> AllOrderTypes[i] != AllOrderTypes[j]
    ensures forall i, j :: 0 <= i < j < |AllCategories| ==> AllCategories[i] != AllCategories[j]
  {
    forall s: Status ensures s in AllStatuses {
      match s
      case Pending => assert AllStatuses[0] == s;
      case Confirmed => assert AllStatuses[1] == s;
      case Preparing => assert AllStatuses[2] == s;
      case Ready => assert AllStatuses[3] == s;
      case Delivered => assert AllStatuses[4] == s;
      case Cancelled => assert AllStatuses[5] == s;
    }
    forall t: OrderType ensures t in AllOrderTypes {
      match t
      case DineIn => assert AllOrderTypes[0] == t;
      case Takeaway => assert AllOrderTypes[1] == t;
      case Delivery => assert AllOrderTypes[2] == t;
    }
    forall c: Category ensures c in AllCategories {
      match c
      case Classic => assert AllCategories[0] == c;
      case Spicy => assert AllCategories[1] == c;
      case Vegetarian => assert AllCategories[2] == c;
      case Drinks => assert AllCategories[3] == c;
      case Desserts => assert AllCategories[4] == c;
    }
  }
}
