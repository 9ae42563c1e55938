/**
 * The order page: which of the cart, checkout, confirmation and history
 * screens is shown, and the order the confirmation screen shows.
 */
module OrderPage {
  import opened Base
  import opened OrderTypes

  /** `OrderPageState`. */
  datatype View = CartView | CheckoutView | SuccessView | HistoryView

  /** What `renderContent()` returns; `Blank` is its `null`. */
  datatype Screen = CartScreen | CheckoutScreen | SuccessScreen(order: Order) | HistoryScreen | Blank

  datatype PageState = PageState(view: View, currentOrder: Option<Order>)

  const InitialPage: PageState := PageState(CartView, None)

  /** The page's handlers and buttons. */
  datatype Event =
    | Checkout                  // `handleCheckout`, from the cart
    | OrderPlaced(order: Order) // `handleOrderSuccess`, from the checkout
    | ViewOrder(order: Order)   // `handleViewOrder`, from the history
    | ContinueShopping          // `handleContinueShopping`, from the confirmation
    | BackToCart                // `handleBackToCart`, from the checkout
    | HistoryButton             // the confirmation's "view order" button
    | CartTab                   // the cart tab
    | HistoryTab                // the history tab

  function Step(s: PageState, e: Event): PageState {
    match e
    case Checkout => s.(view := CheckoutView)
    case OrderPlaced(o) => PageState(SuccessView, Some(o))
    case ViewOrder(o) => PageState(SuccessView, Some(o))
    case ContinueShopping => PageState(CartView, None)
    case BackToCart => s.(view := CartView)
    case HistoryButton => s.(view := HistoryView)
    case CartTab => s.(view := CartView)
    case HistoryTab => s.(view := HistoryView)
  }

  /** `renderContent()`: the confirmation screen renders nothing without an order. */
  function Render(s: PageState): Screen {
    match s.view
    case CartView => CartScreen
    case CheckoutView => CheckoutScreen
    case SuccessView => if s.currentOrder.Some? then SuccessScreen(s.currentOrder.value) else Blank
    case HistoryView => HistoryScreen
  }

  /** The confirmation view is only ever entered with an order to show. */
  predicate Inv(s: PageState) {
    s.view == SuccessView ==> s.currentOrder.Some?
  }

  function Run(s: PageState, events: seq<Event>): PageState {
    if events == [] then s else Step(Run(s, events[..|events| - 1]), events[|events| - 1])
  }

  /** No sequence of clicks from the initial page leads to the blank screen. */
  lemma {:induction false} NeverBlank(events: seq<Event>)
    ensures Inv(Run(InitialPage, events))
    ensures Render(Run(InitialPage, events)) != Blank
  {
    if events != [] {
      NeverBlank(events[..|events| - 1]);
    }
  }

  /** The confirmation screen shows the order last placed or viewed. */
  lemma SuccessShowsLastOrder(s: PageState, o: Order, placed: bool)
    ensures Render(Step(s, if placed then OrderPlaced(o) else ViewOrder(o))) == SuccessScreen(o)
  {
  }

  /** The page component. */
  class OrderPageComponent {
    var currentState: View
    var currentOrder: Option<Order>

    function State(): PageState
      reads this
    {
      PageState(currentState, currentOrder)
    }

    constructor()
      ensures State() == InitialPage
    {
      currentState := CartView;
      currentOrder := None;
    }

    method HandleCheckout()
      modifies this
      ensures State() == Step(old(State()), Checkout)
    {
      currentState := CheckoutView;
    }

    method HandleOrderSuccess(order: Order)
      modifies this
      ensures State() == Step(old(State()), OrderPlaced(order))
    {
      currentOrder := Some(order);
      currentState := SuccessView;
    }

    method HandleViewOrder(order: Order)
      modifies this
      ensures State() == Step(old(State()), ViewOrder(order))
    {
      currentOrder := Some(order);
      currentState := SuccessView;
    }

    method HandleContinueShopping()
      modifies this
      ensures State() == Step(old(State()), ContinueShopping)
    {
      currentState := CartView;
      currentOrder := None;
    }

    method HandleBackToCart()
      modifies this
      ensures State() == Step(old(State()), BackToCart)
    {
      currentState := CartView;
    }

    method ShowHistory()
      modifies this
      ensures State() == Step(old(State()), HistoryButton)
    {
      currentState := HistoryView;
    }

    method SelectCartTab()
      modifies this
      ensures State() == Step(old(State()), CartTab)
    {
      currentState := CartView;
    }

    method SelectHistoryTab()
      modifies this
      ensures State() == Step(old(State()), HistoryTab)
    {
      currentState := HistoryView;
    }
  }
}
