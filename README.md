# Burger café ordering front end, modelled in Dafny

This project models the client-side ordering logic of the burger café web
site. That logic is written in TypeScript with React and zustand.

- **The order store** holds the cart, the placed orders, the order just
  placed, a loading flag and an error message. Its actions:
  - add a dish to the cart, remove a line, and change a line's quantity or
    instructions;
  - summarise the cart: item count, subtotal, 9% tax and total;
  - place the cart as a pending order, adding a flat 15000 toman delivery
    fee for deliveries;
  - set an order's status;
  - list the order history, filtered and newest first.
- **The order pages**:
  - the cart page with its five-line pages;
  - the checkout form, with its validation and submission;
  - the confirmation screen's time estimate;
  - the order history, with its search, filters, cancel and reorder;
  - the page state machine that switches between those screens.
- **The admin pages**:
  - the customer list, grouped by phone, with its search and loyalty tiers;
  - the period report: revenue, customers, best sellers, counts by status
    and type, revenue by category, and orders per hour;
  - the dashboard cards and recent-orders list.
- **The public pages and widgets**:
  - the menu filter;
  - the gallery filter and lightbox;
  - the language switcher's path rewriting;
  - the toast hook;
  - the theme provider.

How the model is written:
- Prices are integer toman, and timestamps are integer milliseconds.
- The clock is a `now` parameter.
- The store is a class whose methods are specified by step functions on a
  `StoreState` snapshot (module `Store`).
- Pure derivations are functions. Each has lemmas stating what it
  computes.
- The two map-building loops of the admin pages are methods. Each is proved
  to build the map and the key order that a function specifies:
  - `AdminCustomers.BuildCustomerMap`, with `AdminCustomers.RecordOrder`
    for one pass of the loop;
  - `AdminReports.CollectItemSales` and `AdminReports.AddOrderSales`.
- So is the hourly-bins loop over an array, `AdminReports.HourlyDistribution`.

Helper modules:
- `Base` defines `Option`.
- `Seqs` covers filter, stable sort, take, find and sum over sequences.
- `Strings` covers JavaScript's `trim`, `toLowerCase`, `includes`,
  `startsWith`, `replace` and decimal rendering.
- `Tally` covers grouping a sequence by key, in first-appearance order.

The cart lookup behaves in a way worth knowing. `addToCart` looks for a line
whose id is `<dish id>-<instructions or "default">`. It gives new lines the
id `<dish id>-<clock reading>`. So a cart built by `addToCart` merges a line
only when the instructions end in a digit:
- `CartLogic.RepeatedAddAppends` and `CartLogic.AddTwiceMakesTwoLines` prove
  that adding the same dish again appends a line.
- `OrderHistoryView.ReorderSameTickDuplicatesIds` proves that a reorder
  inside one clock tick can give two lines the same id.

The model follows the code as written here and does not correct it.

## Model

| member | source | states |
|---|---|---|
| OrderTypes.EnumerationsComplete | src/types/order.ts:34-35 | every status, order type and menu category is listed once in its enumeration |
| CartLogic.InstructionsOrDefault | src/store/orderStore.ts:18 | absent or empty instructions read as "default", others as themselves, and the result is never empty |
| CartLogic.FirstLineOf | src/store/orderStore.ts:18 | when some line has the lookup key, `findIndex` finds the first line with that id |
| CartLogic.AddToCartExistingLine | src/store/orderStore.ts:16-24 | when a line's id equals the lookup key, the first such line's quantity grows by `quantity`, the length is the same and every other line is unchanged |
| CartLogic.AddToCartNewLine | src/store/orderStore.ts:25-34 | otherwise exactly one line is appended after the old cart: the dish, the quantity, the instructions and the id minted from the clock |
| CartLogic.AddToCartTotalItems | src/store/orderStore.ts:16-35 | on either branch the cart's item count grows by exactly `quantity` |
| CartLogic.AddToCartNewLineSubtotal | src/store/orderStore.ts:25-34 | an appended line adds price times quantity to the subtotal |
| CartLogic.MintedIdEndsInDigit | src/store/orderStore.ts:28 | a minted id ends in a decimal digit |
| CartLogic.RepeatedAddAppends | src/store/orderStore.ts:18-33 | on a cart whose ids all end in digits, adding with instructions that do not end in a digit never finds a line and always appends |
| CartLogic.AddTwiceMakesTwoLines | src/store/orderStore.ts:16-35 | the same dish added twice without instructions gives two lines |
| CartLogic.RemoveFromCartSpec | src/store/orderStore.ts:37-40 | removal leaves no line with the id, keeps every other line with its multiplicity, and keeps their order |
| CartLogic.RemoveAbsentId | src/store/orderStore.ts:37-40 | removing an id no line has changes nothing |
| CartLogic.RemoveFromCartSubtotal | src/store/orderStore.ts:37-40 | the subtotal drops by exactly the value of the removed lines |
| CartLogic.WithQuantity | src/store/orderStore.ts:48-52 | the lines with the id get the new quantity; length, order and all other lines are unchanged |
| CartLogic.UpdateQuantitySpec | src/store/orderStore.ts:42-53 | a quantity of zero or less removes the id's lines; a positive one changes only the quantity of the id's lines |
| CartLogic.UpdateQuantityIdempotent | src/store/orderStore.ts:42-53 | setting the same quantity twice is setting it once |
| CartLogic.WithInstructions | src/store/orderStore.ts:55-61 | the lines with the id get the new instructions; length, order and all other lines are unchanged |
| CartLogic.InstructionsKeepSummary | src/store/orderStore.ts:55-61 | editing instructions changes nothing in the cart summary |
| CartLogic.PositiveQuantitiesPreserved | src/store/orderStore.ts:16-61 | adding a positive quantity, updating, removing and editing instructions keep every quantity positive |
| CartLogic.AddKeepsPositive | src/store/orderStore.ts:16-35 | adding a positive quantity keeps every quantity positive |
| CartLogic.RemoveKeepsPositive | src/store/orderStore.ts:37-40 | removal keeps every quantity positive |
| CartLogic.InstructionsKeepPositive | src/store/orderStore.ts:55-61 | editing instructions keeps every quantity positive |
| CartLogic.Tax | src/store/orderStore.ts:151 | the tax is 9% of the subtotal rounded to the nearest integer, halves up |
| CartLogic.CartSummary | src/store/orderStore.ts:148-160 | subtotal and item count are the sums over the lines, the tax is `Tax` of the subtotal, the total is subtotal plus tax (the subtotal plus 9% rounded), and there is no fee or discount |
| CartLogic.SummaryNonNegative | src/store/orderStore.ts:148-160 | a cart of non-negative prices and quantities has non-negative subtotal and tax and a total at least the subtotal; the empty cart summarises to zeros |
| OrderLogic.NewOrder | src/store/orderStore.ts:79-101 | the new order is pending and holds the cart, customer, type and requests; subtotal and tax come from the summary; total is the summary total plus 15000 exactly for deliveries; fee and estimated delivery are set exactly for deliveries; id and number carry the clock reading |
| OrderLogic.NewOrderIdsDistinct | src/store/orderStore.ts:80-83 | orders placed at different clock readings get different ids and order numbers |
| OrderLogic.WithStatus | src/store/orderStore.ts:120-126 | every order with the id gets the status; length, order and all other orders are unchanged |
| OrderLogic.UpdateStatusUnguarded | src/store/orderStore.ts:120-126 | any status may replace any other; only `status` changes; the lookup by id then returns the order with the new status |
| OrderLogic.FindOrder | src/store/orderStore.ts:132-135 | the lookup returns the first order of the list with that id, and nothing exactly when no order has the id |
| OrderLogic.StatusListsPartition | src/store/orderStore.ts:137-140 | the six per-status lists together count every order once |
| OrderLogic.TypeListsPartition | src/store/orderStore.ts:142-145 | the three per-type lists together count every order once |
| OrderLogic.ByStatusSpec | src/store/orderStore.ts:166-170 | the status filter keeps exactly the orders whose status is listed, each as often as before, in order; an unset or empty list keeps all |
| OrderLogic.ByTypeSpec | src/store/orderStore.ts:172-176 | the type filter does the same for order types |
| OrderLogic.ByDateSpec | src/store/orderStore.ts:178-183 | the date filter keeps exactly the orders created within the inclusive range, in order |
| OrderLogic.FilteredSpec | src/store/orderStore.ts:162-183 | the successive filters keep exactly the orders passing every set filter, each as often as before, in order |
| OrderLogic.OrderHistorySpec | src/store/orderStore.ts:162-186 | the history is sorted newest first and holds exactly the passing orders with their multiplicities; orders created at the same time keep their store order; without filters it is a permutation of all orders |
| Store.Rehydrate | src/store/orderStore.ts:200-206 | only cart and orders are persisted: a rehydrated store has no current order, no error and is not loading, and persisting it writes back what was read |
| Store.CreateOrderSpec | src/store/orderStore.ts:68-108 | with an empty cart only the "Cart is empty" error is set; otherwise exactly one pending order made from the cart is appended after the old orders, becomes the current order, and the cart is emptied with no error and not loading |
| Store.CartActionsKeepConsistent | src/store/orderStore.ts:16-65 | the cart actions keep the store invariant: positive quantities, and every order agreeing with its lines |
| Store.StatusUpdateKeepsConsistent | src/store/orderStore.ts:120-126 | status changes keep the store invariant |
| Store.CreateOrderKeepsConsistent | src/store/orderStore.ts:76-108 | the new order has lines, its subtotal is theirs and its total is subtotal, tax and fee, so placing keeps the invariant |
| Store.CurrentOrderGoesStale | src/store/orderStore.ts:103-108 | cancelling the order just placed updates the stored copy but `currentOrder` still shows it pending |
| Store.OrderStore.constructor | src/store/orderStore.ts:9-13 | the store starts with empty cart and orders, no current order, not loading and no error |
| Store.OrderStore.AddToCart | src/store/orderStore.ts:16-35 | the cart becomes `AddedToCart` of the old cart with quantity 1 by default; nothing else changes |
| Store.OrderStore.RemoveFromCart | src/store/orderStore.ts:37-40 | the cart becomes `RemovedFromCart` of the old cart; nothing else changes |
| Store.OrderStore.UpdateCartItemQuantity | src/store/orderStore.ts:42-53 | the cart becomes `UpdatedQuantity` of the old cart, which is removal for quantities of zero or less; nothing else changes |
| Store.OrderStore.UpdateCartItemInstructions | src/store/orderStore.ts:55-61 | the cart becomes `WithInstructions` of the old cart; nothing else changes |
| Store.OrderStore.ClearCart | src/store/orderStore.ts:63-65 | the cart is emptied; nothing else changes |
| Store.OrderStore.CreateOrder | src/store/orderStore.ts:68-108 | the new state is `CreateOrderStep` of the old one |
| Store.OrderStore.UpdateOrderStatus | src/store/orderStore.ts:120-126 | the orders become `WithStatus` of the old orders; nothing else changes |
| Store.OrderStore.CancelOrder | src/store/orderStore.ts:128-130 | cancelling is setting the status to cancelled |
| Store.OrderStore.SetLoading | src/store/orderStore.ts:188-190 | only the loading flag changes |
| Store.OrderStore.SetError | src/store/orderStore.ts:192-194 | only the error changes |
| Store.OrderStore.ClearError | src/store/orderStore.ts:196-198 | only the error is cleared |
| Checkout.NameError | src/components/order/Checkout.tsx:38-40 | the name has an error exactly when it is blank |
| Checkout.PhoneError | src/components/order/Checkout.tsx:41-45 | the phone has no error exactly when it is "09" and nine more ASCII digits; otherwise "required" if blank, else "invalid" |
| Checkout.EmailError | src/components/order/Checkout.tsx:46-50 | the e-mail has no error exactly when it has the shape local@domain.tld with no whitespace or extra `@`; otherwise "required" if blank, else "invalid" |
| Checkout.AddressError | src/components/order/Checkout.tsx:51-53 | the address has an error exactly for a delivery with a blank address |
| Checkout.FormErrorsSpec | src/components/order/Checkout.tsx:35-55 | the error map holds exactly the fields whose check failed, with that check's message |
| Checkout.BlankMobilePhone | src/components/order/Checkout.tsx:41-45 | a blank phone never matches the mobile pattern, so the blank test comes first without hiding a valid number |
| Checkout.BlankEmail | src/components/order/Checkout.tsx:46-50 | a blank e-mail never matches the e-mail pattern |
| Checkout.ValidIff | src/components/order/Checkout.tsx:35-57 | the form is valid exactly when the name is not blank, the phone and e-mail match their patterns, and a delivery has an address |
| Checkout.PhoneExamples | src/components/order/Checkout.tsx:43 | "09123456789" passes; a missing leading zero, a twelfth digit or a leading space fails |
| Checkout.EmailAccepted | src/components/order/Checkout.tsx:48 | "ali@cafe.ir" passes the e-mail pattern |
| Checkout.EmailWithoutDotRejected | src/components/order/Checkout.tsx:48 | "ali@cafe" fails: the domain needs a dot |
| Checkout.EmailWithEmptyDomainLabelRejected | src/components/order/Checkout.tsx:48 | "ali@.ir" fails: the dot cannot start the domain |
| Checkout.OrUndefined | src/components/order/Checkout.tsx:70-73 | an empty text is sent as undefined, any other as itself |
| Checkout.SubmitChargesDisplayedTotal | src/components/order/Checkout.tsx:59-96 | a valid submission with a non-empty cart hands `onSuccess` the order just placed, and its total is the total the form displayed |
| Checkout.SubmitWithEmptyCartShowsOldOrder | src/components/order/Checkout.tsx:62-82 | a valid submission with an empty cart places nothing and hands `onSuccess` the last earlier order |
| Checkout.InvalidSubmitChangesNothing | src/components/order/Checkout.tsx:62 | an invalid form never reaches the store and shows no order |
| Checkout.ClearedError | src/components/order/Checkout.tsx:90-92 | editing a field blanks that field's error if it has one and leaves the other errors unchanged |
| Checkout.CheckoutForm.constructor | src/components/order/Checkout.tsx:18-27 | empty fields, dine-in, no errors |
| Checkout.CheckoutForm.HandleInputChange | src/components/order/Checkout.tsx:88-93 | the text field takes the value and only its error is cleared |
| Checkout.CheckoutForm.SelectOrderType | src/components/order/Checkout.tsx:132 | the order type changes and only its error is cleared |
| Checkout.CheckoutForm.ValidateForm | src/components/order/Checkout.tsx:35-57 | the errors become `FormErrors` of the form and the result is true exactly when the form is valid |
| Checkout.CheckoutForm.HandleSubmit | src/components/order/Checkout.tsx:59-86 | validates, then updates the store and returns the order shown as `SubmitOutcome` says |
| CartView.TotalPages | src/components/order/Cart.tsx:23-24 | the page count is the least number of five-line pages holding the cart |
| CartView.PagesPrefix | src/components/order/Cart.tsx:27-31 | the first k pages together are the cart's first 5k lines, in order |
| CartView.PagesCoverCart | src/components/order/Cart.tsx:27-31 | all pages together are the whole cart |
| CartView.PageSizes | src/components/order/Cart.tsx:27-31 | every page in range has one to five lines, and pages beyond the last are empty |
| CartView.PagerIffSeveralPages | src/components/order/Cart.tsx:176-177 | the pager shows exactly when there are at least two pages |
| CartView.PagerStaysInRange | src/components/order/Cart.tsx:180-206 | previous and next stay within the pages, stop only at the first and last page, and always land on a non-empty page |
| CartView.ResetLandsOnAPage | src/components/order/Cart.tsx:34-38 | after the reset effect the page is at least 1, and within range when the cart is not empty |
| CartView.DecrementAtOneRemoves | src/components/order/Cart.tsx:126 | minus on a line of quantity one removes it |
| CartView.CartPage.constructor | src/components/order/Cart.tsx:16-18 | no line is edited, the text is empty, and the page is 1 |
| CartView.CartPage.Previous | src/components/order/Cart.tsx:180 | the page becomes `max(1, page - 1)` |
| CartView.CartPage.Next | src/components/order/Cart.tsx:205 | the page becomes `min(totalPages, page + 1)` |
| CartView.CartPage.GoToPage | src/components/order/Cart.tsx:192 | a page button selects its page |
| CartView.CartPage.ResetIfBeyond | src/components/order/Cart.tsx:34-38 | the page goes back to 1 when it is past a non-zero page count |
| CartView.CartPage.EditInstructions | src/components/order/Cart.tsx:50-53 | the line is being edited, starting from its instructions or "" |
| CartView.CartPage.TypeInstructions | src/components/order/Cart.tsx:150 | the edited text changes |
| CartView.CartPage.SaveInstructions | src/components/order/Cart.tsx:44-48 | the store writes the edited text to the line, and the editor closes and empties |
| CartView.CartPage.CancelEdit | src/components/order/Cart.tsx:163 | the editor closes |
| CartView.CartPage.Decrement | src/components/order/Cart.tsx:126 | the store sets the line to quantity minus one |
| CartView.CartPage.Increment | src/components/order/Cart.tsx:135 | the store sets the line to quantity plus one |
| CartView.CartPage.Remove | src/components/order/Cart.tsx:115 | the store removes the line |
| OrderHistoryView.SelectStatus | src/components/order/OrderHistory.tsx:153-157 | the status select sets a one-status list, or no filter for "all", and leaves the other filters alone |
| OrderHistoryView.SelectType | src/components/order/OrderHistory.tsx:174-178 | the type select does the same for order types |
| OrderHistoryView.DisplayedOrdersSpec | src/components/order/OrderHistory.tsx:31-41 | the view shows exactly the orders passing the filters and the search, newest first, with their multiplicities, in the order of the store's history so ties keep their store order |
| OrderHistoryView.EmptySearchShowsHistory | src/components/order/OrderHistory.tsx:32 | an empty search shows the whole filtered history |
| OrderHistoryView.SearchByOrderNumberFindsIt | src/components/order/OrderHistory.tsx:33-35 | searching for an order's number shows that order |
| OrderHistoryView.ReorderStep | src/components/order/OrderHistory.tsx:91-93 | one more line re-added is one more `addToCart` on the cart built so far |
| OrderHistoryView.ReorderAddsQuantities | src/components/order/OrderHistory.tsx:90-94 | a reorder adds exactly the order's item count to the cart's |
| OrderHistoryView.SameTickAdds | src/components/order/OrderHistory.tsx:91-93 | the same dish added twice at one clock reading to an empty cart gives two lines with one id |
| OrderHistoryView.ReorderSameTickDuplicatesIds | src/components/order/OrderHistory.tsx:90-94 | reordering two lines of the same dish within one tick gives two cart lines with the same id |
| OrderHistoryView.CancelEndsEligibility | src/components/order/OrderHistory.tsx:246-256 | the cancel button (`CanCancel`, pending orders only) is shown only where the reorder button (`CanReorder`, any order not cancelled) is; cancelling an order removes both buttons from it and leaves every other order unchanged |
| OrderHistoryView.OrderHistoryPage.constructor | src/components/order/OrderHistory.tsx:27-29 | no filters, filters hidden, empty search |
| OrderHistoryView.OrderHistoryPage.ToggleFilters | src/components/order/OrderHistory.tsx:137 | the filter panel opens or closes |
| OrderHistoryView.OrderHistoryPage.SetSearchTerm | src/components/order/OrderHistory.tsx:132 | the search term changes |
| OrderHistoryView.OrderHistoryPage.ChooseStatus | src/components/order/OrderHistory.tsx:154-157 | the filters become `SelectStatus` of the old ones |
| OrderHistoryView.OrderHistoryPage.ChooseType | src/components/order/OrderHistory.tsx:175-178 | the filters become `SelectType` of the old ones |
| OrderHistoryView.OrderHistoryPage.ClearFilters | src/components/order/OrderHistory.tsx:102-105 | filters and search are reset |
| OrderHistoryView.OrderHistoryPage.HandleCancelOrder | src/components/order/OrderHistory.tsx:96-100 | a confirmed cancel cancels the order in the store; otherwise nothing changes |
| OrderHistoryView.OrderHistoryPage.HandleReorder | src/components/order/OrderHistory.tsx:90-94 | the loop calls `addToCart` once per line, in order, with the line's dish, quantity and instructions |
| OrderSuccess.MaxPrepTime | src/components/order/OrderSuccess.tsx:31 | the maximum is at least every line's preparation time and equal to one of them, and is absent exactly for no lines |
| OrderSuccess.EstimateOfPlacedOrder | src/components/order/OrderSuccess.tsx:30-33 | for every order the store holds, the estimate is at least every dish's time plus 30 for a delivery, and equal to one of them plus 30 for a delivery |
| OrderPage.NeverBlank | src/app/order/page.tsx:45-69 | no sequence of clicks from the start leads to the empty confirmation screen |
| OrderPage.SuccessShowsLastOrder | src/app/order/page.tsx:26-34 | placing or viewing an order shows the confirmation of that order |
| OrderPage.OrderPageComponent.constructor | src/app/order/page.tsx:19-20 | the page starts on the cart with no order |
| OrderPage.OrderPageComponent.HandleCheckout | src/app/order/page.tsx:22-24 | goes to the checkout |
| OrderPage.OrderPageComponent.HandleOrderSuccess | src/app/order/page.tsx:26-29 | shows the confirmation of the placed order |
| OrderPage.OrderPageComponent.HandleViewOrder | src/app/order/page.tsx:31-34 | shows the confirmation of the viewed order |
| OrderPage.OrderPageComponent.HandleContinueShopping | src/app/order/page.tsx:36-39 | goes to the cart and forgets the order |
| OrderPage.OrderPageComponent.HandleBackToCart | src/app/order/page.tsx:41-43 | goes to the cart and keeps the order |
| OrderPage.OrderPageComponent.ShowHistory | src/app/order/page.tsx:60 | the confirmation's button goes to the history |
| OrderPage.OrderPageComponent.SelectCartTab | src/app/order/page.tsx:91 | the cart tab goes to the cart from anywhere |
| OrderPage.OrderPageComponent.SelectHistoryTab | src/app/order/page.tsx:102 | the history tab goes to the history from anywhere |
| AdminCustomers.LastOrderDate | src/components/admin/AdminCustomers.tsx:54-57 | the last order date is at least every creation time and equal to one of them |
| AdminCustomers.HistorySnoc | src/components/admin/AdminCustomers.tsx:48-72 | a customer built from a phone's orders plus one is the loop's update of the customer from the earlier orders, or its new record |
| AdminCustomers.CustomerMapAt | src/components/admin/AdminCustomers.tsx:43-74 | after any prefix of the orders, the map has an entry for exactly the phones seen, and each entry is the customer made from that phone's orders |
| AdminCustomers.CollectStep | src/components/admin/AdminCustomers.tsx:45-73 | one iteration updates the map and appends the phone to the key order exactly when it is new |
| AdminCustomers.CustomerMapListed | src/components/admin/AdminCustomers.tsx:77 | listing the map's values in insertion order gives the customer list |
| AdminCustomers.RecordOrder | src/components/admin/AdminCustomers.tsx:46-72 | the loop body updates the phone's entry: one more order, its amount, its date if later and the order appended; or a new record from the order |
| AdminCustomers.BuildCustomerMap | src/components/admin/AdminCustomers.tsx:43-74 | the loop builds the map keyed by phone and its insertion order, the phones in order of first appearance |
| AdminCustomers.CollectCustomers | src/components/admin/AdminCustomers.tsx:41-83 | the effect produces the customer list |
| AdminCustomers.CustomerEntry | src/components/admin/AdminCustomers.tsx:59-70 | each customer's history is exactly its phone's orders in store order, its count and total are theirs, its last date is the latest of them, and name, e-mail, address and favourite category come from the first of them |
| AdminCustomers.CustomersArePhones | src/components/admin/AdminCustomers.tsx:43-77 | there is one customer per phone that ordered, and no phone twice |
| AdminCustomers.CustomerTotals | src/components/admin/AdminCustomers.tsx:45-74 | order counts add up to the number of orders and amounts spent to the total of all orders |
| AdminCustomers.FilteredCustomersSpec | src/components/admin/AdminCustomers.tsx:85-97 | the search keeps exactly the customers whose name or e-mail contains the term ignoring case, or whose phone contains it, in list order; an empty term keeps all |
| AdminCustomers.TierBands | src/components/admin/AdminCustomers.tsx:128-133 | VIP from 500000, gold from 200000, silver from 100000, bronze below; spending more never lowers the tier |
| AdminCustomers.CustomersPanel.constructor | src/components/admin/AdminCustomers.tsx:37-39 | empty search and lists |
| AdminCustomers.CustomersPanel.OrdersChanged | src/components/admin/AdminCustomers.tsx:41-97 | the list is rebuilt from the orders and refiltered with the current term |
| AdminCustomers.CustomersPanel.SetSearchTerm | src/components/admin/AdminCustomers.tsx:85-97 | the filtered list follows the new term |
| AdminReports.LocalHour | src/components/admin/AdminReports.tsx:112 | the hour of an instant is between 0 and 23 |
| AdminReports.LinesSnoc | src/components/admin/AdminReports.tsx:76-77 | the lines of the orders plus one are the earlier lines followed by its lines |
| AdminReports.Entries | src/components/admin/AdminReports.tsx:74-84 | one row per dish in insertion order, each built from the dish's first line |
| AdminReports.ItemSalesDomain | src/components/admin/AdminReports.tsx:62-72 | every dish sold has an entry in the sales map |
| AdminReports.EntriesSpec | src/components/admin/AdminReports.tsx:62-84 | each row's quantity is the total quantity of its dish; its name is that of the dish's first line, or "Unknown" when empty; its revenue is the quantity times that line's price |
| AdminReports.EntriesAddUp | src/components/admin/AdminReports.tsx:62-84 | the rows' quantities add up to all quantities sold |
| AdminReports.EntriesTotal | src/components/admin/AdminReports.tsx:74-84 | the rows' quantities add up to the map's values |
| AdminReports.TopSellingSpec | src/components/admin/AdminReports.tsx:74-86 | at most five rows, most sold first, drawn from the per-dish rows, with no dish left out having sold more than one shown |
| AdminReports.CollectItemSales | src/components/admin/AdminReports.tsx:62-72 | the nested loops build the per-dish quantity map and the order dishes were first sold in |
| AdminReports.AddOrderSales | src/components/admin/AdminReports.tsx:64-71 | the inner loop adds one order's lines to the map |
| AdminReports.SaleStep | src/components/admin/AdminReports.tsx:65-70 | one line adds its quantity to its dish's entry, creating it and extending the key order when new |
| AdminReports.HourBins | src/components/admin/AdminReports.tsx:110 | there are 24 bins |
| AdminReports.HourBinsSnoc | src/components/admin/AdminReports.tsx:111-113 | one more order increments exactly its hour's bin |
| AdminReports.HourBinsAddUp | src/components/admin/AdminReports.tsx:110-114 | the bins add up to the number of orders |
| AdminReports.HourlyDistribution | src/components/admin/AdminReports.tsx:110-114 | the loop fills a fresh array of 24 bins with the count of orders of each hour |
| AdminReports.CalculateReportData | src/components/admin/AdminReports.tsx:29-128 | the effect computes the report |
| AdminReports.PeriodSpec | src/components/admin/AdminReports.tsx:30-43 | the period holds exactly the orders created at or after `now` minus the days, in store order; revenue and count are theirs; there are never more customers than orders |
| AdminReports.StatusAndTypeCounts | src/components/admin/AdminReports.tsx:89-98 | each status and type count is the number of the period's orders with it; only occurring keys are listed; the counts add up to the order count |
| AdminReports.CategoryRevenue | src/components/admin/AdminReports.tsx:101-107 | each category's revenue is price times quantity over its lines; only occurring categories are listed; the categories add up to the value of all lines, without tax or fees |
| AdminReports.HourlySpec | src/components/admin/AdminReports.tsx:110-114 | 24 bins, each counting exactly the period's orders of that hour, adding up to the order count |
| AdminReports.ReportsPanel.constructor | src/components/admin/AdminReports.tsx:10-23 | the page opens on 7 days with an empty report |
| AdminReports.ReportsPanel.Recalculate | src/components/admin/AdminReports.tsx:25-27 | the report is recalculated for the current period |
| AdminReports.ReportsPanel.SetDateRange | src/components/admin/AdminReports.tsx:180-188 | choosing a period sets it and recalculates |
| AdminDashboard.DashboardStatsSpec | src/components/admin/AdminDashboard.tsx:25-38 | the cards count all orders, the pending and the delivered ones, and sum all totals; pending and delivered together never exceed the total |
| AdminDashboard.RecentOrdersSpec | src/components/admin/AdminDashboard.tsx:44 | the recent list is the first five orders, or all when fewer, so a later order never shows once there are five |
| AdminDashboard.DashboardPanel.constructor | src/components/admin/AdminDashboard.tsx:17-23 | all cards start at zero |
| AdminDashboard.DashboardPanel.OrdersChanged | src/components/admin/AdminDashboard.tsx:25-38 | the effect sets the cards to the stats of the orders |
| Menu.FilterCardsSpec | src/components/MenuClient.tsx:165-170 | a card is shown exactly when it matches the category and the search, in declared order; "no results" exactly when none matches both |
| Menu.EmptySearchMatches | src/components/MenuClient.tsx:167-168 | an empty search matches every card |
| Menu.InitialViewShowsAll | src/components/MenuClient.tsx:25-170 | "all" with an empty search shows the eleven declared cards in order |
| Menu.MenuPage.constructor | src/components/MenuClient.tsx:11-12 | starts on "all" with an empty search |
| Menu.MenuPage.SetActiveCategory | src/components/MenuClient.tsx:11 | the category changes, the search stays |
| Menu.MenuPage.SetSearchTerm | src/components/MenuClient.tsx:12 | the search changes, the category stays |
| Gallery.FilterImagesSpec | src/components/GalleryClient.tsx:111-113 | "all" shows every photo; a category shows exactly its photos, in declared order |
| Gallery.FilterBlocks | src/components/GalleryClient.tsx:113 | filtering runs of passing and failing photos keeps the passing runs |
| Gallery.DeclaredViews | src/components/GalleryClient.tsx:24-113 | "all" shows twelve photos and "food" shows photos 1, 2, 3 and 10 |
| Gallery.SelectionIsAPosition | src/components/GalleryClient.tsx:178-240 | the selection is a position in the current view: the fourth food photo is photo 10 |
| Gallery.GalleryPage.constructor | src/components/GalleryClient.tsx:12-13 | starts on "all" with the lightbox closed |
| Gallery.GalleryPage.SelectCategory | src/components/GalleryClient.tsx:12 | the category changes and the selected position stays |
| Gallery.GalleryPage.OpenImage | src/components/GalleryClient.tsx:178-240 | clicking a photo selects its position, and the lightbox shows that photo |
| Gallery.GalleryPage.CloseImage | src/components/GalleryClient.tsx:222-232 | closing clears the selection and the lightbox shows nothing |
| LanguageToggle.CodeInjective | src/components/LanguageToggle.tsx:15-18 | the two locales have different codes |
| LanguageToggle.FirstSegment | src/components/LanguageToggle.tsx:22-23 | the first non-empty segment is absent exactly for a path of slashes, and is otherwise non-empty and slash-free |
| LanguageToggle.DetectLocaleSpec | src/components/LanguageToggle.tsx:21-30 | English is detected exactly when the first segment is "en"; "fa" and every other path give Persian |
| LanguageToggle.FirstSegmentOfPrefixed | src/components/LanguageToggle.tsx:22-23 | `/code` and `/code/...` have `code` as first segment |
| LanguageToggle.NewPathSpec | src/components/LanguageToggle.tsx:39-53 | a path under the current locale keeps everything after the locale segment; every other path goes to the new locale's home |
| LanguageToggle.NewPathDetected | src/components/LanguageToggle.tsx:39-53 | the new path is under the new locale and is detected as it |
| LanguageToggle.SameLocaleKeepsPath | src/components/LanguageToggle.tsx:44-49 | choosing the shown locale on a locale path keeps the path |
| LanguageToggle.SwitchBack | src/components/LanguageToggle.tsx:44-49 | switching and switching back returns to the original page |
| LanguageToggle.UnprefixedPathGoesHome | src/components/LanguageToggle.tsx:50-53 | a page outside the locale segments goes to the new locale's home |
| LanguageToggle.LanguageSwitcher.constructor | src/components/LanguageToggle.tsx:10-13 | closed, Persian, nothing saved or pushed |
| LanguageToggle.LanguageSwitcher.PathnameChanged | src/components/LanguageToggle.tsx:21-30 | the shown locale becomes the one detected from the path |
| LanguageToggle.LanguageSwitcher.ToggleDropdown | src/components/LanguageToggle.tsx:76 | the dropdown opens or closes |
| LanguageToggle.LanguageSwitcher.MouseDown | src/components/LanguageToggle.tsx:60-64 | a press outside closes the dropdown, one inside leaves it |
| LanguageToggle.LanguageSwitcher.ChangeLanguage | src/components/LanguageToggle.tsx:34-57 | saves the code, pushes the rewritten path, which is detected as the new locale, and closes the dropdown |
| Strings.BlankIffAllWhitespace | src/components/order/Checkout.tsx:38 | a string trims to empty exactly when all its characters are whitespace |
| Strings.ReplaceFirstAbsent | src/components/LanguageToggle.tsx:49 | replacing a pattern that does not occur changes nothing |
| Strings.DecimalInjective | src/store/orderStore.ts:80-83 | different clock readings render to different decimals |
| Toast.ShowSpec | src/hooks/useToast.ts:18-24 | showing makes the toast visible with exactly the message and type, `success` by default |
| Toast.HideSpec | src/hooks/useToast.ts:26-31 | hiding makes it invisible, keeps message and type, and is idempotent |
| Toast.ShowThenHide | src/hooks/useToast.ts:18-31 | show then hide leaves the message and type hidden |
| Toast.ToastHook.constructor | src/hooks/useToast.ts:12-16 | invisible, empty message, `success` |
| Toast.ToastHook.ShowToast | src/hooks/useToast.ts:18-24 | the toast becomes `Shown` |
| Toast.ToastHook.HideToast | src/hooks/useToast.ts:26-31 | the toast becomes `Hidden` of the old one |
| Theme.ToggleSpec | src/components/ThemeProvider.tsx:42-45 | before mount the toggle does nothing; light and dark swap, twice restores them, and the theme never becomes null |
| Theme.UnknownStoredTheme | src/components/ThemeProvider.tsx:21-23 | a stored value other than light or dark is used as is and the first toggle turns it into light |
| Theme.ReloadKeepsTheme | src/components/ThemeProvider.tsx:21-34 | a toggled theme is read back unchanged at the next mount |
| Theme.ThemeProvider.constructor | src/components/ThemeProvider.tsx:15 | no theme before mount |
| Theme.ThemeProvider.ApplyTheme | src/components/ThemeProvider.tsx:31-40 | once there is a theme, storage holds it and the page has the dark class exactly for dark |
| Theme.ThemeProvider.Mount | src/components/ThemeProvider.tsx:17-29 | the theme is the stored one when non-empty, else dark or light by the system preference, and is applied |
| Theme.ThemeProvider.ToggleTheme | src/components/ThemeProvider.tsx:42-45 | the theme becomes `Toggled` of the old one and is applied; before mount nothing changes |

## Left out

- I/O and framework plumbing: rendering, animations, translations, `Intl` price and date formatting, and `console.error`. The router, local storage and the page's `dark` class become fields (`pushed`, `savedLanguage`, `storedTheme`, `darkClass`). `confirm()` becomes a `confirmed` parameter. `matchMedia` becomes a `prefersDark` parameter.
- The clock: `Date.now()` and `new Date()` become a `now` parameter in milliseconds, read once per action. The source reads the clock up to three times in `createOrder`.
- Time zone: the report's hour is computed for a fixed `tzOffset`. Daylight-saving changes are not modelled. `setDate(getDate() - days)` is modelled as `days` times 24 hours.
- Persistence: `persist` writes only the cart and the orders (`Store.Rehydrate`). Serialisation itself is not modelled, nor what it does to `createdAt`.
- The 1 s delay in `createOrder` is not modelled. Its `catch` branch cannot be reached from the synchronous commit, and is left out.
- Floating point:
  - `averageOrderValue` on the dashboard, the customers page and the report;
  - the report's growth percentages and previous-period figures;
  - bar widths and `toFixed`.
- Tax is `(9 * subtotal + 50) / 100`, Dafny's integer division. This is `Math.round(subtotal * 0.09)` without binary floating-point error.
- `toLowerCase` is modelled on ASCII letters only. `trim` and the `\s` of the e-mail pattern use the full ECMAScript whitespace set.
- OrderSuccess.MaxPrepTime: `Math.max` of no items is `-Infinity` in the source. The model returns `None`. Every stored order has items (`Store.Consistent`).
- The menu's categories are a datatype, so a category string outside the buttons cannot be chosen. The cards' text is kept but no proof reads it.
- Gallery photo addresses are kept per id. Titles and descriptions are kept as their translation keys, not the translated text.
- The language switcher's display lookup (`currentLanguage`) is not modelled. It only picks a flag and a name.
- The toast's auto-close timer lives in the toast component, not the hook, and is not modelled.
- Theme: the stored theme is an unchecked string cast to the theme type, so the model keeps it as any string (`Theme.UnknownStoredTheme`).
- `selectedOptions` on cart lines is carried but never set, as in the source.
