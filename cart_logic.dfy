/**
 * The cart operations of the order store as functions of the cart: adding a
 * menu item, removing a line, changing a line's quantity or instructions,
 * and the cart summary (item count, subtotal, 9% tax, total).
 */
module CartLogic {
  import opened Base
  import opened Strings
  import opened Seqs
  import opened OrderTypes

  /** `specialInstructions || 'default'`: absent or empty instructions read as "default". */
  function InstructionsOrDefault(ins: Option<string>): (r: string)
    ensures r != []
    ensures ins.Some? && ins.value != [] ==> r == ins.value
    ensures ins.None? ==> r == "default"
  {
    if ins.Some? && ins.value != [] then ins.value else "default"
  }

  /** The id `addToCart` looks for: `${menuItem.id}-${specialInstructions || 'default'}`. */
  function LookupKey(m: MenuItem, ins: Option<string>): string {
    m.id + "-" + InstructionsOrDefault(ins)
  }

  /** The id `addToCart` gives a new line: `${menuItem.id}-${Date.now()}`. */
  function MintedId(m: MenuItem, now: nat): string {
    m.id + "-" + NatToDecimal(now)
  }

  predicate HasLine(cart: seq<CartItem>, id: string) {
    exists i :: 0 <= i < |cart| && cart[i].id == id
  }

  /** `item => item.id === id`. */
  function IdIs(id: string): CartItem -> bool {
    (item: CartItem) => item.id == id
  }

  /**
   * `addToCart(menuItem, quantity, specialInstructions)` at clock reading
   * `now`: when some line's id equals the lookup key, the first such line's
   * quantity grows by `quantity`; otherwise a new line is appended.
   */
  function AddedToCart(cart: seq<CartItem>, m: MenuItem, quantity: int, ins: Option<string>, now: nat): (r: seq<CartItem>)
  {
    match FindFirst(cart, IdIs(LookupKey(m, ins)))
    case Some(i) => cart[i := cart[i].(quantity := cart[i].quantity + quantity)]
    case None => cart + [CartItem(MintedId(m, now), m, quantity, ins, None)]
  }

  /** `removeFromCart(itemId)`: every line with that id goes, the rest stay in order. */
  function RemovedFromCart(cart: seq<CartItem>, id: string): seq<CartItem> {
    Filter(cart, (item: CartItem) => item.id != id)
  }

  /** `cart.map(item => item.id === itemId ? { ...item, quantity } : item)`. */
  function WithQuantity(cart: seq<CartItem>, id: string, quantity: int): (r: seq<CartItem>)
    ensures |r| == |cart|
    ensures forall i :: 0 <= i < |cart| ==>
      r[i] == if cart[i].id == id then cart[i].(quantity := quantity) else cart[i]
  {
    if cart == [] then []
    else
      var item := cart[0];
      [if item.id == id then item.(quantity := quantity) else item] + WithQuantity(cart[1..], id, quantity)
  }

  /** `updateCartItemQuantity(itemId, quantity)`: a quantity of zero or less removes the line. */
  function UpdatedQuantity(cart: seq<CartItem>, id: string, quantity: int): seq<CartItem> {
    if quantity <= 0 then RemovedFromCart(cart, id) else WithQuantity(cart, id, quantity)
  }

  /** `cart.map(item => item.id === itemId ? { ...item, specialInstructions: instructions } : item)`. */
  function WithInstructions(cart: seq<CartItem>, id: string, text: string): (r: seq<CartItem>)
    ensures |r| == |cart|
    ensures forall i :: 0 <= i < |cart| ==>
      r[i] == if cart[i].id == id then cart[i].(specialInstructions := Some(text)) else cart[i]
  {
    if cart == [] then []
    else
      var item := cart[0];
      [if item.id == id then item.(specialInstructions := Some(text)) else item]
        + WithInstructions(cart[1..], id, text)
  }

  function LineTotal(item: CartItem): int {
    item.menuItem.price * item.quantity
  }

  function LineQuantity(item: CartItem): int {
    item.quantity
  }

  /** `cart.reduce((sum, item) => sum + item.menuItem.price * item.quantity, 0)`. */
  function Subtotal(cart: seq<CartItem>): int {
    Sum(cart, LineTotal)
  }

  /** `cart.reduce((sum, item) => sum + item.quantity, 0)`. */
  function TotalItems(cart: seq<CartItem>): int {
    Sum(cart, LineQuantity)
  }

  /**
   * `Math.round(subtotal * 0.09)`: 9% of the subtotal rounded to the
   * nearest integer, halves rounded up.
   */
  function Tax(subtotal: int): (t: int)
    ensures 100 * t - 50 <= 9 * subtotal < 100 * t + 50
  {
    (9 * subtotal + 50) / 100
  }

  /**
   * `getCartSummary()`: the total is the subtotal plus 9%, rounded to the
   * nearest integer (`100 * total` lies within 50 of `109 * subtotal`); no
   * delivery fee and no discount at this stage.
   */
  function CartSummary(cart: seq<CartItem>): (r: OrderSummary)
    ensures r.subtotal == Subtotal(cart) && r.totalItems == TotalItems(cart)
    ensures r.tax == Tax(r.subtotal) && r.total == r.subtotal + r.tax
    ensures 100 * r.total - 50 <= 109 * r.subtotal < 100 * r.total + 50
    ensures r.deliveryFee.None? && r.discount.None?
  {
    var subtotal := Subtotal(cart);
    var tax := Tax(subtotal);
    OrderSummary(TotalItems(cart), subtotal, tax, None, None, subtotal + tax)
  }

  // ---------------------------------------------------------------------
  // Properties

  /** When some line has id `key`, the lookup finds the first such line. */
  lemma FirstLineOf(cart: seq<CartItem>, key: string)
    requires HasLine(cart, key)
    ensures var f := FindFirst(cart, IdIs(key));
      && f.Some? && cart[f.value].id == key
      && forall k :: 0 <= k < f.value ==> cart[k].id != key
  {
    var i :| 0 <= i < |cart| && cart[i].id == key;
    assert IdIs(key)(cart[i]);
    var f := FindFirst(cart, IdIs(key));
    assert forall k :: 0 <= k < f.value ==> !IdIs(key)(cart[k]);
  }

  /**
   * Adding an item whose lookup key is already a line id merges into the
   * first such line: same length, only that line's quantity changes.
   */
  lemma AddToCartExistingLine(cart: seq<CartItem>, m: MenuItem, quantity: int, ins: Option<string>, now: nat)
    requires HasLine(cart, LookupKey(m, ins))
    ensures var r, key := AddedToCart(cart, m, quantity, ins, now), LookupKey(m, ins);
      && |r| == |cart|
      && exists i :: 0 <= i < |cart| && cart[i].id == key
           && (forall j :: 0 <= j < i ==> cart[j].id != key)
           && r[i] == cart[i].(quantity := cart[i].quantity + quantity)
           && (forall j :: 0 <= j < |cart| && j != i ==> r[j] == cart[j])
  {
    var key := LookupKey(m, ins);
    FirstLineOf(cart, key);
    var j := FindFirst(cart, IdIs(key)).value;
    var r := AddedToCart(cart, m, quantity, ins, now);
    assert r == cart[j := cart[j].(quantity := cart[j].quantity + quantity)];
    assert forall k :: 0 <= k < |cart| && k != j ==> r[k] == cart[k];
  }

  /**
   * Adding an item whose lookup key is not a line id appends exactly one
   * line: the item, the requested quantity and instructions, and a fresh
   * id minted from the clock.
   */
  lemma AddToCartNewLine(cart: seq<CartItem>, m: MenuItem, quantity: int, ins: Option<string>, now: nat)
    requires !HasLine(cart, LookupKey(m, ins))
    ensures var r := AddedToCart(cart, m, quantity, ins, now);
      && |r| == |cart| + 1
      && r[..|cart|] == cart
      && r[|cart|].menuItem == m && r[|cart|].quantity == quantity
      && r[|cart|].specialInstructions == ins && r[|cart|].id == MintedId(m, now)
  {
    var key := LookupKey(m, ins);
    var r := AddedToCart(cart, m, quantity, ins, now);
    assert r == cart + [CartItem(MintedId(m, now), m, quantity, ins, None)];
  }

  /** Whichever branch is taken, the cart's item count grows by exactly `quantity`. */
  lemma {:induction false} AddToCartTotalItems(cart: seq<CartItem>, m: MenuItem, quantity: int, ins: Option<string>, now: nat)
    ensures TotalItems(AddedToCart(cart, m, quantity, ins, now)) == TotalItems(cart) + quantity
  {
    var key := LookupKey(m, ins);
    match FindFirst(cart, IdIs(key))
    case Some(i) =>
      SumUpdate(cart, i, cart[i].(quantity := cart[i].quantity + quantity), LineQuantity);
    case None =>
      SumConcat(cart, [CartItem(MintedId(m, now), m, quantity, ins, None)], LineQuantity);
      assert [CartItem(MintedId(m, now), m, quantity, ins, None)][..0] == [];
  }

  /** A new line adds its price times its quantity to the subtotal. */
  lemma {:induction false} AddToCartNewLineSubtotal(cart: seq<CartItem>, m: MenuItem, quantity: int, ins: Option<string>, now: nat)
    requires !HasLine(cart, LookupKey(m, ins))
    ensures Subtotal(AddedToCart(cart, m, quantity, ins, now)) == Subtotal(cart) + m.price * quantity
  {
    AddToCartNewLine(cart, m, quantity, ins, now);
    var r := AddedToCart(cart, m, quantity, ins, now);
    assert r == cart + [r[|cart|]];
    SumConcat(cart, [r[|cart|]], LineTotal);
    assert [r[|cart|]][..0] == [];
  }

  /** A character that ends a decimal rendering. */
  lemma {:induction false} MintedIdEndsInDigit(m: MenuItem, now: nat)
    ensures var id := MintedId(m, now); |id| > 0 && IsDigit(id[|id| - 1])
  {
    var d := NatToDecimal(now);
    assert MintedId(m, now)[|MintedId(m, now)| - 1] == d[|d| - 1];
  }

  /**
   * Every line `addToCart` creates has an id that ends in a digit, while
   * the lookup key ends in the last character of the instructions (or the
   * `t` of "default"). So on a cart built by `addToCart`, adding an item
   * whose instructions do not end in a digit never merges: it always
   * appends a new line, even when the same item with the same
   * instructions is already in the cart.
   */
  lemma RepeatedAddAppends(cart: seq<CartItem>, m: MenuItem, quantity: int, ins: Option<string>, now: nat)
    requires forall i :: 0 <= i < |cart| ==> |cart[i].id| > 0 && IsDigit(cart[i].id[|cart[i].id| - 1])
    requires var t := InstructionsOrDefault(ins); !IsDigit(t[|t| - 1])
    ensures !HasLine(cart, LookupKey(m, ins))
    ensures |AddedToCart(cart, m, quantity, ins, now)| == |cart| + 1
  {
    var key := LookupKey(m, ins);
    var t := InstructionsOrDefault(ins);
    assert key[|key| - 1] == t[|t| - 1];
    AddToCartNewLine(cart, m, quantity, ins, now);
  }

  /** The same item added twice, with no instructions, ends up on two lines. */
  lemma AddTwiceMakesTwoLines(m: MenuItem, t1: nat, t2: nat)
    ensures var once := AddedToCart([], m, 1, None, t1);
      |AddedToCart(once, m, 1, None, t2)| == 2
  {
    var once := AddedToCart([], m, 1, None, t1);
    AddToCartNewLine([], m, 1, None, t1);
    MintedIdEndsInDigit(m, t1);
    RepeatedAddAppends(once, m, 1, None, t2);
  }

  /**
   * `removeFromCart` leaves no line with the id, keeps every other line
   * with its multiplicity, and keeps their order.
   */
  lemma RemoveFromCartSpec(cart: seq<CartItem>, id: string)
    ensures var r := RemovedFromCart(cart, id);
      && !HasLine(r, id)
      && (forall x :: multiset(r)[x] == if x.id == id then 0 else multiset(cart)[x])
      && IsSubsequence(r, cart)
  {
    var p := (item: CartItem) => item.id != id;
    var r := RemovedFromCart(cart, id);
    FilterMultiset(cart, p);
    FilterSubsequence(cart, p);
    forall i | 0 <= i < |r| ensures r[i].id != id {
      assert r[i] in r;
    }
  }

  /** Removing lines with an id the cart does not hold changes nothing. */
  lemma RemoveAbsentId(cart: seq<CartItem>, id: string)
    requires !HasLine(cart, id)
    ensures RemovedFromCart(cart, id) == cart
  {
    forall x | x in cart ensures x.id != id {
      var i :| 0 <= i < |cart| && cart[i] == x;
    }
    FilterAll(cart, (item: CartItem) => item.id != id);
  }

  /** The subtotal drops by exactly the value of the removed lines. */
  lemma RemoveFromCartSubtotal(cart: seq<CartItem>, id: string)
    ensures Subtotal(RemovedFromCart(cart, id))
         == Subtotal(cart) - Sum(Filter(cart, (item: CartItem) => item.id == id), LineTotal)
  {
    SumFilterSplit(cart, (item: CartItem) => item.id != id, (item: CartItem) => item.id == id, LineTotal);
  }

  /**
   * `updateCartItemQuantity` with a positive quantity sets every line with
   * the id to that quantity and touches nothing else; with zero or less it
   * removes those lines.
   */
  lemma UpdateQuantitySpec(cart: seq<CartItem>, id: string, quantity: int)
    ensures var r := UpdatedQuantity(cart, id, quantity);
      && (quantity <= 0 ==> !HasLine(r, id) && IsSubsequence(r, cart))
      && (quantity > 0 ==>
            && |r| == |cart|
            && (forall i :: 0 <= i < |r| ==>
                 && r[i].id == cart[i].id && r[i].menuItem == cart[i].menuItem
                 && r[i].specialInstructions == cart[i].specialInstructions
                 && r[i].quantity == (if cart[i].id == id then quantity else cart[i].quantity)))
  {
    if quantity <= 0 {
      RemoveFromCartSpec(cart, id);
    }
  }

  predicate AllPositive(cart: seq<CartItem>) {
    forall i :: 0 <= i < |cart| ==> cart[i].quantity > 0
  }

  /**
   * Every line keeps a positive quantity: `addToCart` with a positive
   * quantity, any `updateCartItemQuantity`, `removeFromCart` and
   * `updateCartItemInstructions` preserve it.
   */
  lemma PositiveQuantitiesPreserved(cart: seq<CartItem>, m: MenuItem, q: int, ins: Option<string>, now: nat, id: string, newQ: int, text: string)
    requires AllPositive(cart)
    ensures q > 0 ==> AllPositive(AddedToCart(cart, m, q, ins, now))
    ensures AllPositive(UpdatedQuantity(cart, id, newQ))
    ensures AllPositive(RemovedFromCart(cart, id))
    ensures AllPositive(WithInstructions(cart, id, text))
  {
    if q > 0 {
      AddKeepsPositive(cart, m, q, ins, now);
    }
    RemoveKeepsPositive(cart, id);
    InstructionsKeepPositive(cart, id, text);
  }

  lemma AddKeepsPositive(cart: seq<CartItem>, m: MenuItem, q: int, ins: Option<string>, now: nat)
    requires AllPositive(cart) && q > 0
    ensures AllPositive(AddedToCart(cart, m, q, ins, now))
  {
    var r := AddedToCart(cart, m, q, ins, now);
    match FindFirst(cart, IdIs(LookupKey(m, ins)))
    case Some(j) =>
      assert r == cart[j := cart[j].(quantity := cart[j].quantity + q)];
    case None =>
      assert r == cart + [CartItem(MintedId(m, now), m, q, ins, None)];
  }

  lemma RemoveKeepsPositive(cart: seq<CartItem>, id: string)
    requires AllPositive(cart)
    ensures AllPositive(RemovedFromCart(cart, id))
  {
    var removed := RemovedFromCart(cart, id);
    forall i | 0 <= i < |removed| ensures removed[i].quantity > 0 {
      assert removed[i] in cart;
    }
  }

  lemma InstructionsKeepPositive(cart: seq<CartItem>, id: string, text: string)
    requires AllPositive(cart)
    ensures AllPositive(WithInstructions(cart, id, text))
  {
  }

  /** Editing instructions changes neither the item count nor the subtotal. */
  lemma InstructionsKeepSummary(cart: seq<CartItem>, id: string, text: string)
    ensures CartSummary(WithInstructions(cart, id, text)) == CartSummary(cart)
  {
    var r := WithInstructions(cart, id, text);
    SumPointwise(r, LineTotal, cart, LineTotal);
    SumPointwise(r, LineQuantity, cart, LineQuantity);
  }

  /** Setting a quantity twice is setting it once. */
  lemma UpdateQuantityIdempotent(cart: seq<CartItem>, id: string, quantity: int)
    ensures UpdatedQuantity(UpdatedQuantity(cart, id, quantity), id, quantity)
         == UpdatedQuantity(cart, id, quantity)
  {
    if quantity <= 0 {
      RemoveFromCartSpec(cart, id);
      RemoveAbsentId(RemovedFromCart(cart, id), id);
    }
  }

  /** An empty cart summarises to zeros; a non-negative cart to non-negative amounts. */
  lemma {:induction false} SummaryNonNegative(cart: seq<CartItem>)
    requires forall i :: 0 <= i < |cart| ==> cart[i].menuItem.price >= 0 && cart[i].quantity >= 0
    ensures var s := CartSummary(cart); s.subtotal >= 0 && s.tax >= 0 && s.total >= s.subtotal
    ensures cart == [] ==> CartSummary(cart) == OrderSummary(0, 0, 0, None, None, 0)
  {
    SumNonNegative(cart, LineTotal);
  }
}
