/**
 * The cart view: five lines per page, the pager and its buttons, the
 * page reset when the cart shrinks, and the instruction editor.
 */
module CartView {
  import opened Base
  import opened Seqs
  import opened OrderTypes
  import opened CartLogic
  import opened Store

  const ItemsPerPage: nat := 5

  /** `Math.ceil(cart.length / itemsPerPage)`: the fewest pages of five that hold `n` lines. */
  function TotalPages(n: nat): (t: nat)
    ensures ItemsPerPage * t >= n
    ensures t > 0 ==> ItemsPerPage * (t - 1) < n
  {
    (n + ItemsPerPage - 1) / ItemsPerPage
  }

  /** `cart.slice((page - 1) * 5, (page - 1) * 5 + 5)`. */
  function PageSlice(cart: seq<CartItem>, page: int): seq<CartItem> {
    var start := (page - 1) * ItemsPerPage;
    Slice(cart, start, start + ItemsPerPage)
  }

  /** The label "page p of t" and the pager are shown only for more than five lines. */
  predicate ShowsPager(n: nat) {
    n > ItemsPerPage
  }

  /** The pages 1 to `k`, one after the other. */
  function Pages(cart: seq<CartItem>, k: nat): seq<CartItem> {
    if k == 0 then [] else Pages(cart, k - 1) + PageSlice(cart, k)
  }

  lemma {:induction false} PagesPrefix(cart: seq<CartItem>, k: nat)
    ensures Pages(cart, k) == cart[..if ItemsPerPage * k < |cart| then ItemsPerPage * k else |cart|]
  {
    if k > 0 {
      PagesPrefix(cart, k - 1);
    }
  }

  /** Reading the pages 1 to `TotalPages` in order shows every line exactly once, in cart order. */
  lemma PagesCoverCart(cart: seq<CartItem>)
    ensures Pages(cart, TotalPages(|cart|)) == cart
  {
    PagesPrefix(cart, TotalPages(|cart|));
  }

  /** Every page from 1 to `TotalPages` holds between one and five lines; later pages are empty. */
  lemma PageSizes(cart: seq<CartItem>, page: int)
    ensures 1 <= page <= TotalPages(|cart|) ==> 1 <= |PageSlice(cart, page)| <= ItemsPerPage
    ensures page > TotalPages(|cart|) ==> PageSlice(cart, page) == []
  {
  }

  /** The pager appears exactly when there is more than one page. */
  lemma PagerIffSeveralPages(n: nat)
    ensures ShowsPager(n) <==> TotalPages(n) >= 2
  {
  }

  /** The "previous" button: `Math.max(1, prev - 1)`. */
  function PreviousPage(page: int): int {
    if page - 1 < 1 then 1 else page - 1
  }

  /** The "next" button: `Math.min(totalPages, prev + 1)`. */
  function NextPage(page: int, n: nat): int {
    if TotalPages(n) < page + 1 then TotalPages(n) else page + 1
  }

  /** The effect run when the cart changes: back to page 1 when the page no longer exists. */
  function ResetPage(page: int, n: nat): int {
    if page > TotalPages(n) && TotalPages(n) > 0 then 1 else page
  }

  /**
   * While the pager is shown, its buttons keep the current page between 1
   * and the last page, and every page they reach shows some lines.
   */
  lemma PagerStaysInRange(cart: seq<CartItem>, page: int, target: int)
    requires ShowsPager(|cart|) && 1 <= page <= TotalPages(|cart|)
    requires 1 <= target <= TotalPages(|cart|)
    ensures 1 <= PreviousPage(page) <= TotalPages(|cart|)
    ensures 1 <= NextPage(page, |cart|) <= TotalPages(|cart|)
    ensures PreviousPage(page) == page <==> page == 1
    ensures NextPage(page, |cart|) == page <==> page == TotalPages(|cart|)
    ensures |PageSlice(cart, NextPage(page, |cart|))| > 0 && |PageSlice(cart, PreviousPage(page))| > 0
  {
    PageSizes(cart, NextPage(page, |cart|));
    PageSizes(cart, PreviousPage(page));
  }

  /** After the reset effect a page of a non-empty cart is never past the last page. */
  lemma ResetLandsOnAPage(page: int, n: nat)
    requires page >= 1
    ensures 1 <= ResetPage(page, n)
    ensures n > 0 ==> ResetPage(page, n) <= TotalPages(n)
  {
  }

  /** `item.specialInstructions || ''`: the text the editor opens with. */
  function InstructionsText(item: CartItem): string {
    match item.specialInstructions
    case Some(text) => text
    case None => ""
  }

  /** Pressing "−" on a line of quantity one removes the line. */
  lemma DecrementAtOneRemoves(cart: seq<CartItem>, item: CartItem)
    requires item in cart && item.quantity == 1
    ensures !HasLine(UpdatedQuantity(cart, item.id, item.quantity - 1), item.id)
    ensures |UpdatedQuantity(cart, item.id, item.quantity - 1)| < |cart|
  {
    RemoveFromCartSpec(cart, item.id);
    var i :| 0 <= i < |cart| && cart[i] == item;
    FilterShorter(cart, (c: CartItem) => c.id != item.id, i);
  }

  /** The cart component's own state. */
  class CartPage {
    var editingItem: Option<string>
    var instructions: string
    var currentPage: int

    constructor()
      ensures editingItem.None? && instructions == "" && currentPage == 1
    {
      editingItem := None;
      instructions := "";
      currentPage := 1;
    }

    /** The "previous" button. */
    method Previous()
      modifies this
      ensures currentPage == PreviousPage(old(currentPage))
      ensures editingItem == old(editingItem) && instructions == old(instructions)
    {
      currentPage := if currentPage - 1 < 1 then 1 else currentPage - 1;
    }

    /** The "next" button, with `cartLength` lines in the cart. */
    method Next(cartLength: nat)
      modifies this
      ensures currentPage == NextPage(old(currentPage), cartLength)
      ensures editingItem == old(editingItem) && instructions == old(instructions)
    {
      var totalPages := TotalPages(cartLength);
      currentPage := if totalPages < currentPage + 1 then totalPages else currentPage + 1;
    }

    /** The numbered button `page`; the buttons run from 1 to the last page. */
    method GoToPage(page: int, cartLength: nat)
      requires 1 <= page <= TotalPages(cartLength)
      modifies this
      ensures currentPage == page
      ensures editingItem == old(editingItem) && instructions == old(instructions)
    {
      currentPage := page;
    }

    /** The reset effect after the cart changed to `cartLength` lines. */
    method ResetIfBeyond(cartLength: nat)
      modifies this
      ensures currentPage == ResetPage(old(currentPage), cartLength)
      ensures editingItem == old(editingItem) && instructions == old(instructions)
    {
      var totalPages := TotalPages(cartLength);
      if currentPage > totalPages && totalPages > 0 {
        currentPage := 1;
      }
    }

    /** `handleEditInstructions(item)`: opens the editor on the line's current text. */
    method EditInstructions(item: CartItem)
      modifies this
      ensures editingItem == Some(item.id) && instructions == InstructionsText(item)
      ensures currentPage == old(currentPage)
    {
      editingItem := Some(item.id);
      instructions := InstructionsText(item);
    }

    /** Typing in the editor. */
    method TypeInstructions(text: string)
      modifies this
      ensures instructions == text
      ensures editingItem == old(editingItem) && currentPage == old(currentPage)
    {
      instructions := text;
    }

    /** `handleUpdateInstructions(itemId)`: saves the text to the line and closes the editor. */
    method SaveInstructions(store: OrderStore, itemId: string)
      modifies this, store
      ensures store.State() == old(store.State()).(cart := WithInstructions(old(store.cart), itemId, old(instructions)))
      ensures editingItem.None? && instructions == "" && currentPage == old(currentPage)
    {
      store.UpdateCartItemInstructions(itemId, instructions);
      editingItem := None;
      instructions := "";
    }

    /** The cancel button: closes the editor and keeps the typed text. */
    method CancelEdit()
      modifies this
      ensures editingItem.None?
      ensures instructions == old(instructions) && currentPage == old(currentPage)
    {
      editingItem := None;
    }

    /** The "−" button of a line. */
    method Decrement(store: OrderStore, item: CartItem)
      modifies store
      ensures store.State() == old(store.State()).(cart := UpdatedQuantity(old(store.cart), item.id, item.quantity - 1))
    {
      store.UpdateCartItemQuantity(item.id, item.quantity - 1);
    }

    /** The "+" button of a line. */
    method Increment(store: OrderStore, item: CartItem)
      modifies store
      ensures store.State() == old(store.State()).(cart := UpdatedQuantity(old(store.cart), item.id, item.quantity + 1))
    {
      store.UpdateCartItemQuantity(item.id, item.quantity + 1);
    }

    /** The remove button of a line. */
    method Remove(store: OrderStore, item: CartItem)
      modifies store
      ensures store.State() == old(store.State()).(cart := RemovedFromCart(old(store.cart), item.id))
    {
      store.RemoveFromCart(item.id);
    }
  }
}
