/**
 * The menu page: the declared dishes and drinks, filtered by the chosen
 * category and by a search over names and descriptions.
 */
module Menu {
  import opened Seqs
  import opened Strings
  import opened OrderTypes

  /** A card of the menu page; `rating` is in tenths of a star. */
  datatype MenuCard = MenuCard(
    id: int,
    name: string,
    description: string,
    price: int,
    category: Category,
    rating: int,
    prepTime: string,
    isSpicy: bool,
    isPopular: bool,
    image: string)

  /** The category buttons: "all", then one per category. */
  datatype CategoryChoice = AllItems | Only(category: Category)

  const CategoryButtons: seq<CategoryChoice> :=
    [AllItems, Only(Classic), Only(Spicy), Only(Vegetarian), Only(Drinks), Only(Desserts)]

  const Item1: MenuCard := MenuCard(1, "برگر کلاسیک", "برگر گوشت گاو با پنیر چدار، کاهو، گوجه و سس مخصوص", 45000, Classic, 49, "15 دقیقه", false, true, "🍔")
  const Item2: MenuCard := MenuCard(2, "برگر دوبل چیز", "دو لایه گوشت با پنیر چدار و سس مخصوص", 58000, Classic, 49, "20 دقیقه", false, true, "🍔")
  const Item3: MenuCard := MenuCard(3, "برگر بیکن", "برگر گوشت با بیکن ترد، پنیر و سس باربیکیو", 52000, Classic, 48, "18 دقیقه", false, false, "🍔")
  const Item4: MenuCard := MenuCard(4, "برگر تند مکزیکی", "برگر گوشت با فلفل تند، پنیر پپرونی و سس تند مخصوص", 52000, Spicy, 48, "18 دقیقه", true, false, "🌶️")
  const Item5: MenuCard := MenuCard(5, "برگر فلفل قرمز", "برگر گوشت با فلفل قرمز تند و سس چیلی", 48000, Spicy, 47, "16 دقیقه", true, false, "🌶️")
  const Item6: MenuCard := MenuCard(6, "برگر گیاهی", "برگر گیاهی با قارچ، آووکادو و سبزیجات تازه", 38000, Vegetarian, 47, "12 دقیقه", false, false, "🥬")
  const Item7: MenuCard := MenuCard(7, "برگر قارچ", "برگر قارچ پورتوبلو با پنیر بز و سبزیجات", 42000, Vegetarian, 46, "14 دقیقه", false, false, "🥬")
  const Item8: MenuCard := MenuCard(8, "کولا", "نوشیدنی کولا سرد و تازه", 15000, Drinks, 45, "2 دقیقه", false, false, "🥤")
  const Item9: MenuCard := MenuCard(9, "شیر موز", "شیر موز طبیعی و خوشمزه", 25000, Drinks, 48, "5 دقیقه", false, true, "🥤")
  const Item10: MenuCard := MenuCard(10, "چیزکیک", "چیزکیک خامه‌ای با توت فرنگی", 35000, Desserts, 49, "3 دقیقه", false, true, "🍰")
  const Item11: MenuCard := MenuCard(11, "آیس کرم", "آیس کرم وانیلی با سس شکلات", 20000, Desserts, 46, "2 دقیقه", false, false, "🍰")

  const MenuItems: seq<MenuCard> := [Item1, Item2, Item3, Item4, Item5, Item6, Item7, Item8, Item9, Item10, Item11]

  /** The category button matches: "all" matches every item. */
  predicate MatchesCategory(item: MenuCard, activeCategory: CategoryChoice) {
    activeCategory == AllItems || item.category == activeCategory.category
  }

  /** The search term occurs, ignoring case, in the name or the description. */
  predicate MatchesSearch(item: MenuCard, searchTerm: string) {
    Includes(Lower(item.name), Lower(searchTerm)) || Includes(Lower(item.description), Lower(searchTerm))
  }

  function ShownBy(activeCategory: CategoryChoice, searchTerm: string): MenuCard -> bool {
    item => MatchesCategory(item, activeCategory) && MatchesSearch(item, searchTerm)
  }

  /** The cards of `items` the page shows. */
  function FilterCards(items: seq<MenuCard>, activeCategory: CategoryChoice, searchTerm: string): seq<MenuCard> {
    Filter(items, ShownBy(activeCategory, searchTerm))
  }

  /** `filteredItems`. */
  function FilteredItems(activeCategory: CategoryChoice, searchTerm: string): seq<MenuCard> {
    FilterCards(MenuItems, activeCategory, searchTerm)
  }

  /** The "no results" block shows when nothing is left. */
  predicate ShowsNoResults(activeCategory: CategoryChoice, searchTerm: string) {
    |FilteredItems(activeCategory, searchTerm)| == 0
  }

  /**
   * A card is shown exactly when it matches both the category and the
   * search, in list order; nothing is shown exactly when no card matches
   * both.
   */
  lemma FilterCardsSpec(items: seq<MenuCard>, activeCategory: CategoryChoice, searchTerm: string)
    ensures var r := FilterCards(items, activeCategory, searchTerm);
      && (forall item :: item in r <==> item in items && MatchesCategory(item, activeCategory) && MatchesSearch(item, searchTerm))
      && IsSubsequence(r, items)
      && (|r| == 0 <==>
            forall i :: 0 <= i < |items| ==> !(MatchesCategory(items[i], activeCategory) && MatchesSearch(items[i], searchTerm)))
  {
    FilterSubsequence(items, ShownBy(activeCategory, searchTerm));
    var r := FilterCards(items, activeCategory, searchTerm);
    if |r| != 0 {
      assert r[0] in r;
    }
  }

  /** An empty search matches every card. */
  lemma EmptySearchMatches(item: MenuCard)
    ensures MatchesSearch(item, "")
  {
    IncludesEmpty(Lower(item.name));
  }

  /** With "all" and an empty search the page shows all eleven cards, in order. */
  lemma InitialViewShowsAll()
    ensures FilteredItems(AllItems, "") == MenuItems
    ensures |MenuItems| == 11
  {
    forall item | item in MenuItems ensures ShownBy(AllItems, "")(item) {
      EmptySearchMatches(item);
    }
    FilterAll(MenuItems, ShownBy(AllItems, ""));
  }

  /** The page's category and search state. */
  class MenuPage {
    var activeCategory: CategoryChoice
    var searchTerm: string

    constructor()
      ensures activeCategory == AllItems && searchTerm == ""
    {
      activeCategory := AllItems;
      searchTerm := "";
    }

    method SetActiveCategory(category: CategoryChoice)
      modifies this
      ensures activeCategory == category && searchTerm == old(searchTerm)
    {
      activeCategory := category;
    }

    method SetSearchTerm(term: string)
      modifies this
      ensures searchTerm == term && activeCategory == old(activeCategory)
    {
      searchTerm := term;
    }

    function Shown(): seq<MenuCard>
      reads this
    {
      FilteredItems(activeCategory, searchTerm)
    }
  }
}
