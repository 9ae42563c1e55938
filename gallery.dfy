/**
 * The gallery page: the declared photos, a category filter over them and
 * the photo opened in the lightbox.
 */
module Gallery {
  import opened Base
  import opened Seqs

  datatype GalleryCategory = Food | Drinks | Desserts | Interior | Events

  /**
   * A photo, by its id and category. Its address, title and description
   * depend only on the id and are given by `Src`, `TitleKey` and
   * `DescriptionKey`.
   */
  datatype GalleryImage = GalleryImage(id: int, category: GalleryCategory)

  /** The category buttons: "all", then one per category. */
  datatype Choice = AllImages | Only(category: GalleryCategory)

  const CategoryButtons: seq<Choice> :=
    [AllImages, Only(Food), Only(Drinks), Only(Desserts), Only(Interior), Only(Events)]

  /** The twelve photos in declared order. */
  const Images: seq<GalleryImage> := [
    GalleryImage(1, Food),
    GalleryImage(2, Food),
    GalleryImage(3, Food),
    GalleryImage(4, Drinks),
    GalleryImage(5, Drinks),
    GalleryImage(6, Desserts),
    GalleryImage(7, Desserts),
    GalleryImage(8, Interior),
    GalleryImage(9, Events),
    GalleryImage(10, Food),
    GalleryImage(11, Interior),
    GalleryImage(12, Drinks)]

  /** The address of photo `id`. */
  function Src(id: int): string {
    match id
    case 1 => "https://images.unsplash.com/photo-1571091718767-18b5b1457add?w=800&h=600&fit=crop"
    case 2 => "https://images.unsplash.com/photo-1568901346375-23c9450c58cd?w=800&h=600&fit=crop"
    case 3 => "https://images.unsplash.com/photo-1571091655789-405eb7a3a3a8?w=800&h=600&fit=crop"
    case 4 => "https://images.unsplash.com/photo-1551024506-0bccd828d307?w=800&h=600&fit=crop"
    case 5 => "https://images.unsplash.com/photo-1572490122747-3968b75cc699?w=800&h=600&fit=crop"
    case 6 => "https://images.unsplash.com/photo-1578985545062-69928b1d9587?w=800&h=600&fit=crop"
    case 7 => "https://images.unsplash.com/photo-1565299624946-b28f40a0ca4b?w=800&h=600&fit=crop"
    case 8 => "https://images.unsplash.com/photo-1517248135467-4c7edcad34c4?w=800&h=600&fit=crop"
    case 9 => "https://images.unsplash.com/photo-1555396273-367ea4eb4db5?w=800&h=600&fit=crop"
    case 10 => "https://images.unsplash.com/photo-1551218808-94e220e084d2?w=800&h=600&fit=crop"
    case 11 => "https://images.unsplash.com/photo-1571019613454-1cb2f99b2d8b?w=800&h=600&fit=crop"
    case 12 => "https://images.unsplash.com/photo-1551024506-0bccd828d307?w=800&h=600&fit=crop"
    case _ => ""
  }

  /** The translation key of the title of photo `id`. */
  function TitleKey(id: int): string {
    match id
    case 1 => "menu.items.classicBurger.name"
    case 2 => "menu.items.doubleCheese.name"
    case 3 => "menu.items.baconBurger.name"
    case 4 => "menu.items.cola.name"
    case 5 => "menu.items.bananaMilk.name"
    case 6 => "menu.items.cheesecake.name"
    case 7 => "menu.items.iceCream.name"
    case 8 => "gallery.images.interior"
    case 9 => "gallery.images.events"
    case 10 => "menu.items.vegetarian.name"
    case 11 => "gallery.images.nightCafe"
    case 12 => "gallery.images.coldDrinks"
    case _ => ""
  }

  /** The translation key of the description of photo `id`. */
  function DescriptionKey(id: int): string {
    match id
    case 1 => "menu.items.classicBurger.description"
    case 2 => "menu.items.doubleCheese.description"
    case 3 => "menu.items.baconBurger.description"
    case 4 => "menu.items.cola.description"
    case 5 => "menu.items.bananaMilk.description"
    case 6 => "menu.items.cheesecake.description"
    case 7 => "menu.items.iceCream.description"
    case 8 => "gallery.images.interiorDesc"
    case 9 => "gallery.images.eventsDesc"
    case 10 => "menu.items.vegetarian.description"
    case 11 => "gallery.images.nightCafeDesc"
    case 12 => "gallery.images.coldDrinksDesc"
    case _ => ""
  }

  function InCategory(c: GalleryCategory): GalleryImage -> bool {
    (image: GalleryImage) => image.category == c
  }

  /** The photos of `images` shown for a category choice. */
  function FilterImages(images: seq<GalleryImage>, choice: Choice): seq<GalleryImage> {
    if choice == AllImages then images else Filter(images, InCategory(choice.category))
  }

  /** `filteredImages`. */
  function FilteredImages(choice: Choice): seq<GalleryImage> {
    FilterImages(Images, choice)
  }

  /**
   * "all" shows every photo; a category shows exactly the photos of that
   * category, in declared order.
   */
  lemma FilterImagesSpec(images: seq<GalleryImage>, choice: Choice)
    ensures choice == AllImages ==> FilterImages(images, choice) == images
    ensures choice.Only? ==> forall image :: image in FilterImages(images, choice) <==>
      image in images && image.category == choice.category
    ensures IsSubsequence(FilterImages(images, choice), images)
  {
    if choice == AllImages {
      SubsequenceReflexive(images);
    } else {
      FilterSubsequence(images, InCategory(choice.category));
    }
  }

  /**
   * A sequence made of a passing block, a failing block, a passing block
   * and a failing block filters to the two passing blocks.
   */
  lemma FilterBlocks<T(!new)>(s: seq<T>, a: seq<T>, b: seq<T>, c: seq<T>, d: seq<T>, p: T -> bool)
    requires s == a + b + c + d
    requires forall x :: x in a + c ==> p(x)
    requires forall x :: x in b + d ==> !p(x)
    ensures Filter(s, p) == a + c
  {
    FilterAll(a, p);
    FilterNone(b, p);
    FilterAll(c, p);
    FilterNone(d, p);
    FilterConcat(a, b, p);
    assert Filter(a + b, p) == a;
    FilterConcat(a + b, c, p);
    assert Filter(a + b + c, p) == a + c;
    FilterConcat(a + b + c, d, p);
  }

  /** "all" shows the twelve photos; "food" shows photos 1, 2, 3 and 10, in that order. */
  lemma DeclaredViews()
    ensures |FilteredImages(AllImages)| == 12
    ensures FilteredImages(Only(Food))
      == [GalleryImage(1, Food), GalleryImage(2, Food), GalleryImage(3, Food), GalleryImage(10, Food)]
  {
    var a := [GalleryImage(1, Food), GalleryImage(2, Food), GalleryImage(3, Food)];
    var b := [GalleryImage(4, Drinks), GalleryImage(5, Drinks), GalleryImage(6, Desserts),
              GalleryImage(7, Desserts), GalleryImage(8, Interior), GalleryImage(9, Events)];
    var c := [GalleryImage(10, Food)];
    var d := [GalleryImage(11, Interior), GalleryImage(12, Drinks)];
    FilterBlocks(Images, a, b, c, d, InCategory(Food));
  }

  /** The source shown in the lightbox: the selected position of the current view, or nothing. */
  function LightboxSrc(choice: Choice, selectedImage: Option<nat>): string {
    var shown := FilteredImages(choice);
    if selectedImage.Some? && selectedImage.value < |shown| then Src(shown[selectedImage.value].id) else ""
  }

  /**
   * The selection is a position in the current view, not a photo id: the
   * fourth food photo is photo 10.
   */
  lemma SelectionIsAPosition()
    ensures LightboxSrc(Only(Food), Some(3)) == Src(10)
  {
    DeclaredViews();
  }

  /** The page's category and lightbox state. */
  class GalleryPage {
    var selectedCategory: Choice
    var selectedImage: Option<nat>

    constructor()
      ensures selectedCategory == AllImages && selectedImage == None
    {
      selectedCategory := AllImages;
      selectedImage := None;
    }

    /** A category button; an open lightbox stays at the same position. */
    method SelectCategory(choice: Choice)
      modifies this
      ensures selectedCategory == choice && selectedImage == old(selectedImage)
    {
      selectedCategory := choice;
    }

    /** Clicking the photo at `index` of the current view. */
    method OpenImage(index: nat)
      modifies this
      requires index < |FilteredImages(selectedCategory)|
      ensures selectedImage == Some(index) && selectedCategory == old(selectedCategory)
      ensures LightboxSrc(selectedCategory, selectedImage) == Src(FilteredImages(selectedCategory)[index].id)
    {
      selectedImage := Some(index);
    }

    /** The backdrop or the close button. */
    method CloseImage()
      modifies this
      ensures selectedImage == None && selectedCategory == old(selectedCategory)
      ensures LightboxSrc(selectedCategory, selectedImage) == ""
    {
      selectedImage := None;
    }
  }
}
