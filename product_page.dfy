/**
 * The product detail page of js/product.js: the product shown, the size
 * and colour chosen with the radio buttons, the quantity box clamped to
 * 1..10, the add-to-cart button that is enabled only once both choices are
 * made, the related-products strip and the SKU line.
 *
 * The URL's `id` parameter is passed as text; the quantity box is held as
 * what `parseInt` reads from its value (None for NaN).
 */
module ProductPage {
  import opened Wrappers
  import opened Text
  import opened Seqs
  import opened Catalog
  import opened CartStore

  // ---------------------------------------------------------------------------
  // SKU

  const SkuPrefix: string := "DRESS-"

  /** `DRESS-${product.id.toString().padStart(4, '0')}`. */
  function Sku(id: int): string {
    SkuPrefix + PadZeros(IntToString(id), 4)
  }

  /** The text after the prefix. */
  lemma SkuSuffix(id: int)
    ensures |Sku(id)| >= |SkuPrefix| + 4
    ensures Sku(id)[..|SkuPrefix|] == SkuPrefix
    ensures Sku(id)[|SkuPrefix|..] == PadZeros(IntToString(id), 4)
  {
  }

  lemma PaddedDigits(n: nat)
    ensures AllDigits(PadZeros(NatToString(n), 4))
  {
    var s := NatToString(n);
    var p := PadZeros(s, 4);
    forall i | 0 <= i < |p| ensures IsDigit(p[i]) {
      if i >= |p| - |s| {
        assert p[i] == p[|p| - |s|..][i - (|p| - |s|)];
      }
    }
  }

  /**
   * The SKU is the prefix followed by at least four characters; for a
   * non-negative id those are its decimal digits, zero-padded, and reading
   * them back gives the id; ids below 10000 give exactly four.
   */
  lemma SkuShape(id: int)
    ensures |Sku(id)| >= |SkuPrefix| + 4 && Sku(id)[..|SkuPrefix|] == SkuPrefix
    ensures id >= 0 ==> AllDigits(Sku(id)[|SkuPrefix|..]) && ParseInt(Sku(id)[|SkuPrefix|..]) == Some(id)
    ensures 0 <= id < 10000 ==> |Sku(id)| == |SkuPrefix| + 4
  {
    SkuSuffix(id);
    if id >= 0 {
      ParseIntOfPadded(id, 4);
      PaddedDigits(id);
      if id < 10000 {
        NatToStringLength(id, 4, Pow10(4));
      }
    }
  }

  /** Different non-negative ids have different SKUs. */
  lemma SkuInjective(a: int, b: int)
    requires a >= 0 && b >= 0 && Sku(a) == Sku(b)
    ensures a == b
  {
    SkuShape(a);
    SkuShape(b);
  }

  // ---------------------------------------------------------------------------
  // Related products

  /**
   * `loadRelatedProducts(productId)`: None when no product has that id;
   * otherwise the first four other products of its category.
   */
  function RelatedProducts(catalog: seq<Product>, productId: string): Option<seq<Product>> {
    match ParseInt(productId)
    case None => None
    case Some(id) =>
      match GetProductById(catalog, id)
      case None => None
      case Some(product) =>
        Some(Take(Filter(FilterProductsByCategory(catalog, Some(product.category)),
                         (p: Product) => p.id != product.id), 4))
  }

  /**
   * Related products are the first four catalog products, in catalog order,
   * that do not have the shown product's id and, unless its category is
   * empty or 'all', are in its category (all of them when there are fewer).
   */
  lemma RelatedProductsSpec(catalog: seq<Product>, productId: string)
    ensures RelatedProducts(catalog, productId).Some? <==>
      ParseInt(productId).Some? && GetProductById(catalog, ParseInt(productId).value).Some?
    ensures RelatedProducts(catalog, productId).Some? ==>
      var shown := GetProductById(catalog, ParseInt(productId).value).value;
      var r := RelatedProducts(catalog, productId).value;
      |r| <= 4 && IsSubsequence(r, catalog) &&
      forall p :: p in r ==> (p in catalog && p.id != shown.id &&
        (RestrictsCategory(Some(shown.category)) ==> p.category == shown.category))
    ensures RelatedProducts(catalog, productId).Some? ==>
      var shown := GetProductById(catalog, ParseInt(productId).value).value;
      var r := RelatedProducts(catalog, productId).value;
      (RestrictsCategory(Some(shown.category)) ==>
        r == Take(Filter(catalog, (p: Product) => p.category == shown.category && p.id != shown.id), 4)) &&
      (!RestrictsCategory(Some(shown.category)) ==>
        r == Take(Filter(catalog, (p: Product) => p.id != shown.id), 4))
  {
    if RelatedProducts(catalog, productId).Some? {
      var shown := GetProductById(catalog, ParseInt(productId).value).value;
      var category := Some(shown.category);
      var inCategory := FilterProductsByCategory(catalog, category);
      var other := (p: Product) => p.id != shown.id;
      var f := Filter(inCategory, other);
      var r := RelatedProducts(catalog, productId).value;
      assert r == Take(f, 4);
      FilterProductsByCategorySpec(catalog, category);
      if RestrictsCategory(category) {
        var same := (p: Product) => p.category == shown.category;
        var both := (p: Product) => p.category == shown.category && p.id != shown.id;
        FilterFilter(catalog, same, other, both);
        FilterIsSubsequence(catalog, both);
      } else {
        FilterIsSubsequence(catalog, other);
      }
      PrefixOfSubsequence(f, catalog, |r|);
      forall p | p in r
        ensures p in catalog && p.id != shown.id &&
          (RestrictsCategory(category) ==> p.category == shown.category)
      {
        assert p in f;
        FilterMembership(inCategory, other, p);
      }
    }
  }

  // ---------------------------------------------------------------------------
  // Quantity box

  const MinQuantity: int := 1
  const MaxQuantity: int := 10

  /**
   * The "-" button: NaN stays NaN; a number never rises and falls by at
   * most one; it changes exactly when it is above 1, so it never goes
   * below 1 from 1 or more.
   */
  function Decremented(q: Option<int>): (r: Option<int>)
    ensures r.Some? <==> q.Some?
    ensures q.Some? ==> q.value - 1 <= r.value <= q.value
    ensures r != q <==> q.Some? && q.value > MinQuantity
    ensures q.Some? && q.value >= MinQuantity ==> r.value >= MinQuantity
  {
    if q.Some? && q.value > MinQuantity then Some(q.value - 1) else q
  }

  /**
   * The "+" button: NaN stays NaN; a number never falls and rises by at
   * most one; it changes exactly when it is below 10, so it never goes
   * above 10 from 10 or less.
   */
  function Incremented(q: Option<int>): (r: Option<int>)
    ensures r.Some? <==> q.Some?
    ensures q.Some? ==> q.value <= r.value <= q.value + 1
    ensures r != q <==> q.Some? && q.value < MaxQuantity
    ensures q.Some? && q.value <= MaxQuantity ==> r.value <= MaxQuantity
  {
    if q.Some? && q.value < MaxQuantity then Some(q.value + 1) else q
  }

  /** The change handler: NaN or below 1 becomes 1, above 10 becomes 10, otherwise unchanged. */
  function Clamped(v: Option<int>): (r: int)
    ensures MinQuantity <= r <= MaxQuantity
    ensures v.Some? && MinQuantity <= v.value <= MaxQuantity ==> r == v.value
    ensures v.None? || v.value < MinQuantity ==> r == MinQuantity
    ensures v.Some? && v.value > MaxQuantity ==> r == MaxQuantity
  {
    if v.None? || v.value < MinQuantity then MinQuantity
    else if v.value > MaxQuantity then MaxQuantity
    else v.value
  }

  /**
   * The buttons never leave 1..10 once inside it; "-" never goes below 1,
   * "+" never above 10, and NaN stays NaN.
   */
  lemma QuantityButtonsStayInRange(q: Option<int>)
    ensures q.Some? && q.value >= MinQuantity ==> Decremented(q).Some? && Decremented(q).value >= MinQuantity
    ensures q.Some? && q.value <= MaxQuantity ==> Incremented(q).Some? && Incremented(q).value <= MaxQuantity
    ensures q.Some? && MinQuantity <= q.value <= MaxQuantity ==>
      MinQuantity <= Decremented(q).value <= MaxQuantity && MinQuantity <= Incremented(q).value <= MaxQuantity
    ensures q.None? ==> Decremented(q).None? && Incremented(q).None?
  {
  }

  /** Increment undoes decrement strictly inside the range, and the other way round. */
  lemma QuantityButtonsInverse(q: int)
    ensures MinQuantity < q <= MaxQuantity ==> Incremented(Decremented(Some(q))) == Some(q)
    ensures MinQuantity <= q < MaxQuantity ==> Decremented(Incremented(Some(q))) == Some(q)
  {
  }

  // ---------------------------------------------------------------------------
  // Add to cart

  /** `currentProduct.discountPrice || currentProduct.price`. */
  function UnitPrice(p: Product): int {
    if p.discountPrice.Some? && p.discountPrice.value != 0 then p.discountPrice.value else p.price
  }

  /** The object the add-to-cart click hands to `addToCart`. */
  function SelectionInput(p: Product, size: string, color: string, quantity: Option<int>): ItemInput {
    ItemInput(Some(p.id), Some(p.name), Some(UnitPrice(p)),
      if |p.images| > 0 then Some(p.images[0]) else None,
      Some(size), Some(color), quantity)
  }

  /**
   * The click's object passes the cart's check exactly when the product has
   * a non-zero id, a name, a non-zero unit price and a non-empty first
   * image; the line it makes carries the discount price when there is
   * one, the first image, and the chosen size, colour and quantity.
   */
  lemma SelectionLine(p: Product, size: string, color: string, quantity: Option<int>)
    requires size != "" && color != ""
    ensures IsValidInput(SelectionInput(p, size, color, quantity)) <==>
      p.id != 0 && p.name != "" && UnitPrice(p) != 0 && |p.images| > 0 && p.images[0] != ""
    ensures IsValidInput(SelectionInput(p, size, color, quantity)) ==>
      Normalize(SelectionInput(p, size, color, quantity)) ==
        LineItem(p.id, p.name, UnitPrice(p), p.images[0], size, color, NormalQuantity(quantity))
    ensures UnitPrice(p) == if p.discountPrice.Some? && p.discountPrice.value != 0 then p.discountPrice.value else p.price
    ensures quantity.Some? && MinQuantity <= quantity.value <= MaxQuantity ==> NormalQuantity(quantity) == quantity.value
  {
  }

  predicate Chosen(v: Option<string>) {
    v.Some? && v.value != ""
  }

  // ---------------------------------------------------------------------------
  // The page

  class ProductView {
    /** `currentProduct`. */
    var currentProduct: Option<Product>
    /** `selectedSize`. */
    var selectedSize: Option<string>
    /** `selectedColor`. */
    var selectedColor: Option<string>
    /** What `parseInt` reads from the quantity box. */
    var quantity: Option<int>
    /** The add-to-cart button is enabled (not `disabled`). */
    var addEnabled: bool
    /** The "select both size and color" warning is displayed. */
    var warningVisible: bool

    /** The button is only ever enabled for a shown product with both choices made. */
    predicate Valid()
      reads this
    {
      (addEnabled ==> currentProduct.Some? && Chosen(selectedSize) && Chosen(selectedColor)) &&
      (currentProduct.Some? ==> quantity.Some? && MinQuantity <= quantity.value <= MaxQuantity)
    }

    /** The page before anything is shown: nothing chosen, no quantity box yet. */
    constructor ()
      ensures currentProduct == None && selectedSize == None && selectedColor == None
      ensures quantity == None && !addEnabled && !warningVisible
      ensures Valid()
    {
      currentProduct := None;
      selectedSize := None;
      selectedColor := None;
      quantity := None;
      addEnabled := false;
      warningVisible := false;
    }

    /**
     * `displayProductDetail(productId)`: an unknown id leaves the state as
     * it is; otherwise the product is shown with a fresh form, quantity 1,
     * the button disabled and the warning hidden. The chosen size and
     * colour are globals and are not reset.
     */
    method DisplayProductDetail(catalog: seq<Product>, productId: string)
      requires Valid()
      modifies this
      ensures var found := match ParseInt(productId) case None => None case Some(id) => GetProductById(catalog, id);
        if found.None? then
          currentProduct == old(currentProduct) && quantity == old(quantity) &&
          addEnabled == old(addEnabled) && warningVisible == old(warningVisible)
        else
          currentProduct == found && quantity == Some(1) && !addEnabled && !warningVisible
      ensures selectedSize == old(selectedSize) && selectedColor == old(selectedColor)
      ensures Valid()
    {
      var id := ParseInt(productId);
      var product := if id.None? then None else GetProductById(catalog, id.value);
      if product.None? {
        return;
      }
      currentProduct := product;
      quantity := Some(1);
      addEnabled := false;
      warningVisible := false;
    }

    /** `checkSelections()`: the button is enabled exactly when both a size and a colour are chosen. */
    method CheckSelections()
      modifies this`addEnabled, this`warningVisible
      ensures addEnabled <==> Chosen(selectedSize) && Chosen(selectedColor)
      ensures warningVisible == if addEnabled then false else old(warningVisible)
    {
      if Chosen(selectedSize) && Chosen(selectedColor) {
        addEnabled := true;
        warningVisible := false;
      } else {
        addEnabled := false;
      }
    }

    /** A size radio button changes; the buttons exist only for the product's sizes. */
    method SelectSize(size: string)
      requires Valid() && currentProduct.Some? && size in currentProduct.value.sizes
      modifies this`selectedSize, this`addEnabled, this`warningVisible
      ensures selectedSize == Some(size)
      ensures addEnabled <==> size != "" && Chosen(selectedColor)
      ensures warningVisible == if addEnabled then false else old(warningVisible)
      ensures Valid()
    {
      selectedSize := Some(size);
      CheckSelections();
    }

    /** A colour radio button changes; the buttons exist only for the product's colours. */
    method SelectColor(color: string)
      requires Valid() && currentProduct.Some? && color in currentProduct.value.colors
      modifies this`selectedColor, this`addEnabled, this`warningVisible
      ensures selectedColor == Some(color)
      ensures addEnabled <==> Chosen(selectedSize) && color != ""
      ensures warningVisible == if addEnabled then false else old(warningVisible)
      ensures Valid()
    {
      selectedColor := Some(color);
      CheckSelections();
    }

    /** The "-" button. */
    method DecrementQuantity()
      requires Valid() && currentProduct.Some?
      modifies this`quantity
      ensures quantity == Decremented(old(quantity))
      ensures quantity.value <= old(quantity).value && Valid()
    {
      var currentValue := quantity;
      if currentValue.Some? && currentValue.value > 1 {
        quantity := Some(currentValue.value - 1);
      }
    }

    /** The "+" button. */
    method IncrementQuantity()
      requires Valid() && currentProduct.Some?
      modifies this`quantity
      ensures quantity == Incremented(old(quantity))
      ensures quantity.value >= old(quantity).value && Valid()
    {
      var currentValue := quantity;
      if currentValue.Some? && currentValue.value < 10 {
        quantity := Some(currentValue.value + 1);
      }
    }

    /** The box is edited to a value `parseInt` reads as `typed`, then its change handler runs. */
    method ChangeQuantity(typed: Option<int>)
      requires Valid() && currentProduct.Some?
      modifies this`quantity
      ensures quantity == Some(Clamped(typed))
      ensures Valid()
    {
      quantity := typed;
      var value := quantity;
      if value.None? || value.value < 1 {
        quantity := Some(1);
      } else if value.value > 10 {
        quantity := Some(10);
      }
    }

    /**
     * A click on add-to-cart: with a size or colour missing, the warning is
     * shown and the cart is untouched; otherwise the shown product is added
     * with the chosen size, colour and quantity.
     */
    method AddToCartClick(cart: Cart, now: int)
      requires Valid() && currentProduct.Some?
      modifies this`warningVisible, cart
      ensures !(Chosen(selectedSize) && Chosen(selectedColor)) ==>
        warningVisible && cart.items == old(cart.items) && cart.storage == old(cart.storage)
      ensures Chosen(selectedSize) && Chosen(selectedColor) ==>
        var input := SelectionInput(currentProduct.value, selectedSize.value, selectedColor.value, quantity);
        warningVisible == old(warningVisible) &&
        cart.items == CartAdd(old(cart.items), input) &&
        cart.storage == (if IsValidInput(input) then SavedStorage(old(cart.storage), cart.items, now) else old(cart.storage))
      ensures Valid()
    {
      if !Chosen(selectedSize) || !Chosen(selectedColor) {
        warningVisible := true;
        return;
      }
      var input := SelectionInput(currentProduct.value, selectedSize.value, selectedColor.value, quantity);
      cart.AddToCart(input, now);
    }
  }
}
