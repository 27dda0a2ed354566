# Elegance Dress Shop storefront, modelled in Dafny

This project models the logic inside the Elegance Dress Shop storefront, a
static JavaScript site, and proves properties of that model. There are five
parts:

- **Cart store** (`CartStore`, from `js/cart.js`). The cart is a `Cart` object
  holding the ordered list of line items and the browser's key-value store.
  - Add validates the item, normalises its fields, then merges it into the
    line with the same (id, size, colour) key or appends it.
  - Remove and quantity update act on an index and ignore indices out of
    range.
  - Clear empties the list.
  - Subtotal and the flat shipping rule are computed from the list.
  - Save, load and clear write the list and a 24-hour expiry timestamp to the
    store, or remove them.
- **Catalog queries** (`Catalog`, from `js/products.js`):
  - lookup by id;
  - filtering by one category;
  - the conjunctive filter over category, size, colour and price ceiling;
  - the five sort orders.
- **Shop page** (`Shop`, from `js/shop.js`). The `ShopState` object holds
  `currentProducts` and `currentPage`. The filter form builds the criteria;
  `applyFilters` filters, sorts and goes back to page 1. The model also covers:
  - the sort dropdown;
  - the page links;
  - `resetFilters`;
  - the nine-per-page slice;
  - the pagination bar (Prev, a five-page window with first/last links and
    ellipses, Next), built by a loop.
- **Product page** (`ProductPage`, from `js/product.js`). The `ProductView`
  object holds:
  - the product shown;
  - the chosen size and colour;
  - the quantity box, clamped to 1..10;
  - the add-to-cart button, enabled only when both choices are made.

  Also modelled: the click that adds the chosen line to the cart, the
  related-products strip (at most four products), and the SKU text.
- **Configuration** (`Config`, from `js/config.js`):
  - the loaded configuration or its fixed fallback;
  - the in-memory order counter behind `getNextOrderNumber`;
  - the admin WhatsApp number;
  - the order deep link.

Supporting modules:

- `Text` covers `Number.prototype.toString` on integers, `parseInt` with no
  radix (decimal, or hexadecimal behind a `0x` prefix, after JavaScript
  white space and a sign) and `padStart`.
- `Seqs` covers `filter`, `slice` and subsequences.
- `Wrappers` holds the `Option` type.

JavaScript's falsy values (`null`, `undefined`, `NaN`, `0`, `""`) are written
out: a missing value or NaN is `None`, and the checks for 0 and "" are explicit.

Modelling choices:

- **Money** is an integer count of minor units (cents). The free-shipping
  threshold of 100 currency units is 10000; the flat fee of 10 is 1000. The
  shop's price slider counts whole currency units, so `applyFilters`
  multiplies its value by 100. With that, `price > maxPrice` compares exactly
  as the source does.
- **Browser storage** is a map from keys to stored texts. A saved list is read
  back exactly: `JSON.stringify` then `JSON.parse` is the identity.
- **The clock, the fetched catalog, the fetched configuration and
  `Math.random`** become parameters.
- **The shipping fee is a constant.** The store configuration carries a
  `shippingFee`, but `calculateShipping` (js/cart.js:177-181) never reads it.
  It always uses the constant 10, and the model follows the code.
- **`resetFilters` does not reset the sort order.** It writes `'default'` into
  an element with id `sort-select` (js/shop.js:409-412). `applyFilters` reads
  the dropdown with id `sort-products` (js/shop.js:115). So after a reset the
  list is sorted by whatever that dropdown still shows, and `ResetFilters`
  takes that value as a parameter.
- **Sorting** is an insertion sort, proved stable. This matches the stable
  `Array.prototype.sort` for every comparator the source uses.

## Model

| member | source | states |
|---|---|---|
| Catalog.GetProductById | js/products.js:41-43 | None exactly when no product has the id; otherwise a product with that id whose index k has no earlier product with the id (the first match) |
| Catalog.FilterProductsByCategorySpec | js/products.js:46-51 | an absent, empty or 'all' category returns the catalog itself; otherwise exactly the catalog products of that category; always a subsequence of the catalog |
| Catalog.FilterProductsSpec | js/products.js:54-84 | the result is an order-preserving subsequence of the catalog; each product occurs as often as in the catalog if it passes all four constraints (category, size overlap, colour overlap, price ceiling, each skipped when inactive) and not at all otherwise |
| Catalog.FilterProductsNoCriteria | js/products.js:54-84 | with no active criterion (categories empty or containing 'all', no sizes, no colours, ceiling absent or 0) the whole catalog comes back in its order |
| Catalog.ParseSortKey | js/products.js:90-111 | each of 'price-low', 'price-high', 'name-asc', 'name-desc' selects its own order, and any other key selects the featured order |
| Catalog.InOrderTotal | js/products.js:91-111 | every comparator used by the sort relates any two products one way or the other |
| Catalog.InOrderTransitive | js/products.js:91-111 | every comparator used by the sort is transitive |
| Catalog.LexLeTotal | js/products.js:97-102 | the name order is total |
| Catalog.LexLeTransitive | js/products.js:97-102 | the name order is transitive |
| Catalog.Insert | js/products.js:87-115 | inserting into the sorted copy adds one element and keeps the multiset |
| Catalog.InsertSorted | js/products.js:87-115 | inserting into a sorted sequence keeps it sorted |
| Catalog.SortPermutation | js/products.js:88 | sorting returns a sequence of the same length and the same multiset of products as its input (it sorts a copy) |
| Catalog.SortSorted | js/products.js:87-115 | for every key the result is ordered by that key's comparator |
| Catalog.InsertKeepsTies | js/products.js:87-115 | an inserted product goes ahead of every product the comparator ties with it, so among those it comes first and the others keep their order |
| Catalog.SortStable | js/products.js:87-115 | the sort is stable: for every key and every product x, the products that tie with x (the comparator returns 0 both ways) appear in the result in their input order |
| Catalog.SortByPrice | js/products.js:91-96 | 'price-low' gives non-decreasing prices and 'price-high' non-increasing ones, both permutations of the input |
| Catalog.SortByName | js/products.js:97-102 | 'name-asc' gives names in ascending and 'name-desc' in descending order, both permutations |
| Catalog.SortFeatured | js/products.js:103-111 | 'featured' and any unknown key put every featured product before every other one, ids ascending within each group, as a permutation |
| Catalog.PriceDescendingUnique | js/products.js:94-96 | two price-descending arrangements of the same products with distinct prices are equal |
| Catalog.PriceOrdersAreReverses | js/products.js:91-96 | for distinct prices, the 'price-high' result is the reverse of the 'price-low' result |
| Catalog.SortExample | js/products.js:87-111 | featured A (id 1, 20.00) and plain B (id 2, 50.00): the default order keeps [A, B], 'price-high' gives [B, A], and 'featured' turns [B, A] into [A, B] |
| CartStore.NormalQuantity | js/cart.js:119-120 | the quantity used is at least 1: a parsed value of 1 or more is kept, and NaN, 0 or a negative value becomes 1 |
| CartStore.TextOr | js/cart.js:123-124 | a given non-empty text is never overridden; the result is always one of the two texts, and it is empty only when both the given text and the default are |
| CartStore.Normalize | js/cart.js:118-124 | a normalised line carries the item's id, name, price and image and the normalised quantity (at least 1); a missing or empty size becomes "One Size" and colour "Default", given ones are kept, so neither is ever empty |
| CartStore.LineIndex | js/cart.js:127-131 | -1 exactly when no line has the key; otherwise the first line with the key |
| CartStore.AddToCartEffect | js/cart.js:111-139 | an item lacking a truthy id, name, price or image leaves the list unchanged; otherwise the line with the same key grows by the normalised quantity, the length is unchanged and no other line changes, or, when no line has the key, the normalised line is appended |
| CartStore.AddToCartWellFormed | js/cart.js:126-139 | adding keeps keys unique and every quantity at least 1 |
| CartStore.AddSameLineTwice | js/cart.js:126-138 | adding the same (id, size, colour) twice to a cart without it gives one appended line whose quantity is the sum of the two |
| CartStore.TotalAfterAdd | js/cart.js:126-139 | the subtotal grows by the added quantity times the unit price of the line it lands in (the merged line's recorded price, or the item's own) |
| CartStore.TotalRisesOnAdd | js/cart.js:172-174 | adding a valid, positively priced item to a cart of positive prices strictly raises the subtotal |
| CartStore.ShippingMonotone | js/cart.js:177-181 | a larger subtotal never pays more shipping |
| CartStore.ShippingNeverRisesOnAdd | js/cart.js:177-181 | adding a positively priced item to a cart of positive prices never raises the shipping charge |
| CartStore.RemoveFromCartEffect | js/cart.js:147-153 | an index in range deletes exactly that line, keeps the others in order and lowers the subtotal by its line total; any other index changes nothing |
| CartStore.RemoveFromCartWellFormed | js/cart.js:147-153 | removing keeps keys unique and quantities at least 1 |
| CartStore.UpdateQuantityEffect | js/cart.js:156-162 | an index in range sets only that line's quantity, to max(1, q), and moves the subtotal by its unit price times the change; any other index changes nothing |
| CartStore.UpdateQuantityWellFormed | js/cart.js:156-162 | updating keeps keys unique and quantities at least 1 |
| CartStore.TotalNonNegative | js/cart.js:172-174 | lines with non-negative prices and positive quantities add up to a non-negative subtotal |
| CartStore.TotalConcat | js/cart.js:172-174 | the subtotal of two lists joined is the sum of their subtotals |
| CartStore.TotalUpdate | js/cart.js:172-174 | replacing one line changes the subtotal by the difference of the two line totals |
| CartStore.Shipping | js/cart.js:177-181 | shipping is 0 exactly when the subtotal exceeds 100.00, and the flat 10.00 otherwise |
| CartStore.TwoAddsExample | js/cart.js:111-181 | one product at 20.00 added twice: one line of quantity 2, subtotal 40.00, shipping 10.00, total 50.00; exactly 100.00 pays the fee and 100.01 does not |
| CartStore.LoadAfterSave | js/cart.js:23-74 | what was saved at time t is restored unchanged, with the store untouched, at any time up to and including t + 86400000 ms |
| CartStore.LoadAfterExpiry | js/cart.js:41-85 | after t + 86400000 ms the load yields an empty cart and removes both storage keys |
| CartStore.LoadOutcomes | js/cart.js:41-74 | a non-empty load result is exactly the stored list; a missing list or a missing expiry gives an empty cart and removes both keys; unparsable data gives an empty cart |
| CartStore.Cart.constructor | js/cart.js:7 | the page starts with an empty list over the store as it is |
| CartStore.Cart.SaveToStorage | js/cart.js:23-38 | the store maps the cart key to the list and the expiry key to the text of now + 86400000, and nothing else changes |
| CartStore.Cart.ClearStorage | js/cart.js:77-85 | both cart keys are removed from the store and nothing else changes |
| CartStore.Cart.LoadFromStorage | js/cart.js:41-74 | list and store become what LoadedCart computes from the old store and the time |
| CartStore.Cart.AddToCart | js/cart.js:111-144 | the list becomes CartAdd of the old list; the store is saved only when the item was valid; well-formedness is preserved |
| CartStore.Cart.RemoveFromCart | js/cart.js:147-153 | the list becomes CartRemove of the old list; the store is saved only for an index in range; well-formedness is preserved |
| CartStore.Cart.UpdateCartItemQuantity | js/cart.js:156-162 | the list becomes CartSetQuantity of the old list; the store is saved only for an index in range; well-formedness is preserved |
| CartStore.Cart.ClearCart | js/cart.js:165-169 | the list is empty and both storage keys are removed |
| CartStore.Cart.CalculateCartTotal | js/cart.js:172-174 | the subtotal is Total of the cart's lines, 0 for an empty cart and never negative when no price is |
| CartStore.Cart.CalculateShipping | js/cart.js:177-181 | the cart's shipping is Shipping of its subtotal: 0 exactly when the subtotal is above 10000 minor units, the flat 1000 otherwise |
| Shop.TotalPages | js/shop.js:150 | the page count is the least number of nine-product pages holding all products: pages × 9 ≥ n, and one page fewer would not suffice |
| Shop.PageSliceSize | js/shop.js:150-153 | the shown page is the contiguous slice from (page−1)×9, with nine items before the last page, the remainder (at least one) on the last, and nothing beyond |
| Shop.PagesUpToPrefix | js/shop.js:150-153 | pages 1..k, concatenated, are the first min(9k, n) products |
| Shop.PagesCoverAll | js/shop.js:150-153 | pages 1..totalPages, concatenated, are exactly the product list (the pages partition it) |
| Shop.PageWindowSpec | js/shop.js:225-232 | for 1 ≤ current ≤ total the window satisfies 1 ≤ start ≤ current ≤ end ≤ total and holds exactly min(5, total) pages |
| Shop.BarEnds | js/shop.js:235-272 | a link to page 1 is shown exactly when the window starts after 1, with an ellipsis exactly when it starts after 2; a link to the last page exactly when the window ends before it, with an ellipsis exactly when it ends before the page before it |
| Shop.PageRunAt | js/shop.js:251-256 | the k-th numbered link is page start + k and is active exactly when it is the current page |
| Shop.VisiblePages | js/shop.js:225-232 | the start and end page computed step by step are exactly the window PageWindowSpec describes |
| Shop.AppendPageLinks | js/shop.js:251-256 | the loop appends one link per page from start to end, in order, the current one active, and nothing else |
| Shop.GeneratePagination | js/shop.js:205-280 | the loop builds exactly the bar PaginationSpec describes |
| Shop.AfterClick | js/shop.js:286-289 | a click changes the page only to a target in 1..total different from the current page; otherwise the page is unchanged |
| Shop.InnerEntries | js/shop.js:225-272 | every entry between Prev and Next is an ellipsis or a link to a page in 1..total that is active exactly when it is the current page |
| Shop.PaginationShape | js/shop.js:212-280 | no entries for one page; otherwise the bar opens with Prev (disabled exactly on page 1) and closes with Next (disabled exactly on the last page), always links pages 1 and total, and marks the current page active |
| Shop.PaginationClicks | js/shop.js:216-289 | clicking any entry of the bar leaves the page in 1..total: Prev goes back one page unless on page 1, Next forward one unless on the last, and a numbered link goes to its page |
| Shop.FormCriteriaSpec | js/shop.js:81-109 | the category criterion is active exactly when some category other than 'all' is checked, and then admits exactly the checked categories; the price ceiling applies exactly when the slider reads a non-zero number, at slider × 100 minor units |
| Shop.FilteredViewContents | js/shop.js:79-116 | the list shown after applying filters is a permutation of the filtered catalog and contains exactly the catalog products passing every criterion of the form |
| Shop.ResetShowsWholeCatalog | js/shop.js:380-421 | after a reset (only 'all' checked, no size or colour, the slider at its maximum) the whole catalog is shown, reordered only, whenever that maximum in minor units is at least every catalog price or imposes no ceiling |
| Shop.ShopState.constructor | js/shop.js:7-9 | the shop starts on page 1 with the whole catalog (line 39) |
| Shop.ShopState.ApplyFilters | js/shop.js:79-123 | the list becomes the catalog filtered by the form's criteria and then sorted by the dropdown's key; the page becomes 1 |
| Shop.ShopState.ChangeSort | js/shop.js:340-349 | the shown list is re-sorted (same multiset) and the page stays as it was, and still valid |
| Shop.ShopState.ClickPage | js/shop.js:283-294 | the page becomes AfterClick of the old page, so it stays valid |
| Shop.ShopState.ResetFilters | js/shop.js:380-429 | the list becomes the catalog filtered with only 'all' checked, no size or colour, and the slider at its maximum, sorted by the dropdown's key; the page becomes 1 |
| Shop.ShopState.DisplayedProducts | js/shop.js:149-152 | the products on screen are PageSlice of the shown list at the current page: at most nine, all from the list, and some whenever the list is non-empty |
| Shop.ShopState.Pagination | js/shop.js:189 | the bar rendered for the current state is PaginationSpec of the current page and page count |
| ProductPage.SkuShape | js/product.js:75 | for a non-negative id the part after "DRESS-" is all digits and reads back as the id; ids below 10000 give exactly four digits |
| ProductPage.SkuInjective | js/product.js:75 | different non-negative ids have different SKUs |
| ProductPage.RelatedProductsSpec | js/product.js:245-252 | None exactly when the id does not parse or names no product; otherwise exactly the first four (or all, if fewer) catalog products, in catalog order, that lack the shown id and, unless the shown category is empty or 'all', are in that category |
| ProductPage.Decremented | js/product.js:175-180 | "-" keeps NaN as NaN, never raises a number and lowers it by at most one, changes it exactly when it is above 1, and so never takes a number of 1 or more below 1 |
| ProductPage.Incremented | js/product.js:182-187 | "+" keeps NaN as NaN, never lowers a number and raises it by at most one, changes it exactly when it is below 10, and so never takes a number of 10 or less above 10 |
| ProductPage.Clamped | js/product.js:190-197 | the result is in 1..10: a number in range is kept, NaN or below 1 becomes 1, and above 10 becomes 10 |
| ProductPage.QuantityButtonsStayInRange | js/product.js:175-187 | decrement never goes below 1 and increment never above 10; a quantity in 1..10 stays there; NaN stays NaN |
| ProductPage.QuantityButtonsInverse | js/product.js:175-187 | inside the range, "+" after "-" and "-" after "+" restore the quantity |
| ProductPage.SelectionLine | js/product.js:210-221 | the clicked item passes the cart's check exactly when the product has a non-zero id, a name, a non-zero unit price and a non-empty first image; its line carries the discount price when truthy (otherwise the price), the first image, the chosen size, colour and quantity |
| ProductPage.ProductView.constructor | js/product.js:5-8 | nothing is shown or chosen and the button is disabled |
| ProductPage.ProductView.DisplayProductDetail | js/product.js:37-45 | an id that names no product leaves the state as it is; otherwise that product is shown with quantity 1, the button disabled (line 120) and the warning hidden, and the choices are kept |
| ProductPage.ProductView.CheckSelections | js/product.js:232-242 | the button is enabled exactly when both a size and a colour are chosen, and the warning is hidden when it is |
| ProductPage.ProductView.SelectSize | js/product.js:148-156 | the chosen size is set, the button is enabled exactly when a colour is chosen too, and the warning is hidden then and kept otherwise |
| ProductPage.ProductView.SelectColor | js/product.js:159-167 | the chosen colour is set, the button is enabled exactly when a size is chosen too, and the warning is hidden then and kept otherwise |
| ProductPage.ProductView.DecrementQuantity | js/product.js:175-180 | the quantity becomes Decremented of the old one, never rising and staying in 1..10 |
| ProductPage.ProductView.IncrementQuantity | js/product.js:182-187 | the quantity becomes Incremented of the old one, never falling and staying in 1..10 |
| ProductPage.ProductView.ChangeQuantity | js/product.js:190-197 | the quantity becomes the typed value clamped into 1..10 |
| ProductPage.ProductView.AddToCartClick | js/product.js:204-228 | with a size or colour missing the warning is shown and the cart (list and store) is untouched; otherwise the cart becomes CartAdd of the shown product's line with the choices and quantity |
| Config.LoadSystemConfig | js/config.js:22-40 | a fetched configuration is used as is; a failed fetch gives admin '1234567890', last order number 1000, store 'Elegance', currency 'LKR', shipping fee 10.00 |
| Config.OrderIdInjective | js/config.js:58-59 | different counter values give different "ORD-" ids |
| Config.ErrorIdIsNotOrderId | js/config.js:53-59 | an "ERR-" id never equals an "ORD-" id |
| Config.IssuedIdAt | js/config.js:58-59 | the i-th of successive calls after counter value n returns "ORD-" + (n + i + 1) |
| Config.IssuedIdsDistinct | js/config.js:58-59 | successive calls never return the same id twice |
| Config.UrlRoundTrip | js/config.js:80-84 | from the URL, a number without '?' and the encoded text are read back exactly |
| Config.ConfigStore.constructor | js/config.js:43 | the configuration starts uninitialised |
| Config.ConfigStore.InitSystemConfig | js/config.js:46-49 | the configuration becomes the loaded one, or the fallback |
| Config.ConfigStore.GetNextOrderNumber | js/config.js:52-60 | uninitialised: an "ERR-" id from the draw in 0..999 and no change; otherwise the counter rises by exactly one and the id is "ORD-" followed by the new value |
| Config.ConfigStore.IssueOrderNumbers | js/config.js:52-60 | k successive calls on an initialised configuration raise the counter by k, keep the rest, and return exactly IssuedIds of the old counter, so no id repeats |
| Config.ConfigStore.AdminWhatsapp | js/config.js:71-77 | the number of the configuration in use; before initialisation the same number as the fallback configuration a failed load yields |
| Config.OrderUrlTargetsAdmin | js/config.js:71-84 | the order URL names the admin number and carries the encoded details; uninitialised and fallback configurations use the same number |
| Text.ParseIntOfIntToString | js/cart.js:33-52 | the expiry timestamp written with toString is read back exactly by parseInt |
| Text.IntToStringInjective | js/config.js:59 | different integers have different decimal text |
| Text.ParseIntOfPadded | js/product.js:75 | zero-padding a non-negative id's text does not change what parseInt reads |
| Text.NatToStringLength | js/product.js:75 | an id below 10^k has at most k digits |
| Text.ParseHexExamples | js/product.js:38 | parseInt with no radix reads "0x1A" as 26, " -0Xff" as -255 and "0x2" as 2, and finds no number in "0x" or "0xg" |

## Left out

- DOM rendering and event wiring are not modelled. This covers product cards, cart rendering, the order summary, toasts, modals, the element building in `generatePagination`, the HTML of `displayProductDetail`, and the quick-view modal. Only the values they compute are modelled.
- The network fetches in `loadProducts` and `loadSystemConfig` are parameters: the catalog is a sequence, and the configuration is its value or None for a failed load.
- The cookie fallback of the cart store (`setCookie`, `getCookie`, js/cart.js:34-37, 54-58, 82-83) is left out. It runs only when `localStorage` throws, which the key-value map never does.
- Stored text that `JSON.parse` accepts but that is not a list of line items (an object, a list with missing fields) is not modelled. Any stored text other than a saved list counts as unparsable.
- Floating-point money and `formatCurrency` (js/config.js:63-68) are left out. Money is integer minor units.
- `localeCompare` is modelled as plain lexicographic order on characters, because the real order depends on the locale.
- `Math.random` in the uninitialised order-number path is the parameter `draw`.
- The checkout message text and form handling in js/cart.js are left out. They are string templating over form inputs.
- Object aliasing is not modelled. `addToCart` rewrites and stores the caller's object; line items here are values.
- The category hand-off when the shop opens (URL parameter or the `selected_category` storage key, js/shop.js:41-66) is left out, and so is the checkbox coupling of the category filters (js/shop.js:300-318). They only decide which boxes are checked before `applyFilters`.
- Product fields used only for display (rating, stock flag, description) are dropped.
- js/main.js and js/about.js are not part of this model, and neither are the stray top-level statements at js/products.js:229-233.
- CartStore.Cart.UpdateCartItemQuantity: the quantity is an integer. `Math.max(1, NaN)` stores NaN in the source, and that is not modelled.
- ProductPage.ProductView.AddToCartClick: this models the click handler alone. A disabled button delivers no clicks in the browser, and that is not modelled.
- ProductPage.SkuShape: the digits and read-back claims cover non-negative ids only. For a negative id the padded text contains the minus sign.
- For an empty or 'all' category the source draws related products from the whole catalog (js/products.js:46-51), and so does the model.
- `parseInt` reads arbitrarily long digit runs exactly; the rounding of values beyond 2^53 to floating point is not modelled.
- Catalog.SortByName: it states ordering and permutation only, because the name order stands in for `localeCompare`.
- The order counter is kept in memory only, as in the source, so ids can repeat across page loads. The distinctness lemmas are about one session.
