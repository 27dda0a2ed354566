/**
 * The shopping cart of js/cart.js: an ordered list of line items changed in
 * place by add (merge by product, size and colour), remove, quantity update
 * and clear, mirrored into a key-value store with a 24-hour expiry.
 *
 * The browser's `localStorage` is the map `storage`; `Date.now()` is the
 * parameter `now` (epoch milliseconds). Money is in minor units.
 */
module CartStore {
  import opened Wrappers
  import opened Text

  /** One cart line: the product's id, name, unit price and image as they were when added. */
  datatype LineItem = LineItem(
    id: int,
    name: string,
    price: int,
    image: string,
    size: string,
    color: string,
    quantity: int)

  /** What makes two lines the same line. */
  datatype LineKey = LineKey(id: int, size: string, color: string)

  function Key(l: LineItem): LineKey {
    LineKey(l.id, l.size, l.color)
  }

  /**
   * The object passed to `addToCart`. A field is None when it is missing;
   * `quantity` is what `parseInt` makes of the given quantity (None for NaN).
   */
  datatype ItemInput = ItemInput(
    id: Option<int>,
    name: Option<string>,
    price: Option<int>,
    image: Option<string>,
    size: Option<string>,
    color: Option<string>,
    quantity: Option<int>)

  const DefaultSize: string := "One Size"
  const DefaultColor: string := "Default"

  predicate TruthyNumber(v: Option<int>) {
    v.Some? && v.value != 0
  }

  predicate TruthyText(v: Option<string>) {
    v.Some? && v.value != ""
  }

  /** The guard of `addToCart`: id, name, price and image must all be truthy (so a price of 0 is refused). */
  predicate IsValidInput(input: ItemInput) {
    TruthyNumber(input.id) && TruthyText(input.name) && TruthyNumber(input.price) && TruthyText(input.image)
  }

  /** `parseInt(q) || 1`, then raised to 1 when below 1. */
  function NormalQuantity(q: Option<int>): (n: int)
    ensures n >= 1
    ensures q.Some? && q.value >= 1 ==> n == q.value
    ensures q.None? || q.value < 1 ==> n == 1
  {
    var v := if TruthyNumber(q) then q.value else 1;
    if v < 1 then 1 else v
  }

  /**
   * `v || fallback` for a text field: a given text is never overridden,
   * the result is one of the two texts, and it is empty only when both
   * are.
   */
  function TextOr(v: Option<string>, fallback: string): (r: string)
    ensures TruthyText(v) ==> r == v.value
    ensures r == fallback || (v.Some? && r == v.value)
    ensures r != "" <==> TruthyText(v) || fallback != ""
  {
    if TruthyText(v) then v.value else fallback
  }

  /**
   * The line a valid input becomes once its fields are normalised: it
   * carries the input's id, name, price and image; its quantity is the
   * normalised one, at least 1; a missing or empty size becomes "One Size"
   * and a missing or empty colour "Default", so neither is ever empty.
   */
  function Normalize(input: ItemInput): (l: LineItem)
    requires IsValidInput(input)
    ensures l.quantity >= 1
    ensures l.size != "" && l.color != ""
    ensures TruthyText(input.size) ==> l.size == input.size.value
    ensures TruthyText(input.color) ==> l.color == input.color.value
    ensures !TruthyText(input.size) ==> l.size == DefaultSize
    ensures !TruthyText(input.color) ==> l.color == DefaultColor
    ensures l.id == input.id.value && l.name == input.name.value
    ensures l.price == input.price.value && l.image == input.image.value
    ensures l.quantity == NormalQuantity(input.quantity)
  {
    LineItem(input.id.value, input.name.value, input.price.value, input.image.value,
      TextOr(input.size, DefaultSize), TextOr(input.color, DefaultColor),
      NormalQuantity(input.quantity))
  }

  /** `cartItems.findIndex(...)` for a key: the first line with that key, or -1. */
  function LineIndex(items: seq<LineItem>, k: LineKey): (r: int)
    ensures -1 <= r < |items|
    ensures r == -1 <==> forall j :: 0 <= j < |items| ==> Key(items[j]) != k
    ensures r >= 0 ==> Key(items[r]) == k && forall j :: 0 <= j < r ==> Key(items[j]) != k
    decreases |items|
  {
    if items == [] then -1
    else if Key(items[0]) == k then 0
    else
      var r := LineIndex(items[1..], k);
      assert forall j :: 1 <= j < |items| ==> items[j] == items[1..][j - 1];
      if r == -1 then -1 else r + 1
  }

  // ---------------------------------------------------------------------------
  // The list operations, as functions of the old list

  /** The list after `addToCart(input)`. */
  function CartAdd(items: seq<LineItem>, input: ItemInput): seq<LineItem> {
    if !IsValidInput(input) then items
    else
      var line := Normalize(input);
      var i := LineIndex(items, Key(line));
      if i != -1 then items[i := items[i].(quantity := items[i].quantity + line.quantity)]
      else items + [line]
  }

  /** The list after `removeFromCart(index)`. */
  function CartRemove(items: seq<LineItem>, index: int): seq<LineItem> {
    if 0 <= index < |items| then items[..index] + items[index + 1..] else items
  }

  function Max(a: int, b: int): int {
    if a >= b then a else b
  }

  /** The list after `updateCartItemQuantity(index, quantity)`. */
  function CartSetQuantity(items: seq<LineItem>, index: int, quantity: int): seq<LineItem> {
    if 0 <= index < |items| then items[index := items[index].(quantity := Max(1, quantity))] else items
  }

  /** No two lines share a key. */
  predicate UniqueKeys(items: seq<LineItem>) {
    forall i, j :: 0 <= i < j < |items| ==> Key(items[i]) != Key(items[j])
  }

  predicate PositiveQuantities(items: seq<LineItem>) {
    forall i :: 0 <= i < |items| ==> items[i].quantity >= 1
  }

  /** The invariant every cart operation keeps. */
  predicate WellFormed(items: seq<LineItem>) {
    UniqueKeys(items) && PositiveQuantities(items)
  }

  // ---------------------------------------------------------------------------
  // Totals

  function LineTotal(l: LineItem): int {
    l.price * l.quantity
  }

  /** `cartItems.reduce((total, item) => total + item.price * item.quantity, 0)`. */
  function Total(items: seq<LineItem>): int
    decreases |items|
  {
    if items == [] then 0 else Total(items[..|items| - 1]) + LineTotal(items[|items| - 1])
  }

  /** Minor units per currency unit. */
  const MinorUnits: int := 100
  /** Shipping is free for a subtotal strictly above this (100 currency units). */
  const FreeShippingAbove: int := 100 * MinorUnits
  /** The flat shipping fee otherwise (10 currency units). */
  const FlatShipping: int := 10 * MinorUnits

  /** `calculateShipping()` for a given subtotal. */
  function Shipping(subtotal: int): (fee: int)
    ensures fee == 0 <==> subtotal > FreeShippingAbove
    ensures fee != 0 ==> fee == FlatShipping
  {
    if subtotal > FreeShippingAbove then 0 else FlatShipping
  }

  lemma {:induction false} TotalConcat(a: seq<LineItem>, b: seq<LineItem>)
    ensures Total(a + b) == Total(a) + Total(b)
    decreases |b|
  {
    if b == [] {
      assert a + b == a;
    } else {
      var c := a + b;
      assert c[..|c| - 1] == a + b[..|b| - 1];
      assert c[|c| - 1] == b[|b| - 1];
      TotalConcat(a, b[..|b| - 1]);
    }
  }

  predicate NonNegativePrices(items: seq<LineItem>) {
    forall i :: 0 <= i < |items| ==> items[i].price >= 0
  }

  /** Lines with non-negative prices and positive quantities add up to a non-negative subtotal. */
  lemma {:induction false} TotalNonNegative(items: seq<LineItem>)
    ensures PositiveQuantities(items) && NonNegativePrices(items) ==> Total(items) >= 0
    decreases |items|
  {
    if items != [] && PositiveQuantities(items) && NonNegativePrices(items) {
      var init := items[..|items| - 1];
      assert PositiveQuantities(init) && NonNegativePrices(init) by {
        forall i | 0 <= i < |init| ensures init[i] == items[i] { }
      }
      TotalNonNegative(init);
      var last := items[|items| - 1];
      if last.price > 0 {
        PositiveProduct(last.price, last.quantity);
      }
    }
  }

  lemma TotalSingle(l: LineItem)
    ensures Total([l]) == LineTotal(l)
  {
    assert [l][..0] == [];
  }

  /** Replacing one line changes the total by the difference of the two line totals. */
  lemma TotalUpdate(items: seq<LineItem>, i: int, l: LineItem)
    requires 0 <= i < |items|
    ensures Total(items[i := l]) == Total(items) - LineTotal(items[i]) + LineTotal(l)
  {
    var before, after := items[..i], items[i + 1..];
    assert items == before + [items[i]] + after;
    assert items[i := l] == before + [l] + after;
    TotalConcat(before + [items[i]], after);
    TotalConcat(before, [items[i]]);
    TotalConcat(before + [l], after);
    TotalConcat(before, [l]);
    TotalSingle(items[i]);
    TotalSingle(l);
  }

  // ---------------------------------------------------------------------------
  // Properties of the list operations

  /**
   * `addToCart`: an invalid item changes nothing; otherwise the line with
   * the same key grows by the normalised quantity and nothing else changes,
   * or, when there is none, the normalised line is appended.
   */
  lemma AddToCartEffect(items: seq<LineItem>, input: ItemInput)
    ensures !IsValidInput(input) ==> CartAdd(items, input) == items
    ensures IsValidInput(input) ==>
      var line := Normalize(input);
      var r := CartAdd(items, input);
      if exists j :: 0 <= j < |items| && Key(items[j]) == Key(line) then
        |r| == |items| &&
        exists j :: 0 <= j < |items| && Key(items[j]) == Key(line) &&
          r[j] == items[j].(quantity := items[j].quantity + line.quantity) &&
          forall k :: 0 <= k < |items| && k != j ==> r[k] == items[k]
      else
        r == items + [line]
  {
    if IsValidInput(input) {
      var line := Normalize(input);
      var i := LineIndex(items, Key(line));
      if i != -1 {
        assert Key(items[i]) == Key(line);
      }
    }
  }

  /** Adding keeps keys unique and quantities positive. */
  lemma AddToCartWellFormed(items: seq<LineItem>, input: ItemInput)
    requires WellFormed(items)
    ensures WellFormed(CartAdd(items, input))
  {
    if IsValidInput(input) {
      var line := Normalize(input);
      var i := LineIndex(items, Key(line));
      var r := CartAdd(items, input);
      if i == -1 {
        forall a, b | 0 <= a < b < |r| ensures Key(r[a]) != Key(r[b]) {
          if b == |items| {
            assert r[b] == line && r[a] == items[a];
          } else {
            assert r[a] == items[a] && r[b] == items[b];
          }
        }
      } else {
        assert forall k :: 0 <= k < |r| ==> Key(r[k]) == Key(items[k]);
      }
    }
  }

  /**
   * Adding the same (id, size, colour) twice to a cart without that line
   * gives one line whose quantity is the sum of the two quantities.
   */
  lemma AddSameLineTwice(items: seq<LineItem>, a: ItemInput, b: ItemInput)
    requires IsValidInput(a) && IsValidInput(b)
    requires Key(Normalize(a)) == Key(Normalize(b))
    requires forall j :: 0 <= j < |items| ==> Key(items[j]) != Key(Normalize(a))
    ensures CartAdd(CartAdd(items, a), b) ==
      items + [Normalize(a).(quantity := Normalize(a).quantity + Normalize(b).quantity)]
  {
    var once := CartAdd(items, a);
    assert once == items + [Normalize(a)];
    var i := LineIndex(once, Key(Normalize(b)));
    assert Key(once[|items|]) == Key(Normalize(b));
    assert i == |items|;
  }

  /**
   * The subtotal after `addToCart` grows by the added quantity times the
   * unit price of the line it lands in: the existing line's snapshot price
   * when it merges, the item's own price when it is appended.
   */
  lemma TotalAfterAdd(items: seq<LineItem>, input: ItemInput)
    requires IsValidInput(input)
    ensures var line := Normalize(input);
      var i := LineIndex(items, Key(line));
      Total(CartAdd(items, input)) ==
        Total(items) + (if i == -1 then line.price else items[i].price) * line.quantity
  {
    var line := Normalize(input);
    var i := LineIndex(items, Key(line));
    if i == -1 {
      assert CartAdd(items, input) == items + [line];
      TotalAppend(items, line);
    } else {
      assert CartAdd(items, input) == items[i := items[i].(quantity := items[i].quantity + line.quantity)];
      TotalMerge(items, i, line.quantity);
    }
  }

  /** Appending a line adds its line total. */
  lemma TotalAppend(items: seq<LineItem>, l: LineItem)
    ensures Total(items + [l]) == Total(items) + l.price * l.quantity
  {
    TotalConcat(items, [l]);
    TotalSingle(l);
  }

  /** Raising one line's quantity by `q` adds `q` times its price. */
  lemma TotalMerge(items: seq<LineItem>, i: int, q: int)
    requires 0 <= i < |items|
    ensures Total(items[i := items[i].(quantity := items[i].quantity + q)]) == Total(items) + items[i].price * q
  {
    TotalUpdate(items, i, items[i].(quantity := items[i].quantity + q));
    LineTotalChange(items[i], items[i].quantity + q);
  }

  /** Adding a positively priced item to a cart of positive prices raises the subtotal. */
  lemma TotalRisesOnAdd(items: seq<LineItem>, input: ItemInput)
    requires input.price.Some? && input.price.value > 0
    requires forall j :: 0 <= j < |items| ==> items[j].price > 0
    requires IsValidInput(input)
    ensures Total(CartAdd(items, input)) > Total(items)
  {
    TotalAfterAdd(items, input);
    var line := Normalize(input);
    var i := LineIndex(items, Key(line));
    var unit := if i == -1 then line.price else items[i].price;
    PositiveProduct(unit, line.quantity);
  }

  /** A larger subtotal never pays more shipping. */
  lemma ShippingMonotone(a: int, b: int)
    requires a <= b
    ensures Shipping(b) <= Shipping(a)
  {
  }

  /** Adding a positively priced item never makes shipping dearer. */
  lemma ShippingNeverRisesOnAdd(items: seq<LineItem>, input: ItemInput)
    requires input.price.Some? && input.price.value > 0
    requires forall j :: 0 <= j < |items| ==> items[j].price > 0
    ensures Shipping(Total(CartAdd(items, input))) <= Shipping(Total(items))
  {
    if IsValidInput(input) {
      TotalRisesOnAdd(items, input);
      ShippingMonotone(Total(items), Total(CartAdd(items, input)));
    }
  }

  /**
   * `removeFromCart(index)`: an index in range deletes exactly that line and
   * keeps the others in order; any other index changes nothing.
   */
  lemma RemoveFromCartEffect(items: seq<LineItem>, index: int)
    ensures var r := CartRemove(items, index);
      if 0 <= index < |items| then
        |r| == |items| - 1 &&
        (forall k :: 0 <= k < index ==> r[k] == items[k]) &&
        (forall k :: index <= k < |r| ==> r[k] == items[k + 1]) &&
        Total(r) == Total(items) - LineTotal(items[index])
      else r == items
  {
    if 0 <= index < |items| {
      var before, after := items[..index], items[index + 1..];
      assert items == before + [items[index]] + after;
      TotalConcat(before + [items[index]], after);
      TotalConcat(before, [items[index]]);
      TotalConcat(before, after);
      TotalSingle(items[index]);
    }
  }

  lemma RemoveFromCartWellFormed(items: seq<LineItem>, index: int)
    requires WellFormed(items)
    ensures WellFormed(CartRemove(items, index))
  {
    RemoveFromCartEffect(items, index);
    var r := CartRemove(items, index);
    if 0 <= index < |items| {
      forall a, b | 0 <= a < b < |r| ensures Key(r[a]) != Key(r[b]) {
        var a' := if a < index then a else a + 1;
        var b' := if b < index then b else b + 1;
        assert r[a] == items[a'] && r[b] == items[b'];
      }
      forall k | 0 <= k < |r| ensures r[k].quantity >= 1 {
        assert r[k] == items[if k < index then k else k + 1];
      }
    }
  }

  lemma PositiveProduct(a: int, b: int)
    requires a > 0 && b > 0
    ensures a * b > 0
  {
  }

  lemma LineTotalChange(l: LineItem, q: int)
    ensures LineTotal(l.(quantity := q)) - LineTotal(l) == l.price * (q - l.quantity)
  {
    assert l.price * q - l.price * l.quantity == l.price * (q - l.quantity);
  }

  /**
   * `updateCartItemQuantity(index, quantity)`: an index in range sets that
   * line's quantity to max(1, quantity) and nothing else, and the subtotal
   * moves by the unit price times the change; any other index changes nothing.
   */
  lemma UpdateQuantityEffect(items: seq<LineItem>, index: int, quantity: int)
    ensures var r := CartSetQuantity(items, index, quantity);
      if 0 <= index < |items| then
        |r| == |items| &&
        r[index] == items[index].(quantity := if quantity >= 1 then quantity else 1) &&
        (forall k :: 0 <= k < |items| && k != index ==> r[k] == items[k]) &&
        Total(r) == Total(items) + items[index].price * (r[index].quantity - items[index].quantity)
      else r == items
  {
    if 0 <= index < |items| {
      var r := CartSetQuantity(items, index, quantity);
      TotalUpdate(items, index, r[index]);
      LineTotalChange(items[index], r[index].quantity);
    }
  }

  /** Updating a quantity keeps keys unique and quantities positive. */
  lemma UpdateQuantityWellFormed(items: seq<LineItem>, index: int, quantity: int)
    requires WellFormed(items)
    ensures WellFormed(CartSetQuantity(items, index, quantity))
  {
    var r := CartSetQuantity(items, index, quantity);
    if 0 <= index < |items| {
      assert forall k :: 0 <= k < |r| ==> Key(r[k]) == Key(items[k]);
    }
  }

  /**
   * A product at 20.00 added twice with quantity 1 gives one line of
   * quantity 2, a subtotal of 40.00 and the 10.00 fee; exactly 100.00
   * still pays the fee, 100.01 does not.
   */
  lemma TwoAddsExample(image: string)
    requires image != ""
    ensures var a := ItemInput(Some(1), Some("A"), Some(2000), Some(image), None, None, Some(1));
      var cart := CartAdd(CartAdd([], a), a);
      cart == [LineItem(1, "A", 2000, image, DefaultSize, DefaultColor, 2)] &&
      Total(cart) == 4000 && Shipping(Total(cart)) == 1000 && Total(cart) + Shipping(Total(cart)) == 5000
    ensures Shipping(10000) == 1000 && Shipping(10001) == 0
  {
    var a := ItemInput(Some(1), Some("A"), Some(2000), Some(image), None, None, Some(1));
    AddSameLineTwice([], a, a);
    var cart := CartAdd(CartAdd([], a), a);
    assert cart == [LineItem(1, "A", 2000, image, DefaultSize, DefaultColor, 2)];
    TotalSingle(cart[0]);
  }

  // ---------------------------------------------------------------------------
  // Persistence

  /**
   * A stored text. CartJson(items) is the text `JSON.stringify(items)`
   * produces, which `JSON.parse` turns back into exactly `items`; Text(s)
   * is any other text.
   */
  datatype Stored = CartJson(items: seq<LineItem>) | Text(s: string)

  const CartStorageKey: string := "elegance_cart"
  const CartExpiryKey: string := "elegance_cart_expiry"
  /** 24 hours in milliseconds. */
  const DayMs: int := 24 * 60 * 60 * 1000

  /** JavaScript truthiness of a stored string: only the empty text is falsy. */
  predicate StoredTruthy(v: Stored) {
    v.CartJson? || v.s != ""
  }

  /** `parseInt` of a stored text; a serialised list starts with '[' and reads as NaN. */
  function StoredNumber(v: Stored): Option<int> {
    match v
    case CartJson(_) => None
    case Text(s) => ParseInt(s)
  }

  function Lookup(storage: map<string, Stored>, key: string): Option<Stored> {
    if key in storage then Some(storage[key]) else None
  }

  /** The store after `saveCartToStorage()` at time `now`. */
  function SavedStorage(storage: map<string, Stored>, items: seq<LineItem>, now: int): map<string, Stored> {
    storage[CartStorageKey := CartJson(items)][CartExpiryKey := Text(IntToString(now + DayMs))]
  }

  /** The store after `clearCartStorage()`. */
  function ClearedStorage(storage: map<string, Stored>): map<string, Stored> {
    storage - {CartStorageKey, CartExpiryKey}
  }

  /**
   * `isExpired` of `loadCartFromStorage`: true when no truthy expiry is
   * stored; otherwise `now > parseInt(expiry)`, which is false for NaN.
   */
  predicate IsExpired(storage: map<string, Stored>, now: int) {
    var expiry := Lookup(storage, CartExpiryKey);
    if expiry.Some? && StoredTruthy(expiry.value) then
      match StoredNumber(expiry.value)
      case None => false
      case Some(t) => now > t
    else true
  }

  datatype Loaded = Loaded(items: seq<LineItem>, storage: map<string, Stored>)

  /** The list and store after `loadCartFromStorage()` at time `now`. */
  function LoadedCart(storage: map<string, Stored>, now: int): Loaded {
    var cartJson := Lookup(storage, CartStorageKey);
    if cartJson.Some? && StoredTruthy(cartJson.value) && !IsExpired(storage, now) then
      match cartJson.value
      case CartJson(items) => Loaded(items, storage)
      case Text(_) => Loaded([], storage)
    else Loaded([], ClearedStorage(storage))
  }

  /** What was saved is restored unchanged up to and including the expiry instant. */
  lemma LoadAfterSave(storage: map<string, Stored>, items: seq<LineItem>, savedAt: int, now: int)
    requires now <= savedAt + DayMs
    ensures LoadedCart(SavedStorage(storage, items, savedAt), now)
         == Loaded(items, SavedStorage(storage, items, savedAt))
  {
    var st := SavedStorage(storage, items, savedAt);
    ParseIntOfIntToString(savedAt + DayMs);
    assert st[CartExpiryKey] == Text(IntToString(savedAt + DayMs));
    assert st[CartStorageKey] == CartJson(items);
    assert !IsExpired(st, now);
  }

  /** After the expiry instant the saved cart is dropped and both keys are removed. */
  lemma LoadAfterExpiry(storage: map<string, Stored>, items: seq<LineItem>, savedAt: int, now: int)
    requires now > savedAt + DayMs
    ensures var st := SavedStorage(storage, items, savedAt);
      LoadedCart(st, now) == Loaded([], ClearedStorage(st)) &&
      CartStorageKey !in ClearedStorage(st) && CartExpiryKey !in ClearedStorage(st)
  {
    var st := SavedStorage(storage, items, savedAt);
    ParseIntOfIntToString(savedAt + DayMs);
    assert st[CartExpiryKey] == Text(IntToString(savedAt + DayMs));
    assert IsExpired(st, now);
  }

  /**
   * Load yields an empty cart whatever is stored, unless a saved list is
   * present and unexpired; a missing list, a missing expiry or an expired
   * one also removes both keys, while text that does not parse as a list
   * leaves the store as it is.
   */
  lemma LoadOutcomes(storage: map<string, Stored>, now: int)
    ensures var r := LoadedCart(storage, now);
      (r.items != [] ==> CartStorageKey in storage && storage[CartStorageKey] == CartJson(r.items)) &&
      (CartStorageKey !in storage || CartExpiryKey !in storage ==>
         r == Loaded([], ClearedStorage(storage))) &&
      (CartStorageKey in storage && storage[CartStorageKey].Text? && !IsExpired(storage, now) ==>
         r.items == [] && (r.storage == storage || r.storage == ClearedStorage(storage))) &&
      (CartStorageKey !in r.storage ==> CartExpiryKey !in r.storage)
  {
  }

  // ---------------------------------------------------------------------------
  // The cart object

  class Cart {
    /** `cartItems`. */
    var items: seq<LineItem>
    /** The browser's key-value store. */
    var storage: map<string, Stored>

    /** The page starts with `cartItems = []` over whatever the store holds. */
    constructor (initialStorage: map<string, Stored>)
      ensures items == [] && storage == initialStorage
    {
      items := [];
      storage := initialStorage;
    }

    /** `saveCartToStorage()`. */
    method SaveToStorage(now: int)
      modifies this`storage
      ensures storage == SavedStorage(old(storage), items, now)
    {
      storage := storage[CartStorageKey := CartJson(items)];
      storage := storage[CartExpiryKey := Text(IntToString(now + DayMs))];
    }

    /** `clearCartStorage()`. */
    method ClearStorage()
      modifies this`storage
      ensures storage == ClearedStorage(old(storage))
    {
      storage := storage - {CartStorageKey};
      storage := storage - {CartExpiryKey};
      assert storage == old(storage) - {CartStorageKey, CartExpiryKey};
    }

    /** `loadCartFromStorage()`. */
    method LoadFromStorage(now: int)
      modifies this
      ensures items == LoadedCart(old(storage), now).items
      ensures storage == LoadedCart(old(storage), now).storage
    {
      var cartJson := Lookup(storage, CartStorageKey);
      var isExpired := true;
      var expiry := Lookup(storage, CartExpiryKey);
      if expiry.Some? && StoredTruthy(expiry.value) {
        var t := StoredNumber(expiry.value);
        isExpired := t.Some? && now > t.value;
      }
      if cartJson.Some? && StoredTruthy(cartJson.value) && !isExpired {
        match cartJson.value
        case CartJson(saved) => items := saved;
        case Text(_) => items := [];
      } else {
        items := [];
        ClearStorage();
      }
    }

    /** `addToCart(item)`: validate, normalise, merge or append, then save. */
    method AddToCart(input: ItemInput, now: int)
      modifies this
      ensures items == CartAdd(old(items), input)
      ensures storage == if IsValidInput(input) then SavedStorage(old(storage), items, now) else old(storage)
      ensures WellFormed(old(items)) ==> WellFormed(items)
    {
      if !IsValidInput(input) {
        return;
      }
      var line := Normalize(input);
      var i := LineIndex(items, Key(line));
      if i != -1 {
        items := items[i := items[i].(quantity := items[i].quantity + line.quantity)];
      } else {
        items := items + [line];
      }
      if WellFormed(old(items)) {
        AddToCartWellFormed(old(items), input);
      }
      SaveToStorage(now);
    }

    /** `removeFromCart(index)`: out-of-range indices are ignored and nothing is saved. */
    method RemoveFromCart(index: int, now: int)
      modifies this
      ensures items == CartRemove(old(items), index)
      ensures storage == if 0 <= index < |old(items)| then SavedStorage(old(storage), items, now) else old(storage)
      ensures WellFormed(old(items)) ==> WellFormed(items)
    {
      if 0 <= index < |items| {
        items := items[..index] + items[index + 1..];
        if WellFormed(old(items)) {
          RemoveFromCartWellFormed(old(items), index);
        }
        SaveToStorage(now);
      }
    }

    /** `updateCartItemQuantity(index, quantity)`. */
    method UpdateCartItemQuantity(index: int, quantity: int, now: int)
      modifies this
      ensures items == CartSetQuantity(old(items), index, quantity)
      ensures storage == if 0 <= index < |old(items)| then SavedStorage(old(storage), items, now) else old(storage)
      ensures WellFormed(old(items)) ==> WellFormed(items)
    {
      if 0 <= index < |items| {
        items := items[index := items[index].(quantity := Max(1, quantity))];
        if WellFormed(old(items)) {
          UpdateQuantityWellFormed(old(items), index, quantity);
        }
        SaveToStorage(now);
      }
    }

    /** `clearCart()`: the list is emptied and both storage keys are removed. */
    method ClearCart()
      modifies this
      ensures items == [] && WellFormed(items)
      ensures storage == ClearedStorage(old(storage))
    {
      items := [];
      ClearStorage();
    }

    /**
     * `calculateCartTotal()`: the subtotal of the lines, 0 for an empty
     * cart and never negative when no price is.
     */
    function CalculateCartTotal(): (total: int)
      reads this
      ensures total == Total(items)
      ensures items == [] ==> total == 0
      ensures PositiveQuantities(items) && NonNegativePrices(items) ==> total >= 0
    {
      TotalNonNegative(items);
      Total(items)
    }

    /**
     * `calculateShipping()`: free exactly when the cart's subtotal is above
     * the threshold, the flat fee otherwise; the fee is hard-coded, not read
     * from the configuration.
     */
    function CalculateShipping(): (fee: int)
      reads this
      ensures fee == Shipping(CalculateCartTotal())
      ensures fee == 0 <==> CalculateCartTotal() > FreeShippingAbove
      ensures fee == 0 || fee == FlatShipping
    {
      Shipping(Total(items))
    }
  }
}
