/**
 * The catalog queries of js/products.js: lookup by id, the category filter,
 * the conjunctive multi-criteria filter and the five product orderings.
 * The catalog (`allProducts`) is passed in as a sequence.
 */
module Catalog {
  import opened Wrappers
  import opened Seqs

  /**
   * A product record of the static catalog. Money is in minor units of the
   * store currency. `discountPrice` is None when the record has none; the
   * storefront treats a discount price of 0 like an absent one.
   */
  datatype Product = Product(
    id: int,
    name: string,
    category: string,
    price: int,
    discountPrice: Option<int>,
    images: seq<string>,
    sizes: seq<string>,
    colors: seq<string>,
    featured: bool)

  /** The sentinel category that stands for "no category restriction". */
  const AllCategories: string := "all"

  // ---------------------------------------------------------------------------
  // Lookup and the category filter

  /** `allProducts.find(p => p.id === id)`. */
  function GetProductById(catalog: seq<Product>, id: int): (r: Option<Product>)
    ensures r.None? <==> forall i :: 0 <= i < |catalog| ==> catalog[i].id != id
    ensures r.Some? ==> (r.value.id == id &&
      exists k :: 0 <= k < |catalog| && catalog[k] == r.value &&
        forall j :: 0 <= j < k ==> catalog[j].id != id)
    decreases |catalog|
  {
    if catalog == [] then None
    else if catalog[0].id == id then Some(catalog[0])
    else
      var tail := catalog[1..];
      var r := GetProductById(tail, id);
      if r.None? then None
      else
        var k :| 0 <= k < |tail| && tail[k] == r.value && forall j :: 0 <= j < k ==> tail[j].id != id;
        assert catalog[k + 1] == r.value;
        assert forall j :: 1 <= j < k + 1 ==> catalog[j] == tail[j - 1];
        r
  }

  /** A category argument restricts the result unless it is absent, empty or "all". */
  predicate RestrictsCategory(category: Option<string>) {
    category.Some? && category.value != "" && category.value != AllCategories
  }

  /** `filterProductsByCategory(category)`. */
  function FilterProductsByCategory(catalog: seq<Product>, category: Option<string>): seq<Product> {
    if !RestrictsCategory(category) then catalog
    else Filter(catalog, (p: Product) => p.category == category.value)
  }

  lemma FilterProductsByCategorySpec(catalog: seq<Product>, category: Option<string>)
    ensures !RestrictsCategory(category) ==> FilterProductsByCategory(catalog, category) == catalog
    ensures IsSubsequence(FilterProductsByCategory(catalog, category), catalog)
    ensures RestrictsCategory(category) ==> forall p ::
      p in FilterProductsByCategory(catalog, category) <==> p in catalog && p.category == category.value
  {
    var r := FilterProductsByCategory(catalog, category);
    if RestrictsCategory(category) {
      var keep := (p: Product) => p.category == category.value;
      FilterIsSubsequence(catalog, keep);
      forall p ensures p in r <==> p in catalog && p.category == category.value {
        FilterMembership(catalog, keep, p);
      }
    } else {
      SubsequenceOfItself(catalog);
    }
  }

  lemma {:induction false} SubsequenceOfItself<T>(s: seq<T>)
    ensures IsSubsequence(s, s)
    decreases |s|
  {
    if s != [] {
      SubsequenceOfItself(s[1..]);
    }
  }

  // ---------------------------------------------------------------------------
  // The multi-criteria filter

  /**
   * The filter object built by the shop page. An empty list imposes no
   * constraint; `maxPrice` is None when it did not parse as a number.
   */
  datatype Criteria = Criteria(
    categories: seq<string>,
    sizes: seq<string>,
    colors: seq<string>,
    maxPrice: Option<int>)

  predicate CategoryActive(c: Criteria) {
    |c.categories| > 0 && AllCategories !in c.categories
  }

  predicate SizeActive(c: Criteria) {
    |c.sizes| > 0
  }

  predicate ColorActive(c: Criteria) {
    |c.colors| > 0
  }

  /** A price ceiling of 0 is falsy and is skipped, like a missing one. */
  predicate PriceActive(c: Criteria) {
    c.maxPrice.Some? && c.maxPrice.value != 0
  }

  predicate Overlaps(offered: seq<string>, wanted: seq<string>) {
    exists i :: 0 <= i < |offered| && offered[i] in wanted
  }

  predicate PassesCategory(c: Criteria, p: Product) {
    CategoryActive(c) ==> p.category in c.categories
  }

  predicate PassesSize(c: Criteria, p: Product) {
    SizeActive(c) ==> Overlaps(p.sizes, c.sizes)
  }

  predicate PassesColor(c: Criteria, p: Product) {
    ColorActive(c) ==> Overlaps(p.colors, c.colors)
  }

  predicate PassesPrice(c: Criteria, p: Product) {
    PriceActive(c) ==> p.price <= c.maxPrice.value
  }

  /** The test of `filterProducts`: any one failing constraint rejects the product. */
  predicate Matches(c: Criteria, p: Product) {
    if CategoryActive(c) && p.category !in c.categories then false
    else if SizeActive(c) && !Overlaps(p.sizes, c.sizes) then false
    else if ColorActive(c) && !Overlaps(p.colors, c.colors) then false
    else if PriceActive(c) && p.price > c.maxPrice.value then false
    else true
  }

  /** `filterProducts(filters)` over the catalog. */
  function FilterProducts(catalog: seq<Product>, c: Criteria): seq<Product> {
    Filter(catalog, (p: Product) => Matches(c, p))
  }

  /**
   * The filter keeps catalog order, keeps every product that meets all four
   * constraints as often as it occurs in the catalog, and drops all others.
   */
  lemma FilterProductsSpec(catalog: seq<Product>, c: Criteria)
    ensures IsSubsequence(FilterProducts(catalog, c), catalog)
    ensures forall p :: (multiset(FilterProducts(catalog, c))[p] ==
      if PassesCategory(c, p) && PassesSize(c, p) && PassesColor(c, p) && PassesPrice(c, p)
      then multiset(catalog)[p] else 0)
    ensures forall p :: p in FilterProducts(catalog, c) <==>
      p in catalog && PassesCategory(c, p) && PassesSize(c, p) && PassesColor(c, p) && PassesPrice(c, p)
  {
    var keep := (p: Product) => Matches(c, p);
    FilterIsSubsequence(catalog, keep);
    FilterCounts(catalog, keep);
    forall p ensures p in FilterProducts(catalog, c) <==> p in catalog && keep(p) {
      FilterMembership(catalog, keep, p);
    }
  }

  /** No active criterion: the criteria that the shop builds from a fresh form. */
  predicate NoCriteria(c: Criteria) {
    !CategoryActive(c) && !SizeActive(c) && !ColorActive(c) && !PriceActive(c)
  }

  /** With no active criterion the whole catalog comes back, in its order. */
  lemma FilterProductsNoCriteria(catalog: seq<Product>, c: Criteria)
    requires NoCriteria(c)
    ensures FilterProducts(catalog, c) == catalog
  {
    FilterAllPass(catalog, (p: Product) => Matches(c, p));
  }

  // ---------------------------------------------------------------------------
  // Sorting

  datatype SortKey = PriceLow | PriceHigh | NameAsc | NameDesc | Featured

  /** The `switch (sortBy)` of `sortProducts`: 'featured' and every unknown key give Featured. */
  function ParseSortKey(sortBy: string): (k: SortKey)
    ensures k == PriceLow <==> sortBy == "price-low"
    ensures k == PriceHigh <==> sortBy == "price-high"
    ensures k == NameAsc <==> sortBy == "name-asc"
    ensures k == NameDesc <==> sortBy == "name-desc"
  {
    if sortBy == "price-low" then PriceLow
    else if sortBy == "price-high" then PriceHigh
    else if sortBy == "name-asc" then NameAsc
    else if sortBy == "name-desc" then NameDesc
    else Featured
  }

  /** Lexicographic order on names, standing for `localeCompare(...) <= 0`. */
  predicate LexLe(a: string, b: string)
    decreases |a|
  {
    a == [] || (b != [] && (a[0] < b[0] || (a[0] == b[0] && LexLe(a[1..], b[1..]))))
  }

  /** `a` may stay before `b`: the comparator of `sortProducts` for `key` gives `<= 0`. */
  predicate InOrder(key: SortKey, a: Product, b: Product) {
    match key
    case PriceLow => a.price - b.price <= 0
    case PriceHigh => b.price - a.price <= 0
    case NameAsc => LexLe(a.name, b.name)
    case NameDesc => LexLe(b.name, a.name)
    case Featured =>
      if a.featured && !b.featured then true
      else if !a.featured && b.featured then false
      else a.id - b.id <= 0
  }

  lemma {:induction false} LexLeTotal(a: string, b: string)
    ensures LexLe(a, b) || LexLe(b, a)
    decreases |a|
  {
    if a != [] && b != [] && a[0] == b[0] {
      LexLeTotal(a[1..], b[1..]);
    }
  }

  lemma {:induction false} LexLeTransitive(a: string, b: string, c: string)
    requires LexLe(a, b) && LexLe(b, c)
    ensures LexLe(a, c)
    decreases |a|
  {
    if a != [] && a[0] == b[0] && b[0] == c[0] {
      LexLeTransitive(a[1..], b[1..], c[1..]);
    }
  }

  lemma InOrderTotal(key: SortKey, a: Product, b: Product)
    ensures InOrder(key, a, b) || InOrder(key, b, a)
  {
    if key == NameAsc || key == NameDesc {
      LexLeTotal(a.name, b.name);
    }
  }

  lemma InOrderTransitive(key: SortKey, a: Product, b: Product, c: Product)
    requires InOrder(key, a, b) && InOrder(key, b, c)
    ensures InOrder(key, a, c)
  {
    match key
    case NameAsc => LexLeTransitive(a.name, b.name, c.name);
    case NameDesc => LexLeTransitive(c.name, b.name, a.name);
    case _ =>
  }

  predicate SortedBy(key: SortKey, s: seq<Product>) {
    forall i, j :: 0 <= i < j < |s| ==> InOrder(key, s[i], s[j])
  }

  /** Places `x` before the first element it may precede; `x` goes first among equals. */
  function Insert(key: SortKey, x: Product, r: seq<Product>): (out: seq<Product>)
    ensures |out| == |r| + 1
    ensures multiset(out) == multiset(r) + multiset{x}
    decreases |r|
  {
    if r == [] then [x]
    else if InOrder(key, x, r[0]) then [x] + r
    else
      assert r == [r[0]] + r[1..];
      [r[0]] + Insert(key, x, r[1..])
  }

  /** A stable insertion sort by the comparator of `key`. */
  function Sort(key: SortKey, s: seq<Product>): (r: seq<Product>)
    decreases |s|
  {
    if s == [] then [] else Insert(key, s[0], Sort(key, s[1..]))
  }

  /** `sortProducts(products, sortBy)`: a new sequence; the argument is a value and is untouched. */
  function SortProducts(products: seq<Product>, sortBy: string): seq<Product> {
    Sort(ParseSortKey(sortBy), products)
  }

  /** `a` may stay before every element of `s`. */
  predicate Precedes(key: SortKey, a: Product, s: seq<Product>) {
    forall k :: 0 <= k < |s| ==> InOrder(key, a, s[k])
  }

  lemma SortedCons(key: SortKey, h: Product, t: seq<Product>)
    requires Precedes(key, h, t) && SortedBy(key, t)
    ensures SortedBy(key, [h] + t)
  {
    var s := [h] + t;
    forall i, j | 0 <= i < j < |s| ensures InOrder(key, s[i], s[j]) {
      if i > 0 {
        assert s[i] == t[i - 1] && s[j] == t[j - 1];
      }
    }
  }

  lemma {:induction false} InsertPrecedes(key: SortKey, a: Product, x: Product, r: seq<Product>)
    requires Precedes(key, a, r) && InOrder(key, a, x)
    ensures Precedes(key, a, Insert(key, x, r))
    decreases |r|
  {
    if r != [] && !InOrder(key, x, r[0]) {
      InsertPrecedes(key, a, x, r[1..]);
    }
  }

  lemma {:induction false} InsertSorted(key: SortKey, x: Product, r: seq<Product>)
    requires SortedBy(key, r)
    ensures SortedBy(key, Insert(key, x, r))
    decreases |r|
  {
    if r == [] {
    } else if InOrder(key, x, r[0]) {
      forall k | 0 <= k < |r| ensures InOrder(key, x, r[k]) {
        if k > 0 {
          InOrderTransitive(key, x, r[0], r[k]);
        }
      }
      SortedCons(key, x, r);
    } else {
      InOrderTotal(key, x, r[0]);
      assert SortedBy(key, r[1..]);
      InsertSorted(key, x, r[1..]);
      assert Precedes(key, r[0], r[1..]);
      InsertPrecedes(key, r[0], x, r[1..]);
      SortedCons(key, r[0], Insert(key, x, r[1..]));
    }
  }

  /** Sorting is a permutation of its input. */
  lemma {:induction false} SortPermutation(key: SortKey, s: seq<Product>)
    ensures |Sort(key, s)| == |s|
    ensures multiset(Sort(key, s)) == multiset(s)
    decreases |s|
  {
    if s != [] {
      SortPermutation(key, s[1..]);
      assert s == [s[0]] + s[1..];
    }
  }

  /** Sorting puts every pair of products in the comparator's order. */
  lemma {:induction false} SortSorted(key: SortKey, s: seq<Product>)
    ensures SortedBy(key, Sort(key, s))
    decreases |s|
  {
    if s != [] {
      SortSorted(key, s[1..]);
      InsertSorted(key, s[0], Sort(key, s[1..]));
    }
  }

  /** The comparator of `key` puts `a` and `b` either way round: it returns 0 for them. */
  predicate SameKey(key: SortKey, a: Product, b: Product) {
    InOrder(key, a, b) && InOrder(key, b, a)
  }

  /** The test "the comparator of `key` treats this product like `x`". */
  function SameKeyAs(key: SortKey, x: Product): Product -> bool {
    (p: Product) => SameKey(key, p, x)
  }

  /**
   * Inserting `y` places it ahead of every product the comparator treats
   * like it, so among those products `y` comes first.
   */
  lemma {:induction false} InsertKeepsTies(key: SortKey, y: Product, r: seq<Product>, x: Product)
    ensures Filter(Insert(key, y, r), SameKeyAs(key, x)) ==
      (if SameKey(key, y, x) then [y] else []) + Filter(r, SameKeyAs(key, x))
    decreases |r|
  {
    var tie := SameKeyAs(key, x);
    if r == [] {
    } else if InOrder(key, y, r[0]) {
      assert ([y] + r)[1..] == r;
    } else {
      var rest := Insert(key, y, r[1..]);
      assert ([r[0]] + rest)[1..] == rest;
      InsertKeepsTies(key, y, r[1..], x);
      if SameKey(key, y, x) && SameKey(key, r[0], x) {
        InOrderTransitive(key, y, x, r[0]);
      }
    }
  }

  /**
   * The sort is stable: the products the comparator of `key` treats like
   * any given `x` (a tie, returning 0) appear in the result in the order
   * they had in the input.
   */
  lemma {:induction false} SortStable(key: SortKey, s: seq<Product>, x: Product)
    ensures Filter(Sort(key, s), SameKeyAs(key, x)) == Filter(s, SameKeyAs(key, x))
    decreases |s|
  {
    if s != [] {
      SortStable(key, s[1..], x);
      InsertKeepsTies(key, s[0], Sort(key, s[1..]), x);
    }
  }

  /** 'price-low' gives non-decreasing prices, 'price-high' non-increasing ones, both permutations. */
  lemma SortByPrice(s: seq<Product>)
    ensures multiset(SortProducts(s, "price-low")) == multiset(s)
    ensures multiset(SortProducts(s, "price-high")) == multiset(s)
    ensures var r := SortProducts(s, "price-low");
      forall i, j :: 0 <= i < j < |r| ==> r[i].price <= r[j].price
    ensures var r := SortProducts(s, "price-high");
      forall i, j :: 0 <= i < j < |r| ==> r[i].price >= r[j].price
  {
    SortPermutation(PriceLow, s);
    SortPermutation(PriceHigh, s);
    SortSorted(PriceLow, s);
    SortSorted(PriceHigh, s);
  }

  /** 'name-asc' and 'name-desc' order names lexicographically up and down. */
  lemma SortByName(s: seq<Product>)
    ensures multiset(SortProducts(s, "name-asc")) == multiset(s)
    ensures multiset(SortProducts(s, "name-desc")) == multiset(s)
    ensures var r := SortProducts(s, "name-asc");
      forall i, j :: 0 <= i < j < |r| ==> LexLe(r[i].name, r[j].name)
    ensures var r := SortProducts(s, "name-desc");
      forall i, j :: 0 <= i < j < |r| ==> LexLe(r[j].name, r[i].name)
  {
    SortPermutation(NameAsc, s);
    SortPermutation(NameDesc, s);
    SortSorted(NameAsc, s);
    SortSorted(NameDesc, s);
  }

  /**
   * The default order (for 'featured' and any key not listed): every
   * featured product before every other one, and ascending ids among
   * products of the same kind.
   */
  lemma SortFeatured(s: seq<Product>, sortBy: string)
    requires ParseSortKey(sortBy) == Featured
    ensures multiset(SortProducts(s, sortBy)) == multiset(s)
    ensures var r := SortProducts(s, sortBy);
      forall i, j :: 0 <= i < j < |r| ==>
        (r[j].featured ==> r[i].featured) &&
        (r[i].featured == r[j].featured ==> r[i].id <= r[j].id)
  {
    SortPermutation(Featured, s);
    SortSorted(Featured, s);
  }

  /** No two different products of `s` share a price. */
  predicate DistinctPrices(s: seq<Product>) {
    forall p, q :: p in s && q in s && p.price == q.price ==> p == q
  }

  predicate PriceDescending(s: seq<Product>) {
    forall i, j :: 0 <= i < j < |s| ==> s[i].price >= s[j].price
  }

  lemma DistinctPricesTail(u: seq<Product>)
    requires u != [] && DistinctPrices(u)
    ensures DistinctPrices(u[1..])
  {
    forall p, q | p in u[1..] && q in u[1..] && p.price == q.price ensures p == q {
      assert p in u && q in u;
    }
  }

  lemma SameHeadAndTail(u: seq<Product>, v: seq<Product>)
    requires u != [] && v != [] && u[0] == v[0] && u[1..] == v[1..]
    ensures u == v
  {
    assert u == [u[0]] + u[1..] && v == [v[0]] + v[1..];
  }

  lemma PriceDescendingTail(u: seq<Product>)
    requires u != [] && PriceDescending(u)
    ensures PriceDescending(u[1..])
  {
    forall i, j | 0 <= i < j < |u| - 1 ensures u[1..][i].price >= u[1..][j].price {
      assert u[1..][i] == u[i + 1] && u[1..][j] == u[j + 1];
    }
  }

  lemma PriceDescendingHeads(u: seq<Product>, v: seq<Product>)
    requires u != [] && multiset(u) == multiset(v)
    requires DistinctPrices(u)
    requires PriceDescending(u) && PriceDescending(v)
    ensures v != [] && u[0] == v[0]
  {
    assert u[0] in multiset(v);
    assert v[0] in multiset(u);
    var k :| 0 <= k < |v| && v[k] == u[0];
    var m :| 0 <= m < |u| && u[m] == v[0];
    assert u[0].price >= v[0].price by {
      if m > 0 { assert u[0].price >= u[m].price; }
    }
    assert v[0].price >= u[0].price by {
      if k > 0 { assert v[0].price >= v[k].price; }
    }
  }

  /**
   * Two arrangements of the same products, both in non-increasing price
   * order, are the same sequence when no two products share a price.
   */
  lemma {:induction false} PriceDescendingUnique(u: seq<Product>, v: seq<Product>)
    requires multiset(u) == multiset(v)
    requires DistinctPrices(u)
    requires PriceDescending(u) && PriceDescending(v)
    ensures u == v
    decreases |u|
  {
    if u == [] {
      assert |v| == |multiset(v)| == 0;
    } else {
      PriceDescendingHeads(u, v);
      MultisetOfTails(u, v);
      DistinctPricesTail(u);
      PriceDescendingTail(u);
      PriceDescendingTail(v);
      PriceDescendingUnique(u[1..], v[1..]);
      SameHeadAndTail(u, v);
    }
  }

  /** For distinct prices, 'price-high' is exactly the reverse of 'price-low'. */
  lemma PriceOrdersAreReverses(s: seq<Product>)
    requires DistinctPrices(s)
    ensures SortProducts(s, "price-high") == Reverse(SortProducts(s, "price-low"))
  {
    var low := SortProducts(s, "price-low");
    var high := SortProducts(s, "price-high");
    var rev := Reverse(low);
    SortByPrice(s);
    ReverseMultiset(low);
    forall i, j | 0 <= i < j < |rev| ensures rev[i].price >= rev[j].price {
      ReverseAt(low, i);
      ReverseAt(low, j);
    }
    assert PriceDescending(rev);
    forall p, q | p in high && q in high && p.price == q.price ensures p == q {
      assert p in multiset(s) && q in multiset(s);
    }
    PriceDescendingUnique(high, rev);
  }

  /**
   * A featured product A (id 1, price 20.00) and a plain product B (id 2,
   * price 50.00): the default order is [A, B], 'price-high' gives [B, A].
   */
  lemma SortExample(a: Product, b: Product)
    requires a.id == 1 && a.price == 2000 && a.featured
    requires b.id == 2 && b.price == 5000 && !b.featured
    ensures SortProducts([a, b], "default") == [a, b]
    ensures SortProducts([a, b], "price-high") == [b, a]
    ensures SortProducts([b, a], "featured") == [a, b]
  {
    assert ParseSortKey("default") == Featured && ParseSortKey("featured") == Featured;
    assert [a, b][1..] == [b] && [b, a][1..] == [a] && [a][1..] == [] && [b][1..] == [];
    assert Sort(Featured, []) == [] && Sort(PriceHigh, []) == [];
    assert Sort(Featured, [b]) == Insert(Featured, b, []) == [b];
    assert Sort(PriceHigh, [b]) == Insert(PriceHigh, b, []) == [b];
    assert Sort(Featured, [a]) == Insert(Featured, a, []) == [a];
    assert InOrder(Featured, a, b) && !InOrder(PriceHigh, a, b) && !InOrder(Featured, b, a);
    assert Insert(PriceHigh, a, [b]) == [b] + Insert(PriceHigh, a, []);
    assert Insert(Featured, b, [a]) == [a] + Insert(Featured, b, []);
  }
}
