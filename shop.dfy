/**
 * The shop page of js/shop.js: the list currently shown (`currentProducts`)
 * and the page of it on screen (`currentPage`), changed by applying the
 * filter form, changing the sort order, clicking a pagination link and
 * resetting the filters; plus the pagination bar and the page slice.
 *
 * Form controls are parameters: the checked category, size and colour
 * boxes as lists of their values, the price slider as what `parseInt`
 * makes of its value (whole currency units), the sort dropdown's value.
 */
module Shop {
  import opened Wrappers
  import opened Seqs
  import opened Catalog
  import CartStore

  /** `productsPerPage`. */
  const PerPage: int := 9

  function Min(a: int, b: int): int {
    if a <= b then a else b
  }

  /** `Math.ceil(count / productsPerPage)`: the fewest pages of nine that hold `count` products. */
  function TotalPages(count: nat): (t: nat)
    ensures t * PerPage >= count
    ensures t == 0 || (t - 1) * PerPage < count
  {
    (count + PerPage - 1) / PerPage
  }

  /** `currentProducts.slice((page - 1) * 9, (page - 1) * 9 + 9)`. */
  function PageSlice<T>(s: seq<T>, page: int): seq<T>
    requires page >= 1
  {
    var start := (page - 1) * PerPage;
    s[Min(start, |s|)..Min(start + PerPage, |s|)]
  }

  /**
   * A page holds nine products, except the last, which holds the rest;
   * the pages past the last are empty.
   */
  lemma PageSliceSize<T>(s: seq<T>, page: int)
    requires page >= 1
    ensures var t := TotalPages(|s|);
      var r := PageSlice(s, page);
      var start := (page - 1) * PerPage;
      |r| <= PerPage &&
      (start <= |s| ==> r == s[start..start + |r|]) &&
      (page < t ==> |r| == PerPage) &&
      (page == t ==> |r| == |s| - (t - 1) * PerPage && |r| >= 1) &&
      (page > t ==> r == [])
  {
  }

  /** Pages 1 to `k`, one after the other. */
  function PagesUpTo<T>(s: seq<T>, k: nat): seq<T>
    decreases k
  {
    if k == 0 then [] else PagesUpTo(s, k - 1) + PageSlice(s, k)
  }

  lemma {:induction false} PagesUpToPrefix<T>(s: seq<T>, k: nat)
    ensures PagesUpTo(s, k) == s[..Min(k * PerPage, |s|)]
    decreases k
  {
    if k > 0 {
      PagesUpToPrefix(s, k - 1);
      var a := Min((k - 1) * PerPage, |s|);
      var b := Min(k * PerPage, |s|);
      assert s[..a] + s[a..b] == s[..b];
    }
  }

  /** The pages, read in order, show every product exactly once and in order. */
  lemma PagesCoverAll<T>(s: seq<T>)
    ensures PagesUpTo(s, TotalPages(|s|)) == s
  {
    PagesUpToPrefix(s, TotalPages(|s|));
    assert s[..|s|] == s;
  }

  // ---------------------------------------------------------------------------
  // The pagination bar

  /** The run of numbered links: `startPage` to `endPage`. */
  datatype Window = Window(first: int, last: int)

  /** The window of at most five pages around the current one, shifted left at the end. */
  function PageWindow(current: int, total: int): Window {
    var start := CartStore.Max(1, current - 5 / 2);
    var end := Min(total, start + 5 - 1);
    if end == total then Window(CartStore.Max(1, end - 5 + 1), end) else Window(start, end)
  }

  /**
   * For a current page in range the window lies within the pages, holds
   * the current page, and is five pages wide (all pages when fewer).
   */
  lemma PageWindowSpec(current: int, total: int)
    requires 1 <= current <= total
    ensures var w := PageWindow(current, total);
      1 <= w.first <= current <= w.last <= total &&
      w.last - w.first + 1 == Min(5, total)
  {
  }

  /**
   * One `<li>` of the bar. Prev and Next carry their `data-page` and
   * whether they are disabled; a numbered link carries its number and
   * whether it is marked active; an ellipsis has no link.
   */
  datatype PageEntry =
    | Prev(disabled: bool, target: int)
    | Page(number: int, active: bool)
    | Ellipsis
    | Next(disabled: bool, target: int)

  /** Numbered links `first`..`last`, the current one active. */
  function PageRun(first: int, last: int, current: int): (r: seq<PageEntry>)
    requires first <= last + 1
    ensures |r| == last - first + 1
    decreases last - first
  {
    if first > last then [] else PageRun(first, last - 1, current) + [Page(last, last == current)]
  }

  /** The k-th link of the run is page `first + k`, active exactly when it is the current page. */
  lemma {:induction false} PageRunAt(first: int, last: int, current: int, k: int)
    requires first <= last + 1 && 0 <= k < last - first + 1
    ensures PageRun(first, last, current)[k] == Page(first + k, first + k == current)
    decreases last - first
  {
    if k < last - first {
      PageRunAt(first, last - 1, current, k);
    }
  }

  /** Before the window: a link to page 1 when it is not in the window, then "..." when page 2 is not either. */
  function BarHead(first: int): seq<PageEntry> {
    if first > 1 then [Page(1, false)] + (if first > 2 then [Ellipsis] else []) else []
  }

  /** After the window: "..." when the page before the last is not in it, then a link to the last page. */
  function BarTail(last: int, total: int): seq<PageEntry> {
    if last < total then (if last < total - 1 then [Ellipsis] else []) + [Page(total, false)] else []
  }

  /**
   * A link to page 1 precedes the window exactly when the window starts
   * after page 1, with an ellipsis between exactly when it starts after
   * page 2; symmetrically at the end for the last page.
   */
  lemma BarEnds(first: int, last: int, total: int)
    ensures var h := BarHead(first);
      (Page(1, false) in h <==> first > 1) && (Ellipsis in h <==> first > 2) &&
      (forall e :: e in h ==> e == Page(1, false) || e == Ellipsis)
    ensures var t := BarTail(last, total);
      (Page(total, false) in t <==> last < total) && (Ellipsis in t <==> last < total - 1) &&
      (forall e :: e in t ==> e == Page(total, false) || e == Ellipsis)
  {
  }

  /** The entries `generatePagination(total)` renders for page `current`. */
  function PaginationSpec(current: int, total: int): seq<PageEntry> {
    if total <= 1 then []
    else
      var w := PageWindow(current, total);
      [Prev(current == 1, current - 1)] + BarHead(w.first) + PageRun(w.first, w.last, current)
        + BarTail(w.last, total) + [Next(current == total, current + 1)]
  }

  /** The bar is Prev, the head, the window's links, the tail and Next, in that order. */
  lemma BarAssembly(current: int, total: int, first: int, last: int)
    requires total > 1 && Window(first, last) == PageWindow(current, total)
    ensures first <= last + 1
    ensures PaginationSpec(current, total) ==
      [Prev(current == 1, current - 1)] + BarHead(first) + PageRun(first, last, current)
        + BarTail(last, total) + [Next(current == total, current + 1)]
  {
  }

  /** The first and last page of the window, computed as `generatePagination` does. */
  method VisiblePages(current: int, total: int) returns (startPage: int, endPage: int)
    ensures Window(startPage, endPage) == PageWindow(current, total)
  {
    var maxVisible := 5;
    startPage := CartStore.Max(1, current - maxVisible / 2);
    endPage := Min(total, startPage + maxVisible - 1);
    if endPage == total {
      startPage := CartStore.Max(1, endPage - maxVisible + 1);
    }
  }

  /** The loop of `generatePagination` that appends a link for each page of the window. */
  method AppendPageLinks(entries: seq<PageEntry>, startPage: int, endPage: int, current: int)
    returns (r: seq<PageEntry>)
    requires startPage <= endPage + 1
    ensures r == entries + PageRun(startPage, endPage, current)
  {
    r := entries;
    var i := startPage;
    while i <= endPage
      invariant startPage <= i <= endPage + 1
      invariant r == entries + PageRun(startPage, i - 1, current)
    {
      assert PageRun(startPage, i, current) == PageRun(startPage, i - 1, current) + [Page(i, i == current)];
      r := r + [Page(i, i == current)];
      i := i + 1;
    }
  }

  /** `generatePagination(totalPages)`, building the bar entry by entry. */
  method GeneratePagination(current: int, total: int) returns (entries: seq<PageEntry>)
    ensures entries == PaginationSpec(current, total)
  {
    entries := [];
    if total <= 1 {
      return;
    }
    entries := entries + [Prev(current == 1, current - 1)];
    var startPage, endPage := VisiblePages(current, total);
    BarAssembly(current, total, startPage, endPage);
    entries := entries + BarHead(startPage);
    entries := AppendPageLinks(entries, startPage, endPage, current);
    entries := entries + BarTail(endPage, total);
    entries := entries + [Next(current == total, current + 1)];
  }

  /** What `parseInt(link.getAttribute('data-page'))` reads from an entry; an ellipsis has no link. */
  function Target(e: PageEntry): Option<int> {
    match e
    case Prev(_, t) => Some(t)
    case Page(n, _) => Some(n)
    case Ellipsis => None
    case Next(_, t) => Some(t)
  }

  /** The page after a click: the target, if it is a different page within 1..total. */
  function AfterClick(current: int, total: int, page: Option<int>): (r: int)
    ensures r == current || (page.Some? && r == page.value && 1 <= r <= total)
  {
    if page.Some? && page.value != current && 1 <= page.value <= total then page.value else current
  }

  /**
   * An entry between Prev and Next: an ellipsis, or a link to a real page
   * that is marked active exactly when it is the current page.
   */
  predicate InnerEntry(e: PageEntry, current: int, total: int) {
    e == Ellipsis || (e.Page? && 1 <= e.number <= total && (e.active <==> e.number == current))
  }

  lemma InnerEntries(current: int, total: int)
    requires 1 <= current <= total && total > 1
    ensures var bar := PaginationSpec(current, total);
      |bar| >= 2 && forall k :: 0 < k < |bar| - 1 ==> InnerEntry(bar[k], current, total)
  {
    var bar := PaginationSpec(current, total);
    var w := PageWindow(current, total);
    PageWindowSpec(current, total);
    var head, run, tail := BarHead(w.first), PageRun(w.first, w.last, current), BarTail(w.last, total);
    var inner := head + run + tail;
    assert bar == [bar[0]] + inner + [bar[|bar| - 1]];
    assert forall k :: 0 <= k < |head| ==> InnerEntry(head[k], current, total);
    assert forall k :: 0 <= k < |tail| ==> InnerEntry(tail[k], current, total);
    forall k | 0 <= k < |inner| ensures InnerEntry(inner[k], current, total) {
      if k < |head| {
        assert inner[k] == head[k];
      } else if k < |head| + |run| {
        assert inner[k] == run[k - |head|];
        PageRunAt(w.first, w.last, current, k - |head|);
      } else {
        assert inner[k] == tail[k - |head| - |run|];
      }
    }
    forall k | 0 < k < |bar| - 1 ensures InnerEntry(bar[k], current, total) {
      assert bar[k] == inner[k - 1];
    }
  }

  /**
   * The bar for a current page in range: nothing for one page; otherwise it
   * opens with Prev and closes with Next, each disabled exactly at its end,
   * and in between holds ellipses and links to real pages, among them
   * pages 1 and `total`, of which the current page alone is marked active.
   */
  lemma PaginationShape(current: int, total: int)
    requires 1 <= current <= total
    ensures var bar := PaginationSpec(current, total);
      (total == 1 <==> bar == []) &&
      (total > 1 ==>
        bar[0] == Prev(current == 1, current - 1) &&
        bar[|bar| - 1] == Next(current == total, current + 1) &&
        (forall k :: 0 < k < |bar| - 1 ==> InnerEntry(bar[k], current, total)) &&
        Page(current, true) in bar &&
        (exists e :: e in bar && e.Page? && e.number == 1) &&
        (exists e :: e in bar && e.Page? && e.number == total))
  {
    if total > 1 {
      var bar := PaginationSpec(current, total);
      var w := PageWindow(current, total);
      PageWindowSpec(current, total);
      InnerEntries(current, total);
      var head, run, tail := BarHead(w.first), PageRun(w.first, w.last, current), BarTail(w.last, total);
      assert bar == [bar[0]] + head + run + tail + [bar[|bar| - 1]];
      PageRunAt(w.first, w.last, current, current - w.first);
      assert Page(current, true) in run;
      if w.first == 1 {
        PageRunAt(w.first, w.last, current, 0);
        assert run[0] in run;
      } else {
        assert head[0] == Page(1, false);
      }
      if w.last == total {
        PageRunAt(w.first, w.last, current, |run| - 1);
        assert run[|run| - 1] in run;
      } else {
        assert tail[|tail| - 1] == Page(total, false);
      }
    }
  }

  /**
   * Clicking any link of the bar keeps the page within range: Prev goes
   * back one page unless on page 1, Next forward one unless on the last,
   * a numbered link to its page.
   */
  lemma PaginationClicks(current: int, total: int)
    requires 1 <= current <= total
    ensures forall k :: 0 <= k < |PaginationSpec(current, total)| ==>
      var e := PaginationSpec(current, total)[k];
      var n := AfterClick(current, total, Target(e));
      1 <= n <= total &&
      (e.Prev? ==> n == if current == 1 then current else current - 1) &&
      (e.Next? ==> n == if current == total then current else current + 1) &&
      (e.Page? ==> n == e.number)
  {
    PaginationShape(current, total);
  }

  // ---------------------------------------------------------------------------
  // The filter form

  /**
   * The criteria `applyFilters` builds: the checked categories other than
   * 'all' (or ['all'] when none), the checked sizes and colours, and the
   * slider's value converted to minor units.
   */
  function FormCriteria(checkedCategories: seq<string>, sizes: seq<string>, colors: seq<string>, slider: Option<int>): Criteria {
    var selected := Filter(checkedCategories, (c: string) => c != AllCategories);
    Criteria(
      if |selected| > 0 then selected else [AllCategories],
      sizes,
      colors,
      match slider
      case None => None
      case Some(v) => Some(v * CartStore.MinorUnits))
  }

  /**
   * The form restricts the category exactly when a category other than
   * 'all' is checked, and then to the checked ones; the price ceiling
   * applies exactly when the slider reads a non-zero number.
   */
  lemma FormCriteriaSpec(checkedCategories: seq<string>, sizes: seq<string>, colors: seq<string>, slider: Option<int>)
    ensures var c := FormCriteria(checkedCategories, sizes, colors, slider);
      (CategoryActive(c) <==> exists x :: x in checkedCategories && x != AllCategories) &&
      (forall p: Product :: CategoryActive(c) ==>
         (PassesCategory(c, p) <==> p.category in checkedCategories && p.category != AllCategories)) &&
      (PriceActive(c) <==> slider.Some? && slider.value != 0) &&
      (forall p: Product :: PriceActive(c) ==> (PassesPrice(c, p) <==> p.price <= slider.value * CartStore.MinorUnits))
  {
    var keep := (x: string) => x != AllCategories;
    var selected := Filter(checkedCategories, keep);
    forall x ensures x in selected <==> x in checkedCategories && x != AllCategories {
      FilterMembership(checkedCategories, keep, x);
    }
    if |selected| > 0 {
      assert selected[0] in selected;
    }
  }

  /** The list `applyFilters` shows: the catalog filtered by the form, then sorted. */
  function FilteredView(catalog: seq<Product>, checkedCategories: seq<string>, sizes: seq<string>, colors: seq<string>,
                        slider: Option<int>, sortBy: string): seq<Product> {
    SortProducts(FilterProducts(catalog, FormCriteria(checkedCategories, sizes, colors, slider)), sortBy)
  }

  /**
   * The shown list holds each catalog product that passes every criterion
   * of the form, as often as in the catalog, and nothing else.
   */
  lemma FilteredViewContents(catalog: seq<Product>, checkedCategories: seq<string>, sizes: seq<string>,
                             colors: seq<string>, slider: Option<int>, sortBy: string)
    ensures var c := FormCriteria(checkedCategories, sizes, colors, slider);
      multiset(FilteredView(catalog, checkedCategories, sizes, colors, slider, sortBy))
        == multiset(FilterProducts(catalog, c)) &&
      forall p :: p in FilteredView(catalog, checkedCategories, sizes, colors, slider, sortBy) <==>
        p in catalog && PassesCategory(c, p) && PassesSize(c, p) && PassesColor(c, p) && PassesPrice(c, p)
  {
    var c := FormCriteria(checkedCategories, sizes, colors, slider);
    var filtered := FilterProducts(catalog, c);
    SortPermutation(ParseSortKey(sortBy), filtered);
    FilterProductsSpec(catalog, c);
    forall p ensures p in FilteredView(catalog, checkedCategories, sizes, colors, slider, sortBy) <==> p in filtered {
      assert p in FilteredView(catalog, checkedCategories, sizes, colors, slider, sortBy) <==>
        multiset(FilteredView(catalog, checkedCategories, sizes, colors, slider, sortBy))[p] > 0;
      assert p in filtered <==> multiset(filtered)[p] > 0;
    }
  }

  /**
   * After a reset (only 'all' checked, no size, no colour, the slider at
   * its maximum) the whole catalog is shown, reordered only, whenever that
   * maximum covers every catalog price or imposes no ceiling.
   */
  lemma ResetShowsWholeCatalog(catalog: seq<Product>, slider: Option<int>, sortBy: string)
    requires slider.None? || slider.value == 0 ||
      forall p :: p in catalog ==> p.price <= slider.value * CartStore.MinorUnits
    ensures multiset(FilteredView(catalog, [AllCategories], [], [], slider, sortBy)) == multiset(catalog)
    ensures |FilteredView(catalog, [AllCategories], [], [], slider, sortBy)| == |catalog|
  {
    var c := FormCriteria([AllCategories], [], [], slider);
    assert Filter([AllCategories], (x: string) => x != AllCategories) == [];
    if slider.None? || slider.value == 0 {
      FilterProductsNoCriteria(catalog, c);
    } else {
      forall i | 0 <= i < |catalog| ensures Matches(c, catalog[i]) {
        assert catalog[i] in catalog;
      }
      FilterAllPass(catalog, (p: Product) => Matches(c, p));
    }
    SortPermutation(ParseSortKey(sortBy), catalog);
  }

  // ---------------------------------------------------------------------------
  // The page state

  class ShopState {
    /** `currentProducts`. */
    var currentProducts: seq<Product>
    /** `currentPage`. */
    var currentPage: int

    /** The page on screen is 1 or one of the list's pages. */
    predicate Valid()
      reads this
    {
      currentPage == 1 || 1 <= currentPage <= TotalPages(|currentProducts|)
    }

    /** `initializeShop` with no category hand-off: the whole catalog, page 1. */
    constructor (catalog: seq<Product>)
      ensures currentProducts == catalog && currentPage == 1 && Valid()
    {
      currentProducts := catalog;
      currentPage := 1;
    }

    /** `applyFilters()`: filter the catalog by the form, sort, return to page 1. */
    method ApplyFilters(catalog: seq<Product>, checkedCategories: seq<string>, sizes: seq<string>, colors: seq<string>,
                        slider: Option<int>, sortBy: string)
      modifies this
      ensures currentProducts == FilteredView(catalog, checkedCategories, sizes, colors, slider, sortBy)
      ensures currentPage == 1 && Valid()
    {
      var selected: seq<string> := [];
      var i := 0;
      while i < |checkedCategories|
        invariant 0 <= i <= |checkedCategories|
        invariant selected == Filter(checkedCategories[..i], (c: string) => c != AllCategories)
      {
        FilterSnoc(checkedCategories[..i], checkedCategories[i], (c: string) => c != AllCategories);
        assert checkedCategories[..i + 1] == checkedCategories[..i] + [checkedCategories[i]];
        if checkedCategories[i] != AllCategories {
          selected := selected + [checkedCategories[i]];
        }
        i := i + 1;
      }
      assert checkedCategories[..i] == checkedCategories;
      var maxPrice := match slider case None => None case Some(v) => Some(v * CartStore.MinorUnits);
      var filters := Criteria(if |selected| > 0 then selected else [AllCategories], sizes, colors, maxPrice);
      currentProducts := FilterProducts(catalog, filters);
      currentProducts := SortProducts(currentProducts, sortBy);
      currentPage := 1;
    }

    /** The sort dropdown's change handler: re-sort the shown list, stay on the same page. */
    method ChangeSort(sortBy: string)
      requires Valid()
      modifies this
      ensures currentProducts == SortProducts(old(currentProducts), sortBy)
      ensures multiset(currentProducts) == multiset(old(currentProducts))
      ensures currentPage == old(currentPage) && Valid()
    {
      SortPermutation(ParseSortKey(sortBy), currentProducts);
      currentProducts := SortProducts(currentProducts, sortBy);
    }

    /** A click on a pagination link whose `data-page` reads as `page`. */
    method ClickPage(page: Option<int>)
      requires Valid()
      modifies this`currentPage
      ensures currentPage == AfterClick(old(currentPage), TotalPages(|currentProducts|), page)
      ensures Valid()
    {
      var totalPages := TotalPages(|currentProducts|);
      if page.Some? && page.value != currentPage && page.value >= 1 && page.value <= totalPages {
        currentPage := page.value;
      }
    }

    /**
     * `resetFilters()`: only 'all' checked, no size or colour, the slider at
     * its maximum, then `applyFilters()`; the sort dropdown it reads keeps
     * its value.
     */
    method ResetFilters(catalog: seq<Product>, sliderMax: Option<int>, sortBy: string)
      modifies this
      ensures currentProducts == FilteredView(catalog, [AllCategories], [], [], sliderMax, sortBy)
      ensures currentPage == 1 && Valid()
    {
      currentPage := 1;
      currentProducts := catalog;
      ApplyFilters(catalog, [AllCategories], [], [], sliderMax, sortBy);
    }

    /**
     * The products on screen: the current page's slice, at most nine of
     * the shown list's products, and some whenever the list has any.
     */
    function DisplayedProducts(): (r: seq<Product>)
      reads this
      requires Valid()
      ensures r == PageSlice(currentProducts, currentPage)
      ensures |r| <= PerPage
      ensures forall p :: p in r ==> p in currentProducts
      ensures currentProducts != [] ==> r != []
    {
      PageSliceSize(currentProducts, currentPage);
      PageSlice(currentProducts, currentPage)
    }

    /** The bar `displayProductsWithPagination` renders. */
    method Pagination() returns (entries: seq<PageEntry>)
      ensures entries == PaginationSpec(currentPage, TotalPages(|currentProducts|))
    {
      entries := GeneratePagination(currentPage, TotalPages(|currentProducts|));
    }
  }

  /** The filter of a sequence extended by one element. */
  lemma {:induction false} FilterSnoc<T>(s: seq<T>, x: T, keep: T -> bool)
    ensures Filter(s + [x], keep) == Filter(s, keep) + (if keep(x) then [x] else [])
    decreases |s|
  {
    if s == [] {
      assert [] + [x] == [x];
      assert [x][1..] == [];
    } else {
      assert (s + [x])[1..] == s[1..] + [x];
      FilterSnoc(s[1..], x, keep);
    }
  }
}
