/** GetAll of the products: filter, stable sort, and one page of the result. */
module Paging {
  import opened Common
  import opened Sorting

  const TWO_TO_31 := 0x8000_0000

  /** Unchecked 32-bit arithmetic wraps around. */
  function Wrap32(x: int): (w: int)
    ensures -TWO_TO_31 <= w < TWO_TO_31
    ensures -TWO_TO_31 <= x < TWO_TO_31 ==> w == x
  {
    (x + TWO_TO_31) % (2 * TWO_TO_31) - TWO_TO_31
  }

  newtype Int32 = x: int | -TWO_TO_31 <= x < TWO_TO_31

  datatype Item = Item(id: int, sku: string, name: string, price: int)

  datatype PagedResult = PagedResult(items: seq<Item>, page: Int32, pageSize: Int32, totalCount: nat)

  function Where(keep: Item -> bool, items: seq<Item>): (r: seq<Item>)
    ensures |r| <= |items|
  {
    if items == [] then [] else (if keep(items[0]) then [items[0]] else []) + Where(keep, items[1..])
  }

  function Skip(items: seq<Item>, n: int): seq<Item> {
    if n <= 0 then items else if n >= |items| then [] else items[n..]
  }

  function Take(items: seq<Item>, n: int): seq<Item> {
    if n <= 0 then [] else if n >= |items| then items else items[..n]
  }

  /** The comparison behind each `sortBy`, in lower case; `text` is the culture's string order. */
  function Comparer(sortBy: Option<string>, text: (string, string) -> bool): (Item, Item) -> bool {
    if sortBy == Some("price") then (a: Item, b: Item) => a.price <= b.price
    else if sortBy == Some("name") then (a: Item, b: Item) => text(a.name, b.name)
    else if sortBy == Some("sku") then (a: Item, b: Item) => text(a.sku, b.sku)
    else (a: Item, b: Item) => a.id <= b.id
  }

  function Offset(page: Int32, pageSize: Int32): int {
    Wrap32(Wrap32(page as int - 1) * pageSize as int)
  }

  function GetAll(all: seq<Item>, keep: Item -> bool, le: (Item, Item) -> bool, page: Int32,
                  pageSize: Int32): PagedResult
  {
    var products := OrderBy(le, Where(keep, all));
    PagedResult(Take(Skip(products, Offset(page, pageSize)), pageSize as int), page, pageSize, |products|)
  }

  // ---------- what the pages add up to ----------

  lemma {:induction false} WhereKeeps(keep: Item -> bool, items: seq<Item>, x: Item)
    ensures multiset(Where(keep, items))[x] == if keep(x) then multiset(items)[x] else 0
  {
    if items != [] {
      WhereKeeps(keep, items[1..], x);
      assert items == [items[0]] + items[1..];
    }
  }

  lemma ComparerIsTotal(sortBy: Option<string>, text: (string, string) -> bool)
    requires TotalPreorder(text)
    ensures TotalPreorder(Comparer(sortBy, text))
  {
    var le := Comparer(sortBy, text);
    forall a, b ensures le(a, b) || le(b, a) {
      assert text(a.name, b.name) || text(b.name, a.name);
      assert text(a.sku, b.sku) || text(b.sku, a.sku);
    }
    forall a, b, c | le(a, b) && le(b, c) ensures le(a, c) {
      assert text(a.name, b.name) && text(b.name, c.name) ==> text(a.name, c.name);
      assert text(a.sku, b.sku) && text(b.sku, c.sku) ==> text(a.sku, c.sku);
    }
  }

  /** The list that is paged: exactly the kept items, each as often as it occurs, in sorted order, equals in their
      original order. */
  lemma PagedListIsExact(all: seq<Item>, keep: Item -> bool, le: (Item, Item) -> bool)
    requires TotalPreorder(le)
    ensures var products := OrderBy(le, Where(keep, all));
            && Ordered(le, products)
            && (forall x :: multiset(products)[x] == if keep(x) then multiset(all)[x] else 0)
            && (forall r :: Ties(le, r, products) == Ties(le, r, Where(keep, all)))
  {
    OrderByStable(le, Where(keep, all));
    forall x ensures multiset(OrderBy(le, Where(keep, all)))[x] == if keep(x) then multiset(all)[x] else 0 {
      WhereKeeps(keep, all, x);
    }
  }

  /** Which key each sort choice orders the list by; anything but the three orders it by id. */
  lemma SortedByChoice(sortBy: Option<string>, text: (string, string) -> bool, all: seq<Item>, keep: Item -> bool)
    requires TotalPreorder(text)
    ensures var products := OrderBy(Comparer(sortBy, text), Where(keep, all));
            forall i, j :: 0 <= i < j < |products| ==>
              && (sortBy == Some("price") ==> products[i].price <= products[j].price)
              && (sortBy == Some("name") ==> text(products[i].name, products[j].name))
              && (sortBy == Some("sku") ==> text(products[i].sku, products[j].sku))
              && (sortBy !in {Some("price"), Some("name"), Some("sku")} ==> products[i].id <= products[j].id)
  {
    hide Where;
    ComparerIsTotal(sortBy, text);
    OrderByStable(Comparer(sortBy, text), Where(keep, all));
  }

  function PageCount(n: nat, size: nat): nat
    requires size > 0
  {
    (n + size - 1) / size
  }

  /** Without overflow a page is a plain slice. */
  lemma PageIsSlice(products: seq<Item>, page: Int32, size: Int32)
    requires page >= 1 && size >= 1 && (page as int - 1) * size as int < TWO_TO_31
    ensures Offset(page, size) == (page as int - 1) * size as int >= 0
    ensures var lo := Offset(page, size);
            Take(Skip(products, lo), size as int) == Slice(products, lo, size as int)
  {
    var p, s := page as int - 1, size as int;
    assert p * s >= 0 by { ProductNonNegative(p, s); }
  }

  lemma ProductNonNegative(a: nat, b: nat)
    ensures a * b >= 0
  {
  }

  /** Items lo to lo + size, as far as there are any. */
  function Slice(products: seq<Item>, lo: nat, size: nat): seq<Item> {
    if lo >= |products| then [] else if lo + size >= |products| then products[lo..] else products[lo..lo + size]
  }

  /** The contents of some pages, one after the other. */
  function Contents(pages: seq<PagedResult>): seq<Item>
    decreases |pages|
  {
    if pages == [] then [] else Contents(pages[..|pages| - 1]) + pages[|pages| - 1].items
  }

  /** The answers to requests for pages 1, 2, 3 and so on. */
  ghost predicate Consecutive(pages: seq<PagedResult>, all: seq<Item>, keep: Item -> bool, le: (Item, Item) -> bool,
                              size: Int32)
  {
    |pages| < TWO_TO_31 && forall k :: 0 <= k < |pages| ==> pages[k] == GetAll(all, keep, le, (k + 1) as Int32, size)
  }

  lemma LastPageStartsInside(n: nat, size: nat, page: nat)
    requires size > 0 && 1 <= page <= PageCount(n, size)
    ensures (page - 1) * size < n
  {
  }

  lemma SlicesJoin(products: seq<Item>, lo: nat, size: nat)
    ensures Slice(products, 0, lo) + Slice(products, lo, size) == Slice(products, 0, lo + size)
  {
  }

  lemma {:induction false} FirstPagesAreAPrefix(pages: seq<PagedResult>, all: seq<Item>, keep: Item -> bool,
                                                le: (Item, Item) -> bool, size: Int32)
    requires Consecutive(pages, all, keep, le, size) && size >= 1 && TotalPreorder(le)
    requires |all| < TWO_TO_31 && |pages| <= PageCount(|OrderBy(le, Where(keep, all))|, size as nat)
    ensures Contents(pages) == Slice(OrderBy(le, Where(keep, all)), 0, |pages| * size as int)
    decreases |pages|
  {
    hide Offset, Take, Skip, Wrap32, OrderBy, Where, PageCount, Slice;
    var products, s, count := OrderBy(le, Where(keep, all)), size as int, |pages|;
    SortKeepsLength(le, Where(keep, all));
    if count > 0 {
      LastPageStartsInside(|products|, s, count);
      FirstPagesAreAPrefix(pages[..count - 1], all, keep, le, size);
      PageIsSlice(products, count as Int32, size);
      ProductStep(count, s);
      SlicesJoin(products, (count - 1) * s, s);
    } else {
      EmptySlice(products);
    }
  }

  lemma ProductStep(count: nat, s: nat)
    requires count > 0
    ensures (count - 1) * s >= 0 && count * s == (count - 1) * s + s
  {
  }

  lemma EmptySlice(products: seq<Item>)
    ensures Slice(products, 0, 0) == []
  {
  }

  lemma SortKeepsLength(le: (Item, Item) -> bool, items: seq<Item>)
    requires TotalPreorder(le)
    ensures |OrderBy(le, items)| == |items|
  {
    OrderByStable(le, items);
    assert |multiset(OrderBy(le, items))| == |multiset(items)|;
  }

  lemma SmallerFactor(a: nat, b: nat, c: nat)
    requires a * c < b * c
    ensures a < b
  {
  }

  lemma QuotientBounds(m: nat, size: nat)
    requires size > 0
    ensures (m / size) * size <= m < (m / size + 1) * size
  {
  }

  lemma PagesSuffice(n: nat, size: nat)
    requires size > 0
    ensures PageCount(n, size) * size >= n && PageCount(n, size) <= n
  {
    var q := PageCount(n, size);
    QuotientBounds(n + size - 1, size);
    assert (q + 1) * size == q * size + size;
    assert q * size < (n + 1) * size by { Distributes(n, size); }
    SmallerFactor(q, n + 1, size);
  }

  lemma Distributes(n: nat, size: nat)
    requires size > 0
    ensures (n + 1) * size >= n + size
  {
  }

  /** As many pages as it takes. */
  ghost predicate Complete(pages: seq<PagedResult>, n: nat, size: Int32)
    requires size >= 1
  {
    |pages| == PageCount(n, size as nat)
  }

  /** The pages 1 to ceil(n / size), one after the other, are the sorted filtered list: every item once,
      in order. No page is longer than the page size, and each reports the same total. */
  lemma PagesAreTheList(pages: seq<PagedResult>, all: seq<Item>, keep: Item -> bool, le: (Item, Item) -> bool,
                        size: Int32)
    requires size >= 1 && |all| < TWO_TO_31 && TotalPreorder(le)
    requires Consecutive(pages, all, keep, le, size) && Complete(pages, |OrderBy(le, Where(keep, all))|, size)
    ensures Contents(pages) == OrderBy(le, Where(keep, all))
    ensures forall k :: 0 <= k < |pages| ==>
              |pages[k].items| <= size as int && pages[k].totalCount == |Where(keep, all)|
              && pages[k].page as int == k + 1 && pages[k].pageSize == size
  {
    var products := OrderBy(le, Where(keep, all));
    SortKeepsLength(le, Where(keep, all));
    PagesSuffice(|products|, size as nat);
    FirstPagesAreAPrefix(pages, all, keep, le, size);
  }

  /** A page past the last one is empty if and only if its offset, in 32 bits, still lies past the list
      (or there is nothing to page). */
  lemma PageBeyondTheLast(all: seq<Item>, keep: Item -> bool, le: (Item, Item) -> bool, page: Int32, size: Int32)
    requires size >= 1 && page >= 1 && (page as int - 1) * size as int >= |OrderBy(le, Where(keep, all))|
    ensures var n := |OrderBy(le, Where(keep, all))|;
            GetAll(all, keep, le, page, size).items == [] <==> n == 0 || Offset(page, size) >= n
  {
  }

  /** It does not always: the highest page number, with two items a page, shows the first page again. */
  lemma HighestPageShowsTheFirst(all: seq<Item>, keep: Item -> bool, le: (Item, Item) -> bool)
    ensures GetAll(all, keep, le, 0x7fff_ffff, 2).items == GetAll(all, keep, le, 1, 2).items
  {
    hide Offset, Wrap32, OrderBy, Where, Take;
    OffsetsOfTwo();
  }

  lemma OffsetsOfTwo()
    ensures Offset(0x7fff_ffff, 2) == -4 && Offset(1, 2) == 0
  {
    hide Wrap32;
    WrapsAround();
    assert Wrap32(0x7fff_fffe) == 0x7fff_fffe && Wrap32(0) == 0;
  }

  lemma WrapsAround()
    ensures Wrap32(0xffff_fffc) == -4
  {
  }
}
