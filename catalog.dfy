/**
 * The product list (`renderProducts`): an optional filter, or else one page of
 * the catalogue and a pager bar. Options left out by the caller are 0 here,
 * the falsy value that `||` replaces by its default.
 */
module Catalog {
  import opened Wrappers

  const DefaultPage: nat := 1
  const DefaultItemsPerPage: nat := 9

  /** `x || d` on a numeric option: 0 (or an omitted option) takes the default. */
  function OrDefault(x: nat, d: nat): (r: nat)
    ensures x != 0 ==> r == x
    ensures x == 0 ==> r == d
  {
    if x == 0 then d else x
  }

  function Min(a: int, b: int): int
  {
    if a < b then a else b
  }

  /** `Math.ceil(n / itemsPerPage)`: the fewest pages of itemsPerPage that hold n products. */
  function TotalPages(n: nat, itemsPerPage: nat): (r: nat)
    requires itemsPerPage > 0
    ensures r * itemsPerPage >= n
    ensures r > 0 ==> (r - 1) * itemsPerPage < n
  {
    var r := (n + itemsPerPage - 1) / itemsPerPage;
    assert r * itemsPerPage + (n + itemsPerPage - 1) % itemsPerPage == n + itemsPerPage - 1;
    assert (r - 1) * itemsPerPage == r * itemsPerPage - itemsPerPage;
    r
  }

  /** `s.slice(start, end)` for non-negative bounds: both clamp to the length. */
  function Slice<T>(s: seq<T>, start: nat, end: nat): (r: seq<T>)
    ensures start <= end ==> r == s[Min(start, |s|)..Min(end, |s|)]
    ensures |r| <= end - start || r == []
  {
    var a := Min(start, |s|);
    var b := Min(end, |s|);
    if a < b then s[a..b] else []
  }

  /** The products of page `page` (counted from 1): `products.slice((page-1)*ipp, page*ipp)`. */
  function Window<T>(products: seq<T>, page: nat, itemsPerPage: nat): (r: seq<T>)
    requires page >= 1
    ensures r == products[Min((page - 1) * itemsPerPage, |products|)..Min(page * itemsPerPage, |products|)]
    ensures |r| <= itemsPerPage
  {
    var start := (page - 1) * itemsPerPage;
    assert start + itemsPerPage == page * itemsPerPage;
    Slice(products, start, start + itemsPerPage)
  }

  /** `products.filter(f)`: the products f accepts, in catalogue order. */
  function Filter<T>(products: seq<T>, f: T -> bool): (r: seq<T>)
    ensures |r| <= |products|
    ensures forall i :: 0 <= i < |r| ==> f(r[i])
    ensures forall i :: 0 <= i < |r| ==> r[i] in products
    ensures forall i :: 0 <= i < |products| && f(products[i]) ==> products[i] in r
  {
    if products == [] then []
    else if f(products[0]) then [products[0]] + Filter(products[1..], f)
    else Filter(products[1..], f)
  }

  /** Filtering a catalogue in two parts filters each part and keeps them in order;
      with `FilterSingle` this fixes the order of the result. */
  lemma {:induction false} FilterConcat<T>(a: seq<T>, b: seq<T>, f: T -> bool)
    ensures Filter(a + b, f) == Filter(a, f) + Filter(b, f)
    decreases |a|
  {
    if a != [] {
      assert (a + b)[0] == a[0];
      assert (a + b)[1..] == a[1..] + b;
      FilterConcat(a[1..], b, f);
    } else {
      assert a + b == b;
    }
  }

  /** One product passes the filter on its own exactly when f accepts it. */
  lemma FilterSingle<T>(x: T, f: T -> bool)
    ensures Filter([x], f) == if f(x) then [x] else []
  {
    assert [x][1..] == [];
  }

  /** Every accepted product appears as many times as in the catalogue, a rejected one never. */
  lemma {:induction false} FilterCounts<T>(products: seq<T>, f: T -> bool, x: T)
    ensures multiset(Filter(products, f))[x] == if f(x) then multiset(products)[x] else 0
    decreases |products|
  {
    if products != [] {
      FilterCounts(products[1..], f, x);
      assert products == [products[0]] + products[1..];
      assert multiset(products) == multiset([products[0]]) + multiset(products[1..]);
      if f(products[0]) {
        var r := Filter(products, f);
        assert r == [products[0]] + Filter(products[1..], f);
        assert multiset(r) == multiset([products[0]]) + multiset(Filter(products[1..], f));
      }
    }
  }

  datatype PageLink = PageLink(page: nat, active: bool)

  /** The pager bar: Prev and Next carry the page they lead to. */
  datatype Pager = Pager(prev: Option<nat>, links: seq<PageLink>, next: Option<nat>)

  datatype ProductsView<T> = ProductsView(shown: seq<T>, pager: Option<Pager>)

  /** The page-number loop: one link per page, 1 to totalPages, the current one active. */
  method PageLinks(page: nat, totalPages: nat) returns (links: seq<PageLink>)
    ensures |links| == totalPages
    ensures forall i :: 0 <= i < totalPages ==> links[i].page == i + 1
    ensures forall i :: 0 <= i < totalPages ==> (links[i].active <==> i + 1 == page)
  {
    links := [];
    var i := 1;
    while i <= totalPages
      invariant 1 <= i <= totalPages + 1
      invariant |links| == i - 1
      invariant forall k :: 0 <= k < i - 1 ==> links[k] == PageLink(k + 1, k + 1 == page)
    {
      links := links + [PageLink(i, i == page)];
      i := i + 1;
    }
  }

  /** Every page the bar leads to, Prev, the numbers and Next. */
  ghost predicate TargetsWithin(bar: Pager, totalPages: nat)
  {
    && (bar.prev.Some? ==> 1 <= bar.prev.value <= totalPages)
    && (bar.next.Some? ==> 1 <= bar.next.value <= totalPages)
    && (forall i :: 0 <= i < |bar.links| ==> 1 <= bar.links[i].page <= totalPages)
  }

  /** What the product list shows for the given options. With a filter, every accepted
      product and no pager; otherwise one page and, when there is more than one page,
      a bar with Prev iff the page is past the first and Next iff it is before the last. */
  method RenderProducts<T>(products: seq<T>, filter: Option<T -> bool>, page: nat, itemsPerPage: nat)
    returns (view: ProductsView<T>)
    ensures filter.Some? ==> view == ProductsView(Filter(products, filter.value), None)
    ensures filter.None? ==>
      var p := OrDefault(page, DefaultPage);
      var ipp := OrDefault(itemsPerPage, DefaultItemsPerPage);
      var total := TotalPages(|products|, ipp);
      && view.shown == Window(products, p, ipp)
      && (view.pager.Some? <==> total > 1)
      && (view.pager.Some? ==>
        var bar := view.pager.value;
        && (bar.prev.Some? <==> p > 1) && (bar.prev.Some? ==> bar.prev.value == p - 1)
        && (bar.next.Some? <==> p < total) && (bar.next.Some? ==> bar.next.value == p + 1)
        && |bar.links| == total
        && (forall i :: 0 <= i < total ==> bar.links[i] == PageLink(i + 1, i + 1 == p))
        && (p <= total ==> TargetsWithin(bar, total)))
  {
    if filter.Some? {
      return ProductsView(Filter(products, filter.value), None);
    }
    var p := OrDefault(page, DefaultPage);
    var ipp := OrDefault(itemsPerPage, DefaultItemsPerPage);
    var total := TotalPages(|products|, ipp);
    var shown := Window(products, p, ipp);
    if total > 1 {
      var prev := if p > 1 then Some(p - 1) else None;
      var links := PageLinks(p, total);
      var next := if p < total then Some(p + 1) else None;
      view := ProductsView(shown, Some(Pager(prev, links, next)));
    } else {
      view := ProductsView(shown, None);
    }
  }

  /** Pages 1 to k, one after the other. */
  function PagesUpTo<T>(products: seq<T>, itemsPerPage: nat, k: nat): seq<T>
  {
    if k == 0 then [] else PagesUpTo(products, itemsPerPage, k - 1) + Window(products, k, itemsPerPage)
  }

  /** Pages 1 to k together are the first k * itemsPerPage products (or all of them). */
  lemma {:induction false} PagesUpToIsPrefix<T>(products: seq<T>, itemsPerPage: nat, k: nat)
    ensures PagesUpTo(products, itemsPerPage, k) == products[..Min(k * itemsPerPage, |products|)]
    decreases k
  {
    if k > 0 {
      PagesUpToIsPrefix(products, itemsPerPage, k - 1);
      assert (k - 1) * itemsPerPage + itemsPerPage == k * itemsPerPage;
      assert (k - 1) * itemsPerPage <= k * itemsPerPage;
      var a := Min((k - 1) * itemsPerPage, |products|);
      var b := Min(k * itemsPerPage, |products|);
      assert products[..a] + products[a..b] == products[..b];
    }
  }

  /** Walking the pages from 1 to the last shows the whole catalogue, in order, each
      product exactly once. */
  lemma PagesCoverCatalogue<T>(products: seq<T>, itemsPerPage: nat)
    requires itemsPerPage > 0
    ensures PagesUpTo(products, itemsPerPage, TotalPages(|products|, itemsPerPage)) == products
  {
    PagesUpToIsPrefix(products, itemsPerPage, TotalPages(|products|, itemsPerPage));
  }

  /** Product i is on page i / itemsPerPage + 1, a page the bar offers, at position i % itemsPerPage. */
  lemma ProductOnPage<T>(products: seq<T>, itemsPerPage: nat, i: nat)
    requires itemsPerPage > 0 && i < |products|
    ensures var p := i / itemsPerPage + 1;
      && 1 <= p <= TotalPages(|products|, itemsPerPage)
      && i % itemsPerPage < |Window(products, p, itemsPerPage)|
      && Window(products, p, itemsPerPage)[i % itemsPerPage] == products[i]
  {
    var p := i / itemsPerPage + 1;
    var total := TotalPages(|products|, itemsPerPage);
    assert (p - 1) * itemsPerPage + i % itemsPerPage == i;
    assert p * itemsPerPage == (p - 1) * itemsPerPage + itemsPerPage;
    assert (p - 1) * itemsPerPage <= i < p * itemsPerPage;
    MulMonotone(total, p - 1, itemsPerPage);
  }

  lemma MulMonotone(a: nat, b: nat, c: nat)
    ensures a <= b ==> a * c <= b * c
  {
  }
}
