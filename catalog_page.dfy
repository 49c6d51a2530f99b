/**
 * The URL and paging logic of src/app/catalog/components/CatalogPage.tsx:
 * `buildQuery`, the three navigation targets (search, sidebar filters, page
 * button) and the window of page buttons. Percent-encoding is the parameter
 * `enc`.
 */
module CatalogPage {
  import opened Wrappers
  import opened JsText

  /** A query-parameter value as `buildQuery` receives it: `string | number | undefined`. */
  datatype Value = Undefined | Str(s: string) | Num(n: int)

  /** The catalog's `Filters`; every key is present, possibly undefined. */
  datatype Filters = Filters(
    q: Option<string>,
    category: Option<string>,
    minPrice: Option<int>,
    maxPrice: Option<int>,
    page: Option<int>,
    limit: Option<int>)

  function OfString(v: Option<string>): Value {
    if v.Some? then Str(v.value) else Undefined
  }

  function OfNumber(v: Option<int>): Value {
    if v.Some? then Num(v.value) else Undefined
  }

  /** `Object.entries(filters)`, in the order the keys were created. */
  function Entries(f: Filters): seq<(string, Value)> {
    [("q", OfString(f.q)), ("category", OfString(f.category)), ("minPrice", OfNumber(f.minPrice)),
     ("maxPrice", OfNumber(f.maxPrice)), ("page", OfNumber(f.page)), ("limit", OfNumber(f.limit))]
  }

  /** `v !== undefined && v !== ""` */
  predicate IsKept(v: Value) {
    !v.Undefined? && v != Str("")
  }

  /** `String(v)` */
  function Stringify(v: Value): string {
    match v
    case Undefined => "undefined"
    case Str(s) => s
    case Num(n) => IntToString(n)
  }

  /** `.filter(([, v]) => v !== undefined && v !== "").map(([k, v]) => [k, String(v)])` */
  function Kept(params: seq<(string, Value)>): (r: seq<(string, string)>)
    ensures |r| <= |params|
    ensures forall e :: e in r ==> e.1 != ""
    ensures forall i :: 0 <= i < |params| && IsKept(params[i].1) ==> (params[i].0, Stringify(params[i].1)) in r
    ensures forall e :: e in r ==>
      exists i :: 0 <= i < |params| && params[i].0 == e.0 && IsKept(params[i].1) && Stringify(params[i].1) == e.1
  {
    if params == [] then []
    else
      var rest := Kept(params[1..]);
      assert forall i :: 1 <= i < |params| ==> params[i] == params[1..][i - 1];
      if IsKept(params[0].1) then [(params[0].0, Stringify(params[0].1))] + rest else rest
  }

  /** Filtering keeps the entry order: it distributes over concatenation. */
  lemma {:induction false} KeptConcat(a: seq<(string, Value)>, b: seq<(string, Value)>)
    ensures Kept(a + b) == Kept(a) + Kept(b)
  {
    if a == [] {
      assert a + b == b;
    } else {
      assert (a + b)[1..] == a[1..] + b;
      KeptConcat(a[1..], b);
    }
  }

  /** `URLSearchParams.toString()`: `key=value` pairs joined by `&`, each part passed through `enc`. */
  function Serialize(pairs: seq<(string, string)>, enc: string -> string): string {
    if pairs == [] then ""
    else
      var first := enc(pairs[0].0) + "=" + enc(pairs[0].1);
      if |pairs| == 1 then first else first + "&" + Serialize(pairs[1..], enc)
  }

  /** `buildQuery` */
  function BuildQuery(params: seq<(string, Value)>, enc: string -> string): string {
    Serialize(Kept(params), enc)
  }

  /** `router.push(`/catalog?${buildQuery(next)}`)` */
  function NavigationTarget(next: Filters, enc: string -> string): string {
    "/catalog?" + BuildQuery(Entries(next), enc)
  }

  /** `{ ...filters, q: search, page: 1 }` */
  function SearchFilters(filters: Filters, search: string): (r: Filters)
    ensures r.q == Some(search) && r.page == Some(1)
    ensures r.category == filters.category && r.minPrice == filters.minPrice
    ensures r.maxPrice == filters.maxPrice && r.limit == filters.limit
  {
    filters.(q := Some(search), page := Some(1))
  }

  /** A key the sidebar either leaves out or sends, possibly as undefined. */
  datatype Patch<T> = Absent | Present(value: Option<T>)

  function Override<T>(current: Option<T>, p: Patch<T>): Option<T> {
    if p.Present? then p.value else current
  }

  /** What the sidebar's `onApply` sends. */
  datatype SidebarFilters = SidebarFilters(category: Patch<string>, minPrice: Patch<int>, maxPrice: Patch<int>)

  /** `{ ...filters, ...f, page: 1 }` */
  function ApplyFilters(filters: Filters, f: SidebarFilters): (r: Filters)
    ensures r.page == Some(1) && r.q == filters.q && r.limit == filters.limit
    ensures f.category.Present? ==> r.category == f.category.value
    ensures f.category.Absent? ==> r.category == filters.category
    ensures f.minPrice.Present? ==> r.minPrice == f.minPrice.value
    ensures f.minPrice.Absent? ==> r.minPrice == filters.minPrice
    ensures f.maxPrice.Present? ==> r.maxPrice == f.maxPrice.value
    ensures f.maxPrice.Absent? ==> r.maxPrice == filters.maxPrice
  {
    filters.(category := Override(filters.category, f.category),
             minPrice := Override(filters.minPrice, f.minPrice),
             maxPrice := Override(filters.maxPrice, f.maxPrice),
             page := Some(1))
  }

  /** `{ ...filters, page: p }` */
  function PageFilters(filters: Filters, p: int): (r: Filters)
    ensures r.page == Some(p) && r.q == filters.q && r.category == filters.category
    ensures r.minPrice == filters.minPrice && r.maxPrice == filters.maxPrice && r.limit == filters.limit
  {
    filters.(page := Some(p))
  }

  /** Whatever filters were set, a search or a sidebar apply sends the shopper back to page 1 of the query string. */
  lemma NavigationResetsPage(filters: Filters, search: string, f: SidebarFilters)
    ensures ("page", "1") in Kept(Entries(SearchFilters(filters, search)))
    ensures ("page", "1") in Kept(Entries(ApplyFilters(filters, f)))
  {
    var one := IntToString(1);
    assert one == NatToString(1) == ['1'];
    assert Entries(SearchFilters(filters, search))[4] == ("page", Num(1));
    assert Entries(ApplyFilters(filters, f))[4] == ("page", Num(1));
  }

  /** A search for blank text adds no `q` to the URL: the empty string is dropped like undefined. */
  lemma EmptySearchDropsQ(filters: Filters)
    ensures forall e :: e in Kept(Entries(SearchFilters(filters, ""))) ==> e.0 != "q"
  {
    var es := Entries(SearchFilters(filters, ""));
    forall e | e in Kept(es)
      ensures e.0 != "q"
    {
      var i :| 0 <= i < |es| && es[i].0 == e.0 && IsKept(es[i].1) && Stringify(es[i].1) == e.1;
      assert i != 0;
    }
  }

  // ------------------------------------------------------------ page buttons

  function Max(a: int, b: int): int {
    if a < b then b else a
  }

  function Min(a: int, b: int): int {
    if a < b then a else b
  }

  /** `Array.from({ length: n }, (_, i) => i + 1)`: the page numbers 1..n. */
  function Pages(n: nat): (r: seq<int>)
    ensures |r| == n && forall i :: 0 <= i < n ==> r[i] == i + 1
  {
    if n == 0 then [] else Pages(n - 1) + [n]
  }

  /** `Array.prototype.slice(start, end)`, negative bounds counting from the end. */
  function JsSlice(s: seq<int>, start: int, end: int): seq<int> {
    var from := if start < 0 then Max(|s| + start, 0) else Min(start, |s|);
    var to := if end < 0 then Max(|s| + end, 0) else Min(end, |s|);
    if from < to then s[from..to] else []
  }

  /**
   * The page buttons: `Array.from(...).slice(Math.max(0, page - 3), page + 2)`, for a
   * current page of at least 1 (the listing never reports less) the ascending run
   * max(1, page - 2) .. min(totalPages, page + 2).
   */
  function PageWindow(page: int, totalPages: nat): (r: seq<int>)
    ensures page >= 1 ==>
      && |r| == Max(0, Min(totalPages, page + 2) - Max(1, page - 2) + 1)
      && forall i :: 0 <= i < |r| ==> r[i] == Max(1, page - 2) + i
  {
    JsSlice(Pages(totalPages), Max(0, page - 3), page + 2)
  }

  /**
   * The buttons rendered for `pagination` = (page, totalPages): none unless
   * `pagination && pagination.totalPages > 1`, otherwise the page window.
   */
  function PaginationButtons(pagination: Option<(int, int)>): (r: seq<int>)
    ensures pagination.None? || pagination.value.1 <= 1 ==> r == []
    ensures pagination.Some? && pagination.value.1 > 1 && 1 <= pagination.value.0 <= pagination.value.1 ==>
      pagination.value.0 in r && |r| <= 5
  {
    if pagination.Some? && pagination.value.1 > 1 then
      var (page, totalPages) := pagination.value;
      if page >= 1 then
        PageWindowFacts(page, totalPages);
        PageWindow(page, totalPages)
      else PageWindow(page, totalPages)
    else []
  }

  /** At most five buttons, all valid pages, ascending, and the current page among them when it exists. */
  lemma PageWindowFacts(page: int, totalPages: nat)
    requires page >= 1
    ensures var w := PageWindow(page, totalPages);
      && |w| <= 5
      && (forall x :: x in w ==> 1 <= x <= totalPages && page - 2 <= x <= page + 2)
      && (forall i, j :: 0 <= i < j < |w| ==> w[i] < w[j])
      && (page <= totalPages ==> page in w)
  {
    var w := PageWindow(page, totalPages);
    if page <= totalPages {
      assert w[page - Max(1, page - 2)] == page;
    }
  }
}
