/**
 * The server page src/app/catalog/page.tsx: turning the URL's search
 * parameters into catalog filters, and turning the listing's answer into what
 * the catalog view receives.
 */
module CatalogRoute {
  import opened Wrappers
  import opened JsText
  import opened Api
  import CatalogPage
  import ProductService

  const CatalogLimit := 12

  /** `CatalogSearchParams`: the raw strings from the URL, each possibly absent. */
  datatype CatalogSearchParams = CatalogSearchParams(
    q: Option<string>,
    category: Option<string>,
    minPrice: Option<string>,
    maxPrice: Option<string>,
    page: Option<string>)

  /** `v && !isNaN(Number(v)) ? Number(v) : undefined` */
  function ToNumber(v: Option<string>): (r: Option<int>)
    ensures v.None? || v == Some("") ==> r.None?
    ensures v.Some? && v.value != "" ==> (r.Some? <==> Number(v.value).Int?)
    ensures r.Some? ==> Number(v.value) == Int(r.value)
  {
    if v.Some? && v.value != "" && !Number(v.value).NaN? then Some(Number(v.value).value) else None
  }

  /** `params.x || undefined`: an empty string counts as absent. */
  function NonEmpty(v: Option<string>): (r: Option<string>)
    ensures r.Some? <==> v.Some? && v.value != ""
    ensures r.Some? ==> r == v
  {
    if v.Some? && v.value != "" then v else None
  }

  /** `normalizeFilters` */
  function NormalizeFilters(params: CatalogSearchParams): (r: CatalogPage.Filters)
    ensures r.limit == Some(CatalogLimit)
    ensures r.page == Some(ToNumber(params.page).GetOr(1))
    ensures r.q == NonEmpty(params.q) && r.category == NonEmpty(params.category)
    ensures r.minPrice == ToNumber(params.minPrice) && r.maxPrice == ToNumber(params.maxPrice)
  {
    CatalogPage.Filters(
      NonEmpty(params.q),
      NonEmpty(params.category),
      ToNumber(params.minPrice),
      ToNumber(params.maxPrice),
      Some(ToNumber(params.page).GetOr(1)),
      Some(CatalogLimit))
  }

  /** A number `buildQuery` writes into the URL is read back unchanged. */
  lemma ToNumberOfWritten(n: int)
    ensures ToNumber(Some(IntToString(n))) == Some(n)
  {
    ParseNumberOfIntToString(n);
  }

  /** A page the catalog page put in the URL comes back as the same page. */
  lemma PageRoundTrip(filters: CatalogPage.Filters, params: CatalogSearchParams)
    requires filters.page.Some?
    requires params.page == Some(CatalogPage.Stringify(CatalogPage.Num(filters.page.value)))
    ensures NormalizeFilters(params).page == filters.page
  {
    ToNumberOfWritten(filters.page.value);
  }

  /** `Math.ceil(total / limit)` for a positive limit. */
  function TotalPages(total: int, limit: int): (pages: int)
    requires limit > 0
    ensures (pages - 1) * limit < total <= pages * limit
  {
    var q := (-total) / limit;
    assert limit * q <= -total < limit * (q + 1) by {
      var m := (-total) % limit;
      assert -total == limit * q + m && 0 <= m < limit;
      assert limit * (q + 1) == limit * q + limit;
    }
    assert (-q - 1) * limit == -(limit * (q + 1));
    -q
  }

  /** The props `Page` hands to the catalog view. */
  datatype CatalogView = CatalogView(
    products: seq<ProductService.Product>,
    pagination: Option<(int, int)>,
    filters: CatalogPage.Filters)

  /**
   * `Page`, given the filters it normalized and the listing's answer for them. The
   * listing echoes the limit it was asked for, here 12, so the division is by a positive number.
   */
  function Page(filters: CatalogPage.Filters, result: ApiResponse<Paginated<ProductService.Product>, ()>): (view: CatalogView)
    requires result.Success? ==> result.data.limit > 0
    ensures view.filters == filters
    ensures !result.IsSuccess() ==> view.products == [] && view.pagination.None?
    ensures result.IsSuccess() ==> view.products == result.data.items && view.pagination.Some?
    ensures result.IsSuccess() ==>
      var (page, totalPages) := view.pagination.value;
      && page == result.data.page
      && (totalPages - 1) * result.data.limit < result.data.total <= totalPages * result.data.limit
  {
    if result.Success? then
      CatalogView(result.data.items, Some((result.data.page, TotalPages(result.data.total, result.data.limit))), filters)
    else CatalogView([], None, filters)
  }

  /** The normalized filters as `getPublicProducts` reads them (no ordering keys). */
  function AsProductFilters(f: CatalogPage.Filters): ProductService.ProductFilters {
    ProductService.ProductFilters(f.q, f.category, f.minPrice, f.maxPrice, f.limit, f.page, None, None)
  }

  /** The whole server page: normalize the URL, ask for the listing, and build the view. */
  method RenderCatalog(params: CatalogSearchParams, db: ProductService.ProductQuery -> ListOutcome<ProductService.Product>)
    returns (view: CatalogView, query: ProductService.ProductQuery)
    ensures view.filters == NormalizeFilters(params)
    ensures query.to - query.from + 1 == CatalogLimit
    ensures view.pagination.Some? <==> db(query).Rows?
    ensures !db(query).Rows? ==> view.products == []
    ensures db(query).Rows? ==>
      var rows := db(query).data;
      var total := db(query).count.GetOr(|rows|);
      var (page, totalPages) := view.pagination.value;
      && view.products == rows
      && page >= 1
      && (totalPages - 1) * CatalogLimit < total <= totalPages * CatalogLimit
  {
    var filters := NormalizeFilters(params);
    var result;
    result, query := ProductService.GetPublicProducts(AsProductFilters(filters), db);
    view := Page(filters, result);
  }
}
