/**
 * The decision logic of src/features/products/product.service.ts: the listing
 * query and result of `getPublicProducts`, the not-found mapping of
 * `getProductById`, and the outcome of the `adminBulkUpdateStock` loop. The
 * database is an oracle the caller supplies.
 */
module ProductService {
  import opened Wrappers
  import opened JsText
  import opened Api

  const ListErrorPrefix := "Ошибка при получении продуктов: "
  const ListInternalMessage := "Внутренняя ошибка при получении продуктов."
  const NotFoundMessage := "Продукт не найден."
  const GetErrorPrefix := "Ошибка при получении продукта: "
  const GetInternalMessage := "Внутренняя ошибка при получении продукта."
  const BulkInternalMessage := "Внутренняя ошибка при обновлении остатков."

  /** A product row. */
  datatype Product = Product(
    id: string,
    name: string,
    price: int,
    stock: int,
    category: Option<string>,
    description: Option<string>,
    images: seq<string>,
    created_at: Option<string>,
    updated_at: Option<string>)

  /** `ProductFilters` */
  datatype ProductFilters = ProductFilters(
    q: Option<string>,
    category: Option<string>,
    minPrice: Option<int>,
    maxPrice: Option<int>,
    limit: Option<int>,
    page: Option<int>,
    orderBy: Option<string>,
    orderDir: Option<string>)

  /** The listing query `getPublicProducts` builds, filter by filter. */
  datatype ProductQuery = ProductQuery(
    orderColumn: string,
    ascending: bool,
    nameLike: Option<string>,
    orFilter: Option<string>,
    categoryEq: Option<string>,
    priceGte: Option<int>,
    priceLte: Option<int>,
    from: int,
    to: int)

  /** `getPublicProducts`; `db` answers the listing query. */
  method GetPublicProducts(filters: ProductFilters, db: ProductQuery -> ListOutcome<Product>)
    returns (r: ApiResponse<Paginated<Product>, ()>, query: ProductQuery)
    ensures var range := PageRangeOf(filters.page, filters.limit);
      query.from == range.from && query.to == range.to && query.to - query.from + 1 == range.limit
    ensures query.orderColumn == filters.orderBy.GetOr("created_at")
    ensures query.ascending <==> filters.orderDir == Some("asc")
    ensures query.nameLike.Some? <==> filters.q.Some? && filters.q.value != ""
    ensures query.nameLike.Some? ==> query.nameLike.value == "%" + Trim(filters.q.value) + "%"
    ensures query.orFilter.Some? <==> query.nameLike.Some?
    ensures query.orFilter.Some? ==> query.orFilter.value == "description.ilike.%" + Trim(filters.q.value) + "%"
    ensures query.categoryEq.Some? <==> filters.category.Some? && filters.category.value != ""
    ensures query.categoryEq.Some? ==> query.categoryEq == filters.category
    ensures query.priceGte == filters.minPrice && query.priceLte == filters.maxPrice
    ensures r.IsSuccess() <==> db(query).Rows?
    ensures r.IsSuccess() ==>
      && r.data == AssemblePage(db(query).data, db(query).count, PageRangeOf(filters.page, filters.limit))
      && r.data.page >= 1 && r.data.limit == filters.limit.GetOr(DefaultLimit)
    ensures db(query).ListError? ==> r == ToErrorResponse(ListErrorPrefix + db(query).message)
    ensures db(query).ListThrew? ==> r == ToErrorResponse(ListInternalMessage)
  {
    var range := PageRangeOf(filters.page, filters.limit);
    query := ProductQuery(filters.orderBy.GetOr("created_at"), filters.orderDir.GetOr("desc") == "asc",
                          None, None, None, None, None, range.from, range.to);
    if filters.q.Some? && filters.q.value != "" {
      var q := Trim(filters.q.value);
      query := query.(nameLike := Some("%" + q + "%"), orFilter := Some("description.ilike.%" + q + "%"));
    }
    if filters.category.Some? && filters.category.value != "" {
      query := query.(categoryEq := filters.category);
    }
    if filters.minPrice.Some? {
      query := query.(priceGte := filters.minPrice);
    }
    if filters.maxPrice.Some? {
      query := query.(priceLte := filters.maxPrice);
    }
    var res := db(query);
    match res
    case ListThrew =>
      r := ToErrorResponse(ListInternalMessage);
    case ListError(message) =>
      r := ToErrorResponse(ListErrorPrefix + message);
    case Rows(data, count) =>
      r := Success(AssemblePage(data, count, range));
  }

  /** `res.status === 406 || res.status === 404`: what `.single()` reports when no row matched. */
  predicate IsNotFoundStatus(status: int) {
    status == 406 || status == 404
  }

  /** `getProductById`, given the database's answer to the single-row query. */
  function GetProductById(res: SingleOutcome<Product>): (r: ApiResponse<Product, ()>)
    ensures r.IsSuccess() <==> res.Row?
    ensures r.IsSuccess() ==> r.data == res.row
    ensures !r.IsSuccess() ==> r.details.None?
    ensures res.RowError? ==> (r.error == NotFoundMessage <==> IsNotFoundStatus(res.status))
    ensures res.RowError? && !IsNotFoundStatus(res.status) ==> r.error == GetErrorPrefix + res.message
    ensures res.RowThrew? ==> r.error == GetInternalMessage
  {
    match res
    case RowThrew => ToErrorResponse(GetInternalMessage)
    case RowError(status, message) =>
      if IsNotFoundStatus(status) then ToErrorResponse(NotFoundMessage)
      else
        assert (GetErrorPrefix + message)[0] != NotFoundMessage[0];
        ToErrorResponse(GetErrorPrefix + message)
    case Row(product) => Success(product)
  }

  /** A caller can tell "not found" apart from every other failure by the message alone. */
  lemma NotFoundDistinguishable(a: SingleOutcome<Product>, b: SingleOutcome<Product>)
    requires a.RowError? && IsNotFoundStatus(a.status)
    requires b.RowThrew? || (b.RowError? && !IsNotFoundStatus(b.status))
    ensures GetProductById(a).error != GetProductById(b).error
  {
    if b.RowThrew? {
      assert GetInternalMessage[0] != NotFoundMessage[0];
    }
  }

  /** One entry of the bulk stock update. */
  datatype StockUpdate = StockUpdate(id: string, stock: int)

  /** The database's answer to one `update`: done, an error (only logged), or a throw. */
  datatype UpdateOutcome = Updated | UpdateError(message: string) | UpdateThrew

  /** The index of the first update that throws, or |outcomes| when none does. */
  function FirstThrow(outcomes: seq<UpdateOutcome>): (k: nat)
    ensures k <= |outcomes|
    ensures forall i :: 0 <= i < k ==> !outcomes[i].UpdateThrew?
    ensures k < |outcomes| ==> outcomes[k].UpdateThrew?
  {
    if outcomes == [] then 0
    else if outcomes[0].UpdateThrew? then 0
    else 1 + FirstThrow(outcomes[1..])
  }

  /**
   * `adminBulkUpdateStock`: the updates are sent one after another; `outcomes[i]` is
   * the answer to the i-th. `sent` are the updates issued before the loop stopped.
   */
  method AdminBulkUpdateStock(items: seq<StockUpdate>, outcomes: seq<UpdateOutcome>)
    returns (r: ApiResponse<(), ()>, sent: seq<StockUpdate>)
    requires |outcomes| == |items|
    ensures r.IsSuccess() <==> FirstThrow(outcomes) == |items|
    ensures r.IsSuccess() ==> sent == items
    ensures !r.IsSuccess() ==>
      r == ToErrorResponse(BulkInternalMessage) && sent == items[..FirstThrow(outcomes) + 1]
  {
    sent := [];
    var i := 0;
    while i < |items|
      invariant 0 <= i <= |items|
      invariant sent == items[..i]
      invariant forall j :: 0 <= j < i ==> !outcomes[j].UpdateThrew?
    {
      sent := sent + [items[i]];
      if outcomes[i].UpdateThrew? {
        r := ToErrorResponse(BulkInternalMessage);
        FirstThrowAt(outcomes, i);
        return;
      }
      // an UpdateError is only logged
      i := i + 1;
    }
    FirstThrowAt(outcomes, |items|);
    r := Success(());
  }

  /** The first throw is at k exactly when everything before k went through and k throws (or is the end). */
  lemma {:induction false} FirstThrowAt(outcomes: seq<UpdateOutcome>, k: nat)
    requires k <= |outcomes|
    requires forall j :: 0 <= j < k ==> !outcomes[j].UpdateThrew?
    requires k < |outcomes| ==> outcomes[k].UpdateThrew?
    ensures FirstThrow(outcomes) == k
  {
    if k > 0 {
      FirstThrowAt(outcomes[1..], k - 1);
    }
  }

  /** Errors reported by individual updates never fail the whole call. */
  lemma UpdateErrorsIgnored(outcomes: seq<UpdateOutcome>)
    requires forall i :: 0 <= i < |outcomes| ==> outcomes[i].Updated? || outcomes[i].UpdateError?
    ensures FirstThrow(outcomes) == |outcomes|
  {
    FirstThrowAt(outcomes, |outcomes|);
  }
}
