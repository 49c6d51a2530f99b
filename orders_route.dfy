/**
 * The HTTP handlers of src/app/api/orders/route.ts: `GET` turns the URL's
 * query into order filters for `adminGetOrders`, `POST` hands the body to
 * `createOrder` and picks the HTTP status from its result.
 */
module OrdersRoute {
  import opened Wrappers
  import opened JsText
  import opened Api
  import opened OrderTypes
  import OrderValidators
  import OrderService

  /** `url.searchParams.get(...)` for the four keys `GET` reads. */
  datatype OrdersSearchParams = OrdersSearchParams(
    status: Option<string>,
    q: Option<string>,
    page: Option<string>,
    limit: Option<string>)

  /** The filters object `GET` builds; page and limit are whatever `Number` made of the text. */
  datatype RouteFilters = RouteFilters(
    q: Option<string>,
    status: Option<string>,
    page: Option<JsNumber>,
    limit: Option<JsNumber>)

  /** `allowedStatuses.includes(rawStatus) ? rawStatus : undefined` */
  function StatusFilter(raw: Option<string>): (r: Option<string>)
    ensures r.Some? <==> raw.Some? && raw.value in Statuses
    ensures r.Some? ==> r == raw
  {
    if raw.Some? && raw.value in Statuses then raw else None
  }

  /** `v ? Number(v) : undefined`: absent and empty text give undefined. */
  function NumberParam(raw: Option<string>): (r: Option<JsNumber>)
    ensures r.None? <==> raw.None? || raw.value == ""
    ensures r.Some? ==> r.value == Number(raw.value)
  {
    if raw.Some? && raw.value != "" then Some(Number(raw.value)) else None
  }

  function ParseFilters(params: OrdersSearchParams): RouteFilters {
    RouteFilters(params.q, StatusFilter(params.status), NumberParam(params.page), NumberParam(params.limit))
  }

  /** A parsed number the listing can use: absent, or an integer. */
  predicate Integral(v: Option<JsNumber>) {
    v.None? || v.value.Int?
  }

  function IntOf(v: Option<JsNumber>): (r: Option<int>)
    requires Integral(v)
    ensures r.None? <==> v.None?
  {
    if v.Some? then Some(v.value.value) else None
  }

  /**
   * `GET`. The listing is modelled for integral page and limit; when `Number`
   * gives NaN the row range would be NaN and the answer is `None` here.
   */
  method Get(params: OrdersSearchParams, db: OrderService.OrderQuery -> ListOutcome<Order>)
    returns (filters: RouteFilters, r: Option<ApiResponse<Paginated<Order>, map<OrderValidators.ErrorKey, string>>>, query: OrderService.OrderQuery)
    ensures filters.q == params.q
    ensures filters.status.Some? <==> params.status.Some? && params.status.value in Statuses
    ensures filters.status.Some? ==> filters.status == params.status
    ensures filters.page == NumberParam(params.page) && filters.limit == NumberParam(params.limit)
    ensures r.Some? <==> Integral(filters.page) && Integral(filters.limit)
    ensures r.Some? ==>
      var range := PageRangeOf(IntOf(filters.page), IntOf(filters.limit));
      && query.from == range.from && query.to == range.to
      && query.statusEq == filters.status && query.newestFirst
      && (query.orFilter.Some? <==> params.q.Some? && params.q.value != "")
      && (query.orFilter.Some? ==> query.orFilter.value == OrderService.SearchFilter(params.q.value))
      && (r.value.IsSuccess() <==> db(query).Rows?)
      && (r.value.IsSuccess() ==> r.value.data == AssemblePage(db(query).data, db(query).count, range))
      && (db(query).ListError? ==> r.value == ToErrorResponse(OrderService.ListErrorPrefix + db(query).message))
      && (db(query).ListThrew? ==> r.value == ToErrorResponse(OrderService.ListInternalMessage))
  {
    filters := ParseFilters(params);
    if Integral(filters.page) && Integral(filters.limit) {
      var res;
      assert filters.status.Some? ==> filters.status.value in Statuses;
      res, query := OrderService.AdminGetOrders(OrderService.OrderFilters(filters.q, filters.status, IntOf(filters.page), IntOf(filters.limit)), db);
      r := Some(res);
    } else {
      r := None;
      query := OrderService.OrderQuery(None, None, true, 0, 0);
    }
  }

  /** `status: res.success ? 200 : 400` */
  function HttpStatus<T, E>(res: ApiResponse<T, E>): (code: int)
    ensures code == 200 || code == 400
    ensures code == 200 <==> res.IsSuccess()
  {
    if res.Success? then 200 else 400
  }

  /** `POST`: the order-creation result as the body, with its HTTP status. */
  method Post(payload: OrderCreateInput, now: string, insert: OrderService.NewOrderRow -> SingleOutcome<Order>)
    returns (body: ApiResponse<Order, map<OrderValidators.ErrorKey, string>>, status: int)
    ensures status == 200 || status == 400
    ensures status == 200 <==> body.IsSuccess()
    ensures !OrderValidators.OrderCreateAccepted(payload) ==> status == 400 && body.error == OrderService.ValidationFailedMessage
    ensures OrderValidators.OrderCreateAccepted(payload) ==>
      (status == 200 <==> insert(OrderService.RowToInsert(payload, now)).Row?)
  {
    var inserted;
    body, inserted := OrderService.CreateOrder(payload, now, insert);
    status := HttpStatus(body);
  }
}
