/**
 * The decision logic of src/features/orders/order.service.ts: the order total,
 * validate-before-insert in `createOrder`, and the query and result assembly
 * of `adminGetOrders`. The database is an oracle the caller supplies.
 */
module OrderService {
  import opened Wrappers
  import opened JsText
  import opened Api
  import opened OrderTypes
  import OrderValidators

  const ValidationFailedMessage := "Валидация не пройдена"
  const CreateErrorPrefix := "Ошибка создания заказа: "
  const CreateInternalMessage := "Внутренняя ошибка при создании заказа."
  const ListErrorPrefix := "Ошибка получения заказов: "
  const ListInternalMessage := "Внутренняя ошибка при получении заказов."

  /** `calculateTotal`: `items.reduce((s, i) => s + i.price * i.qty, 0)`, folded from the left. */
  function CalculateTotal(items: seq<OrderItem>): (r: int)
    ensures items == [] ==> r == 0
    ensures |items| == 1 ==> r == items[0].price * items[0].qty
  {
    if items == [] then 0
    else CalculateTotal(items[..|items| - 1]) + items[|items| - 1].price * items[|items| - 1].qty
  }

  /** The total of a concatenation is the sum of the totals. */
  lemma {:induction false} CalculateTotalConcat(a: seq<OrderItem>, b: seq<OrderItem>)
    ensures CalculateTotal(a + b) == CalculateTotal(a) + CalculateTotal(b)
    decreases |b|
  {
    if b == [] {
      assert a + b == a;
    } else {
      assert (a + b)[..|a + b| - 1] == a + b[..|b| - 1];
      CalculateTotalConcat(a, b[..|b| - 1]);
    }
  }

  /** With non-negative prices and quantities the total is non-negative. */
  lemma {:induction false} CalculateTotalNonNegative(items: seq<OrderItem>)
    requires forall i :: 0 <= i < |items| ==> items[i].price >= 0 && items[i].qty >= 0
    ensures CalculateTotal(items) >= 0
  {
    if items != [] {
      CalculateTotalNonNegative(items[..|items| - 1]);
      var last := items[|items| - 1];
      assert last.price * last.qty >= 0;
    }
  }

  /** The object `createOrder` inserts: the payload, its recomputed total, status and timestamp. */
  datatype NewOrderRow = NewOrderRow(
    customer_name: string,
    phone: string,
    address: string,
    delivery_method: string,
    payment_method: string,
    items: seq<OrderItem>,
    total: int,
    status: string,
    created_at: string)

  /** `{...payload, total, status: "pending", created_at: now}` */
  function RowToInsert(payload: OrderCreateInput, now: string): (r: NewOrderRow)
    ensures r.total == CalculateTotal(payload.items) && r.status == "pending" && r.created_at == now
    ensures r.customer_name == payload.customer_name && r.phone == payload.phone && r.address == payload.address
    ensures r.delivery_method == payload.delivery_method && r.payment_method == payload.payment_method
    ensures r.items == payload.items
  {
    NewOrderRow(payload.customer_name, payload.phone, payload.address, payload.delivery_method,
                payload.payment_method, payload.items, CalculateTotal(payload.items), "pending", now)
  }

  /** The client's `total` never reaches the database: two payloads differing only there insert the same row. */
  lemma ClientTotalIgnored(p: OrderCreateInput, q: OrderCreateInput, now: string)
    requires p.(total := q.total) == q
    ensures RowToInsert(p, now) == RowToInsert(q, now)
  {
  }

  /**
   * `createOrder`. `now` stands for `new Date().toISOString()` and `insert` for the
   * database's answer to inserting a row; `inserted` is the row that was sent, if any.
   */
  method CreateOrder(payload: OrderCreateInput, now: string, insert: NewOrderRow -> SingleOutcome<Order>)
    returns (r: ApiResponse<Order, map<OrderValidators.ErrorKey, string>>, inserted: Option<NewOrderRow>)
    ensures !OrderValidators.OrderCreateAccepted(payload) ==>
      && inserted.None?
      && r == Failure(ValidationFailedMessage, Some(OrderValidators.CreateErrors(payload)))
      && r.details.value != map[]
    ensures OrderValidators.OrderCreateAccepted(payload) ==> inserted == Some(RowToInsert(payload, now))
    ensures r.IsSuccess() <==> inserted.Some? && insert(inserted.value).Row?
    ensures r.IsSuccess() ==> r.data == insert(inserted.value).row
    ensures inserted.Some? && insert(inserted.value).RowError? ==>
      r == ToErrorResponse(CreateErrorPrefix + insert(inserted.value).message)
    ensures inserted.Some? && insert(inserted.value).RowThrew? ==> r == ToErrorResponse(CreateInternalMessage)
  {
    var valid, errors := OrderValidators.ValidateOrderCreate(payload);
    if !valid {
      return Failure(ValidationFailedMessage, Some(errors)), None;
    }
    var row := RowToInsert(payload, now);
    inserted := Some(row);
    var res := insert(row);
    match res
    case RowThrew =>
      r := ToErrorResponse(CreateInternalMessage);
    case RowError(_, message) =>
      r := ToErrorResponse(CreateErrorPrefix + message);
    case Row(order) =>
      r := Success(order);
  }

  /** `OrderFilters` */
  datatype OrderFilters = OrderFilters(q: Option<string>, status: Option<string>, page: Option<int>, limit: Option<int>)

  /** The listing query `adminGetOrders` builds: newest first, optional filters, and a row range. */
  datatype OrderQuery = OrderQuery(
    statusEq: Option<string>,
    orFilter: Option<string>,
    newestFirst: bool,
    from: int,
    to: int)

  /** The `.or(...)` filter text for a search: the trimmed term matched against name or phone. */
  function SearchFilter(q: string): string {
    var t := Trim(q);
    "customer_name.ilike.%" + t + "%,phone.ilike.%" + t + "%"
  }

  /** `adminGetOrders`; `db` answers the listing query. */
  method AdminGetOrders(filters: OrderFilters, db: OrderQuery -> ListOutcome<Order>)
    returns (r: ApiResponse<Paginated<Order>, map<OrderValidators.ErrorKey, string>>, query: OrderQuery)
    ensures var range := PageRangeOf(filters.page, filters.limit);
      query.from == range.from && query.to == range.to && query.newestFirst
    ensures query.statusEq.Some? <==> filters.status.Some? && filters.status.value != ""
    ensures query.statusEq.Some? ==> query.statusEq == filters.status
    ensures query.orFilter.Some? <==> filters.q.Some? && filters.q.value != ""
    ensures query.orFilter.Some? ==> query.orFilter.value == SearchFilter(filters.q.value)
    ensures r.IsSuccess() <==> db(query).Rows?
    ensures r.IsSuccess() ==>
      r.data == AssemblePage(db(query).data, db(query).count, PageRangeOf(filters.page, filters.limit))
    ensures db(query).ListError? ==> r == ToErrorResponse(ListErrorPrefix + db(query).message)
    ensures db(query).ListThrew? ==> r == ToErrorResponse(ListInternalMessage)
  {
    var range := PageRangeOf(filters.page, filters.limit);
    query := OrderQuery(None, None, true, range.from, range.to);
    if filters.status.Some? && filters.status.value != "" {
      query := query.(statusEq := filters.status);
    }
    if filters.q.Some? && filters.q.value != "" {
      query := query.(orFilter := Some(SearchFilter(filters.q.value)));
    }
    var res := db(query);
    match res
    case ListThrew =>
      r := ToErrorResponse(ListInternalMessage);
    case ListError(message) =>
      r := ToErrorResponse(ListErrorPrefix + message);
    case Rows(data, count) =>
      r := Success(AssemblePage(data, count, range));
  }
}
