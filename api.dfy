/**
 * The response envelope of src/lib/types/api.ts, the `toErrorResponse` helper
 * both services define, the page-to-row-range arithmetic both listings share,
 * and the shapes in which the model receives the database's answers.
 */
module Api {
  import opened Wrappers

  /**
   * `ApiResponse<T>`: `{success: true, data}` or `{success: false, error}`; a failed
   * validation also sends its error record as `data`, kept here as `details`.
   */
  datatype ApiResponse<T, E> = Success(data: T) | Failure(error: string, details: Option<E>) {
    /** the `success` flag */
    predicate IsSuccess() {
      Success?
    }
  }

  /** `toErrorResponse(message)` */
  function ToErrorResponse<T, E>(message: string): (r: ApiResponse<T, E>)
    ensures !r.IsSuccess() && r.error == message && r.details.None?
  {
    Failure(message, None)
  }

  /** `Pagination<T>` */
  datatype Paginated<T> = Paginated(items: seq<T>, total: int, page: int, limit: int)

  /** What an awaited list query hands back: rows and the exact count, an error, or a thrown exception. */
  datatype ListOutcome<T> = Rows(data: seq<T>, count: Option<int>) | ListError(message: string) | ListThrew

  /** What an awaited `.single()` query hands back: the row, an error with its HTTP status, or a throw. */
  datatype SingleOutcome<T> = Row(row: T) | RowError(status: int, message: string) | RowThrew

  const DefaultLimit := 20

  /** The page, the limit and the inclusive row range `[from, to]` a listing asks for. */
  datatype PageRange = PageRange(page: int, limit: int, from: int, to: int)

  /**
   * `limit = filters.limit ?? 20; page = Math.max(1, filters.page ?? 1);
   * from = (page - 1) * limit; to = from + limit - 1`.
   */
  function PageRangeOf(page: Option<int>, limit: Option<int>): (r: PageRange)
    ensures r.page >= 1 && r.limit == limit.GetOr(DefaultLimit)
    ensures page.None? || page.value <= 1 ==> r.page == 1
    ensures page.Some? && page.value >= 1 ==> r.page == page.value
    ensures r.to - r.from + 1 == r.limit
    ensures r.page == 1 ==> r.from == 0
  {
    var l := limit.GetOr(DefaultLimit);
    var p := if page.GetOr(1) < 1 then 1 else page.GetOr(1);
    var from := (p - 1) * l;
    PageRange(p, l, from, from + l - 1)
  }

  /** Page p + 1 starts on the row after the last row of page p. */
  lemma ConsecutivePagesContiguous(p: int, limit: Option<int>)
    requires p >= 1
    ensures PageRangeOf(Some(p), limit).to + 1 == PageRangeOf(Some(p + 1), limit).from
  {
    var l := limit.GetOr(DefaultLimit);
    assert (p + 1 - 1) * l == (p - 1) * l + l;
  }

  lemma {:induction false} MulMonotone(a: int, b: int, l: int)
    requires a <= b && l >= 0
    ensures a * l <= b * l
    decreases b - a
  {
    if a < b {
      MulMonotone(a, b - 1, l);
      assert b * l == (b - 1) * l + l;
    }
  }

  /** With a positive limit, an earlier page's rows all come before a later page's. */
  lemma EarlierPagesComeFirst(p: int, q: int, limit: Option<int>)
    requires 1 <= p < q && limit.GetOr(DefaultLimit) > 0
    ensures PageRangeOf(Some(p), limit).to < PageRangeOf(Some(q), limit).from
  {
    var l := limit.GetOr(DefaultLimit);
    ConsecutivePagesContiguous(p, limit);
    MulMonotone(p, q - 1, l);
  }

  /** The listing payload: the rows, `count ?? items.length`, and the page and limit asked for. */
  function AssemblePage<T>(rows: seq<T>, count: Option<int>, range: PageRange): (r: Paginated<T>)
    ensures r.items == rows && r.page == range.page && r.limit == range.limit
    ensures count.Some? ==> r.total == count.value
    ensures count.None? ==> r.total == |rows|
  {
    Paginated(rows, count.GetOr(|rows|), range.page, range.limit)
  }
}
