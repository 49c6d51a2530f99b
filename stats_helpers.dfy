/**
 * The sales statistics of src/features/stats/stats.helpers.ts: orders grouped
 * by day into a chart sorted by date, and the revenue / count / average-check
 * summary. `normalizeDate` (a `Date` round trip) is a parameter.
 */
module StatsHelpers {
  import opened Wrappers
  import opened OrderTypes
  import Api

  /** One chart point: a day, the revenue of that day and the number of its orders. */
  datatype SalesPoint = SalesPoint(date: string, total: int, orders: int)

  datatype StatsSummary = StatsSummary(totalRevenue: int, totalOrders: int, averageCheck: int)

  /** The running `{ total, orders }` value the grouping keeps per day. */
  datatype Acc = Acc(total: int, orders: int)

  /** `normalizeDate(order.created_at ?? "")` */
  function DateOf(o: Order, normalizeDate: string -> string): string {
    normalizeDate(o.created_at.GetOr(""))
  }

  // ------------------------------------------------------------ tallies

  function One(o: Order): int {
    1
  }

  function TotalOf(o: Order): int {
    o.total
  }

  /** The sum of `weight` over the first n orders. */
  function Weight(orders: seq<Order>, n: nat, weight: Order -> int): int
    requires n <= |orders|
  {
    if n == 0 then 0 else Weight(orders, n - 1, weight) + weight(orders[n - 1])
  }

  /** `orders.reduce((s, o) => s + o.total, 0)` */
  function TotalRevenue(orders: seq<Order>): int {
    Weight(orders, |orders|, TotalOf)
  }

  /** Counting every order once gives the number of orders. */
  lemma {:induction false} WeightOne(orders: seq<Order>, n: nat)
    requires n <= |orders|
    ensures Weight(orders, n, One) == n
  {
    if n > 0 {
      WeightOne(orders, n - 1);
    }
  }

  /** The sum of `weight` over those of the first n orders that fall on day d. */
  function Tally(orders: seq<Order>, normalizeDate: string -> string, d: string, n: nat, weight: Order -> int): int
    requires n <= |orders|
  {
    if n == 0 then 0
    else Tally(orders, normalizeDate, d, n - 1, weight)
         + (if DateOf(orders[n - 1], normalizeDate) == d then weight(orders[n - 1]) else 0)
  }

  lemma TallyStep(orders: seq<Order>, normalizeDate: string -> string, d: string, n: nat, weight: Order -> int)
    requires n < |orders|
    ensures Tally(orders, normalizeDate, d, n + 1, weight)
      == Tally(orders, normalizeDate, d, n, weight) + (if DateOf(orders[n], normalizeDate) == d then weight(orders[n]) else 0)
  {
  }

  /** A day none of the first n orders falls on tallies to zero. */
  lemma {:induction false} TallyAbsent(orders: seq<Order>, normalizeDate: string -> string, d: string, n: nat, weight: Order -> int)
    requires n <= |orders|
    requires forall j :: 0 <= j < n ==> DateOf(orders[j], normalizeDate) != d
    ensures Tally(orders, normalizeDate, d, n, weight) == 0
  {
    if n > 0 {
      TallyAbsent(orders, normalizeDate, d, n - 1, weight);
    }
  }

  /** A day with at least one order has a positive count. */
  lemma {:induction false} TallyOnePositive(orders: seq<Order>, normalizeDate: string -> string, d: string, n: nat)
    requires n <= |orders|
    ensures Tally(orders, normalizeDate, d, n, One) >= 0
    ensures Tally(orders, normalizeDate, d, n, One) > 0 <==>
      exists j :: 0 <= j < n && DateOf(orders[j], normalizeDate) == d
  {
    if n > 0 {
      TallyOnePositive(orders, normalizeDate, d, n - 1);
    }
  }

  // ------------------------------------------------------------ date order

  /** Code-point lexicographic order on date keys. */
  predicate DateLess(a: string, b: string) {
    if a == [] then b != []
    else if b == [] then false
    else if a[0] != b[0] then a[0] < b[0]
    else DateLess(a[1..], b[1..])
  }

  lemma {:induction false} DateLessIrreflexive(a: string)
    ensures !DateLess(a, a)
  {
    if a != [] {
      DateLessIrreflexive(a[1..]);
    }
  }

  lemma {:induction false} DateLessTransitive(a: string, b: string, c: string)
    requires DateLess(a, b) && DateLess(b, c)
    ensures DateLess(a, c)
  {
    if a != [] && b != [] && c != [] && a[0] == b[0] && b[0] == c[0] {
      DateLessTransitive(a[1..], b[1..], c[1..]);
    }
  }

  lemma {:induction false} DateLessTotal(a: string, b: string)
    requires a != b
    ensures DateLess(a, b) || DateLess(b, a)
  {
    if a != [] && b != [] && a[0] == b[0] {
      assert a == [a[0]] + a[1..] && b == [b[0]] + b[1..];
      DateLessTotal(a[1..], b[1..]);
    }
  }

  /** Strictly ascending by date: in particular no day appears twice. */
  predicate StrictlySorted(s: seq<SalesPoint>) {
    forall i, j :: 0 <= i < j < |s| ==> DateLess(s[i].date, s[j].date)
  }

  /** Place p, whose day is not yet in s, at its position in s. */
  function InsertSorted(p: SalesPoint, s: seq<SalesPoint>): (r: seq<SalesPoint>)
    requires StrictlySorted(s)
    requires forall q :: q in s ==> q.date != p.date
    ensures StrictlySorted(r)
    ensures forall q :: q in r <==> q == p || q in s
    ensures |r| == |s| + 1
  {
    if s == [] then [p]
    else if DateLess(p.date, s[0].date) then
      PrependSorted(p, s);
      [p] + s
    else
      DateLessTotal(p.date, s[0].date);
      var rest := InsertSorted(p, s[1..]);
      assert forall q :: q in rest ==> DateLess(s[0].date, q.date);
      [s[0]] + rest
  }

  lemma PrependSorted(p: SalesPoint, s: seq<SalesPoint>)
    requires StrictlySorted(s) && s != [] && DateLess(p.date, s[0].date)
    ensures StrictlySorted([p] + s)
  {
    forall j | 0 < j < |s|
      ensures DateLess(p.date, s[j].date)
    {
      DateLessTransitive(p.date, s[0].date, s[j].date);
    }
  }

  // ------------------------------------------------------------ the chart

  /**
   * What `groupOrdersByDay` promises: strictly ascending days, each point carrying
   * the count and revenue of its day's orders, and a point for every order's day.
   */
  predicate IsChartOf(chart: seq<SalesPoint>, orders: seq<Order>, normalizeDate: string -> string) {
    && StrictlySorted(chart)
    && (forall p :: p in chart ==>
          && p.orders == Tally(orders, normalizeDate, p.date, |orders|, One)
          && p.total == Tally(orders, normalizeDate, p.date, |orders|, TotalOf)
          && p.orders > 0)
    && (forall j :: 0 <= j < |orders| ==> exists p :: p in chart && p.date == DateOf(orders[j], normalizeDate))
  }

  /** No day has two points. */
  lemma OnePointPerDay(chart: seq<SalesPoint>, orders: seq<Order>, normalizeDate: string -> string)
    requires IsChartOf(chart, orders, normalizeDate)
    ensures forall i, j :: 0 <= i < j < |chart| ==> chart[i].date != chart[j].date
  {
    forall i, j | 0 <= i < j < |chart|
      ensures chart[i].date != chart[j].date
    {
      DateLessIrreflexive(chart[i].date);
    }
  }

  /** `groupOrdersByDay` */
  method GroupOrdersByDay(orders: seq<Order>, normalizeDate: string -> string) returns (chart: seq<SalesPoint>)
    ensures IsChartOf(chart, orders, normalizeDate)
    ensures orders == [] ==> chart == []
  {
    var m, keys := Accumulate(orders, normalizeDate);
    var points := Entries(m, keys);
    chart := SortByDate(points);
    forall j | 0 <= j < |orders|
      ensures exists p :: p in chart && p.date == DateOf(orders[j], normalizeDate)
    {
      var d := DateOf(orders[j], normalizeDate);
      var t :| 0 <= t < |keys| && keys[t] == d;
      assert points[t] in chart;
    }
  }

  /** The loop that fills the Map: per day, the revenue and the count; the days in first-seen order. */
  method Accumulate(orders: seq<Order>, normalizeDate: string -> string) returns (m: map<string, Acc>, keys: seq<string>)
    ensures forall k :: k in m <==> k in keys
    ensures |keys| <= |orders|
    ensures forall a, b :: 0 <= a < b < |keys| ==> keys[a] != keys[b]
    ensures forall k :: k in m ==>
      m[k] == Acc(Tally(orders, normalizeDate, k, |orders|, TotalOf), Tally(orders, normalizeDate, k, |orders|, One))
    ensures forall k :: k in m ==> m[k].orders > 0
    ensures forall j :: 0 <= j < |orders| ==> DateOf(orders[j], normalizeDate) in m
  {
    m := map[];
    keys := [];
    var i := 0;
    while i < |orders|
      invariant 0 <= i <= |orders|
      invariant forall k :: k in m <==> k in keys
      invariant |keys| <= i
      invariant forall a, b :: 0 <= a < b < |keys| ==> keys[a] != keys[b]
      invariant forall k :: k in m ==>
        m[k] == Acc(Tally(orders, normalizeDate, k, i, TotalOf), Tally(orders, normalizeDate, k, i, One))
      invariant forall k :: k in m ==> m[k].orders > 0
      invariant forall j :: 0 <= j < i ==> DateOf(orders[j], normalizeDate) in m
    {
      var date := DateOf(orders[i], normalizeDate);
      var value := if date in m then m[date] else Acc(0, 0);
      value := Acc(value.total + orders[i].total, value.orders + 1);
      if date !in m {
        TallyAbsent(orders, normalizeDate, date, i, TotalOf);
        TallyAbsent(orders, normalizeDate, date, i, One);
        assert forall a :: 0 <= a < |keys| ==> keys[a] != date;
        keys := keys + [date];
      }
      ghost var before := m;
      m := m[date := value];
      forall k | k in m
        ensures m[k] == Acc(Tally(orders, normalizeDate, k, i + 1, TotalOf), Tally(orders, normalizeDate, k, i + 1, One))
        ensures m[k].orders > 0
      {
        TallyStep(orders, normalizeDate, k, i, TotalOf);
        TallyStep(orders, normalizeDate, k, i, One);
        if k != date {
          assert m[k] == before[k];
        }
      }
      i := i + 1;
    }
  }

  /** `Array.from(map.entries()).map(...)`: one point per key, in key order. */
  method Entries(m: map<string, Acc>, keys: seq<string>) returns (points: seq<SalesPoint>)
    requires forall k :: k in keys ==> k in m
    ensures |points| == |keys|
    ensures forall t :: 0 <= t < |keys| ==> points[t] == SalesPoint(keys[t], m[keys[t]].total, m[keys[t]].orders)
  {
    points := [];
    var t := 0;
    while t < |keys|
      invariant 0 <= t <= |keys|
      invariant |points| == t
      invariant forall u :: 0 <= u < t ==> points[u] == SalesPoint(keys[u], m[keys[u]].total, m[keys[u]].orders)
    {
      points := points + [SalesPoint(keys[t], m[keys[t]].total, m[keys[t]].orders)];
      t := t + 1;
    }
  }

  /** `.sort((a, b) => a.date.localeCompare(b.date))` on points whose days are distinct. */
  method SortByDate(points: seq<SalesPoint>) returns (chart: seq<SalesPoint>)
    requires forall a, b :: 0 <= a < b < |points| ==> points[a].date != points[b].date
    ensures StrictlySorted(chart)
    ensures forall p :: p in chart <==> p in points
    ensures |chart| == |points|
  {
    chart := [];
    var t := 0;
    while t < |points|
      invariant 0 <= t <= |points|
      invariant StrictlySorted(chart)
      invariant forall p :: p in chart <==> p in points[..t]
      invariant |chart| == t
    {
      assert forall q :: q in chart ==> q.date != points[t].date;
      chart := InsertSorted(points[t], chart);
      assert points[..t + 1] == points[..t] + [points[t]];
      t := t + 1;
    }
    assert points[..t] == points;
  }

  // ------------------------------------------------------------ totals

  function PointOrders(p: SalesPoint): int {
    p.orders
  }

  function PointTotal(p: SalesPoint): int {
    p.total
  }

  /** The sum of `field` over the chart's points. */
  function ChartSum(chart: seq<SalesPoint>, field: SalesPoint -> int): int {
    if chart == [] then 0 else field(chart[0]) + ChartSum(chart[1..], field)
  }

  /** The sum over the days ds of each day's tally. */
  function SumTally(ds: seq<string>, orders: seq<Order>, normalizeDate: string -> string, n: nat, weight: Order -> int): int
    requires n <= |orders|
  {
    if ds == [] then 0
    else Tally(orders, normalizeDate, ds[0], n, weight) + SumTally(ds[1..], orders, normalizeDate, n, weight)
  }

  predicate Distinct(ds: seq<string>) {
    forall a, b :: 0 <= a < b < |ds| ==> ds[a] != ds[b]
  }

  lemma {:induction false} SumTallyNone(ds: seq<string>, orders: seq<Order>, normalizeDate: string -> string, weight: Order -> int)
    ensures SumTally(ds, orders, normalizeDate, 0, weight) == 0
  {
    if ds != [] {
      SumTallyNone(ds[1..], orders, normalizeDate, weight);
    }
  }

  /** Adding order n - 1 adds its weight to exactly the day it falls on, if that day is listed. */
  lemma {:induction false} SumTallyStep(ds: seq<string>, orders: seq<Order>, normalizeDate: string -> string, n: nat, weight: Order -> int)
    requires 0 < n <= |orders| && Distinct(ds)
    ensures SumTally(ds, orders, normalizeDate, n, weight)
      == SumTally(ds, orders, normalizeDate, n - 1, weight)
         + (if DateOf(orders[n - 1], normalizeDate) in ds then weight(orders[n - 1]) else 0)
  {
    if ds != [] {
      SumTallyStep(ds[1..], orders, normalizeDate, n, weight);
      var d := DateOf(orders[n - 1], normalizeDate);
      if ds[0] == d {
        assert d !in ds[1..] by {
          forall b | 0 <= b < |ds[1..]|
            ensures ds[1..][b] != d
          {
            assert ds[1..][b] == ds[b + 1];
          }
        }
      } else {
        assert d in ds <==> d in ds[1..];
      }
    }
  }

  /** Over a list of distinct days covering every order, the tallies add up to the whole. */
  lemma {:induction false} SumTallyAll(ds: seq<string>, orders: seq<Order>, normalizeDate: string -> string, n: nat, weight: Order -> int)
    requires n <= |orders| && Distinct(ds)
    requires forall j :: 0 <= j < n ==> DateOf(orders[j], normalizeDate) in ds
    ensures SumTally(ds, orders, normalizeDate, n, weight) == Weight(orders, n, weight)
  {
    if n == 0 {
      SumTallyNone(ds, orders, normalizeDate, weight);
    } else {
      SumTallyAll(ds, orders, normalizeDate, n - 1, weight);
      SumTallyStep(ds, orders, normalizeDate, n, weight);
    }
  }

  /** The chart's days, in chart order. */
  function Dates(chart: seq<SalesPoint>): (ds: seq<string>)
    ensures |ds| == |chart| && forall i :: 0 <= i < |chart| ==> ds[i] == chart[i].date
  {
    if chart == [] then [] else [chart[0].date] + Dates(chart[1..])
  }

  lemma {:induction false} ChartSumIsSumTally(chart: seq<SalesPoint>, field: SalesPoint -> int,
                                              orders: seq<Order>, normalizeDate: string -> string, weight: Order -> int)
    requires forall p :: p in chart ==> field(p) == Tally(orders, normalizeDate, p.date, |orders|, weight)
    ensures ChartSum(chart, field) == SumTally(Dates(chart), orders, normalizeDate, |orders|, weight)
  {
    if chart != [] {
      assert Dates(chart)[1..] == Dates(chart[1..]);
      ChartSumIsSumTally(chart[1..], field, orders, normalizeDate, weight);
    }
  }

  /** Summed over the chart, the counts give the number of orders and the totals the revenue. */
  lemma ChartTotals(chart: seq<SalesPoint>, orders: seq<Order>, normalizeDate: string -> string)
    requires IsChartOf(chart, orders, normalizeDate)
    ensures ChartSum(chart, PointOrders) == |orders|
    ensures ChartSum(chart, PointTotal) == TotalRevenue(orders)
  {
    var ds := Dates(chart);
    forall a, b | 0 <= a < b < |ds|
      ensures ds[a] != ds[b]
    {
      DateLessIrreflexive(ds[a]);
    }
    forall j | 0 <= j < |orders|
      ensures DateOf(orders[j], normalizeDate) in ds
    {
      var p :| p in chart && p.date == DateOf(orders[j], normalizeDate);
      var i :| 0 <= i < |chart| && chart[i] == p;
      assert ds[i] == p.date;
    }
    ChartSumIsSumTally(chart, PointOrders, orders, normalizeDate, One);
    ChartSumIsSumTally(chart, PointTotal, orders, normalizeDate, TotalOf);
    SumTallyAll(ds, orders, normalizeDate, |orders|, One);
    SumTallyAll(ds, orders, normalizeDate, |orders|, TotalOf);
    WeightOne(orders, |orders|);
  }

  // ------------------------------------------------------------ summary

  /** `Math.round(r / n)` for n > 0: the nearest integer, halves rounded up. */
  function RoundHalfUp(r: int, n: int): (avg: int)
    requires n > 0
    ensures 2 * n * avg <= 2 * r + n < 2 * n * (avg + 1)
  {
    var q := (2 * r + n) / (2 * n);
    DivBounds(2 * r + n, 2 * n);
    q
  }

  lemma DivBounds(x: int, d: int)
    requires d > 0
    ensures d * (x / d) <= x < d * (x / d + 1)
  {
    var q, m := x / d, x % d;
    assert x == d * q + m && 0 <= m < d;
    assert d * (q + 1) == d * q + d;
  }

  /** The rounded average is the only integer within half a unit of r / n. */
  lemma RoundUnique(r: int, n: int, a: int)
    requires n > 0
    requires 2 * n * a <= 2 * r + n < 2 * n * (a + 1)
    ensures RoundHalfUp(r, n) == a
  {
    var avg := RoundHalfUp(r, n);
    if avg < a {
      Api.MulMonotone(avg + 1, a, 2 * n);
    } else if avg > a {
      Api.MulMonotone(a + 1, avg, 2 * n);
    }
  }

  /** When n divides r, the average is exact. */
  lemma RoundExact(k: int, n: int)
    requires n > 0
    ensures RoundHalfUp(k * n, n) == k
  {
    assert 2 * n * (k + 1) == 2 * (k * n) + 2 * n;
    RoundUnique(k * n, n, k);
  }

  /** `buildStatsSummary` */
  function BuildStatsSummary(orders: seq<Order>): (s: StatsSummary)
    ensures s.totalOrders == |orders| && s.totalRevenue == TotalRevenue(orders)
    ensures orders == [] ==> s == StatsSummary(0, 0, 0)
    ensures orders != [] ==>
      2 * |orders| * s.averageCheck <= 2 * s.totalRevenue + |orders| < 2 * |orders| * (s.averageCheck + 1)
  {
    var totalOrders := |orders|;
    var totalRevenue := TotalRevenue(orders);
    StatsSummary(totalRevenue, totalOrders, if totalOrders > 0 then RoundHalfUp(totalRevenue, totalOrders) else 0)
  }
}
