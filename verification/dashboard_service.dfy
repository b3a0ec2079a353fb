/**
 * DashboardServiceImpl: read-only aggregates over orders and products.
 * The DAO queries are not modelled as code: each operation receives the
 * rows a query would return (all orders, all products with their Stock)
 * and the query's WHERE clause is a filter here. Money is in cents, as in
 * the rest of the model; the two divisions round half-up to cents.
 */
module DashboardService {
  import opened Wrappers
  import opened Ledger
  import opened Store
  import Money
  import E = Entities

  const START_NULL := "Start date cannot be null"
  const END_NULL := "End date cannot be null"
  const START_AFTER_END := "Start date cannot be after end date"
  const LIMIT_NOT_POSITIVE := "Limit must be greater than zero"
  const GROUP_BY_EMPTY := "Group by parameter cannot be empty"
  const GROUP_BY_UNKNOWN := "Group by parameter must be one of: day, week, month, year"
  const RECENT_ACTIVITY_FAILED := "Failed to get recent activity"
  const ATTENTION_FAILED := "Failed to get orders requiring attention"
  const ORDER_ACTIVITY := "ORDER"

  /** A stored customer order with its generated id. */
  datatype Order = Order(id: int, row: OrderRow)

  /** A stored product with its generated id and its Stock, if it has one. */
  datatype StockedProduct = StockedProduct(id: int, row: ProductRow, stock: Option<StockRow>)

  function OrderDate(o: Order): Time { o.row.orderDate }

  /* ---------------------------------------------------------------- */
  /* Generic list helpers: filter, stable insertion sort, prefix       */
  /* ---------------------------------------------------------------- */

  /** The elements that pass `keep`, in order. */
  function Where<T(!new)>(xs: seq<T>, keep: T -> bool): (r: seq<T>)
    ensures forall x :: x in r <==> x in xs && keep(x)
    ensures multiset(r) <= multiset(xs)
    ensures |r| <= |xs|
  {
    if xs == [] then []
    else
      assert xs == [xs[0]] + xs[1..];
      (if keep(xs[0]) then [xs[0]] else []) + Where(xs[1..], keep)
  }

  predicate SortedBy<T>(xs: seq<T>, key: T -> int)
  {
    forall i, j :: 0 <= i < j < |xs| ==> key(xs[i]) <= key(xs[j])
  }

  /** Puts `x` in front of the first element whose key is not smaller. */
  function Insert<T>(x: T, xs: seq<T>, key: T -> int): (r: seq<T>)
    requires SortedBy(xs, key)
    ensures SortedBy(r, key)
    ensures multiset(r) == multiset(xs) + multiset{x}
    ensures |r| == |xs| + 1
  {
    if xs == [] || key(x) <= key(xs[0]) then [x] + xs
    else
      var rest := Insert(x, xs[1..], key);
      assert xs == [xs[0]] + xs[1..];
      HeadBelowRest(x, xs, rest, key);
      [xs[0]] + rest
  }

  /** Whatever is made of the tail of a sorted list and a larger element stays above its head. */
  lemma HeadBelowRest<T>(x: T, xs: seq<T>, rest: seq<T>, key: T -> int)
    requires SortedBy(xs, key) && xs != [] && key(xs[0]) < key(x)
    requires multiset(rest) == multiset(xs[1..]) + multiset{x}
    ensures forall k :: 0 <= k < |rest| ==> key(xs[0]) <= key(rest[k])
  {
    forall k | 0 <= k < |rest|
      ensures key(xs[0]) <= key(rest[k])
    {
      var y := rest[k];
      assert y in multiset(rest);
      if y != x {
        assert y in multiset(xs[1..]);
        var j :| 0 <= j < |xs[1..]| && xs[1..][j] == y;
        assert xs[j + 1] == y;
      }
    }
  }

  /**
   * Stream.sorted with a key comparator: an ascending rearrangement of
   * the input (insertion sort, stable like the library's merge sort).
   */
  function SortBy<T>(xs: seq<T>, key: T -> int): (r: seq<T>)
    ensures SortedBy(r, key)
    ensures multiset(r) == multiset(xs)
    ensures |r| == |xs|
  {
    if xs == [] then []
    else
      assert xs == [xs[0]] + xs[1..];
      Insert(xs[0], SortBy(xs[1..], key), key)
  }

  /** Stream.limit(n): the first n elements, or all of them. */
  function Take<T>(xs: seq<T>, n: int): (r: seq<T>)
    ensures |r| <= |xs| && (n >= 0 ==> |r| <= n)
    ensures n >= 0 ==> |r| == if n < |xs| then n else |xs|
    ensures n >= |xs| ==> r == xs
    ensures forall i :: 0 <= i < |r| ==> r[i] == xs[i]
  {
    if n <= 0 then [] else if n >= |xs| then xs else xs[..n]
  }

  /* ---------------------------------------------------------------- */
  /* Argument checks                                                   */
  /* ---------------------------------------------------------------- */

  /**
   * The date-range check shared by the date-range operations: both bounds
   * present and the start not after the end, else the first failing
   * message.
   */
  function DateRangeError(start: Option<Time>, end: Option<Time>): (r: Option<string>)
    ensures r.None? <==> start.Some? && end.Some? && start.value <= end.value
    ensures r.Some? ==> r.value in {START_NULL, END_NULL, START_AFTER_END}
  {
    if start.None? then Some(START_NULL)
    else if end.None? then Some(END_NULL)
    else if start.value > end.value then Some(START_AFTER_END)
    else None
  }

  /**
   * getTopSellingProducts: the date range and a positive limit; the
   * ranking query does not exist, so a valid call answers an empty list.
   */
  function TopSellingProducts(start: Option<Time>, end: Option<Time>, limit: int): (r: Outcome<seq<Order>>)
    ensures r.Ok? <==> DateRangeError(start, end).None? && limit > 0
    ensures r.Ok? ==> r.value == []
    ensures DateRangeError(start, end).Some? ==> r == Err(Service(DateRangeError(start, end).value))
    ensures DateRangeError(start, end).None? && limit <= 0 ==> r == Err(Service(LIMIT_NOT_POSITIVE))
  {
    match DateRangeError(start, end)
    case Some(m) => Err(Service(m))
    case None => if limit <= 0 then Err(Service(LIMIT_NOT_POSITIVE)) else Ok([])
  }

  /**
   * getSalesByTimePeriod: the date range and a grouping among day, week,
   * month and year; a valid call answers an empty list.
   */
  function SalesByTimePeriod(start: Option<Time>, end: Option<Time>, groupBy: Option<string>): (r: Outcome<seq<Order>>)
    ensures r.Ok? <==> DateRangeError(start, end).None? && groupBy.Some?
                       && groupBy.value in {"day", "week", "month", "year"}
    ensures r.Ok? ==> r.value == []
    ensures DateRangeError(start, end).None? && (groupBy.None? || groupBy.value == "") ==> r == Err(Service(GROUP_BY_EMPTY))
  {
    match DateRangeError(start, end)
    case Some(m) => Err(Service(m))
    case None =>
      if groupBy.None? || groupBy.value == "" then Err(Service(GROUP_BY_EMPTY))
      else if groupBy.value !in {"day", "week", "month", "year"} then Err(Service(GROUP_BY_UNKNOWN))
      else Ok([])
  }

  /** getSalesByCategory: the date range only; a valid call answers an empty map. */
  function SalesByCategory(start: Option<Time>, end: Option<Time>): (r: Outcome<map<string, int>>)
    ensures r.Ok? <==> DateRangeError(start, end).None?
    ensures r.Ok? ==> r.value == map[]
  {
    match DateRangeError(start, end)
    case Some(m) => Err(Service(m))
    case None => Ok(map[])
  }

  /* ---------------------------------------------------------------- */
  /* getSalesStatistics                                                */
  /* ---------------------------------------------------------------- */

  /** The WHERE clause of findByDateRange: order dates between the bounds, inclusive. */
  function InRange(orders: seq<Order>, start: Time, end: Time): (r: seq<Order>)
    ensures forall o :: o in r <==> o in orders && start <= o.row.orderDate <= end
  {
    Where(orders, (o: Order) => start <= o.row.orderDate <= end)
  }

  /** Newest first: sorting ascending on the negated order date. */
  function NewestFirst(o: Order): int { -o.row.orderDate }

  /** CustomerOrderDao.findByDateRange: the orders in range, newest first. */
  function FindByDateRange(orders: seq<Order>, start: Time, end: Time): (r: seq<Order>)
    ensures SortedBy(r, NewestFirst)
    ensures multiset(r) == multiset(InRange(orders, start, end))
    ensures forall o :: o in r <==> o in orders && start <= o.row.orderDate <= end
  {
    var r := SortBy(InRange(orders, start, end), NewestFirst);
    assert forall o :: o in r <==> o in InRange(orders, start, end) by {
      forall o ensures o in r <==> o in InRange(orders, start, end) {
        assert o in r <==> o in multiset(r);
      }
    }
    r
  }

  /** The sum of the order totals (the column is never null). */
  function TotalSales(orders: seq<Order>): int
    decreases |orders|
  {
    if orders == [] then 0 else TotalSales(orders[..|orders| - 1]) + orders[|orders| - 1].row.totalAmount
  }

  /** Totals are never negative, so neither is their sum. */
  lemma {:induction false} TotalSalesNonNegative(orders: seq<Order>)
    requires forall i :: 0 <= i < |orders| ==> orders[i].row.totalAmount >= 0
    ensures TotalSales(orders) >= 0
    decreases |orders|
  {
    if orders != [] {
      TotalSalesNonNegative(orders[..|orders| - 1]);
    }
  }

  /** How many of the orders have status `s`. */
  function CountOf(orders: seq<Order>, s: OrderStatus): (n: nat)
    ensures n <= |orders|
    ensures n == 0 <==> forall i :: 0 <= i < |orders| ==> orders[i].row.status != s
    decreases |orders|
  {
    if orders == [] then 0
    else CountOf(orders[..|orders| - 1], s) + if orders[|orders| - 1].row.status == s then 1 else 0
  }

  /** groupingBy(status, counting()): one entry per status that occurs. */
  function CountByStatus(orders: seq<Order>): (m: map<OrderStatus, nat>)
    ensures forall s :: s in m <==> exists i :: 0 <= i < |orders| && orders[i].row.status == s
    ensures forall s :: s in m ==> m[s] == CountOf(orders, s) && m[s] > 0
  {
    map s | s in (set o | o in orders :: o.row.status) :: CountOf(orders, s)
  }

  /** A status's count in the map, zero when absent. */
  function CountIn(m: map<OrderStatus, nat>, s: OrderStatus): nat
  {
    if s in m then m[s] else 0
  }

  /** The counts of the six statuses added up. */
  function SumOfCounts(m: map<OrderStatus, nat>): nat
  {
    CountIn(m, PENDING) + CountIn(m, PAID) + CountIn(m, PROCESSING)
    + CountIn(m, SHIPPED) + CountIn(m, DELIVERED) + CountIn(m, CANCELLED)
  }

  function SixCounts(orders: seq<Order>): nat
  {
    CountOf(orders, PENDING) + CountOf(orders, PAID) + CountOf(orders, PROCESSING)
    + CountOf(orders, SHIPPED) + CountOf(orders, DELIVERED) + CountOf(orders, CANCELLED)
  }

  lemma {:induction false} SixCountsIsLength(orders: seq<Order>)
    ensures SixCounts(orders) == |orders|
    decreases |orders|
  {
    if orders != [] {
      SixCountsIsLength(orders[..|orders| - 1]);
    }
  }

  /** Every order is counted under exactly one status: the counts add up to the order count. */
  lemma StatusCountsSumToOrderCount(orders: seq<Order>)
    ensures SumOfCounts(CountByStatus(orders)) == |orders|
  {
    var m := CountByStatus(orders);
    forall s | true
      ensures CountIn(m, s) == CountOf(orders, s)
    {
      if s !in m {
        assert forall i :: 0 <= i < |orders| ==> orders[i].row.status != s;
      }
    }
    SixCountsIsLength(orders);
  }

  /** The statistics map of getSalesStatistics. */
  datatype SalesStatistics = SalesStatistics(
    totalSales: int,
    orderCount: nat,
    averageOrderValue: int,
    ordersByStatus: map<OrderStatus, nat>,
    dailyAverageSales: Option<int>)

  /**
   * What the statistics say about the orders in range: their total, their
   * number, the average order value rounded half-up to cents (zero for no
   * orders), the per-status counts adding up to the number of orders, and
   * the daily average over `days` calendar days when that is positive.
   */
  predicate Describes(st: SalesStatistics, orders: seq<Order>, days: int)
  {
    && st.totalSales == TotalSales(orders)
    && st.orderCount == |orders|
    && (|orders| == 0 ==> st.averageOrderValue == 0)
    && (|orders| > 0 ==> st.averageOrderValue == Money.HalfUp(st.totalSales, |orders|))
    && (|orders| > 0 ==> 2 * Money.Abs(st.totalSales - st.averageOrderValue * |orders|) <= |orders|)
    && st.ordersByStatus == CountByStatus(orders)
    && SumOfCounts(st.ordersByStatus) == st.orderCount
    && (days > 0 ==> st.dailyAverageSales == Some(Money.HalfUp(st.totalSales, days)))
    && (days <= 0 ==> st.dailyAverageSales.None?)
  }

  /**
   * The body of getSalesStatistics once the range is checked: the loop
   * summing the totals, then the two half-up divisions and the grouping.
   */
  method SalesStatisticsOf(orders: seq<Order>, daysBetween: int) returns (st: SalesStatistics)
    ensures Describes(st, orders, daysBetween)
  {
    var totalSales := 0;
    var orderCount := |orders|;
    for i := 0 to |orders|
      invariant totalSales == TotalSales(orders[..i])
    {
      assert orders[..i + 1][..i] == orders[..i];
      totalSales := totalSales + orders[i].row.totalAmount;
    }
    assert orders[..|orders|] == orders;
    var averageOrderValue := 0;
    if orderCount > 0 {
      averageOrderValue := Money.HalfUp(totalSales, orderCount);
    }
    var ordersByStatus := CountByStatus(orders);
    StatusCountsSumToOrderCount(orders);
    var dailyAverage := None;
    if daysBetween > 0 {
      dailyAverage := Some(Money.HalfUp(totalSales, daysBetween));
    }
    st := SalesStatistics(totalSales, orderCount, averageOrderValue, ordersByStatus, dailyAverage);
  }

  /**
   * getSalesStatistics: the date-range check, then the statistics of the
   * orders in range; the day count spans the calendar days of the two
   * bounds (`dayOf` is the date part of a timestamp, counted in days).
   */
  method GetSalesStatistics(start: Option<Time>, end: Option<Time>, allOrders: seq<Order>, dayOf: Time -> int)
    returns (r: Outcome<SalesStatistics>)
    ensures r.Err? <==> DateRangeError(start, end).Some?
    ensures r.Err? ==> r.failure == Service(DateRangeError(start, end).value)
    ensures r.Ok? ==> Describes(r.value, FindByDateRange(allOrders, start.value, end.value),
                                dayOf(end.value) - dayOf(start.value) + 1)
  {
    var check := DateRangeError(start, end);
    if check.Some? {
      return Err(Service(check.value));
    }
    var orders := FindByDateRange(allOrders, start.value, end.value);
    var daysBetween := dayOf(end.value) - dayOf(start.value) + 1;
    var st := SalesStatisticsOf(orders, daysBetween);
    r := Ok(st);
  }

  /* ---------------------------------------------------------------- */
  /* getInventoryValuation                                             */
  /* ---------------------------------------------------------------- */

  /** A product's stock value: price times quantity, nothing without a Stock. */
  function StockValue(p: StockedProduct): int
  {
    if p.stock.Some? then p.row.unitPrice * p.stock.value.quantityAvailable else 0
  }

  /** The sum of the stock values. */
  function Valuation(products: seq<StockedProduct>): int
    decreases |products|
  {
    if products == [] then 0 else Valuation(products[..|products| - 1]) + StockValue(products[|products| - 1])
  }

  /** The products that have a Stock. */
  function Stocked(products: seq<StockedProduct>): (r: seq<StockedProduct>)
    ensures forall p :: p in r <==> p in products && p.stock.Some?
    decreases |products|
  {
    if products == [] then []
    else
      var last := products[|products| - 1];
      Stocked(products[..|products| - 1]) + if last.stock.Some? then [last] else []
  }

  /** Products without a Stock add nothing: the valuation is that of the stocked products alone. */
  lemma {:induction false} ValuationOfStockedOnly(products: seq<StockedProduct>)
    ensures Valuation(products) == Valuation(Stocked(products))
    decreases |products|
  {
    if products != [] {
      var init, last := products[..|products| - 1], products[|products| - 1];
      ValuationOfStockedOnly(init);
      if last.stock.Some? {
        var s := Stocked(init) + [last];
        assert s[..|s| - 1] == Stocked(init);
      } else {
        assert Stocked(products) == Stocked(init);
      }
    }
  }

  /** With positive prices and non-negative quantities the valuation is non-negative. */
  lemma {:induction false} ValuationNonNegative(products: seq<StockedProduct>)
    requires forall i :: 0 <= i < |products| ==> products[i].row.unitPrice > 0
    requires forall i :: 0 <= i < |products| && products[i].stock.Some? ==> products[i].stock.value.quantityAvailable >= 0
    ensures Valuation(products) >= 0
    decreases |products|
  {
    if products != [] {
      ValuationNonNegative(products[..|products| - 1]);
      var last := products[|products| - 1];
      if last.stock.Some? {
        assert last.row.unitPrice * last.stock.value.quantityAvailable >= 0;
      }
    }
  }

  /**
   * getInventoryValuation: the loop over all products, adding price times
   * available quantity for each product that has a Stock (the price column
   * is never null).
   */
  method GetInventoryValuation(products: seq<StockedProduct>) returns (totalValue: int)
    ensures totalValue == Valuation(products)
  {
    totalValue := 0;
    for i := 0 to |products|
      invariant totalValue == Valuation(products[..i])
    {
      assert products[..i + 1][..i] == products[..i];
      var product := products[i];
      if product.stock.Some? {
        totalValue := totalValue + product.row.unitPrice * product.stock.value.quantityAvailable;
      }
    }
    assert products[..|products|] == products;
  }

  /* ---------------------------------------------------------------- */
  /* getStockAlerts                                                    */
  /* ---------------------------------------------------------------- */

  /** ProductDaoImpl.findOutOfStockProducts over the stocked products. */
  predicate OutOfStockProduct(p: StockedProduct)
  {
    p.stock.Some? && IsOutOfStock(p.stock.value)
  }

  /** ProductDaoImpl.findLowStockProducts over the stocked products. */
  predicate LowStockProduct(p: StockedProduct)
  {
    p.stock.Some? && IsLowStock(p.row, p.stock.value)
  }

  function Ids(ps: seq<StockedProduct>): set<int>
  {
    set p | p in ps :: p.id
  }

  predicate DistinctIds(ps: seq<StockedProduct>)
  {
    forall i, j :: 0 <= i < j < |ps| ==> ps[i].id != ps[j].id
  }

  /**
   * Stream.distinct on products that are all stored (their ids and SKUs
   * unique, so equality is equality of ids): the first occurrence of each
   * id, in order.
   */
  function Distinct(ps: seq<StockedProduct>): (r: seq<StockedProduct>)
    ensures DistinctIds(r)
    ensures Ids(r) == Ids(ps)
    ensures forall p :: p in r ==> p in ps
    decreases |ps|
  {
    if ps == [] then []
    else
      var init, last := ps[..|ps| - 1], ps[|ps| - 1];
      var d := Distinct(init);
      assert ps == init + [last];
      assert Ids(ps) == Ids(init) + {last.id};
      if last.id in Ids(d) then d
      else
        assert Ids(d + [last]) == Ids(d) + {last.id};
        assert forall i :: 0 <= i < |d| ==> d[i].id != last.id by {
          forall i | 0 <= i < |d| ensures d[i].id != last.id {
            assert d[i] in d;
          }
        }
        d + [last]
  }

  /** distinct keeps what it has already kept: the result of a prefix is a prefix of the result. */
  lemma {:induction false} DistinctPrefix(a: seq<StockedProduct>, b: seq<StockedProduct>)
    ensures |Distinct(a)| <= |Distinct(a + b)| && Distinct(a + b)[..|Distinct(a)|] == Distinct(a)
    decreases |b|
  {
    if b == [] {
      assert a + b == a;
    } else {
      var b' := b[..|b| - 1];
      DistinctPrefix(a, b');
      assert (a + b)[..|a + b| - 1] == a + b';
    }
  }

  /** distinct leaves a list that already has distinct ids unchanged. */
  lemma {:induction false} DistinctOfDistinct(ps: seq<StockedProduct>)
    requires DistinctIds(ps)
    ensures Distinct(ps) == ps
    decreases |ps|
  {
    if ps != [] {
      var init, last := ps[..|ps| - 1], ps[|ps| - 1];
      DistinctOfDistinct(init);
      assert forall k :: 0 <= k < |init| ==> init[k].id != last.id by {
        forall k | 0 <= k < |init| ensures init[k].id != last.id {
          assert init[k] == ps[k];
        }
      }
      assert last.id !in Ids(init);
      assert ps == init + [last];
    }
  }

  /**
   * getStockAlerts: the out-of-stock products, then the low-stock ones,
   * with repeats dropped.
   */
  function GetStockAlerts(products: seq<StockedProduct>): (r: seq<StockedProduct>)
    ensures DistinctIds(r)
    ensures forall p :: p in r ==> p in products && (OutOfStockProduct(p) || LowStockProduct(p))
    ensures forall p :: p in products && (OutOfStockProduct(p) || LowStockProduct(p)) ==> p.id in Ids(r)
  {
    var out := Where(products, OutOfStockProduct);
    var low := Where(products, LowStockProduct);
    assert forall p :: p in products && (OutOfStockProduct(p) || LowStockProduct(p)) ==> p in out + low;
    Distinct(out + low)
  }

  /**
   * The out-of-stock products come first: when the stored products have
   * distinct ids, the alerts begin with every out-of-stock product in
   * order.
   */
  lemma OutOfStockFirst(products: seq<StockedProduct>)
    requires DistinctIds(products)
    ensures var out := Where(products, OutOfStockProduct);
            |out| <= |GetStockAlerts(products)| && GetStockAlerts(products)[..|out|] == out
  {
    var out := Where(products, OutOfStockProduct);
    var low := Where(products, LowStockProduct);
    WhereKeepsDistinct(products, OutOfStockProduct);
    DistinctOfDistinct(out);
    DistinctPrefix(out, low);
  }

  /** Filtering keeps ids distinct. */
  lemma {:induction false} WhereKeepsDistinct(ps: seq<StockedProduct>, keep: StockedProduct -> bool)
    requires DistinctIds(ps)
    ensures DistinctIds(Where(ps, keep))
    decreases |ps|
  {
    if ps != [] {
      var rest := Where(ps[1..], keep);
      WhereKeepsDistinct(ps[1..], keep);
      if keep(ps[0]) {
        forall k | 0 <= k < |rest| ensures rest[k].id != ps[0].id {
          assert rest[k] in ps[1..];
          var j :| 0 <= j < |ps[1..]| && ps[1..][j] == rest[k];
          assert ps[j + 1] == rest[k];
        }
      }
    }
  }

  /* ---------------------------------------------------------------- */
  /* getOrdersRequiringAttention                                       */
  /* ---------------------------------------------------------------- */

  /**
   * Status.valueOf on the entity's own enum, whose constants are the
   * lowercase pending, processing, shipped, delivered and cancelled.
   */
  function EntityStatusValueOf(name: string): (r: Option<E.OrderStatus>)
    ensures r.Some? ==> name in {"pending", "processing", "shipped", "delivered", "cancelled"}
  {
    if name == "pending" then Some(E.pending)
    else if name == "processing" then Some(E.processing)
    else if name == "shipped" then Some(E.shipped)
    else if name == "delivered" then Some(E.delivered)
    else if name == "cancelled" then Some(E.cancelled)
    else None
  }

  /**
   * The names getOrdersRequiringAttention looks up are all upper case, so
   * against the entity enum the first lookup already throws and the
   * operation can only fail with its generic message.
   */
  lemma AttentionLookupsFail()
    ensures EntityStatusValueOf("PENDING").None?
    ensures EntityStatusValueOf("PAID").None?
    ensures EntityStatusValueOf("PROCESSING").None?
  {
    assert "PENDING"[0] != "pending"[0];
    assert "PROCESSING"[0] != "processing"[0];
  }

  /** getOrdersRequiringAttention as written against the entity enum: the first valueOf throws. */
  function OrdersRequiringAttentionAsWritten(orders: seq<Order>): (r: Outcome<seq<Order>>)
    ensures r == Err(Service(ATTENTION_FAILED))
  {
    AttentionLookupsFail();
    match EntityStatusValueOf("PENDING")
    case None => Err(Service(ATTENTION_FAILED))
    case Some(_) => Ok(orders)
  }

  /** CustomerOrderDao.findByStatus. */
  function WithStatus(orders: seq<Order>, s: OrderStatus): (r: seq<Order>)
    ensures forall o :: o in r <==> o in orders && o.row.status == s
  {
    Where(orders, (o: Order) => o.row.status == s)
  }

  predicate NeedsAttention(o: Order)
  {
    o.row.status in {PENDING, PAID, PROCESSING}
  }

  /**
   * getOrdersRequiringAttention as intended, in the service's status
   * vocabulary: the PENDING, PAID and PROCESSING orders, oldest first.
   */
  function OrdersRequiringAttention(orders: seq<Order>): (r: seq<Order>)
    ensures SortedBy(r, OrderDate)
    ensures forall o :: o in r <==> o in orders && NeedsAttention(o)
    ensures multiset(r) == multiset(WithStatus(orders, PENDING) + WithStatus(orders, PAID) + WithStatus(orders, PROCESSING))
  {
    var all := WithStatus(orders, PENDING) + WithStatus(orders, PAID) + WithStatus(orders, PROCESSING);
    var r := SortBy(all, OrderDate);
    assert forall o :: o in r <==> o in all by {
      forall o ensures o in r <==> o in all {
        assert o in r <==> o in multiset(r);
        assert o in all <==> o in multiset(all);
      }
    }
    r
  }

  /* ---------------------------------------------------------------- */
  /* getRecentActivity                                                 */
  /* ---------------------------------------------------------------- */

  /** One entry of the activity feed: its type, its timestamp and the order. */
  datatype Activity = Activity(kind: string, timestamp: Time, data: Order)

  /** Newest first: sorting ascending on the negated timestamp. */
  function Recency(a: Activity): int { -a.timestamp }

  /** The feed entries of the orders, in order. */
  function Activities(orders: seq<Order>): (r: seq<Activity>)
    ensures |r| == |orders|
    ensures forall i :: 0 <= i < |r| ==> r[i] == Activity(ORDER_ACTIVITY, orders[i].row.orderDate, orders[i])
    decreases |orders|
  {
    if orders == [] then []
    else
      var last := orders[|orders| - 1];
      Activities(orders[..|orders| - 1]) + [Activity(ORDER_ACTIVITY, last.row.orderDate, last)]
  }

  /** CustomerOrderDao.findRecentOrders: the `limit` newest orders, newest first. */
  function FindRecentOrders(orders: seq<Order>, limit: int): (r: seq<Order>)
    ensures |r| <= |orders| && (limit >= 0 ==> |r| == if limit < |orders| then limit else |orders|)
    ensures SortedBy(r, NewestFirst)
    ensures multiset(r) <= multiset(orders)
    ensures forall o :: o in r ==> o in orders
    ensures forall o, k :: o in orders && o !in r && 0 <= k < |r| ==> o.row.orderDate <= r[k].row.orderDate
  {
    var sorted := SortBy(orders, NewestFirst);
    var r := Take(sorted, limit);
    assert r == sorted[..|r|];
    PrefixComesFirst(sorted, |r|, NewestFirst);
    forall o | o in r ensures o in orders {
      assert o in multiset(r);
    }
    forall o | o in orders ensures o in sorted {
      assert o in multiset(orders);
    }
    r
  }

  /** Whatever a sorted list has outside a prefix sorts no lower than anything in the prefix. */
  lemma PrefixComesFirst<T>(sorted: seq<T>, m: nat, key: T -> int)
    requires SortedBy(sorted, key) && m <= |sorted|
    ensures multiset(sorted[..m]) <= multiset(sorted)
    ensures forall x, k :: x in sorted && x !in sorted[..m] && 0 <= k < m ==> key(sorted[k]) <= key(x)
  {
    assert sorted == sorted[..m] + sorted[m..];
    forall x, k | x in sorted && x !in sorted[..m] && 0 <= k < m
      ensures key(sorted[k]) <= key(x)
    {
      var j :| 0 <= j < |sorted| && sorted[j] == x;
    }
  }

  /** Every entry of the sorted feed is the ORDER entry of one of the orders it was built from. */
  lemma SortedActivitiesOf(orders: seq<Order>, all: seq<Order>)
    requires forall o :: o in orders ==> o in all
    ensures forall a :: a in SortBy(Activities(orders), Recency) ==>
              a.kind == ORDER_ACTIVITY && a.data in all && a.timestamp == a.data.row.orderDate
  {
    var acts := Activities(orders);
    forall a | a in SortBy(acts, Recency)
      ensures a.kind == ORDER_ACTIVITY && a.data in all && a.timestamp == a.data.row.orderDate
    {
      assert a in multiset(SortBy(acts, Recency));
      var j :| 0 <= j < |acts| && acts[j] == a;
      assert a.data == orders[j];
    }
  }

  /** A bound every order's date meets is met by every entry of any rearrangement of their feed. */
  lemma FeedAboveDropped(orders: seq<Order>, feed: seq<Activity>, all: seq<Order>)
    requires multiset(feed) == multiset(Activities(orders))
    requires forall o, k :: o in all && o !in orders && 0 <= k < |orders| ==> o.row.orderDate <= orders[k].row.orderDate
    ensures forall o, i :: o in all && o !in orders && 0 <= i < |feed| ==> o.row.orderDate <= feed[i].timestamp
  {
    forall o, i | o in all && o !in orders && 0 <= i < |feed|
      ensures o.row.orderDate <= feed[i].timestamp
    {
      assert feed[i] in multiset(feed);
    }
  }

  /** The loop of getRecentActivity: one ORDER entry per order, in order. */
  method OrderActivities(orders: seq<Order>) returns (activities: seq<Activity>)
    ensures activities == Activities(orders)
  {
    activities := [];
    for i := 0 to |orders|
      invariant activities == Activities(orders[..i])
    {
      assert orders[..i + 1][..i] == orders[..i];
      var order := orders[i];
      activities := activities + [Activity(ORDER_ACTIVITY, order.row.orderDate, order)];
    }
    assert orders[..|orders|] == orders;
  }

  /**
   * getRecentActivity: a non-positive limit is refused (the refusal is
   * itself caught by the method's catch-all and rethrown with its generic
   * message); otherwise one ORDER entry per recent order, newest first,
   * at most `limit` of them.
   */
  method GetRecentActivity(limit: int, allOrders: seq<Order>) returns (r: Outcome<seq<Activity>>)
    ensures r.Err? <==> limit <= 0
    ensures r.Err? ==> r.failure == Service(RECENT_ACTIVITY_FAILED)
    ensures r.Ok? ==> |r.value| == if limit < |allOrders| then limit else |allOrders|
    ensures r.Ok? ==> forall i, j :: 0 <= i < j < |r.value| ==> r.value[i].timestamp >= r.value[j].timestamp
    ensures r.Ok? ==> forall a :: a in r.value ==>
              a.kind == ORDER_ACTIVITY && a.data in allOrders && a.timestamp == a.data.row.orderDate
    ensures r.Ok? ==> multiset(r.value) == multiset(Activities(FindRecentOrders(allOrders, limit)))
    ensures r.Ok? ==> forall o, i :: o in allOrders && o !in FindRecentOrders(allOrders, limit) && 0 <= i < |r.value|
                        ==> o.row.orderDate <= r.value[i].timestamp
  {
    if limit <= 0 {
      return Err(Service(RECENT_ACTIVITY_FAILED));
    }
    var recentOrders := FindRecentOrders(allOrders, limit);
    var activities := OrderActivities(recentOrders);
    var sorted := SortBy(activities, Recency);
    SortedActivitiesOf(recentOrders, allOrders);
    FeedAboveDropped(recentOrders, sorted, allOrders);
    var result := Take(sorted, limit);
    assert result == sorted;
    r := Ok(result);
  }
}
