/** Sales analytics (backend/controllers/analytic.controller.js): the overall totals,
    the per-day aggregation of orders in a date range, and the day list that fills the
    days without orders. Timestamps are milliseconds; a day is `DayMs` long and the
    "YYYY-MM-DD" key of an instant is its day number. */
module Analytics {
  import opened Common
  import opened Payment

  /** The UTC day of an instant: the date part of `toISOString()`, and what
      `$dateToString` with format "%Y-%m-%d" groups by. */
  function DayKey(t: int): (r: int)
    ensures r * DayMs <= t < r * DayMs + DayMs
  {
    t / DayMs
  }

  /** Moving an instant by whole days moves its day key by as many days. */
  lemma DayKeyShift(t: int, n: int)
    ensures DayKey(t + n * DayMs) == DayKey(t) + n
  {
    var q, r := t / DayMs, t % DayMs;
    assert t + n * DayMs == (q + n) * DayMs + r;
  }

  /** Later instants never have an earlier day key. */
  lemma DayKeyMonotonic(a: int, b: int)
    requires a <= b
    ensures DayKey(a) <= DayKey(b)
  {
    var qa, ra := a / DayMs, a % DayMs;
    var qb, rb := b / DayMs, b % DayMs;
    assert (qa - qb) * DayMs == (a - b) - (ra - rb);
    assert (qa - qb) * DayMs < DayMs;
  }

  /** The revenue of some orders: their `totalAmount`, summed. */
  function Revenue(orders: seq<Order>): int {
    if orders == [] then 0 else orders[0].totalAmount + Revenue(orders[1..])
  }

  // ---- getAnalytics ----

  datatype Totals = Totals(totalSales: int, totalRevenue: int)

  datatype AnalyticsData = AnalyticsData(users: int, products: int, totalSales: int, totalRevenue: int)

  /** `Order.aggregate` with a single `$group` on `_id: null`: one group over all orders,
      or no group at all when there are no orders. */
  function OverallGroups(orders: seq<Order>): (r: seq<Totals>)
    ensures |r| == 0 <==> orders == []
  {
    if orders == [] then [] else [Totals(|orders|, Revenue(orders))]
  }

  /** `getAnalytics`: the user and product counts (parameters here) with the order totals,
      which default to zero when the aggregation returns no group. */
  function GetAnalytics(userCount: int, productCount: int, orders: seq<Order>): (r: AnalyticsData)
    ensures r.users == userCount && r.products == productCount
    ensures orders == [] ==> r.totalSales == 0 && r.totalRevenue == 0
    ensures r.totalSales == |orders| && r.totalRevenue == Revenue(orders)
  {
    var salesData := OverallGroups(orders);
    var totals := if |salesData| > 0 then salesData[0] else Totals(0, 0);
    AnalyticsData(userCount, productCount, totals.totalSales, totals.totalRevenue)
  }

  /** `getAnalytics` and `getDailySalesData` as written: the module never imports `Order`,
      so both reject before any aggregation runs, whatever the orders are. */
  function AnalyticsAsWritten(orders: seq<Order>): (r: Result<AnalyticsData, string>)
    ensures r.Err?
  {
    Err("Order is not defined")
  }

  // ---- getDatesInRange ----

  /** The number of one-day steps from `startDate` that do not pass `endDate`. */
  function DayCount(startDate: int, endDate: int): nat {
    if startDate > endDate then 0 else (endDate - startDate) / DayMs + 1
  }

  /** `getDatesInRange`: the day keys of `startDate`, `startDate` plus one day, and so on,
      as long as the instant does not pass `endDate`. */
  method GetDatesInRange(startDate: int, endDate: int) returns (dates: seq<int>)
    ensures startDate > endDate ==> dates == []
    ensures |dates| == DayCount(startDate, endDate)
    ensures forall i :: 0 <= i < |dates| ==>
      startDate + i * DayMs <= endDate && dates[i] == DayKey(startDate + i * DayMs)
    ensures forall i :: 0 <= i < |dates| ==> dates[i] == DayKey(startDate) + i
    ensures forall i, j :: 0 <= i < j < |dates| ==> dates[i] < dates[j]
  {
    dates := [];
    var currentDate := startDate;
    while currentDate <= endDate
      invariant currentDate == startDate + |dates| * DayMs
      invariant forall i :: 0 <= i < |dates| ==>
        startDate + i * DayMs <= endDate && dates[i] == DayKey(startDate + i * DayMs)
      invariant forall i :: 0 <= i < |dates| ==> dates[i] == DayKey(startDate) + i
      decreases endDate - currentDate
    {
      DayKeyShift(startDate, |dates|);
      dates := dates + [DayKey(currentDate)];
      currentDate := currentDate + DayMs;
    }
    if startDate <= endDate {
      StepsToEnd(startDate, endDate, |dates|);
    }
  }

  /** `n` one-day steps from `startDate` stay within `endDate` exactly when the step count is `n`. */
  lemma StepsToEnd(startDate: int, endDate: int, n: int)
    requires startDate <= endDate
    requires startDate + (n - 1) * DayMs <= endDate < startDate + n * DayMs
    ensures DayCount(startDate, endDate) == n
  {
    assert (n - 1) * DayMs <= endDate - startDate < n * DayMs;
  }

  // ---- getDailySalesData ----

  datatype DayGroup = DayGroup(id: int, totalSales: int, totalRevenue: int)

  datatype DailySales = DailySales(date: int, sales: int, revenue: int)

  /** `$match`: the orders created within [startDate, endDate], both ends included. */
  function Matched(orders: seq<Order>, startDate: int, endDate: int): (r: seq<Order>)
    ensures forall o :: o in r <==> o in orders && startDate <= o.createdAt <= endDate
  {
    Filter(orders, (o: Order) => startDate <= o.createdAt <= endDate)
  }

  /** The orders created on a given day. */
  function OnDay(orders: seq<Order>, day: int): (r: seq<Order>)
    ensures forall o :: o in r <==> o in orders && DayKey(o.createdAt) == day
  {
    Filter(orders, (o: Order) => DayKey(o.createdAt) == day)
  }

  /** The `$group` record of one day: the number of orders and their revenue. */
  function GroupOf(orders: seq<Order>, day: int): (r: DayGroup)
    ensures r.id == day
  {
    var onDay := OnDay(orders, day);
    DayGroup(day, |onDay|, Revenue(onDay))
  }

  /** The groups of the days `first` to `last` that have orders, in ascending day order. */
  function GroupsFrom(matched: seq<Order>, first: int, last: int): (r: seq<DayGroup>)
    decreases last - first + 1
    ensures forall i :: 0 <= i < |r| ==> first <= r[i].id <= last
    ensures forall i, j :: 0 <= i < j < |r| ==> r[i].id < r[j].id
  {
    if first > last then []
    else
      var rest := GroupsFrom(matched, first + 1, last);
      if OnDay(matched, first) == [] then rest else [GroupOf(matched, first)] + rest
  }

  /** The groups are exactly the days of the span that have orders, each with its own figures. */
  lemma {:induction false} GroupsFromMembers(matched: seq<Order>, first: int, last: int)
    decreases last - first + 1
    ensures forall g :: g in GroupsFrom(matched, first, last) <==>
      first <= g.id <= last && OnDay(matched, g.id) != [] && g == GroupOf(matched, g.id)
  {
    if first <= last {
      GroupsFromMembers(matched, first + 1, last);
      var rest := GroupsFrom(matched, first + 1, last);
      var head := if OnDay(matched, first) == [] then [] else [GroupOf(matched, first)];
      assert GroupsFrom(matched, first, last) == head + rest;
      forall g ensures g in head + rest <==> g in head || g in rest {
      }
    }
  }

  /** The aggregation pipeline of `getDailySalesData`: match on the date range, group by
      day key, sort by key. */
  function DailyGroups(orders: seq<Order>, startDate: int, endDate: int): (r: seq<DayGroup>)
    ensures forall i, j :: 0 <= i < j < |r| ==> r[i].id < r[j].id
    ensures forall g :: g in r <==>
      OnDay(Matched(orders, startDate, endDate), g.id) != [] &&
      g == GroupOf(Matched(orders, startDate, endDate), g.id)
  {
    var matched := Matched(orders, startDate, endDate);
    var r := GroupsFrom(matched, DayKey(startDate), DayKey(endDate));
    GroupsFromMembers(matched, DayKey(startDate), DayKey(endDate));
    MatchedDaysInSpan(orders, startDate, endDate);
    r
  }

  /** Every day that has an order of the range lies between the range's first and last day. */
  lemma MatchedDaysInSpan(orders: seq<Order>, startDate: int, endDate: int)
    ensures forall day :: OnDay(Matched(orders, startDate, endDate), day) != [] ==>
      DayKey(startDate) <= day <= DayKey(endDate)
  {
    var matched := Matched(orders, startDate, endDate);
    forall day | OnDay(matched, day) != []
      ensures DayKey(startDate) <= day <= DayKey(endDate)
    {
      var o := OnDay(matched, day)[0];
      assert o in OnDay(matched, day);
      DayKeyMonotonic(startDate, o.createdAt);
      DayKeyMonotonic(o.createdAt, endDate);
    }
  }

  /** `dailySalesData.find(data => data._id === date)`. */
  function FindGroup(groups: seq<DayGroup>, day: int): (r: Option<DayGroup>)
    ensures r.Some? ==> r.value in groups && r.value.id == day
    ensures r.None? <==> forall g :: g in groups ==> g.id != day
  {
    match FindFirst(groups, (g: DayGroup) => g.id == day)
    case None => None
    case Some(i) => Some(groups[i])
  }

  /** The record of one date: the figures of its group, or zeros when it has none. */
  function DailyRecord(date: int, groups: seq<DayGroup>): (r: DailySales)
    ensures r.date == date
    ensures FindGroup(groups, date).None? ==> r.sales == 0 && r.revenue == 0
    ensures FindGroup(groups, date).Some? ==>
      r.sales == FindGroup(groups, date).value.totalSales && r.revenue == FindGroup(groups, date).value.totalRevenue
  {
    match FindGroup(groups, date)
    case None => DailySales(date, 0, 0)
    case Some(g) => DailySales(date, g.totalSales, g.totalRevenue)
  }

  /** The `map` over the day list: one record per date, in the same order. */
  function FillDays(dates: seq<int>, groups: seq<DayGroup>): (r: seq<DailySales>)
    ensures |r| == |dates|
    ensures forall i :: 0 <= i < |dates| ==> r[i].date == dates[i]
    ensures forall i :: 0 <= i < |dates| ==>
      (FindGroup(groups, dates[i]).None? ==> r[i].sales == 0 && r[i].revenue == 0)
    ensures forall i :: 0 <= i < |dates| ==>
      (FindGroup(groups, dates[i]).Some? ==>
        r[i].sales == FindGroup(groups, dates[i]).value.totalSales &&
        r[i].revenue == FindGroup(groups, dates[i]).value.totalRevenue)
  {
    seq(|dates|, i requires 0 <= i < |dates| => DailyRecord(dates[i], groups))
  }

  /** The `map` as written: it reads `foundData?.sales`, a field the groups do not have
      (they carry `totalSales`), so every day reports zero sales. */
  function FillDaysAsWritten(dates: seq<int>, groups: seq<DayGroup>): (r: seq<DailySales>)
    ensures |r| == |dates|
    ensures forall i :: 0 <= i < |dates| ==>
      r[i].date == dates[i] && r[i].sales == 0 && r[i].revenue == DailyRecord(dates[i], groups).revenue
  {
    seq(|dates|, i requires 0 <= i < |dates| => DailySales(dates[i], 0, DailyRecord(dates[i], groups).revenue))
  }

  /** The orders of the range created on a day. */
  function OrdersOn(orders: seq<Order>, startDate: int, endDate: int, day: int): seq<Order> {
    OnDay(Matched(orders, startDate, endDate), day)
  }

  /** A day's record counts exactly the orders of the range created that day, and their
      revenue; a day without orders gets zeros. */
  lemma DailyRecordExact(orders: seq<Order>, startDate: int, endDate: int, day: int)
    ensures var onDay := OrdersOn(orders, startDate, endDate, day);
      DailyRecord(day, DailyGroups(orders, startDate, endDate)) == DailySales(day, |onDay|, Revenue(onDay))
  {
    var matched := Matched(orders, startDate, endDate);
    var groups := DailyGroups(orders, startDate, endDate);
    if OnDay(matched, day) != [] {
      assert GroupOf(matched, day) in groups;
    }
  }

  /** As written, a day with an order in range still reports zero sales, where the
      corrected record reports one. */
  lemma SalesLostAsWritten(order: Order)
    requires order.createdAt == 0
    ensures var groups := DailyGroups([order], 0, 0);
      FillDays([0], groups)[0].sales == 1 && FillDaysAsWritten([0], groups)[0].sales == 0
  {
    var matched := Matched([order], 0, 0);
    assert order in matched;
    assert matched == [order];
    assert order in OnDay(matched, 0);
    assert OnDay(matched, 0) == [order];
    DailyRecordExact([order], 0, 0, 0);
  }

  /** `getDailySalesData`: one record per day of the range, in order, each with the number
      and revenue of that day's orders in the range. */
  method GetDailySalesData(orders: seq<Order>, startDate: int, endDate: int) returns (records: seq<DailySales>)
    ensures |records| == DayCount(startDate, endDate)
    ensures forall i :: 0 <= i < |records| ==>
      records[i].date == DayKey(startDate) + i &&
      records[i].sales == |OrdersOn(orders, startDate, endDate, records[i].date)| &&
      records[i].revenue == Revenue(OrdersOn(orders, startDate, endDate, records[i].date))
  {
    var dailySalesData := DailyGroups(orders, startDate, endDate);
    var dateArray := GetDatesInRange(startDate, endDate);
    records := FillDays(dateArray, dailySalesData);
    forall i | 0 <= i < |records|
      ensures records[i].sales == |OrdersOn(orders, startDate, endDate, records[i].date)|
      ensures records[i].revenue == Revenue(OrdersOn(orders, startDate, endDate, records[i].date))
    {
      DailyRecordExact(orders, startDate, endDate, dateArray[i]);
    }
  }
}
