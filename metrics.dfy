/** The headline figures of dashboard-logic.js: the financial overview,
    the pending-dispatch total, the KPI bundle and the completion bar data.
    Each sums raw integer units and divides by a lakh once, at the end. */
module Metrics {
  import opened Seqs
  import opened Records

  // ----- financial overview

  datatype FinancialOverview = FinancialOverview(totalInvoiceNumber: nat, outstandingAmountInLakh: real)

  /** The reference day callers use when they pass none. */
  const DefaultToday: string := "2025-12-20"

  /** The sales whose due date is on or before `today`, inclusive. */
  function DueBy(today: string): Sale -> bool
  {
    (x: Sale) => OnOrBefore(x.dueDate, today)
  }

  /** The raw outstanding amount: every due line counted in full. */
  function OutstandingRaw(sales: seq<Sale>, today: string): int
  {
    SumBy(Filter(sales, DueBy(today)), SaleValue)
  }

  /** `calculateFinancialOverview(salesBook, todayStr)`. */
  method CalculateFinancialOverview(sales: seq<Sale>, today: string) returns (r: FinancialOverview)
    ensures r.totalInvoiceNumber == |Distinct(sales, InvoiceNo)| <= |sales|
    ensures r.outstandingAmountInLakh == InLakh(OutstandingRaw(sales, today))
  {
    var uniqueInvoices := |Distinct(sales, InvoiceNo)|;
    var outstanding := 0;
    var i := 0;
    while i < |sales|
      invariant 0 <= i <= |sales|
      invariant outstanding == SumBy(Filter(sales[..i], DueBy(today)), SaleValue)
    {
      var inv := sales[i];
      if OnOrBefore(inv.dueDate, today) {
        outstanding := outstanding + Num(inv.value);
      }
      FilterSumSnoc(sales[..i], inv, DueBy(today), SaleValue);
      assert sales[..i + 1] == sales[..i] + [inv];
      i := i + 1;
    }
    assert sales[..i] == sales;
    r := FinancialOverview(uniqueInvoices, InLakh(outstanding));
  }

  /** The invoice count collapses repeated invoice numbers: two lines of one
      invoice count once. */
  lemma InvoiceCountCollapsesDuplicates(a: Sale, b: Sale)
    requires a.invoiceNo == b.invoiceNo
    ensures |Distinct([a, b], InvoiceNo)| == 1
  {
    assert Distinct([a, b], InvoiceNo) == {a.invoiceNo};
  }

  /** With non-negative values the outstanding amount is at most the value of
      the whole ledger. */
  lemma OutstandingAtMostLedger(sales: seq<Sale>, today: string)
    requires forall x :: x in sales ==> SaleValue(x) >= 0
    ensures 0 <= OutstandingRaw(sales, today) <= SumBy(sales, SaleValue)
  {
    SumByFilterAtMost(sales, DueBy(today), SaleValue);
  }

  // ----- pending dispatch

  /** Counted as pending: status exactly "incomplete" (any case) and a
      non-zero value. */
  predicate IsPendingValue(o: Order)
  {
    IsIncomplete(o) && NonZero(o.value)
  }

  function PendingRaw(orders: seq<Order>): int
  {
    SumBy(Filter(orders, IsPendingValue), OrderValue)
  }

  /** `calculatePendingDispatch(orderBook)`. */
  method CalculatePendingDispatch(orders: seq<Order>) returns (lakh: real)
    ensures lakh == InLakh(PendingRaw(orders))
  {
    var totalRemaining := 0;
    for i := 0 to |orders|
      invariant totalRemaining == SumBy(Filter(orders[..i], IsPendingValue), OrderValue)
    {
      var o := orders[i];
      if StatusIs(o.status, "incomplete") && NonZero(o.value) {
        totalRemaining := totalRemaining + o.value.value;
      }
      FilterSumSnoc(orders[..i], o, IsPendingValue, OrderValue);
      assert orders[..i + 1] == orders[..i] + [o];
    }
    assert orders[..|orders|] == orders;
    lakh := InLakh(totalRemaining);
  }

  function OrderWith(status: string, value: int): Order
  {
    Order(None, None, None, None, None, None, Some(status), None, None, Some(value), None)
  }

  /** An "Incomplete" order worth 500000 contributes 5 lakh; a "cancelled"
      one contributes nothing. */
  lemma PendingDispatchExample()
    ensures InLakh(PendingRaw([OrderWith("Incomplete", 500000), OrderWith("cancelled", 900000)])) == 5.0
  {
    var a, b := OrderWith("Incomplete", 500000), OrderWith("cancelled", 900000);
    IncompleteIgnoresCase();
    OtherStatusesAreNeither();
    assert IsPendingValue(a) && !IsPendingValue(b);
    assert Filter([b], IsPendingValue) == [];
    assert Filter([a, b], IsPendingValue) == [a];
    assert SumBy([a], OrderValue) == 500000;
  }

  // ----- KPI bundle

  datatype Kpis = Kpis(
    ytdSales: real,
    avgMonthlySale: real,
    uniquePOs: nat,
    currentMonthSales: real,
    totalSKU: nat,
    completionRate: real,
    totalPOValue: real,
    completeValue: real)

  /** `{ ...x, date: x.date ? x.date.slice(0, 10) : "" }`. */
  function NormalizeSale(x: Sale): Sale
  {
    x.(date := Some(if Truthy(x.date) then Prefix(x.date.value, 10) else ""))
  }

  /** `salesBook.map(...)` with the date normalisation above. */
  function NormalizeSales(sales: seq<Sale>): (ns: seq<Sale>)
    ensures |ns| == |sales|
    ensures forall i :: 0 <= i < |sales| ==> ns[i] == NormalizeSale(sales[i])
  {
    if sales == [] then [] else [NormalizeSale(sales[0])] + NormalizeSales(sales[1..])
  }

  /** Cutting a date to ten characters keeps its month key and its value. */
  lemma NormalizeKeepsMonth(x: Sale)
    ensures MonthKey(NormalizeSale(x).date) == MonthKey(x.date)
    ensures SaleValue(NormalizeSale(x)) == SaleValue(x)
  {
    if Truthy(x.date) {
      var d := x.date.value;
      assert Prefix(Prefix(d, 10), 7) == Prefix(d, 7);
    }
  }

  function SaleMonth(x: Sale): string
  {
    MonthKey(x.date)
  }

  function HasMonth(x: Sale): bool
  {
    SaleMonth(x) != ""
  }

  function InMonth(m: string): Sale -> bool
  {
    (x: Sale) => SaleMonth(x) == m
  }

  /** `now.toISOString().slice(0, 7)` for the injected instant. */
  function CurrentMonth(nowIso: string): string
  {
    Prefix(nowIso, 7)
  }

  /** `totalPOValue ? completeValue / totalPOValue * 100 : 0`. */
  function CompletionRate(complete: int, total: int): real
  {
    if total != 0 then (complete as real / total as real) * 100.0 else 0.0
  }

  /** `total / (months || 1)`: with no dated sale the average is the total. */
  function PerMonth(total: real, months: nat): (r: real)
    ensures r * (if months == 0 then 1 else months) as real == total
  {
    total / (if months == 0 then 1 else months) as real
  }

  /** The distinct non-empty month keys of the (normalised) sales. */
  function SalesMonths(sales: seq<Sale>): set<string>
  {
    Distinct(Filter(NormalizeSales(sales), HasMonth), SaleMonth)
  }

  /** `calculateKPIs(orderBook, salesBook)` with the clock read passed in
      as the ISO string `nowIso`. */
  function CalculateKPIs(orders: seq<Order>, sales: seq<Sale>, nowIso: string): (r: Kpis)
    ensures r.ytdSales == InLakh(SumBy(sales, SaleValue))
    ensures r.avgMonthlySale == PerMonth(r.ytdSales, |SalesMonths(sales)|)
    ensures |SalesMonths(sales)| <= |sales|
    ensures r.uniquePOs == |Distinct(orders, PoNumber)|
    ensures r.uniquePOs <= |orders| && (orders != [] ==> r.uniquePOs >= 1)
    ensures r.totalSKU == |Distinct(orders, JobName)|
    ensures r.totalSKU <= |orders| && (orders != [] ==> r.totalSKU >= 1)
    ensures r.currentMonthSales == InLakh(SumBy(Filter(sales, InMonth(CurrentMonth(nowIso))), SaleValue))
    ensures r.totalPOValue == InLakh(SumBy(orders, OrderValue))
    ensures r.completeValue == InLakh(SumBy(Filter(orders, IsComplete), OrderValue))
    ensures r.completionRate == CompletionRate(SumBy(Filter(orders, IsComplete), OrderValue), SumBy(orders, OrderValue))
  {
    var ns := NormalizeSales(sales);
    var ytdSales := InLakh(SumBy(ns, SaleValue));
    var months := SalesMonths(sales);
    var avgMonthlySale := PerMonth(ytdSales, |months|);
    var currentMonth := CurrentMonth(nowIso);
    var currentMonthSales := InLakh(SumBy(Filter(ns, InMonth(currentMonth)), SaleValue));
    var totalPOValue := SumBy(orders, OrderValue);
    var completeValue := SumBy(Filter(orders, IsComplete), OrderValue);
    NormalizePreservesSums(sales, currentMonth);
    Kpis(
      ytdSales,
      avgMonthlySale,
      |Distinct(orders, PoNumber)|,
      currentMonthSales,
      |Distinct(orders, JobName)|,
      CompletionRate(completeValue, totalPOValue),
      InLakh(totalPOValue),
      InLakh(completeValue))
  }

  lemma {:induction false} NormalizePreservesSums(sales: seq<Sale>, m: string)
    ensures SumBy(NormalizeSales(sales), SaleValue) == SumBy(sales, SaleValue)
    ensures SumBy(Filter(NormalizeSales(sales), InMonth(m)), SaleValue) == SumBy(Filter(sales, InMonth(m)), SaleValue)
  {
    if sales != [] {
      NormalizePreservesSums(sales[1..], m);
      NormalizeKeepsMonth(sales[0]);
    }
  }

  /** With non-negative order values the completion rate is a percentage:
      the "complete" records are a subset of all records. */
  lemma CompletionRateIsPercentage(orders: seq<Order>, sales: seq<Sale>, nowIso: string)
    requires forall o :: o in orders ==> OrderValue(o) >= 0
    ensures 0.0 <= CalculateKPIs(orders, sales, nowIso).completionRate <= 100.0
  {
    var c, t := SumBy(Filter(orders, IsComplete), OrderValue), SumBy(orders, OrderValue);
    SumByFilterAtMost(orders, IsComplete, OrderValue);
    if t != 0 {
      assert 0 <= c <= t && t > 0;
      var q := c as real / t as real;
      assert q * t as real == c as real;
      assert 0.0 <= q <= 1.0;
    }
  }

  /** With non-negative sale values the current month is part of the year to
      date. */
  lemma CurrentMonthWithinYtd(orders: seq<Order>, sales: seq<Sale>, nowIso: string)
    requires forall x :: x in sales ==> SaleValue(x) >= 0
    ensures 0.0 <= CalculateKPIs(orders, sales, nowIso).currentMonthSales <= CalculateKPIs(orders, sales, nowIso).ytdSales
  {
    SumByFilterAtMost(sales, InMonth(CurrentMonth(nowIso)), SaleValue);
  }

  /** Undated sales count towards the year to date but towards no month, so
      they do not lower the divisor of the monthly average. */
  lemma UndatedSalesAddNoMonth(sales: seq<Sale>, x: Sale)
    requires !Truthy(x.date)
    ensures SalesMonths(sales + [x]) == SalesMonths(sales)
  {
    var ns := NormalizeSales(sales);
    assert NormalizeSales(sales + [x]) == ns + [NormalizeSale(x)];
    NormalizeKeepsMonth(x);
    FilterAppend(ns, [NormalizeSale(x)], HasMonth);
    assert Filter([NormalizeSale(x)], HasMonth) == [];
    assert Filter(ns, HasMonth) + [] == Filter(ns, HasMonth);
  }

  // ----- completion bar data

  datatype CompletionChart = CompletionChart(labels: seq<string>, values: seq<real>)

  /** `prepareCompletionChartData(kpi, pendingDispatchInLakh)`. */
  function PrepareCompletionChartData(kpi: Kpis, pendingInLakh: real): (c: CompletionChart)
    ensures |c.labels| == |c.values| == 3
    ensures c.values[0] == kpi.totalPOValue && c.values[1] == kpi.completeValue && c.values[2] == pendingInLakh
  {
    CompletionChart(["Total PO Value", "Complete Value", "Pending Value"],
      [kpi.totalPOValue, kpi.completeValue, pendingInLakh])
  }

  /** With non-negative values the complete and pending bars together never
      exceed the total bar: no order is both "complete" and "incomplete". */
  lemma CompletionChartBarsFit(orders: seq<Order>, sales: seq<Sale>, nowIso: string)
    requires forall o :: o in orders ==> OrderValue(o) >= 0
    ensures var c := PrepareCompletionChartData(CalculateKPIs(orders, sales, nowIso), InLakh(PendingRaw(orders)));
      0.0 <= c.values[1] && 0.0 <= c.values[2] && c.values[1] + c.values[2] <= c.values[0]
  {
    forall o | o in orders ensures !(IsComplete(o) && IsPendingValue(o)) {
      StatusesExclusive(o);
    }
    SumByDisjoint(orders, IsComplete, IsPendingValue, OrderValue);
    SumByFilterAtMost(orders, IsComplete, OrderValue);
    SumByFilterAtMost(orders, IsPendingValue, OrderValue);
  }
}
