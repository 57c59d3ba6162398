/** The two fixed-window monthly series of dashboard-logic.js: sales per
    month with growth, running total and bar colours, and purchase orders
    per month with growth. */
module Series {
  import opened Seqs
  import opened Records
  import opened Metrics

  // ----- growth and colours

  /** `prev || 1` on a display value: a zero month divides by one. */
  function Divisor(prev: real): (d: real)
    ensures d != 0.0
    ensures prev != 0.0 ==> d == prev
  {
    if prev == 0.0 then 1.0 else prev
  }

  /** `((v - prev) / (prev || 1)) * 100`. */
  function GrowthRate(prev: real, v: real): (g: real)
    ensures g * Divisor(prev) == (v - prev) * 100.0
  {
    ((v - prev) / Divisor(prev)) * 100.0
  }

  /** `xs.map((v, i) => i === 0 ? 0 : growth(xs[i - 1], v))`. */
  function Growth(xs: seq<real>): (g: seq<real>)
    ensures |g| == |xs|
    ensures xs != [] ==> g[0] == 0.0
    ensures forall i :: 0 < i < |xs| ==> g[i] * Divisor(xs[i - 1]) == (xs[i] - xs[i - 1]) * 100.0
  {
    seq(|xs|, i requires 0 <= i < |xs| => if i == 0 then 0.0 else GrowthRate(xs[i - 1], xs[i]))
  }

  /** A product with a positive factor has the sign of its other factor. */
  lemma SignOfProduct(g: real, d: real)
    requires d > 0.0
    ensures g * d > 0.0 <==> g > 0.0
    ensures g * d < 0.0 <==> g < 0.0
  {
    if g > 0.0 { assert g * d > 0.0 * d; }
    if g < 0.0 { assert g * d < 0.0 * d; }
  }

  lemma RateFollowsChange(prev: real, v: real)
    requires prev >= 0.0
    ensures GrowthRate(prev, v) > 0.0 <==> v > prev
    ensures GrowthRate(prev, v) < 0.0 <==> v < prev
  {
    var g, d := GrowthRate(prev, v), Divisor(prev);
    assert d > 0.0;
    SignOfProduct(g, d);
  }

  /** After a non-negative month, growth is positive exactly when the value
      rose and negative exactly when it fell. */
  lemma GrowthFollowsChange(xs: seq<real>, i: nat)
    requires 0 < i < |xs| && xs[i - 1] >= 0.0
    ensures Growth(xs)[i] > 0.0 <==> xs[i] > xs[i - 1]
    ensures Growth(xs)[i] < 0.0 <==> xs[i] < xs[i - 1]
  {
    assert Growth(xs)[i] == GrowthRate(xs[i - 1], xs[i]);
    RateFollowsChange(xs[i - 1], xs[i]);
  }

  /** A rise from 1 lakh to 1.5 lakh is 50% growth; a rise from nothing to
      0.5 lakh is also reported as 50 because the divisor becomes 1. */
  lemma GrowthExamples()
    ensures Growth([1.0, 1.5]) == [0.0, 50.0]
    ensures Growth([0.0, 0.5]) == [0.0, 50.0]
  {
    var a, b := Growth([1.0, 1.5]), Growth([0.0, 0.5]);
    assert a[1] * 1.0 == 50.0;
    assert b[1] * 1.0 == 50.0;
  }

  const Green: string := "#4caf50"
  const Red: string := "#f44336"
  const Navy: string := "#1a237e"

  /** `g > 0 ? green : g < 0 ? red : navy`. */
  function BarColor(g: real): (c: string)
    ensures c == Green <==> g > 0.0
    ensures c == Red <==> g < 0.0
    ensures c == Navy <==> g == 0.0
  {
    if g > 0.0 then Green else if g < 0.0 then Red else Navy
  }

  /** After a non-negative month, a bar is green exactly when sales rose and
      red exactly when they fell. */
  lemma ColourTracksChange(xs: seq<real>, i: nat)
    requires 0 < i < |xs| && xs[i - 1] >= 0.0
    ensures BarColor(Growth(xs)[i]) == Green <==> xs[i] > xs[i - 1]
    ensures BarColor(Growth(xs)[i]) == Red <==> xs[i] < xs[i - 1]
  {
    GrowthFollowsChange(xs, i);
  }

  // ----- running total

  /** `xs.reduce((acc, v, i) => cumulative[i] = acc + v, 0)`: the array of
      running totals written one index at a time. */
  method Cumulative(xs: seq<real>) returns (c: seq<real>)
    ensures |c| == |xs|
    ensures forall i :: 0 <= i < |xs| ==> c[i] == RealSum(xs[..i + 1])
  {
    c := [];
    var acc := 0.0;
    var i := 0;
    while i < |xs|
      invariant 0 <= i <= |xs|
      invariant |c| == i
      invariant acc == RealSum(xs[..i])
      invariant forall k :: 0 <= k < i ==> c[k] == RealSum(xs[..k + 1])
    {
      assert xs[..i + 1][..i] == xs[..i];
      acc := acc + xs[i];
      c := c + [acc];
      i := i + 1;
    }
  }

  /** Each running total adds exactly one month to the one before it, so the
      running total never falls while monthly values are non-negative. */
  lemma CumulativeSteps(xs: seq<real>, c: seq<real>, i: nat)
    requires |c| == |xs|
    requires forall k :: 0 <= k < |xs| ==> c[k] == RealSum(xs[..k + 1])
    requires 0 < i < |xs|
    ensures c[i] == c[i - 1] + xs[i]
    ensures xs[i] >= 0.0 ==> c[i] >= c[i - 1]
  {
    assert xs[..i + 1][..i] == xs[..i];
  }

  // ----- monthly sales series

  const SalesMonthKeys: seq<string> := ["2025-10", "2025-11", "2025-12", "2026-01", "2026-02"]
  const SalesLabels: seq<string> := ["October 2025", "November 2025", "December 2025", "January 2026", " February 2026"]

  datatype SalesSeries = SalesSeries(
    labels: seq<string>,
    months: seq<string>,
    sales: seq<real>,
    growth: seq<real>,
    cumulative: seq<real>,
    barColors: seq<string>)

  /** The raw sales total of one month, keyed by `monthKey(s.date)`. */
  function MonthSales(book: seq<Sale>, m: string): int
  {
    SumBy(Filter(book, InMonth(m)), SaleValue)
  }

  /** `prepareMonthlySalesSeries(salesBook)`. */
  method PrepareMonthlySalesSeries(book: seq<Sale>) returns (r: SalesSeries)
    ensures r.labels == SalesLabels && r.months == SalesMonthKeys
    ensures |r.sales| == |r.growth| == |r.cumulative| == |r.barColors| == |SalesMonthKeys|
    ensures forall i :: 0 <= i < |r.sales| ==> r.sales[i] == InLakh(MonthSales(book, SalesMonthKeys[i]))
    ensures r.growth == Growth(r.sales)
    ensures forall i :: 0 <= i < |r.sales| ==> r.cumulative[i] == RealSum(r.sales[..i + 1])
    ensures forall i :: 0 <= i < |r.sales| ==> r.barColors[i] == BarColor(r.growth[i])
  {
    var months := SalesMonthKeys;
    var sales := seq(|months|, i requires 0 <= i < |months| => InLakh(MonthSales(book, months[i])));
    var growth := Growth(sales);
    var cumulative := Cumulative(sales);
    var barColors := seq(|growth|, i requires 0 <= i < |growth| => BarColor(growth[i]));
    r := SalesSeries(SalesLabels, months, sales, growth, cumulative, barColors);
  }

  /** Only dated sales inside the five-month window are charted: a sale whose
      month key is none of the window's months changes no bar. */
  lemma OutOfWindowSaleIsNotCharted(book: seq<Sale>, x: Sale, m: string)
    requires SaleMonth(x) != m
    ensures MonthSales(book + [x], m) == MonthSales(book, m)
  {
    FilterSumSnoc(book, x, InMonth(m), SaleValue);
  }

  /** A sale in month `m` adds its full value to that month. */
  lemma InWindowSaleIsCharted(book: seq<Sale>, x: Sale)
    ensures MonthSales(book + [x], SaleMonth(x)) == MonthSales(book, SaleMonth(x)) + SaleValue(x)
  {
    FilterSumSnoc(book, x, InMonth(SaleMonth(x)), SaleValue);
  }

  // ----- monthly purchase-order series

  const POMonthKeys: seq<string> := ["2025-10", "2025-11", "2025-12"]
  const POLabels: seq<string> := ["October 2025", "November 2025", "December 2025", "January 2026"]

  datatype POSeries = POSeries(
    labels: seq<string>,
    months: seq<string>,
    poCount: seq<nat>,
    poValue: seq<real>,
    growth: seq<real>)

  /** `monthKey(o.date) === m && o.value`. */
  function POInMonth(m: string): Order -> bool
  {
    (o: Order) => MonthKey(o.date) == m && NonZero(o.value)
  }

  function OrderInMonth(m: string): Order -> bool
  {
    (o: Order) => MonthKey(o.date) == m
  }

  /** `prepareMonthlyPOSeries(orderBook)`. */
  function PrepareMonthlyPOSeries(book: seq<Order>): (r: POSeries)
    ensures r.labels == POLabels && r.months == POMonthKeys
    ensures |r.poCount| == |r.poValue| == |r.growth| == |POMonthKeys|
    ensures forall i :: 0 <= i < |POMonthKeys| ==> r.poCount[i] == |Filter(book, POInMonth(POMonthKeys[i]))| <= |book|
    ensures forall i :: 0 <= i < |POMonthKeys| ==> r.poValue[i] == InLakh(SumBy(Filter(book, OrderInMonth(POMonthKeys[i])), OrderValue))
    ensures r.growth == Growth(r.poValue)
  {
    var months := POMonthKeys;
    var poCount := seq(|months|, i requires 0 <= i < |months| => |Filter(book, POInMonth(months[i]))|);
    var poValue := seq(|months|, i requires 0 <= i < |months| => InLakh(SumBy(Filter(book, POInMonth(months[i])), OrderValue)));
    forall i | 0 <= i < |months|
      ensures poValue[i] == InLakh(SumBy(Filter(book, OrderInMonth(months[i])), OrderValue))
    {
      SumByDropsZeros(book, OrderInMonth(months[i]), POInMonth(months[i]), OrderValue);
    }
    POSeries(POLabels, months, poCount, poValue, Growth(poValue))
  }

  /** The chart is handed one more label than it has months. */
  lemma POLabelsOutnumberMonths(book: seq<Order>)
    ensures |PrepareMonthlyPOSeries(book).labels| == |PrepareMonthlyPOSeries(book).months| + 1
  {
  }
}
